/** The calls the relay has sent to agents and not yet settled, as a value. */
module Calls {
  import opened Wire

  type TimerId = nat

  /** A timeout the runtime still has to run, for the call `id`. */
  datatype Timer = Timer(due: int, id: ReqId)

  datatype Outcome = Resolved(result: Json) | Rejected(message: string) | TimedOut

  /** One call of a promise's `resolve` or `reject`. */
  datatype Settlement = Settlement(id: ReqId, outcome: Outcome)

  /** `settled` lists every call of `resolve` or `reject` ever made, in order; `issued` the ids ever
      handed out. Neither is state of the program: they record what it has done. */
  datatype Book = Book(
    pending: map<ReqId, TimerId>,
    timers: map<TimerId, Timer>,
    nextTimer: TimerId,
    settled: seq<Settlement>,
    issued: set<ReqId>)

  const NO_CALLS := Book(map[], map[], 0, [], {})

  const REQUEST_TIMEOUT_MS := 120_000

  function Issue(b: Book, id: ReqId, now: int): Book {
    b.(pending := b.pending[id := b.nextTimer],
       timers := b.timers[b.nextTimer := Timer(now + REQUEST_TIMEOUT_MS, id)],
       nextTimer := b.nextTimer + 1,
       issued := b.issued + {id})
  }

  predicate IsReply(msg: WsMessage) {
    msg.ResponseMsg? || msg.ErrorMsg?
  }

  function OutcomeOf(msg: WsMessage): Outcome
    requires IsReply(msg)
  {
    if msg.ResponseMsg? then Resolved(msg.result) else Rejected(msg.message)
  }

  /** `pending.get(id)`, `pending.delete(id)`, `clearTimeout`, then `resolve` or `reject`. */
  function Reply(b: Book, id: ReqId, outcome: Outcome): Book {
    if id !in b.pending then b
    else b.(pending := b.pending - {id},
            timers := b.timers - {b.pending[id]},
            settled := b.settled + [Settlement(id, outcome)])
  }

  /** The part of `handleMessage` that concerns pending calls. */
  function ReceiveMessage(b: Book, msg: WsMessage): Book {
    if IsReply(msg) then Reply(b, msg.id, OutcomeOf(msg)) else b
  }

  /** The runtime runs the timeout `t`. */
  function TimeOut(b: Book, t: TimerId): Book
    requires t in b.timers
  {
    var id := b.timers[t].id;
    b.(pending := b.pending - {id},
       timers := b.timers - {t},
       settled := b.settled + [Settlement(id, TimedOut)])
  }

  function SettledIds(settled: seq<Settlement>): set<ReqId> {
    set s | s in settled :: s.id
  }

  /** Pending calls and live timers correspond one to one. */
  ghost predicate TimersMatch(b: Book) {
    && (forall id :: id in b.pending ==> b.pending[id] in b.timers && b.timers[b.pending[id]].id == id)
    && (forall t :: t in b.timers ==> b.timers[t].id in b.pending && b.pending[b.timers[t].id] == t)
    && (forall t :: t in b.timers ==> t < b.nextTimer)
  }

  /** Every issued call is either pending or settled, never both, and settled at most once. */
  ghost predicate SettledOnce(b: Book) {
    && b.issued == b.pending.Keys + SettledIds(b.settled)
    && b.pending.Keys !! SettledIds(b.settled)
    && (forall i, j :: 0 <= i < j < |b.settled| ==> b.settled[i].id != b.settled[j].id)
  }

  ghost predicate Ok(b: Book) {
    TimersMatch(b) && SettledOnce(b)
  }

  lemma SettledIdsSnoc(settled: seq<Settlement>, s: Settlement)
    ensures SettledIds(settled + [s]) == SettledIds(settled) + {s.id}
  {
    assert forall x :: x in settled + [s] <==> x in settled || x == s;
    forall id ensures id in SettledIds(settled + [s]) <==> id in SettledIds(settled) + {s.id} {
      if id in SettledIds(settled) {
        var x :| x in settled && x.id == id;
        assert x in settled + [s];
      }
      if id == s.id { assert s in settled + [s]; }
    }
  }

  lemma IssueKeepsOk(b: Book, id: ReqId, now: int)
    requires Ok(b) && id !in b.issued
    ensures Ok(Issue(b, id, now))
  {
    assert b.nextTimer !in b.timers;
    assert id !in b.pending;
  }

  lemma SettleKeepsOk(b: Book, id: ReqId, outcome: Outcome)
    requires Ok(b) && id in b.pending
    ensures Ok(Reply(b, id, outcome))
  {
    SettledIdsSnoc(b.settled, Settlement(id, outcome));
    var b' := Reply(b, id, outcome);
    assert TimersMatch(b');
    forall i, j | 0 <= i < j < |b'.settled| ensures b'.settled[i].id != b'.settled[j].id {
      if j == |b.settled| { assert b.settled[i] in b.settled && b.settled[i].id in SettledIds(b.settled); }
    }
  }

  /** A timeout settles exactly the call it was armed for, as a reply would. */
  lemma TimeOutIsReply(b: Book, t: TimerId)
    requires TimersMatch(b) && t in b.timers
    ensures b.timers[t].id in b.pending
    ensures TimeOut(b, t) == Reply(b, b.timers[t].id, TimedOut)
  {
  }

  lemma TimeOutKeepsOk(b: Book, t: TimerId)
    requires Ok(b) && t in b.timers
    ensures Ok(TimeOut(b, t))
  {
    TimeOutIsReply(b, t);
    SettleKeepsOk(b, b.timers[t].id, TimedOut);
  }

  lemma ReceiveMessageKeepsOk(b: Book, msg: WsMessage)
    requires Ok(b)
    ensures Ok(ReceiveMessage(b, msg))
  {
    if IsReply(msg) && msg.id in b.pending { SettleKeepsOk(b, msg.id, OutcomeOf(msg)); }
  }

  /** A second or late reply to a call changes nothing, and so does a reply to an id never issued. */
  lemma LateReplyIgnored(b: Book, msg: WsMessage)
    requires Ok(b) && IsReply(msg)
    ensures ReceiveMessage(b, msg) == b <==> msg.id in SettledIds(b.settled) || msg.id !in b.issued
  {
    if msg.id in b.pending {
      assert |ReceiveMessage(b, msg).settled| == |b.settled| + 1;
    }
  }
}
