/** What travels over a WebSocket between the relay and an agent. */
module Wire {
  import opened Base

  /** A JSON value; nothing here looks inside one. */
  type Json = string

  /** A correlation id (`randomUUID()`). */
  type ReqId = nat

  /** One accepted WebSocket. */
  type LinkId = nat

  datatype ToolDef = ToolDef(
    name: string,
    description: Option<string>,
    inputSchema: Json,
    annotations: Option<Json>)

  datatype WsMessage =
    | ToolsMsg(tools: seq<ToolDef>)
    | RequestMsg(id: ReqId, methodName: string, params: Json)
    | ResponseMsg(id: ReqId, result: Json)
    | ErrorMsg(id: ReqId, message: string)
    | RestartMsg
}
