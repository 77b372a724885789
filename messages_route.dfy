/**
 * The `GET` handler of `app/api/database/init/route.ts`: it picks the
 * domain's chat-history table and maps the rows of that table to the
 * messages the client reads. The SQL query itself is outside the model; its
 * rows (or its failure) are a parameter.
 */
module MessagesRoute {
  import opened Js
  import opened ChatTypes

  const GeneralTable := "general_chat_histories"
  const ZesaTable := "zesa_chat_histories"
  const PrazTable := "praz_chat_histories"

  /** The `message` JSON column: `{ type, content }`. */
  datatype DbMessage = DbMessage(msgType: string, content: string)

  /**
   * One row of a chat-history table. `createdAt` may be null; a null
   * `message` makes the mapping throw.
   */
  datatype DbRow = DbRow(id: int, createdAt: Option<string>, message: Option<DbMessage>)

  /** One element of the response's `messages` array. */
  datatype RouteMessage = RouteMessage(
    id: string, uuid: string, createdAt: string, role: string, roleType: Sender,
    content: string, tokenCount: int, processed: bool)

  datatype Response =
    | Failure(status: int, error: string)
    | Messages(messages: seq<RouteMessage>, totalCount: int, rowCount: int)

  /** `searchParams.get('domain') || 'default'` */
  function DomainOf(param: Option<string>): (d: string)
    ensures param.Some? && param.value != "" ==> d == param.value
    ensures param.None? || param.value == "" ==> d == "default"
  {
    if param.Some? && param.value != "" then param.value else "default"
  }

  /** The table a domain's messages are read from. */
  function TableName(domain: string): (t: string)
    ensures t == ZesaTable <==> domain == "zesa"
    ensures t == PrazTable <==> domain == "praz"
    ensures t == GeneralTable <==> domain != "zesa" && domain != "praz"
  {
    if domain == "zesa" then ZesaTable
    else if domain == "praz" then PrazTable
    else GeneralTable
  }

  /** `type === 'human' || type === 'user' ? 'user' : 'assistant'` */
  function RoleOf(msgType: string): (s: Sender)
    ensures s == User <==> msgType == "human" || msgType == "user"
  {
    if msgType == "human" || msgType == "user" then User else Assistant
  }

  function RoleName(s: Sender): (name: string)
    ensures name == "user" <==> s == User
  {
    match s
    case User => "user"
    case Assistant => "assistant"
  }

  /** The row-to-message mapping; `nowIso` stands for `new Date().toISOString()`. */
  function MapRow(row: DbRow, nowIso: string): (m: RouteMessage)
    requires row.message.Some?
    ensures m.id == m.uuid == IntToString(row.id)
    ensures m.role == RoleName(m.roleType) && m.roleType == RoleOf(row.message.value.msgType)
    ensures m.content == row.message.value.content
    ensures m.createdAt == if row.createdAt.Some? && row.createdAt.value != "" then row.createdAt.value else nowIso
    ensures m.tokenCount == 0 && m.processed
  {
    var msg := row.message.value;
    var sender := RoleOf(msg.msgType);
    RouteMessage(
      IntToString(row.id), IntToString(row.id),
      if row.createdAt.Some? && row.createdAt.value != "" then row.createdAt.value else nowIso,
      RoleName(sender), sender, msg.content, 0, true)
  }

  /** `dbMessages.map(...)`, which throws on a row whose `message` is null. */
  function MapRows(rows: seq<DbRow>, nowIso: string): (r: Option<seq<RouteMessage>>)
    ensures r.Some? <==> forall i :: 0 <= i < |rows| ==> rows[i].message.Some?
    ensures r.Some? ==> |r.value| == |rows|
    ensures r.Some? ==> forall i :: 0 <= i < |rows| ==> r.value[i] == MapRow(rows[i], nowIso)
  {
    if rows == [] then Some([])
    else
      var rest := MapRows(rows[1..], nowIso);
      if rows[0].message.None? then None
      else if rest.None? then None
      else Some([MapRow(rows[0], nowIso)] + rest.value)
  }

  /**
   * `GET`: `rows` is what the query of `TableName(DomainOf(domainParam))`
   * returned, or `None` when it threw.
   */
  function Get(sessionId: string, domainParam: Option<string>, rows: Option<seq<DbRow>>, nowIso: string): (r: Response)
    ensures sessionId == "" ==> r == Failure(400, "Session ID is required")
    ensures sessionId != "" ==> r.Messages?
    ensures r.Messages? ==> r.totalCount == r.rowCount == |r.messages|
    ensures sessionId != "" && (rows.None? || MapRows(rows.value, nowIso).None?) ==> r == Messages([], 0, 0)
    ensures sessionId != "" && rows.Some? && MapRows(rows.value, nowIso).Some? ==>
      r.messages == MapRows(rows.value, nowIso).value && |r.messages| == |rows.value|
  {
    if sessionId == "" then Failure(400, "Session ID is required")
    else if rows.None? then Messages([], 0, 0)
    else
      var mapped := MapRows(rows.value, nowIso);
      if mapped.None? then Messages([], 0, 0)
      else Messages(mapped.value, |mapped.value|, |mapped.value|)
  }

  /** The fields of a response message that the client's `AppMessage` keeps. */
  function ToAppMessage(m: RouteMessage): AppMessage
  {
    AppMessage(m.id, m.createdAt, m.role, m.roleType, m.content)
  }

  /** The `id` of every mapped message reads back, with `parseInt`, as the row's id. */
  lemma MappedIdReadsBack(row: DbRow, nowIso: string)
    requires row.message.Some?
    ensures ParseInt(MapRow(row, nowIso).id) == Num(row.id)
  {
    ParseIntOfIntToString(row.id);
  }
}
