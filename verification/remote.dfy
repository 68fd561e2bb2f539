/**
 * The platform's Web API as the dispatcher sees it: the calls it issues, the
 * two client handles it issues them on, and what a call can come back with.
 * The platform itself is an oracle: a function from call to reply.
 */
module Remote {
  import opened Wrappers
  import opened JsonValue

  /** The handle built from the bot token, and the one built from the user token. */
  datatype Client = BotClient | UserClient

  datatype Call =
    | ConversationsList(limit: int, cursor: Option<string>, types: string)
    | ChatPostMessage(channel: string, threadTs: Option<string>, text: string)
    | ReactionsAdd(channel: string, timestamp: string, name: string)
    | ConversationsHistory(channel: string, limit: int, cursor: Option<string>)
    | ConversationsReplies(channel: string, ts: string, limit: int, cursor: Option<string>)
    | UsersList(limit: int, cursor: Option<string>)
    | UsersProfileGet(user: string)
    | SearchMessagesCall(query: string, highlight: bool, sort: string, sortDir: string, count: int, page: int)

  datatype RemoteCall = RemoteCall(client: Client, call: Call)

  /**
   * A call either resolves to a reply object (which carries `ok`, `error` and
   * the payload side by side) or throws: an `Error` with its message, or a
   * thrown value that is not an `Error` (`None`).
   */
  datatype Reply = Returned(body: map<string, Json>) | Threw(message: Option<string>)

  type Platform = RemoteCall -> Reply

  /** `response.ok` is truthy. */
  predicate Succeeded(body: map<string, Json>) {
    Truthy(Get(body, "ok"))
  }
}
