/**
 * The call handler: the params check, the switch on the tool name, argument
 * validation, the platform call(s), the `ok` check, response sanitizing, and
 * the single catch that turns every failure into a plain error message.
 */
module Dispatcher {
  import opened Wrappers
  import opened JsonValue
  import opened Tools
  import opened Requests
  import opened Sanitizer
  import opened Responses
  import opened Remote
  import opened Search
  import opened Batch

  /** `request.params`: the tool name and its raw `arguments`, which may be absent. */
  datatype CallParams = CallParams(name: string, arguments: Option<Json>)

  /** The one text content item of a result: a fixed acknowledgement, or a serialized parsed reply. */
  datatype Content = Text(text: string) | Serialized(value: Json)

  /** Why a call failed, before the catch flattens it to a message. */
  datatype ToolError =
    | MissingParams
    | UnknownTool(name: string)
    | InvalidArguments(issues: seq<Issue>)
    | InvalidResponse
    | UpstreamFailed(prefix: string, detail: Option<Json>)
    | ClientThrew(message: Option<string>)

  /** The platform calls issued, in order, and what the handler returned or threw. */
  datatype Outcome = Outcome(calls: seq<RemoteCall>, result: Result<Content, ToolError>)

  /** The text a single-call tool's error starts with when the reply is not ok. */
  function FailurePrefix(t: Tool): (p: string)
    requires t != GetUserProfiles
    ensures "Failed to " <= p
  {
    match t
    case ListChannels => "Failed to list channels"
    case PostMessage => "Failed to post message"
    case ReplyToThread => "Failed to reply to thread"
    case AddReaction => "Failed to add reaction"
    case GetChannelHistory => "Failed to get channel history"
    case GetThreadReplies => "Failed to get thread replies"
    case GetUsers => "Failed to get users"
    case GetUserProfile => "Failed to get user profile"
    case SearchMessages => "Failed to search messages"
  }

  /** The fixed text a write tool answers with; its reply's payload is never read. */
  function Acknowledgement(t: Tool): (text: string)
    requires t in {PostMessage, ReplyToThread, AddReaction}
    ensures |text| > 12 && text[|text| - 12..] == "successfully"
  {
    match t
    case PostMessage => "Message posted successfully"
    case ReplyToThread => "Reply sent to thread successfully"
    case AddReaction => "Reaction added successfully"
  }

  /** The one platform call a tool other than the batch issues, and the client it goes through. */
  function SingleCall(a: ToolArgs): (c: RemoteCall)
    requires !a.UserProfilesRequest?
    ensures c.client == UserClient <==> a.SearchRequest?
  {
    match a
    case ListChannelsRequest(x) => RemoteCall(BotClient, ConversationsList(x.limit, x.cursor, "public_channel"))
    case PostMessageRequest(x) => RemoteCall(BotClient, ChatPostMessage(x.channelId, None, x.text))
    case ReplyToThreadRequest(x) => RemoteCall(BotClient, ChatPostMessage(x.channelId, Some(x.threadTs), x.text))
    case AddReactionRequest(x) => RemoteCall(BotClient, ReactionsAdd(x.channelId, x.timestamp, x.reaction))
    case ChannelHistoryRequest(x) => RemoteCall(BotClient, ConversationsHistory(x.channelId, x.limit, x.cursor))
    case ThreadRepliesRequest(x) => RemoteCall(BotClient, ConversationsReplies(x.channelId, x.threadTs, x.limit, x.cursor))
    case GetUsersRequest(x) => RemoteCall(BotClient, UsersList(x.limit, x.cursor))
    case UserProfileRequest(x) => RemoteCall(BotClient, UsersProfileGet(x.userId))
    case SearchRequest(x) => SearchCall(x)
  }

  /** What a single-call tool makes of its reply. */
  function Conclude(t: Tool, reply: Reply, formats: Formats): (r: Result<Content, ToolError>)
    requires t != GetUserProfiles
    ensures reply.Threw? ==> r == Failure(ClientThrew(reply.message))
    ensures reply.Returned? && !Succeeded(reply.body) ==> r == Failure(UpstreamFailed(FailurePrefix(t), Get(reply.body, "error")))
    ensures r.Success? <==> reply.Returned? && Succeeded(reply.body)
                            && (ReplySchema(t).None? || Sanitize(formats, ReplySchema(t).value, JObj(reply.body)).Some?)
  {
    match reply
    case Threw(message) => Failure(ClientThrew(message))
    case Returned(body) =>
      if !Succeeded(body) then Failure(UpstreamFailed(FailurePrefix(t), Get(body, "error")))
      else
        match ReplySchema(t)
        case None => Success(Text(Acknowledgement(t)))
        case Some(schema) =>
          match Sanitize(formats, schema, JObj(body))
          case None => Failure(InvalidResponse)
          case Some(v) => Success(Serialized(v))
  }

  /** Runs a validated request against the platform. */
  function Run(a: ToolArgs, platform: Platform, formats: Formats): (o: Outcome)
    ensures a.UserProfilesRequest? ==> o.calls == ProfileCalls(a.userProfiles.userIds)
    ensures !a.UserProfilesRequest? ==> o.calls == [SingleCall(a)]
    ensures o.result.Failure? ==> o.result.error.InvalidResponse? || o.result.error.UpstreamFailed? || o.result.error.ClientThrew?
  {
    match a
    case UserProfilesRequest(x) =>
      var result :=
        match BatchResult(formats, x.userIds, platform)
        case None => Failure(InvalidResponse)
        case Some(v) => Success(Serialized(v));
      Outcome(ProfileCalls(x.userIds), result)
    case _ =>
      var c := SingleCall(a);
      Outcome([c], Conclude(ToolOf(a), platform(c), formats))
  }

  /** The call handler, up to the catch. */
  function CallTool(params: Option<CallParams>, platform: Platform, formats: Formats): (o: Outcome)
    ensures params.None? ==> o == Outcome([], Failure(MissingParams))
    ensures params.Some? && ToolNamed(params.value.name).None? ==> o == Outcome([], Failure(UnknownTool(params.value.name)))
    ensures (o.result.Failure? && o.result.error.InvalidArguments?)
        <==> params.Some? && ToolNamed(params.value.name).Some?
             && ParseArgs(ToolNamed(params.value.name).value, params.value.arguments).Invalid?
    ensures o.calls != [] ==> params.Some? && ToolNamed(params.value.name).Some?
                              && ParseArgs(ToolNamed(params.value.name).value, params.value.arguments).Valid?
  {
    if params.None? then Outcome([], Failure(MissingParams))
    else
      match ToolNamed(params.value.name)
      case None => Outcome([], Failure(UnknownTool(params.value.name)))
      case Some(t) =>
        match ParseArgs(t, params.value.arguments)
        case Invalid(issues) => Outcome([], Failure(InvalidArguments(issues)))
        case Valid(a) =>
          Run(a, platform, formats)
  }

  /** JavaScript's template-string rendering of the reply's `error`, where the model can state it. */
  function Rendered(detail: Option<Json>): (r: Option<string>)
    ensures detail.Some? && detail.value.JStr? ==> r == Some(detail.value.s)
    ensures detail.None? ==> r == Some("undefined")
  {
    match detail
    case None => Some("undefined")
    case Some(JStr(s)) => Some(s)
    case Some(JNull) => Some("null")
    case Some(JBool(b)) => Some(if b then "true" else "false")
    case Some(_) => None
  }

  /**
   * The message of the error the catch rethrows. `None` where the text is
   * zod's own rendering of its issues, or JavaScript's rendering of a number,
   * array or object, neither of which the model states.
   */
  function Message(e: ToolError): (m: Option<string>)
    ensures e.MissingParams? ==> m == Some("Params are required")
    ensures e.UnknownTool? ==> m == Some("Unknown tool: " + e.name)
    ensures e.ClientThrew? ==> m == Some(e.message.GetOr("Unknown error occurred"))
    ensures e.UpstreamFailed? && Rendered(e.detail).Some? ==> m == Some(e.prefix + ": " + Rendered(e.detail).value)
  {
    match e
    case MissingParams => Some("Params are required")
    case UnknownTool(name) => Some("Unknown tool: " + name)
    case InvalidArguments(_) => None
    case InvalidResponse => None
    case UpstreamFailed(prefix, detail) =>
      (match Rendered(detail)
       case None => None
       case Some(text) => Some(prefix + ": " + text))
    case ClientThrew(message) => Some(message.GetOr("Unknown error occurred"))
  }
}

module DispatcherFacts {
  import opened Wrappers
  import opened JsonValue
  import opened Tools
  import opened Requests
  import opened Sanitizer
  import opened Responses
  import opened Remote
  import opened Search
  import opened Batch
  import opened Dispatcher
  import SanitizerFacts
  import ResponseFacts
  import BatchFacts

  /** A call the switch recognises, with arguments that validate, runs the validated request. */
  lemma ValidCallRuns(t: Tool, args: Option<Json>, platform: Platform, formats: Formats)
    requires ParseArgs(t, args).Valid?
    ensures CallTool(Some(CallParams(ToolName(t), args)), platform, formats)
         == Run(ParseArgs(t, args).value, platform, formats)
  {
    ToolNamesRoundTrip(t, ToolName(t));
  }

  /** Every call goes through the bot's client except the search, which goes through the user's. */
  lemma OnlySearchUsesUserToken(params: Option<CallParams>, platform: Platform, formats: Formats, i: int)
    requires 0 <= i < |CallTool(params, platform, formats).calls|
    ensures CallTool(params, platform, formats).calls[i].client == UserClient
        <==> ToolNamed(params.value.name) == Some(SearchMessages)
  {
    var t := ToolNamed(params.value.name).value;
    var a := ParseArgs(t, params.value.arguments).value;
    CallsComeFromRun(params, platform, formats);
    RunClients(a, platform, formats, i);
    SearchRequestsOnly(a, t);
  }

  /** Of the validated requests of a tool, only the search's are search requests. */
  lemma SearchRequestsOnly(a: ToolArgs, t: Tool)
    requires ToolOf(a) == t
    ensures a.SearchRequest? <==> t == SearchMessages
  {
  }

  /** A call that reached the platform ran the request its arguments validated to. */
  lemma CallsComeFromRun(params: Option<CallParams>, platform: Platform, formats: Formats)
    requires CallTool(params, platform, formats).calls != []
    ensures params.Some? && ToolNamed(params.value.name).Some?
    ensures var t := ToolNamed(params.value.name).value;
      && ParseArgs(t, params.value.arguments).Valid?
      && CallTool(params, platform, formats) == Run(ParseArgs(t, params.value.arguments).value, platform, formats)
  {
  }

  /** The clients a validated request's calls go through. */
  lemma RunClients(a: ToolArgs, platform: Platform, formats: Formats, i: int)
    requires 0 <= i < |Run(a, platform, formats).calls|
    ensures Run(a, platform, formats).calls[i].client == UserClient <==> a.SearchRequest?
  {
    if a.UserProfilesRequest? {
      assert Run(a, platform, formats).calls[i] == ProfileCall(a.userProfiles.userIds[i]);
    } else {
      assert Run(a, platform, formats).calls[i] == SingleCall(a);
    }
  }

  /** A single-call tool issues exactly one call, whatever the platform answers. */
  lemma SingleCallTools(t: Tool, args: Option<Json>, platform: Platform, formats: Formats)
    requires t != GetUserProfiles && ParseArgs(t, args).Valid?
    ensures |CallTool(Some(CallParams(ToolName(t), args)), platform, formats).calls| == 1
  {
    ValidCallRuns(t, args, platform, formats);
  }

  /** Channel listing always asks for public channels only, with the validated limit and cursor. */
  lemma ListChannelsPublicOnly(args: Option<Json>, platform: Platform, formats: Formats)
    requires ParseListChannels(args).Valid?
    ensures var a := ParseListChannels(args).value;
      CallTool(Some(CallParams("slack_list_channels", args)), platform, formats).calls
        == [RemoteCall(BotClient, ConversationsList(a.limit, a.cursor, "public_channel"))]
  {
    ValidCallRuns(ListChannels, args, platform, formats);
  }

  /** The search's one call is the one `SearchCall` assembles. */
  lemma SearchIsSingleCall(x: SearchArgs)
    ensures SingleCall(SearchRequest(x)) == SearchCall(x)
  {
  }

  /** Posting sends the caller's channel and text, unthreaded. */
  lemma PostMessageCall(args: Option<Json>, platform: Platform, formats: Formats)
    requires ParsePostMessage(args).Valid?
    ensures var m := FieldsOf(args);
      CallTool(Some(CallParams("slack_post_message", args)), platform, formats).calls
        == [RemoteCall(BotClient, ChatPostMessage(m["channel_id"].s, None, m["text"].s))]
  {
    ValidCallRuns(PostMessage, args, platform, formats);
  }

  /** Replying posts the caller's text into the thread the caller's timestamp names. */
  lemma ReplyToThreadCall(args: Option<Json>, platform: Platform, formats: Formats)
    requires ParseReplyToThread(args).Valid?
    ensures var m := FieldsOf(args);
      CallTool(Some(CallParams("slack_reply_to_thread", args)), platform, formats).calls
        == [RemoteCall(BotClient, ChatPostMessage(m["channel_id"].s, Some(m["thread_ts"].s), m["text"].s))]
  {
    ValidCallRuns(ReplyToThread, args, platform, formats);
  }

  /** Reacting sends the caller's channel, message timestamp and emoji name. */
  lemma AddReactionCall(args: Option<Json>, platform: Platform, formats: Formats)
    requires ParseAddReaction(args).Valid?
    ensures var m := FieldsOf(args);
      CallTool(Some(CallParams("slack_add_reaction", args)), platform, formats).calls
        == [RemoteCall(BotClient, ReactionsAdd(m["channel_id"].s, m["timestamp"].s, m["reaction"].s))]
  {
    ValidCallRuns(AddReaction, args, platform, formats);
  }

  /** The history of the caller's channel, with the caller's cursor and limit (100 when none is given). */
  lemma ChannelHistoryCall(args: Option<Json>, platform: Platform, formats: Formats)
    requires ParseChannelHistory(args).Valid?
    ensures var m := FieldsOf(args);
      var a := ParseChannelHistory(args).value;
      && CallTool(Some(CallParams("slack_get_channel_history", args)), platform, formats).calls
           == [RemoteCall(BotClient, ConversationsHistory(m["channel_id"].s, a.limit, a.cursor))]
      && Carries(m, "cursor", a.cursor)
      && NumberOrDefault(m, "limit", 100, a.limit)
  {
    ValidCallRuns(GetChannelHistory, args, platform, formats);
  }

  /** The replies of the caller's thread, with the caller's cursor and limit (100 when none is given). */
  lemma ThreadRepliesCall(args: Option<Json>, platform: Platform, formats: Formats)
    requires ParseThreadReplies(args).Valid?
    ensures var m := FieldsOf(args);
      var a := ParseThreadReplies(args).value;
      && CallTool(Some(CallParams("slack_get_thread_replies", args)), platform, formats).calls
           == [RemoteCall(BotClient, ConversationsReplies(m["channel_id"].s, m["thread_ts"].s, a.limit, a.cursor))]
      && Carries(m, "cursor", a.cursor)
      && NumberOrDefault(m, "limit", 100, a.limit)
  {
    ValidCallRuns(GetThreadReplies, args, platform, formats);
  }

  /** The user listing with the caller's cursor and limit (100 when none is given). */
  lemma GetUsersCall(args: Option<Json>, platform: Platform, formats: Formats)
    requires ParseGetUsers(args).Valid?
    ensures var m := FieldsOf(args);
      var a := ParseGetUsers(args).value;
      && CallTool(Some(CallParams("slack_get_users", args)), platform, formats).calls
           == [RemoteCall(BotClient, UsersList(a.limit, a.cursor))]
      && Carries(m, "cursor", a.cursor)
      && NumberOrDefault(m, "limit", 100, a.limit)
  {
    ValidCallRuns(GetUsers, args, platform, formats);
  }

  /** One profile lookup, for the caller's user id. */
  lemma UserProfileCall(args: Option<Json>, platform: Platform, formats: Formats)
    requires ParseUserProfile(args).Valid?
    ensures CallTool(Some(CallParams("slack_get_user_profile", args)), platform, formats).calls
         == [RemoteCall(BotClient, UsersProfileGet(FieldsOf(args)["user_id"].s))]
  {
    ValidCallRuns(GetUserProfile, args, platform, formats);
  }

  /**
   * The search makes the one call `SearchCall` assembles: through the user's
   * client, with the built query and the caller's result options.
   */
  lemma SearchMessagesCallMade(args: Option<Json>, platform: Platform, formats: Formats)
    requires ParseSearch(args).Valid?
    ensures CallTool(Some(CallParams("slack_search_messages", args)), platform, formats).calls
         == [SearchCall(ParseSearch(args).value)]
  {
    ValidCallRuns(SearchMessages, args, platform, formats);
    SearchIsSingleCall(ParseSearch(args).value);
  }

  /** A reply whose `ok` is falsy fails the call with the tool's prefix and the reply's `error`. */
  lemma NotOkFails(t: Tool, args: Option<Json>, platform: Platform, formats: Formats)
    requires t != GetUserProfiles && ParseArgs(t, args).Valid?
    requires var c := SingleCall(ParseArgs(t, args).value);
      platform(c).Returned? && !Succeeded(platform(c).body)
    ensures var o := CallTool(Some(CallParams(ToolName(t), args)), platform, formats);
      var body := platform(SingleCall(ParseArgs(t, args).value)).body;
      && o.result == Failure(UpstreamFailed(FailurePrefix(t), Get(body, "error")))
      && (Get(body, "error").Some? && Get(body, "error").value.JStr? ==>
            Message(o.result.error) == Some(FailurePrefix(t) + ": " + body["error"].s))
      && (Get(body, "error").None? ==> Message(o.result.error) == Some(FailurePrefix(t) + ": " + "undefined"))
  {
    ValidCallRuns(t, args, platform, formats);
    var body := platform(SingleCall(ParseArgs(t, args).value)).body;
    var e := UpstreamFailed(FailurePrefix(t), Get(body, "error"));
    assert Rendered(e.detail).Some? ==> Message(e) == Some(e.prefix + ": " + Rendered(e.detail).value);
  }

  /** A thrown client error surfaces with its own message; a thrown non-error value with a fixed one. */
  lemma ThrownCallFails(t: Tool, args: Option<Json>, platform: Platform, formats: Formats)
    requires t != GetUserProfiles && ParseArgs(t, args).Valid?
    requires platform(SingleCall(ParseArgs(t, args).value)).Threw?
    ensures var o := CallTool(Some(CallParams(ToolName(t), args)), platform, formats);
      var thrown := platform(SingleCall(ParseArgs(t, args).value)).message;
      && o.result == Failure(ClientThrew(thrown))
      && (thrown.Some? ==> Message(o.result.error) == thrown)
      && (thrown.None? ==> Message(o.result.error) == Some("Unknown error occurred"))
  {
    ValidCallRuns(t, args, platform, formats);
  }

  /** The three write tools answer a successful reply with a fixed text, whatever else the reply holds. */
  lemma WriteToolsAcknowledge(t: Tool, args: Option<Json>, platform: Platform, formats: Formats)
    requires t in {PostMessage, ReplyToThread, AddReaction} && ParseArgs(t, args).Valid?
    requires var c := SingleCall(ParseArgs(t, args).value);
      platform(c).Returned? && Succeeded(platform(c).body)
    ensures CallTool(Some(CallParams(ToolName(t), args)), platform, formats).result
         == Success(Text(if t == PostMessage then "Message posted successfully"
                         else if t == ReplyToThread then "Reply sent to thread successfully"
                         else "Reaction added successfully"))
  {
    ValidCallRuns(t, args, platform, formats);
  }

  /**
   * A read tool's successful reply comes back sanitized: the call succeeds
   * exactly when the reply parses against the tool's response schema, and
   * what it returns holds only keys that schema declares.
   */
  lemma ReadToolsSanitize(t: Tool, args: Option<Json>, platform: Platform, formats: Formats)
    requires ReplySchema(t).Some? && ParseArgs(t, args).Valid?
    requires var c := SingleCall(ParseArgs(t, args).value);
      platform(c).Returned? && Succeeded(platform(c).body)
    ensures var o := CallTool(Some(CallParams(ToolName(t), args)), platform, formats);
      var body := platform(SingleCall(ParseArgs(t, args).value)).body;
      var schema := ReplySchema(t).value;
      && (o.result.Success? <==> Sanitize(formats, schema, JObj(body)).Some?)
      && (o.result.Failure? ==> o.result.error == InvalidResponse)
      && (o.result.Success? ==>
            o.result.value == Serialized(Sanitize(formats, schema, JObj(body)).value)
            && o.result.value.value.JObj?
            && o.result.value.value.fields.Keys == schema.fields.Keys * body.Keys)
  {
    ValidCallRuns(t, args, platform, formats);
    var a := ParseArgs(t, args).value;
    var body := platform(SingleCall(a)).body;
    var schema := ReplySchema(t).value;
    assert ToolOf(a) == t && !a.UserProfilesRequest?;
    assert Run(a, platform, formats).result == Conclude(t, platform(SingleCall(a)), formats);
    if Sanitize(formats, schema, JObj(body)).Some? {
      SanitizerFacts.SanitizedObjectKeys(formats, schema.fields, body);
    }
  }

  /** The platform answered the one call a tool makes for `args` with a reply whose `ok` is truthy. */
  predicate RepliedOk(t: Tool, args: Option<Json>, platform: Platform) {
    && t != GetUserProfiles && ParseArgs(t, args).Valid?
    && platform(SingleCall(ParseArgs(t, args).value)).Returned?
    && Succeeded(platform(SingleCall(ParseArgs(t, args).value)).body)
  }

  /** The body of that reply. */
  function ReplyBody(t: Tool, args: Option<Json>, platform: Platform): map<string, Json>
    requires RepliedOk(t, args, platform)
  {
    platform(SingleCall(ParseArgs(t, args).value)).body
  }

  /**
   * A read tool's result for an `ok` reply `body`: an invalid-response failure,
   * or the sanitized body holding the base keys and `payload` that `body` has
   * and nothing else, with `payload` sanitized by `ps`.
   */
  predicate KeepsPayload(r: Result<Content, ToolError>, formats: Formats, body: map<string, Json>, payload: string, ps: Schema) {
    && (r.Failure? ==> r.error == InvalidResponse)
    && (r.Success? ==>
          && r.value.Serialized? && r.value.value.JObj?
          && r.value.value.fields.Keys == {"error", "ok", "response_metadata", payload} * body.Keys
          && (payload in body ==> Sanitize(formats, ps, body[payload]) == Some(r.value.value.fields[payload])))
  }

  /** A read tool whose reply schema is the base fields plus one optional `payload` keeps that payload. */
  lemma PayloadReply(t: Tool, args: Option<Json>, platform: Platform, formats: Formats, payload: string, ps: Schema)
    requires RepliedOk(t, args, platform)
    requires ReplySchema(t) == Some(SObj(Extend(BaseResponseFields, map[payload := Opt(ps)])))
    ensures var r := CallTool(Some(CallParams(ToolName(t), args)), platform, formats).result;
      && (r.Success? <==> Sanitize(formats, ReplySchema(t).value, JObj(ReplyBody(t, args, platform))).Some?)
      && KeepsPayload(r, formats, ReplyBody(t, args, platform), payload, ps)
  {
    ReadToolsSanitize(t, args, platform, formats);
    var body := ReplyBody(t, args, platform);
    if Sanitize(formats, ReplySchema(t).value, JObj(body)).Some? {
      ResponseFacts.PayloadKept(formats, payload, ps, body);
    }
  }

  /** Channel listing keeps the reply's `channels`, each sanitized as a channel. */
  lemma ListChannelsReply(args: Option<Json>, platform: Platform, formats: Formats)
    requires RepliedOk(ListChannels, args, platform)
    ensures var r := CallTool(Some(CallParams("slack_list_channels", args)), platform, formats).result;
      var body := ReplyBody(ListChannels, args, platform);
      && (r.Success? <==> Sanitize(formats, ListChannelsResponse, JObj(body)).Some?)
      && KeepsPayload(r, formats, body, "channels", SArr(ChannelSchema))
  {
    PayloadReply(ListChannels, args, platform, formats, "channels", SArr(ChannelSchema));
  }

  /** A channel's history keeps the reply's `messages`, each sanitized as a history message. */
  lemma ChannelHistoryReply(args: Option<Json>, platform: Platform, formats: Formats)
    requires RepliedOk(GetChannelHistory, args, platform)
    ensures var r := CallTool(Some(CallParams("slack_get_channel_history", args)), platform, formats).result;
      var body := ReplyBody(GetChannelHistory, args, platform);
      && (r.Success? <==> Sanitize(formats, ConversationsHistoryResponse, JObj(body)).Some?)
      && KeepsPayload(r, formats, body, "messages", SArr(HistoryMessageSchema))
  {
    PayloadReply(GetChannelHistory, args, platform, formats, "messages", SArr(HistoryMessageSchema));
  }

  /** A thread's replies keep the reply's `messages`, each sanitized as a history message. */
  lemma ThreadRepliesReply(args: Option<Json>, platform: Platform, formats: Formats)
    requires RepliedOk(GetThreadReplies, args, platform)
    ensures var r := CallTool(Some(CallParams("slack_get_thread_replies", args)), platform, formats).result;
      var body := ReplyBody(GetThreadReplies, args, platform);
      && (r.Success? <==> Sanitize(formats, ConversationsRepliesResponse, JObj(body)).Some?)
      && KeepsPayload(r, formats, body, "messages", SArr(HistoryMessageSchema))
  {
    PayloadReply(GetThreadReplies, args, platform, formats, "messages", SArr(HistoryMessageSchema));
  }

  /** User listing keeps the reply's `members`, each sanitized to its id and names. */
  lemma GetUsersReply(args: Option<Json>, platform: Platform, formats: Formats)
    requires RepliedOk(GetUsers, args, platform)
    ensures var r := CallTool(Some(CallParams("slack_get_users", args)), platform, formats).result;
      var body := ReplyBody(GetUsers, args, platform);
      && (r.Success? <==> Sanitize(formats, GetUsersResponse, JObj(body)).Some?)
      && KeepsPayload(r, formats, body, "members", SArr(MemberSchema))
  {
    PayloadReply(GetUsers, args, platform, formats, "members", SArr(MemberSchema));
  }

  /** A profile lookup keeps the reply's `profile`, sanitized as a profile. */
  lemma UserProfileReply(args: Option<Json>, platform: Platform, formats: Formats)
    requires RepliedOk(GetUserProfile, args, platform)
    ensures var r := CallTool(Some(CallParams("slack_get_user_profile", args)), platform, formats).result;
      var body := ReplyBody(GetUserProfile, args, platform);
      && (r.Success? <==> Sanitize(formats, GetUserProfileResponse, JObj(body)).Some?)
      && KeepsPayload(r, formats, body, "profile", ProfileSchema)
  {
    PayloadReply(GetUserProfile, args, platform, formats, "profile", ProfileSchema);
  }

  /** The search keeps the reply's `messages`: its `matches` and `pagination`, and nothing else. */
  lemma SearchReply(args: Option<Json>, platform: Platform, formats: Formats)
    requires RepliedOk(SearchMessages, args, platform)
    ensures var r := CallTool(Some(CallParams("slack_search_messages", args)), platform, formats).result;
      var body := ReplyBody(SearchMessages, args, platform);
      && (r.Success? <==> Sanitize(formats, SearchMessagesResponse, JObj(body)).Some?)
      && KeepsPayload(r, formats, body, "messages", SObj(map[
           "matches" := Opt(SArr(SearchMessageSchema)),
           "pagination" := Opt(SearchPaginationSchema)]))
  {
    PayloadReply(SearchMessages, args, platform, formats, "messages", SObj(map[
      "matches" := Opt(SArr(SearchMessageSchema)),
      "pagination" := Opt(SearchPaginationSchema)]));
  }

  /** The text each single-call tool's error starts with when the reply's `ok` is falsy. */
  lemma NotOkMessages(t: Tool, args: Option<Json>, platform: Platform, formats: Formats)
    requires t != GetUserProfiles && ParseArgs(t, args).Valid?
    requires var c := SingleCall(ParseArgs(t, args).value);
      platform(c).Returned? && !Succeeded(platform(c).body)
    ensures var r := CallTool(Some(CallParams(ToolName(t), args)), platform, formats).result;
      && r.Failure? && r.error.UpstreamFailed?
      && r.error.prefix == (
           if t == ListChannels then "Failed to list channels"
           else if t == PostMessage then "Failed to post message"
           else if t == ReplyToThread then "Failed to reply to thread"
           else if t == AddReaction then "Failed to add reaction"
           else if t == GetChannelHistory then "Failed to get channel history"
           else if t == GetThreadReplies then "Failed to get thread replies"
           else if t == GetUsers then "Failed to get users"
           else if t == GetUserProfile then "Failed to get user profile"
           else "Failed to search messages")
  {
    NotOkFails(t, args, platform, formats);
  }

  /**
   * The batch tool issues one lookup per requested id, in request order, and
   * succeeds exactly when every lookup returned a usable profile.
   */
  lemma BatchCallsAndResult(args: Option<Json>, platform: Platform, formats: Formats)
    requires ParseUserProfiles(args).Valid?
    ensures var ids := ParseUserProfiles(args).value.userIds;
      var o := CallTool(Some(CallParams("slack_get_user_profiles", args)), platform, formats);
      && o.calls == ProfileCalls(ids)
      && (o.result.Success? <==> forall i | 0 <= i < |ids| :: Usable(formats, platform(ProfileCall(ids[i]))))
      && (o.result.Failure? ==> o.result.error == InvalidResponse)
  {
    ValidCallRuns(GetUserProfiles, args, platform, formats);
    BatchFacts.BatchSucceedsIff(formats, ParseUserProfiles(args).value.userIds, platform);
  }

  /** The fixed failure messages of the handler itself. */
  lemma HandlerMessages(name: string, platform: Platform, formats: Formats)
    ensures Message(CallTool(None, platform, formats).result.error) == Some("Params are required")
    ensures ToolNamed(name).None? ==>
      Message(CallTool(Some(CallParams(name, None)), platform, formats).result.error) == Some("Unknown tool: " + name)
  {
  }
}
