/**
 * The request schemas of the ten tools (zod `z.object` in its default "strip"
 * mode): each tool's arguments are checked field by field, in declaration
 * order, collecting one zod issue list; undeclared keys are dropped; optional
 * fields with a default take it when absent.
 */
module Requests {
  import opened Wrappers
  import opened JsonValue
  import opened Patterns
  import opened Tools

  // ---------------------------------------------------------------------------
  // Issues and parse results
  // ---------------------------------------------------------------------------

  datatype PathSegment = Key(name: string) | Index(i: nat)

  /**
   * The zod issue codes these schemas can raise. `invalid_type` names the type
   * it expected: a JSON kind, "integer" for a failed `.int()`, or the quoted
   * options of an enum joined by " | ".
   */
  datatype IssueCode =
    | InvalidType(expected: string)      // wrong JSON kind, a required key absent, or `.int()`
    | TooSmall(minimum: int)             // `.min(n)` on a number or on an array's length
    | TooBig(maximum: int)               // `.max(n)` likewise
    | InvalidString(message: string)     // `.regex(re, { message })`
    | InvalidEnumValue(options: seq<string>)
    | Custom(message: string)            // `.refine(check, { message })`

  datatype Issue = Issue(path: seq<PathSegment>, code: IssueCode)

  /** The outcome of `Schema.parse`: the typed value, or the issues of a `ZodError`. */
  datatype Parsed<+T> = Valid(value: T) | Invalid(issues: seq<Issue>) {
    /** The issues of a failure; none for a success. */
    function Issues(): seq<Issue> {
      if Valid? then [] else issues
    }
  }

  /** Every issue names the field `key` as the first step of its path. */
  predicate AllName(issues: seq<Issue>, key: string) {
    issues == [] || (|issues[0].path| >= 1 && issues[0].path[0] == Key(key) && AllName(issues[1..], key))
  }

  lemma {:induction false} AllNameConcat(a: seq<Issue>, b: seq<Issue>, key: string)
    requires AllName(a, key) && AllName(b, key)
    ensures AllName(a + b, key)
  {
    if a != [] {
      assert (a + b)[1..] == a[1..] + b;
      AllNameConcat(a[1..], b, key);
    } else {
      assert a + b == b;
    }
  }

  /** Every issue names the offending field as the first step of its path, and there is one at least. */
  predicate IssuesAt(issues: seq<Issue>, key: string) {
    |issues| > 0 && AllName(issues, key)
  }

  /** A well-formed failure: zod never throws a `ZodError` without an issue. */
  predicate WellFormed<T>(r: Parsed<T>) {
    r.Invalid? ==> |r.issues| > 0
  }

  /** The issues whose path starts at the field `key`, in their order. */
  function IssuesFor(issues: seq<Issue>, key: string): seq<Issue> {
    if issues == [] then []
    else
      (if |issues[0].path| >= 1 && issues[0].path[0] == Key(key) then [issues[0]] else [])
      + IssuesFor(issues[1..], key)
  }

  /** Some issue names the field `key`. */
  predicate Names(issues: seq<Issue>, key: string) {
    IssuesFor(issues, key) != []
  }

  /** The issues of each field of `keys` in turn. */
  function ByKeys(issues: seq<Issue>, keys: seq<string>): seq<Issue>
    decreases |keys|
  {
    if keys == [] then [] else IssuesFor(issues, keys[0]) + ByKeys(issues, keys[1..])
  }

  /**
   * `issues` are those of the fields `keys`, field after field in that order:
   * every issue names one of them, and the issues of one field are contiguous.
   */
  predicate Grouped(issues: seq<Issue>, keys: seq<string>) {
    issues == ByKeys(issues, keys)
  }

  // ---------------------------------------------------------------------------
  // String formats and their messages
  // ---------------------------------------------------------------------------

  datatype StringRule = AnyString | TimestampFormat | ChannelIdFormat | UserIdFormat | DateFormat

  predicate Satisfies(rule: StringRule, s: string) {
    match rule
    case AnyString => true
    case TimestampFormat => IsTimestamp(s)
    case ChannelIdFormat => IsChannelId(s)
    case UserIdFormat => IsUserId(s)
    case DateFormat => IsDateShape(s)
  }

  function RuleMessage(rule: StringRule): string {
    match rule
    case AnyString => ""
    case TimestampFormat => "Timestamp must be in the format '1234567890.123456'"
    case ChannelIdFormat => "Must be a valid Slack channel ID (e.g., \"C1234567\")"
    case UserIdFormat => "Must be a valid Slack user ID (e.g., \"U1234567\")"
    case DateFormat => "Date must be in YYYY-MM-DD format"
  }

  /** zod's rendering of an enum's options in an `invalid_type` issue: each quoted, joined by " | ". */
  function Alternatives(options: seq<string>): string
    decreases |options|
  {
    if options == [] then ""
    else if |options| == 1 then "'" + options[0] + "'"
    else "'" + options[0] + "' | " + Alternatives(options[1..])
  }

  const QueryMessage: string :=
    "Query field cannot contain modifiers (from:, in:, before:, etc.). Please use the dedicated fields for these filters."

  // ---------------------------------------------------------------------------
  // What each kind of field accepts, stated on the raw value (`None` = absent)
  // ---------------------------------------------------------------------------

  predicate StringAccepted(v: Option<Json>, rule: StringRule) {
    v.Some? && v.value.JStr? && Satisfies(rule, v.value.s)
  }

  predicate OptionalStringAccepted(v: Option<Json>, rule: StringRule) {
    v.None? || StringAccepted(v, rule)
  }

  predicate IntegerAccepted(v: Json, lo: int, hi: Option<int>) {
    v.JNum? && IsIntegral(v.n) && lo as real <= v.n && (hi.None? || v.n <= hi.value as real)
  }

  /** The optional string field `key` of `m` is absent exactly when `v` is `None`, and otherwise holds `v`'s string. */
  predicate Carries(m: map<string, Json>, key: string, v: Option<string>) {
    Get(m, key) == if v.None? then None else Some(JStr(v.value))
  }

  /** The number field `key` of `m`, or `default` when it is absent, is `n`. */
  predicate NumberOrDefault(m: map<string, Json>, key: string, default: int, n: int) {
    Get(m, key).GetOr(JNum(default as real)) == JNum(n as real)
  }

  // ---------------------------------------------------------------------------
  // Field validators: one per kind of zod chain in the schemas
  // ---------------------------------------------------------------------------

  /** `z.string()` with an optional `.regex(...)`, required. */
  function RequiredString(key: string, v: Option<Json>, rule: StringRule): (r: Parsed<string>)
    ensures r.Valid? <==> StringAccepted(v, rule)
    ensures r.Valid? ==> v == Some(JStr(r.value))
    ensures r.Invalid? ==> r.issues != []
    ensures r.Invalid? ==> IssuesAt(r.issues, key)
  {
    match v
    case None => Invalid([Issue([Key(key)], InvalidType("string"))])
    case Some(JStr(s)) =>
      if Satisfies(rule, s) then Valid(s) else Invalid([Issue([Key(key)], InvalidString(RuleMessage(rule)))])
    case Some(_) => Invalid([Issue([Key(key)], InvalidType("string"))])
  }

  /** `z.string()` with an optional `.regex(...)`, then `.optional()`. */
  function OptionalString(key: string, v: Option<Json>, rule: StringRule): (r: Parsed<Option<string>>)
    ensures r.Valid? <==> OptionalStringAccepted(v, rule)
    ensures r.Valid? && v.None? ==> r.value.None?
    ensures r.Valid? && v.Some? ==> r.value.Some? && v.value == JStr(r.value.value)
    ensures r.Invalid? ==> r.issues != []
    ensures r.Invalid? ==> IssuesAt(r.issues, key)
  {
    if v.None? then Valid(None)
    else match RequiredString(key, v, rule)
      case Valid(s) => Valid(Some(s))
      case Invalid(issues) => Invalid(issues)
  }

  /**
   * `z.number().int().min(lo)[.max(hi)].optional().default(d)`. The default is
   * fed through the checks like a supplied value; every failing check adds
   * its own issue, in the order int, min, max.
   */
  function IntegerWithDefault(key: string, v: Option<Json>, lo: int, hi: Option<int>, default: int): (r: Parsed<int>)
    ensures r.Valid? <==> IntegerAccepted(v.GetOr(JNum(default as real)), lo, hi)
    ensures r.Valid? ==> lo <= r.value && (hi.None? || r.value <= hi.value)
    ensures r.Valid? ==> v.GetOr(JNum(default as real)) == JNum(r.value as real)
    ensures r.Invalid? ==> r.issues != []
    ensures r.Invalid? ==> IssuesAt(r.issues, key)
  {
    match v.GetOr(JNum(default as real))
    case JNum(n) =>
      var issues :=
        (if IsIntegral(n) then [] else [Issue([Key(key)], InvalidType("integer"))])
        + (if n < lo as real then [Issue([Key(key)], TooSmall(lo))] else [])
        + (if hi.Some? && n > hi.value as real then [Issue([Key(key)], TooBig(hi.value))] else []);
      AllNameConcat(
        (if IsIntegral(n) then [] else [Issue([Key(key)], InvalidType("integer"))]),
        (if n < lo as real then [Issue([Key(key)], TooSmall(lo))] else []), key);
      AllNameConcat(
        (if IsIntegral(n) then [] else [Issue([Key(key)], InvalidType("integer"))])
        + (if n < lo as real then [Issue([Key(key)], TooSmall(lo))] else []),
        (if hi.Some? && n > hi.value as real then [Issue([Key(key)], TooBig(hi.value))] else []), key);
      if issues == [] then Valid(n.Floor) else Invalid(issues)
    case _ => Invalid([Issue([Key(key)], InvalidType("number"))])
  }

  /** `z.boolean().optional().default(d)`. */
  function BooleanWithDefault(key: string, v: Option<Json>, default: bool): (r: Parsed<bool>)
    ensures r.Valid? <==> v.None? || v.value.JBool?
    ensures r.Valid? ==> r.value == (if v.None? then default else v.value.b)
    ensures r.Invalid? ==> r.issues != []
    ensures r.Invalid? ==> IssuesAt(r.issues, key)
  {
    match v.GetOr(JBool(default))
    case JBool(b) => Valid(b)
    case _ => Invalid([Issue([Key(key)], InvalidType("boolean"))])
  }

  /** `z.enum(options).optional().default(d)`. */
  function EnumWithDefault(key: string, v: Option<Json>, options: seq<string>, default: string): (r: Parsed<string>)
    requires default in options
    ensures r.Valid? <==> v.None? || (v.value.JStr? && v.value.s in options)
    ensures r.Valid? ==> r.value in options
    ensures r.Valid? ==> r.value == (if v.None? then default else v.value.s)
    ensures r.Invalid? ==> r.issues != []
    ensures r.Invalid? ==> IssuesAt(r.issues, key)
  {
    match v.GetOr(JStr(default))
    case JStr(s) => if s in options then Valid(s) else Invalid([Issue([Key(key)], InvalidEnumValue(options))])
    case _ => Invalid([Issue([Key(key)], InvalidType(Alternatives(options)))])
  }

  /**
   * `z.string().optional().default('').refine(...)` of the search query: the
   * refinement accepts the empty string and otherwise rejects any string the
   * modifier pattern matches. A non-string aborts before the refinement runs.
   */
  function QueryWithDefault(key: string, v: Option<Json>): (r: Parsed<string>)
    ensures r.Valid? <==> v.None? || (v.value.JStr? && !HasModifier(v.value.s))
    ensures r.Valid? ==> r.value == (if v.None? then "" else v.value.s)
    ensures r.Invalid? ==> r.issues != []
    ensures r.Invalid? ==> IssuesAt(r.issues, key)
  {
    match v.GetOr(JStr(""))
    case JStr(s) =>
      if s == "" || !HasModifier(s) then Valid(s) else Invalid([Issue([Key(key)], Custom(QueryMessage))])
    case _ => Invalid([Issue([Key(key)], InvalidType("string"))])
  }

  /** One `invalid_type` issue per array element that is not a string, in index order. */
  function NonStringItems(key: string, items: seq<Json>): (r: seq<Issue>)
    ensures r == [] <==> forall i | 0 <= i < |items| :: items[i].JStr?
    ensures forall k | 0 <= k < |r| ::
      exists i | 0 <= i < |items| :: !items[i].JStr? && r[k] == Issue([Key(key), Index(i)], InvalidType("string"))
  {
    if items == [] then []
    else
      var last := |items| - 1;
      var earlier := NonStringItems(key, items[..last]);
      assert forall i | 0 <= i < last :: items[..last][i] == items[i];
      earlier + (if items[last].JStr? then [] else [Issue([Key(key), Index(last)], InvalidType("string"))])
  }

  lemma {:induction false} NonStringItemsNamed(key: string, items: seq<Json>)
    ensures AllName(NonStringItems(key, items), key)
  {
    if items != [] {
      var last := |items| - 1;
      NonStringItemsNamed(key, items[..last]);
      AllNameConcat(
        NonStringItems(key, items[..last]),
        if items[last].JStr? then [] else [Issue([Key(key), Index(last)], InvalidType("string"))], key);
    }
  }

  function StringsOf(items: seq<Json>): (r: seq<string>)
    requires forall i | 0 <= i < |items| :: items[i].JStr?
    ensures |r| == |items|
    ensures forall i | 0 <= i < |items| :: items[i] == JStr(r[i])
  {
    if items == [] then [] else [items[0].s] + StringsOf(items[1..])
  }

  /**
   * `z.array(z.string()).min(lo).max(hi)`, required. The length checks come
   * first, then one issue per element that is not a string.
   */
  function StringList(key: string, v: Option<Json>, lo: nat, hi: nat): (r: Parsed<seq<string>>)
    ensures r.Valid? <==>
      && v.Some? && v.value.JArr?
      && lo <= |v.value.items| <= hi
      && forall i | 0 <= i < |v.value.items| :: v.value.items[i].JStr?
    ensures r.Valid? ==> |r.value| == |v.value.items|
    ensures r.Valid? ==> forall i | 0 <= i < |r.value| :: v.value.items[i] == JStr(r.value[i])
    ensures r.Invalid? ==> r.issues != []
    ensures r.Invalid? ==> IssuesAt(r.issues, key)
  {
    match v
    case Some(JArr(items)) =>
      var issues :=
        (if |items| < lo then [Issue([Key(key)], TooSmall(lo))] else [])
        + (if |items| > hi then [Issue([Key(key)], TooBig(hi))] else [])
        + NonStringItems(key, items);
      AllNameConcat(
        (if |items| < lo then [Issue([Key(key)], TooSmall(lo))] else []),
        (if |items| > hi then [Issue([Key(key)], TooBig(hi))] else []), key);
      NonStringItemsNamed(key, items);
      AllNameConcat(
        (if |items| < lo then [Issue([Key(key)], TooSmall(lo))] else [])
        + (if |items| > hi then [Issue([Key(key)], TooBig(hi))] else []),
        NonStringItems(key, items), key);
      if issues == [] then Valid(StringsOf(items)) else Invalid(issues)
    case _ => Invalid([Issue([Key(key)], InvalidType("array"))])
  }

  // ---------------------------------------------------------------------------
  // The validated request records
  // ---------------------------------------------------------------------------

  datatype ListChannelsArgs = ListChannelsArgs(cursor: Option<string>, limit: int)
  datatype PostMessageArgs = PostMessageArgs(channelId: string, text: string)
  datatype ReplyToThreadArgs = ReplyToThreadArgs(channelId: string, text: string, threadTs: string)
  datatype AddReactionArgs = AddReactionArgs(channelId: string, reaction: string, timestamp: string)
  datatype ChannelHistoryArgs = ChannelHistoryArgs(channelId: string, cursor: Option<string>, limit: int)
  datatype ThreadRepliesArgs = ThreadRepliesArgs(channelId: string, threadTs: string, cursor: Option<string>, limit: int)
  datatype GetUsersArgs = GetUsersArgs(cursor: Option<string>, limit: int)
  datatype UserProfileArgs = UserProfileArgs(userId: string)
  datatype UserProfilesArgs = UserProfilesArgs(userIds: seq<string>)

  datatype SortKey = ByScore | ByTimestamp
  datatype SortDir = Ascending | Descending

  datatype SearchArgs = SearchArgs(
    query: string,
    inChannel: Option<string>,
    fromUser: Option<string>,
    before: Option<string>,
    after: Option<string>,
    on: Option<string>,
    during: Option<string>,
    highlight: bool,
    sort: SortKey,
    sortDir: SortDir,
    count: int,
    page: int)

  function SortKeyName(k: SortKey): string {
    match k
    case ByScore => "score"
    case ByTimestamp => "timestamp"
  }

  function SortDirName(d: SortDir): string {
    match d
    case Ascending => "asc"
    case Descending => "desc"
  }

  /** A validated request of any tool. */
  datatype ToolArgs =
    | ListChannelsRequest(listChannels: ListChannelsArgs)
    | PostMessageRequest(postMessage: PostMessageArgs)
    | ReplyToThreadRequest(replyToThread: ReplyToThreadArgs)
    | AddReactionRequest(addReaction: AddReactionArgs)
    | ChannelHistoryRequest(channelHistory: ChannelHistoryArgs)
    | ThreadRepliesRequest(threadReplies: ThreadRepliesArgs)
    | GetUsersRequest(getUsers: GetUsersArgs)
    | UserProfileRequest(userProfile: UserProfileArgs)
    | UserProfilesRequest(userProfiles: UserProfilesArgs)
    | SearchRequest(search: SearchArgs)

  // ---------------------------------------------------------------------------
  // The object check every schema starts with
  // ---------------------------------------------------------------------------

  /** The arguments are a JSON object (`undefined`, `null`, arrays and scalars are not). */
  predicate IsObject(args: Option<Json>) {
    args.Some? && args.value.JObj?
  }

  /** The object's fields; empty when the arguments are not an object. */
  function FieldsOf(args: Option<Json>): map<string, Json> {
    if IsObject(args) then args.value.fields else map[]
  }

  const NotAnObject: seq<Issue> := [Issue([], InvalidType("object"))]

  // ---------------------------------------------------------------------------
  // The ten request schemas
  // ---------------------------------------------------------------------------

  function ParseListChannels(args: Option<Json>): (r: Parsed<ListChannelsArgs>)
    ensures r.Valid? <==>
      && IsObject(args)
      && OptionalStringAccepted(Get(FieldsOf(args), "cursor"), AnyString)
      && IntegerAccepted(Get(FieldsOf(args), "limit").GetOr(JNum(100.0)), 1, Some(1000))
    ensures r.Valid? ==> Carries(FieldsOf(args), "cursor", r.value.cursor)
    ensures r.Valid? ==> NumberOrDefault(FieldsOf(args), "limit", 100, r.value.limit)
    ensures r.Valid? ==> 1 <= r.value.limit <= 1000
    ensures r.Valid? && "limit" !in FieldsOf(args) ==> r.value.limit == 100
    ensures WellFormed(r)
  {
    if !IsObject(args) then Invalid(NotAnObject) else
    var m := args.value.fields;
    var cursor := OptionalString("cursor", Get(m, "cursor"), AnyString);
    var limit := IntegerWithDefault("limit", Get(m, "limit"), 1, Some(1000), 100);
    if cursor.Valid? && limit.Valid? then Valid(ListChannelsArgs(cursor.value, limit.value))
    else Invalid(cursor.Issues() + limit.Issues())
  }

  function ParsePostMessage(args: Option<Json>): (r: Parsed<PostMessageArgs>)
    ensures r.Valid? <==>
      && IsObject(args)
      && StringAccepted(Get(FieldsOf(args), "channel_id"), AnyString)
      && StringAccepted(Get(FieldsOf(args), "text"), AnyString)
    ensures r.Valid? ==> FieldsOf(args)["channel_id"] == JStr(r.value.channelId)
    ensures r.Valid? ==> FieldsOf(args)["text"] == JStr(r.value.text)
    ensures WellFormed(r)
  {
    if !IsObject(args) then Invalid(NotAnObject) else
    var m := args.value.fields;
    var channel := RequiredString("channel_id", Get(m, "channel_id"), AnyString);
    var text := RequiredString("text", Get(m, "text"), AnyString);
    if channel.Valid? && text.Valid? then Valid(PostMessageArgs(channel.value, text.value))
    else Invalid(channel.Issues() + text.Issues())
  }

  function ParseReplyToThread(args: Option<Json>): (r: Parsed<ReplyToThreadArgs>)
    ensures r.Valid? <==>
      && IsObject(args)
      && StringAccepted(Get(FieldsOf(args), "channel_id"), AnyString)
      && StringAccepted(Get(FieldsOf(args), "text"), AnyString)
      && StringAccepted(Get(FieldsOf(args), "thread_ts"), TimestampFormat)
    ensures r.Valid? ==> FieldsOf(args)["channel_id"] == JStr(r.value.channelId)
    ensures r.Valid? ==> FieldsOf(args)["text"] == JStr(r.value.text)
    ensures r.Valid? ==> FieldsOf(args)["thread_ts"] == JStr(r.value.threadTs)
    ensures r.Valid? ==> IsTimestamp(r.value.threadTs) && |r.value.threadTs| == 17
    ensures WellFormed(r)
  {
    if !IsObject(args) then Invalid(NotAnObject) else
    var m := args.value.fields;
    var channel := RequiredString("channel_id", Get(m, "channel_id"), AnyString);
    var text := RequiredString("text", Get(m, "text"), AnyString);
    var ts := RequiredString("thread_ts", Get(m, "thread_ts"), TimestampFormat);
    if channel.Valid? && text.Valid? && ts.Valid? then Valid(ReplyToThreadArgs(channel.value, text.value, ts.value))
    else Invalid(channel.Issues() + text.Issues() + ts.Issues())
  }

  function ParseAddReaction(args: Option<Json>): (r: Parsed<AddReactionArgs>)
    ensures r.Valid? <==>
      && IsObject(args)
      && StringAccepted(Get(FieldsOf(args), "channel_id"), AnyString)
      && StringAccepted(Get(FieldsOf(args), "reaction"), AnyString)
      && StringAccepted(Get(FieldsOf(args), "timestamp"), TimestampFormat)
    ensures r.Valid? ==> FieldsOf(args)["channel_id"] == JStr(r.value.channelId)
    ensures r.Valid? ==> FieldsOf(args)["reaction"] == JStr(r.value.reaction)
    ensures r.Valid? ==> FieldsOf(args)["timestamp"] == JStr(r.value.timestamp)
    ensures r.Valid? ==> IsTimestamp(r.value.timestamp) && |r.value.timestamp| == 17
    ensures WellFormed(r)
  {
    if !IsObject(args) then Invalid(NotAnObject) else
    var m := args.value.fields;
    var channel := RequiredString("channel_id", Get(m, "channel_id"), AnyString);
    var reaction := RequiredString("reaction", Get(m, "reaction"), AnyString);
    var ts := RequiredString("timestamp", Get(m, "timestamp"), TimestampFormat);
    if channel.Valid? && reaction.Valid? && ts.Valid? then Valid(AddReactionArgs(channel.value, reaction.value, ts.value))
    else Invalid(channel.Issues() + reaction.Issues() + ts.Issues())
  }

  function ParseChannelHistory(args: Option<Json>): (r: Parsed<ChannelHistoryArgs>)
    ensures r.Valid? <==>
      && IsObject(args)
      && StringAccepted(Get(FieldsOf(args), "channel_id"), AnyString)
      && OptionalStringAccepted(Get(FieldsOf(args), "cursor"), AnyString)
      && IntegerAccepted(Get(FieldsOf(args), "limit").GetOr(JNum(100.0)), 1, Some(1000))
    ensures r.Valid? ==> FieldsOf(args)["channel_id"] == JStr(r.value.channelId)
    ensures r.Valid? ==> Carries(FieldsOf(args), "cursor", r.value.cursor)
    ensures r.Valid? ==> NumberOrDefault(FieldsOf(args), "limit", 100, r.value.limit)
    ensures r.Valid? ==> 1 <= r.value.limit <= 1000
    ensures r.Valid? && "limit" !in FieldsOf(args) ==> r.value.limit == 100
    ensures WellFormed(r)
  {
    if !IsObject(args) then Invalid(NotAnObject) else
    var m := args.value.fields;
    var channel := RequiredString("channel_id", Get(m, "channel_id"), AnyString);
    var cursor := OptionalString("cursor", Get(m, "cursor"), AnyString);
    var limit := IntegerWithDefault("limit", Get(m, "limit"), 1, Some(1000), 100);
    if channel.Valid? && cursor.Valid? && limit.Valid? then Valid(ChannelHistoryArgs(channel.value, cursor.value, limit.value))
    else Invalid(channel.Issues() + cursor.Issues() + limit.Issues())
  }

  function ParseThreadReplies(args: Option<Json>): (r: Parsed<ThreadRepliesArgs>)
    ensures r.Valid? <==>
      && IsObject(args)
      && StringAccepted(Get(FieldsOf(args), "channel_id"), AnyString)
      && StringAccepted(Get(FieldsOf(args), "thread_ts"), TimestampFormat)
      && OptionalStringAccepted(Get(FieldsOf(args), "cursor"), AnyString)
      && IntegerAccepted(Get(FieldsOf(args), "limit").GetOr(JNum(100.0)), 1, Some(1000))
    ensures r.Valid? ==> FieldsOf(args)["channel_id"] == JStr(r.value.channelId)
    ensures r.Valid? ==> FieldsOf(args)["thread_ts"] == JStr(r.value.threadTs)
    ensures r.Valid? ==> Carries(FieldsOf(args), "cursor", r.value.cursor)
    ensures r.Valid? ==> NumberOrDefault(FieldsOf(args), "limit", 100, r.value.limit)
    ensures r.Valid? ==> IsTimestamp(r.value.threadTs) && |r.value.threadTs| == 17 && 1 <= r.value.limit <= 1000
    ensures r.Valid? && "limit" !in FieldsOf(args) ==> r.value.limit == 100
    ensures WellFormed(r)
  {
    if !IsObject(args) then Invalid(NotAnObject) else
    var m := args.value.fields;
    var channel := RequiredString("channel_id", Get(m, "channel_id"), AnyString);
    var ts := RequiredString("thread_ts", Get(m, "thread_ts"), TimestampFormat);
    var cursor := OptionalString("cursor", Get(m, "cursor"), AnyString);
    var limit := IntegerWithDefault("limit", Get(m, "limit"), 1, Some(1000), 100);
    if channel.Valid? && ts.Valid? && cursor.Valid? && limit.Valid? then
      Valid(ThreadRepliesArgs(channel.value, ts.value, cursor.value, limit.value))
    else Invalid(channel.Issues() + ts.Issues() + cursor.Issues() + limit.Issues())
  }

  /** Unlike the other listings, the user listing's limit has no upper bound. */
  function ParseGetUsers(args: Option<Json>): (r: Parsed<GetUsersArgs>)
    ensures r.Valid? <==>
      && IsObject(args)
      && OptionalStringAccepted(Get(FieldsOf(args), "cursor"), AnyString)
      && IntegerAccepted(Get(FieldsOf(args), "limit").GetOr(JNum(100.0)), 1, None)
    ensures r.Valid? ==> Carries(FieldsOf(args), "cursor", r.value.cursor)
    ensures r.Valid? ==> NumberOrDefault(FieldsOf(args), "limit", 100, r.value.limit)
    ensures r.Valid? ==> 1 <= r.value.limit
    ensures r.Valid? && "limit" !in FieldsOf(args) ==> r.value.limit == 100
    ensures WellFormed(r)
  {
    if !IsObject(args) then Invalid(NotAnObject) else
    var m := args.value.fields;
    var cursor := OptionalString("cursor", Get(m, "cursor"), AnyString);
    var limit := IntegerWithDefault("limit", Get(m, "limit"), 1, None, 100);
    if cursor.Valid? && limit.Valid? then Valid(GetUsersArgs(cursor.value, limit.value))
    else Invalid(cursor.Issues() + limit.Issues())
  }

  function ParseUserProfile(args: Option<Json>): (r: Parsed<UserProfileArgs>)
    ensures r.Valid? <==> IsObject(args) && StringAccepted(Get(FieldsOf(args), "user_id"), AnyString)
    ensures r.Valid? ==> FieldsOf(args)["user_id"] == JStr(r.value.userId)
    ensures WellFormed(r)
  {
    if !IsObject(args) then Invalid(NotAnObject) else
    var user := RequiredString("user_id", Get(args.value.fields, "user_id"), AnyString);
    if user.Valid? then Valid(UserProfileArgs(user.value)) else Invalid(user.issues)
  }

  function ParseUserProfiles(args: Option<Json>): (r: Parsed<UserProfilesArgs>)
    ensures r.Valid? <==>
      && IsObject(args)
      && "user_ids" in FieldsOf(args)
      && FieldsOf(args)["user_ids"].JArr?
      && 1 <= |FieldsOf(args)["user_ids"].items| <= 100
      && forall i | 0 <= i < |FieldsOf(args)["user_ids"].items| :: FieldsOf(args)["user_ids"].items[i].JStr?
    ensures r.Valid? ==> |r.value.userIds| == |FieldsOf(args)["user_ids"].items| && 1 <= |r.value.userIds| <= 100
    ensures r.Valid? ==> forall i | 0 <= i < |r.value.userIds| ::
      FieldsOf(args)["user_ids"].items[i] == JStr(r.value.userIds[i])
    ensures WellFormed(r)
  {
    if !IsObject(args) then Invalid(NotAnObject) else
    var ids := StringList("user_ids", Get(args.value.fields, "user_ids"), 1, 100);
    if ids.Valid? then Valid(UserProfilesArgs(ids.value)) else Invalid(ids.issues)
  }

  /** What the search schema accepts among the text fields. */
  predicate SearchTextAccepted(m: map<string, Json>) {
    && (Get(m, "query").None? || (m["query"].JStr? && !HasModifier(m["query"].s)))
    && OptionalStringAccepted(Get(m, "in_channel"), ChannelIdFormat)
    && OptionalStringAccepted(Get(m, "from_user"), UserIdFormat)
    && OptionalStringAccepted(Get(m, "before"), DateFormat)
    && OptionalStringAccepted(Get(m, "after"), DateFormat)
    && OptionalStringAccepted(Get(m, "on"), DateFormat)
    && OptionalStringAccepted(Get(m, "during"), AnyString)
  }

  /** What the search schema accepts among the result-shaping fields. */
  predicate SearchOptionsAccepted(m: map<string, Json>) {
    && (Get(m, "highlight").None? || m["highlight"].JBool?)
    && (Get(m, "sort").None? || (m["sort"].JStr? && m["sort"].s in {"score", "timestamp"}))
    && (Get(m, "sort_dir").None? || (m["sort_dir"].JStr? && m["sort_dir"].s in {"asc", "desc"}))
    && IntegerAccepted(Get(m, "count").GetOr(JNum(20.0)), 1, Some(100))
    && IntegerAccepted(Get(m, "page").GetOr(JNum(1.0)), 1, Some(100))
  }

  datatype SearchText = SearchText(
    query: string,
    inChannel: Option<string>,
    fromUser: Option<string>,
    before: Option<string>,
    after: Option<string>,
    on: Option<string>,
    during: Option<string>)

  datatype SearchOptions = SearchOptions(highlight: bool, sort: SortKey, sortDir: SortDir, count: int, page: int)

  /** Each text field of `m`, or its default, is the one in `t`. */
  predicate TextCarried(m: map<string, Json>, t: SearchText) {
    && Get(m, "query").GetOr(JStr("")) == JStr(t.query)
    && Carries(m, "in_channel", t.inChannel)
    && Carries(m, "from_user", t.fromUser)
    && Carries(m, "before", t.before)
    && Carries(m, "after", t.after)
    && Carries(m, "on", t.on)
    && Carries(m, "during", t.during)
  }

  /** Each result-shaping field of `m`, or its default, is the one in `o`. */
  predicate OptionsCarried(m: map<string, Json>, o: SearchOptions) {
    && Get(m, "highlight").GetOr(JBool(false)) == JBool(o.highlight)
    && Get(m, "sort").GetOr(JStr("score")) == JStr(SortKeyName(o.sort))
    && Get(m, "sort_dir").GetOr(JStr("desc")) == JStr(SortDirName(o.sortDir))
    && NumberOrDefault(m, "count", 20, o.count)
    && NumberOrDefault(m, "page", 1, o.page)
  }

  /** The fields `query` to `during`, in declaration order. */
  function ParseSearchText(m: map<string, Json>): (r: Parsed<SearchText>)
    ensures r.Valid? <==> SearchTextAccepted(m)
    ensures r.Valid? ==> r.value.query == "" || !HasModifier(r.value.query)
    ensures r.Valid? ==> r.value.query == (if "query" in m then m["query"].s else "")
    ensures r.Valid? ==> r.value.inChannel.None? || IsChannelId(r.value.inChannel.value)
    ensures r.Valid? ==> r.value.fromUser.None? || IsUserId(r.value.fromUser.value)
    ensures r.Valid? ==> forall d | d in [r.value.before, r.value.after, r.value.on] :: d.None? || IsDateShape(d.value)
    ensures r.Valid? ==> TextCarried(m, r.value)
    ensures WellFormed(r)
  {
    var query := QueryWithDefault("query", Get(m, "query"));
    var inChannel := OptionalString("in_channel", Get(m, "in_channel"), ChannelIdFormat);
    var fromUser := OptionalString("from_user", Get(m, "from_user"), UserIdFormat);
    var before := OptionalString("before", Get(m, "before"), DateFormat);
    var after := OptionalString("after", Get(m, "after"), DateFormat);
    var on := OptionalString("on", Get(m, "on"), DateFormat);
    var during := OptionalString("during", Get(m, "during"), AnyString);
    if && query.Valid? && inChannel.Valid? && fromUser.Valid? && before.Valid? && after.Valid?
       && on.Valid? && during.Valid?
    then
      Valid(SearchText(query.value, inChannel.value, fromUser.value, before.value, after.value, on.value, during.value))
    else
      Invalid(
        query.Issues() + inChannel.Issues() + fromUser.Issues() + before.Issues() + after.Issues()
        + on.Issues() + during.Issues())
  }

  /** The fields `highlight` to `page`, in declaration order. */
  function ParseSearchOptions(m: map<string, Json>): (r: Parsed<SearchOptions>)
    ensures r.Valid? <==> SearchOptionsAccepted(m)
    ensures r.Valid? ==> 1 <= r.value.count <= 100 && 1 <= r.value.page <= 100
    ensures r.Valid? && "count" !in m ==> r.value.count == 20
    ensures r.Valid? && "page" !in m ==> r.value.page == 1
    ensures r.Valid? && "highlight" !in m ==> !r.value.highlight
    ensures r.Valid? && "sort" !in m ==> r.value.sort == ByScore
    ensures r.Valid? && "sort_dir" !in m ==> r.value.sortDir == Descending
    ensures r.Valid? ==> OptionsCarried(m, r.value)
    ensures WellFormed(r)
  {
    var highlight := BooleanWithDefault("highlight", Get(m, "highlight"), false);
    var sort := EnumWithDefault("sort", Get(m, "sort"), ["score", "timestamp"], "score");
    var sortDir := EnumWithDefault("sort_dir", Get(m, "sort_dir"), ["asc", "desc"], "desc");
    var count := IntegerWithDefault("count", Get(m, "count"), 1, Some(100), 20);
    var page := IntegerWithDefault("page", Get(m, "page"), 1, Some(100), 1);
    if highlight.Valid? && sort.Valid? && sortDir.Valid? && count.Valid? && page.Valid? then
      Valid(SearchOptions(
        highlight.value,
        if sort.value == "score" then ByScore else ByTimestamp,
        if sortDir.value == "asc" then Ascending else Descending,
        count.value, page.value))
    else
      Invalid(highlight.Issues() + sort.Issues() + sortDir.Issues() + count.Issues() + page.Issues())
  }

  function TextOf(a: SearchArgs): SearchText {
    SearchText(a.query, a.inChannel, a.fromUser, a.before, a.after, a.on, a.during)
  }

  function OptionsOf(a: SearchArgs): SearchOptions {
    SearchOptions(a.highlight, a.sort, a.sortDir, a.count, a.page)
  }

  /** The declared filters; `in_group`, `in_dm` and `from_bot` are not among them. */
  function ParseSearch(args: Option<Json>): (r: Parsed<SearchArgs>)
    ensures r.Valid? <==> IsObject(args) && SearchTextAccepted(FieldsOf(args)) && SearchOptionsAccepted(FieldsOf(args))
    ensures r.Valid? ==> r.value.query == "" || !HasModifier(r.value.query)
    ensures r.Valid? ==> r.value.inChannel.None? || IsChannelId(r.value.inChannel.value)
    ensures r.Valid? ==> r.value.fromUser.None? || IsUserId(r.value.fromUser.value)
    ensures r.Valid? ==> 1 <= r.value.count <= 100 && 1 <= r.value.page <= 100
    ensures r.Valid? ==> forall d | d in [r.value.before, r.value.after, r.value.on] :: d.None? || IsDateShape(d.value)
    ensures r.Valid? ==> TextCarried(FieldsOf(args), TextOf(r.value))
    ensures r.Valid? ==> OptionsCarried(FieldsOf(args), OptionsOf(r.value))
    ensures WellFormed(r)
  {
    if !IsObject(args) then Invalid(NotAnObject) else
    var text := ParseSearchText(args.value.fields);
    var options := ParseSearchOptions(args.value.fields);
    if text.Valid? && options.Valid? then
      var t := text.value;
      var o := options.value;
      Valid(SearchArgs(t.query, t.inChannel, t.fromUser, t.before, t.after, t.on, t.during,
                       o.highlight, o.sort, o.sortDir, o.count, o.page))
    else Invalid(text.Issues() + options.Issues())
  }

  /** `r` has the verdict and the issues of `p`. */
  predicate SameVerdict<T>(r: Parsed<ToolArgs>, p: Parsed<T>) {
    (r.Valid? <==> p.Valid?) && r.Issues() == p.Issues()
  }

  /** The tool a validated request belongs to. */
  function ToolOf(a: ToolArgs): Tool {
    match a
    case ListChannelsRequest(_) => ListChannels
    case PostMessageRequest(_) => PostMessage
    case ReplyToThreadRequest(_) => ReplyToThread
    case AddReactionRequest(_) => AddReaction
    case ChannelHistoryRequest(_) => GetChannelHistory
    case ThreadRepliesRequest(_) => GetThreadReplies
    case GetUsersRequest(_) => GetUsers
    case UserProfileRequest(_) => GetUserProfile
    case UserProfilesRequest(_) => GetUserProfiles
    case SearchRequest(_) => SearchMessages
  }

  /** The request schema of each tool. */
  function ParseArgs(t: Tool, args: Option<Json>): (r: Parsed<ToolArgs>)
    ensures r.Valid? ==> IsObject(args) && ToolOf(r.value) == t
    ensures WellFormed(r)
  {
    match t
    case ListChannels => Lift(ParseListChannels(args), a => ListChannelsRequest(a))
    case PostMessage => Lift(ParsePostMessage(args), a => PostMessageRequest(a))
    case ReplyToThread => Lift(ParseReplyToThread(args), a => ReplyToThreadRequest(a))
    case AddReaction => Lift(ParseAddReaction(args), a => AddReactionRequest(a))
    case GetChannelHistory => Lift(ParseChannelHistory(args), a => ChannelHistoryRequest(a))
    case GetThreadReplies => Lift(ParseThreadReplies(args), a => ThreadRepliesRequest(a))
    case GetUsers => Lift(ParseGetUsers(args), a => GetUsersRequest(a))
    case GetUserProfile => Lift(ParseUserProfile(args), a => UserProfileRequest(a))
    case GetUserProfiles => Lift(ParseUserProfiles(args), a => UserProfilesRequest(a))
    case SearchMessages => Lift(ParseSearch(args), a => SearchRequest(a))
  }

  /** A tool's own parse result, as a request of any tool. */
  function Lift<T>(r: Parsed<T>, wrap: T -> ToolArgs): (l: Parsed<ToolArgs>)
    ensures SameVerdict(l, r)
  {
    match r
    case Valid(v) => Valid(wrap(v))
    case Invalid(issues) => Invalid(issues)
  }

  const SearchTextKeys: seq<string> := ["query", "in_channel", "from_user", "before", "after", "on", "during"]
  const SearchOptionKeys: seq<string> := ["highlight", "sort", "sort_dir", "count", "page"]

  /** The keys each request schema declares, in declaration order: the order zod checks them in. */
  function KeyOrder(t: Tool): (keys: seq<string>)
    ensures forall k :: k in keys <==> k in InputKeys(t)
    ensures forall i, j | 0 <= i < j < |keys| :: keys[i] != keys[j]
  {
    match t
    case ListChannels => ["cursor", "limit"]
    case PostMessage => ["channel_id", "text"]
    case ReplyToThread => ["channel_id", "text", "thread_ts"]
    case AddReaction => ["channel_id", "reaction", "timestamp"]
    case GetChannelHistory => ["channel_id", "cursor", "limit"]
    case GetThreadReplies => ["channel_id", "thread_ts", "cursor", "limit"]
    case GetUsers => ["cursor", "limit"]
    case GetUserProfile => ["user_id"]
    case GetUserProfiles => ["user_ids"]
    case SearchMessages => SearchTextKeys + SearchOptionKeys
  }

  /** The keys each request schema declares (its JSON Schema `properties`). */
  function InputKeys(t: Tool): (keys: set<string>)
    ensures "in_group" !in keys && "in_dm" !in keys && "from_bot" !in keys
  {
    match t
    case ListChannels => {"cursor", "limit"}
    case PostMessage => {"channel_id", "text"}
    case ReplyToThread => {"channel_id", "text", "thread_ts"}
    case AddReaction => {"channel_id", "reaction", "timestamp"}
    case GetChannelHistory => {"channel_id", "cursor", "limit"}
    case GetThreadReplies => {"channel_id", "thread_ts", "cursor", "limit"}
    case GetUsers => {"cursor", "limit"}
    case GetUserProfile => {"user_id"}
    case GetUserProfiles => {"user_ids"}
    case SearchMessages =>
      {"query", "in_channel", "from_user", "before", "after", "on", "during",
       "highlight", "sort", "sort_dir", "count", "page"}
  }
}

module RequestFacts {
  import opened Wrappers
  import opened JsonValue
  import opened Patterns
  import opened Tools
  import opened Requests
  import PatternFacts

  /**
   * The request schemas are not strict: keys a schema does not declare are
   * dropped, so adding them never changes the outcome.
   */
  lemma {:induction false} UnknownKeysIgnored(t: Tool, m: map<string, Json>, extra: map<string, Json>)
    requires extra.Keys !! InputKeys(t)
    ensures ParseArgs(t, Some(JObj(m + extra))) == ParseArgs(t, Some(JObj(m)))
  {
    forall k | k in InputKeys(t) ensures Get(m + extra, k) == Get(m, k) {
      assert k !in extra;
    }
    var a, b := Some(JObj(m + extra)), Some(JObj(m));
    match t
    case ListChannels => assert ParseListChannels(a) == ParseListChannels(b);
    case PostMessage => assert ParsePostMessage(a) == ParsePostMessage(b);
    case ReplyToThread => assert ParseReplyToThread(a) == ParseReplyToThread(b);
    case AddReaction => assert ParseAddReaction(a) == ParseAddReaction(b);
    case GetChannelHistory => assert ParseChannelHistory(a) == ParseChannelHistory(b);
    case GetThreadReplies => assert ParseThreadReplies(a) == ParseThreadReplies(b);
    case GetUsers => assert ParseGetUsers(a) == ParseGetUsers(b);
    case GetUserProfile => assert ParseUserProfile(a) == ParseUserProfile(b);
    case GetUserProfiles => assert ParseUserProfiles(a) == ParseUserProfiles(b);
    case SearchMessages =>
      assert ParseSearchText(m + extra) == ParseSearchText(m);
      assert ParseSearchOptions(m + extra) == ParseSearchOptions(m);
  }

  /** The switch validates each tool's arguments with that tool's own schema, and with nothing else. */
  lemma ParseArgsUsesToolSchema(t: Tool, args: Option<Json>)
    ensures var r := ParseArgs(t, args);
      match t
      case ListChannels =>
        SameVerdict(r, ParseListChannels(args)) && (r.Valid? ==> r.value == ListChannelsRequest(ParseListChannels(args).value))
      case PostMessage =>
        SameVerdict(r, ParsePostMessage(args)) && (r.Valid? ==> r.value == PostMessageRequest(ParsePostMessage(args).value))
      case ReplyToThread =>
        SameVerdict(r, ParseReplyToThread(args)) && (r.Valid? ==> r.value == ReplyToThreadRequest(ParseReplyToThread(args).value))
      case AddReaction =>
        SameVerdict(r, ParseAddReaction(args)) && (r.Valid? ==> r.value == AddReactionRequest(ParseAddReaction(args).value))
      case GetChannelHistory =>
        SameVerdict(r, ParseChannelHistory(args)) && (r.Valid? ==> r.value == ChannelHistoryRequest(ParseChannelHistory(args).value))
      case GetThreadReplies =>
        SameVerdict(r, ParseThreadReplies(args)) && (r.Valid? ==> r.value == ThreadRepliesRequest(ParseThreadReplies(args).value))
      case GetUsers =>
        SameVerdict(r, ParseGetUsers(args)) && (r.Valid? ==> r.value == GetUsersRequest(ParseGetUsers(args).value))
      case GetUserProfile =>
        SameVerdict(r, ParseUserProfile(args)) && (r.Valid? ==> r.value == UserProfileRequest(ParseUserProfile(args).value))
      case GetUserProfiles =>
        SameVerdict(r, ParseUserProfiles(args)) && (r.Valid? ==> r.value == UserProfilesRequest(ParseUserProfiles(args).value))
      case SearchMessages =>
        SameVerdict(r, ParseSearch(args)) && (r.Valid? ==> r.value == SearchRequest(ParseSearch(args).value))
  {
  }

  /** Even a schema whose fields are all optional rejects absent arguments: zod expects an object. */
  lemma MissingArgumentsRejected(t: Tool)
    ensures ParseArgs(t, None) == Invalid([Issue([], InvalidType("object"))])
    ensures ParseArgs(t, Some(JNull)) == Invalid([Issue([], InvalidType("object"))])
  {
  }

  /** An empty argument object takes every default. */
  lemma EmptyObjectDefaults()
    ensures ParseListChannels(Some(JObj(map[]))) == Valid(ListChannelsArgs(None, 100))
    ensures ParseGetUsers(Some(JObj(map[]))) == Valid(GetUsersArgs(None, 100))
    ensures ParseSearch(Some(JObj(map[])))
         == Valid(SearchArgs("", None, None, None, None, None, None, false, ByScore, Descending, 20, 1))
  {
    var none: map<string, Json> := map[];
    assert HasModifier("") == false;
    assert ParseSearchText(none) == Valid(SearchText("", None, None, None, None, None, None));
    assert ParseSearchOptions(none) == Valid(SearchOptions(false, ByScore, Descending, 20, 1));
  }

  /** The timestamp check rejects a short value, naming the field and the source's message. */
  lemma ShortTimestampRejected()
    ensures
      var m := map["channel_id" := JStr("C1"), "reaction" := JStr("tada"), "timestamp" := JStr("12345")];
      ParseAddReaction(Some(JObj(m)))
        == Invalid([Issue([Key("timestamp")], InvalidString("Timestamp must be in the format '1234567890.123456'"))])
  {
    var m := map["channel_id" := JStr("C1"), "reaction" := JStr("tada"), "timestamp" := JStr("12345")];
    assert !IsTimestamp("12345");
    assert RequiredString("timestamp", Get(m, "timestamp"), TimestampFormat)
        == Invalid([Issue([Key("timestamp")], InvalidString(RuleMessage(TimestampFormat)))]);
    assert RequiredString("channel_id", Get(m, "channel_id"), AnyString) == Valid("C1");
    assert RequiredString("reaction", Get(m, "reaction"), AnyString) == Valid("tada");
  }

  /** Sixteen digits without the dot are not a timestamp. */
  lemma UndottedTimestampRejected()
    ensures
      var m := map["channel_id" := JStr("C1"), "reaction" := JStr("tada"), "timestamp" := JStr("1234567890123456")];
      ParseAddReaction(Some(JObj(m))).Invalid?
  {
    assert !IsTimestamp("1234567890123456");
  }

  /** Ten digits, a dot and six digits are a timestamp, and the reaction request passes through unchanged. */
  lemma DottedTimestampAccepted()
    ensures
      var m := map["channel_id" := JStr("C1"), "reaction" := JStr("tada"), "timestamp" := JStr("1234567890.123456")];
      ParseAddReaction(Some(JObj(m))) == Valid(AddReactionArgs("C1", "tada", "1234567890.123456"))
  {
    var good := "1234567890.123456";
    PatternFacts.TimestampParts("1234567890", "123456");
    assert good == "1234567890" + "." + "123456";
    assert IsTimestamp(good);
  }

  /** Listing channels caps `limit` at 1000; listing users does not cap it at all. */
  lemma LimitBounds()
    ensures ParseListChannels(Some(JObj(map["limit" := JNum(5000.0)])))
         == Invalid([Issue([Key("limit")], TooBig(1000))])
    ensures ParseGetUsers(Some(JObj(map["limit" := JNum(5000.0)]))) == Valid(GetUsersArgs(None, 5000))
    ensures ParseGetUsers(Some(JObj(map["limit" := JNum(0.5)])))
         == Invalid([Issue([Key("limit")], InvalidType("integer")), Issue([Key("limit")], TooSmall(1))])
  {
    assert !IsIntegral(0.5);
  }

  /** `user_ids` must hold one to a hundred strings; each non-string element is reported at its index. */
  lemma UserIdsBounds()
    ensures ParseUserProfiles(Some(JObj(map["user_ids" := JArr([])])))
         == Invalid([Issue([Key("user_ids")], TooSmall(1))])
    ensures ParseUserProfiles(Some(JObj(map["user_ids" := JArr([JStr("U1"), JNum(2.0)])])))
         == Invalid([Issue([Key("user_ids"), Index(1)], InvalidType("string"))])
    ensures ParseUserProfiles(Some(JObj(map["user_ids" := JArr([JStr("U1"), JStr("U2")])])))
         == Valid(UserProfilesArgs(["U1", "U2"]))
  {
    NonStringElement();
    TwoUserIds();
  }

  lemma NonStringElement()
    ensures ParseUserProfiles(Some(JObj(map["user_ids" := JArr([JStr("U1"), JNum(2.0)])])))
         == Invalid([Issue([Key("user_ids"), Index(1)], InvalidType("string"))])
  {
    var two := [JStr("U1"), JNum(2.0)];
    assert two[..1] == [JStr("U1")];
    assert [JStr("U1")][..0] == [];
  }

  lemma TwoUserIds()
    ensures ParseUserProfiles(Some(JObj(map["user_ids" := JArr([JStr("U1"), JStr("U2")])])))
         == Valid(UserProfilesArgs(["U1", "U2"]))
  {
    var ok := [JStr("U1"), JStr("U2")];
    assert ok[1..] == [JStr("U2")];
    assert StringsOf([JStr("U2")]) == ["U2"];
    assert StringsOf(ok) == ["U1", "U2"];
  }

  /** A non-string enum value is an `invalid_type` issue that lists the quoted options. */
  lemma EnumTypeIssue()
    ensures ParseSearchOptions(map["sort" := JNum(1.0)])
         == Invalid([Issue([Key("sort")], InvalidType("'score' | 'timestamp'"))])
  {
    var m := map["sort" := JNum(1.0)];
    var options := ["score", "timestamp"];
    assert options[1..] == ["timestamp"];
    assert Alternatives(options) == "'score' | 'timestamp'";
    var issue := Issue([Key("sort")], InvalidType("'score' | 'timestamp'"));
    assert EnumWithDefault("sort", Get(m, "sort"), options, "score") == Invalid([issue]);
    assert BooleanWithDefault("highlight", Get(m, "highlight"), false) == Valid(false);
    assert EnumWithDefault("sort_dir", Get(m, "sort_dir"), ["asc", "desc"], "desc") == Valid("desc");
    assert IntegerWithDefault("count", Get(m, "count"), 1, Some(100), 20) == Valid(20);
    assert IntegerWithDefault("page", Get(m, "page"), 1, Some(100), 1) == Valid(1);
  }

  /** A query carrying a search modifier is refused with the refinement's message. */
  lemma QueryModifierRejected(args: Option<Json>)
    requires args == Some(JObj(map["query" := JStr("hello from:bob")]))
    ensures ParseSearch(args) == Invalid([Issue([Key("query")], Custom(QueryMessage))])
  {
    var m := args.value.fields;
    var refused := [Issue([Key("query")], Custom(QueryMessage))];
    QueryTextRefused(m);
    NoOptionsGiven(m);
    assert ParseSearchText(m).Issues() == refused;
    assert refused + [] == refused;
  }

  /** With none of the result-shaping fields given, every one takes its default. */
  lemma NoOptionsGiven(m: map<string, Json>)
    requires "highlight" !in m && "sort" !in m && "sort_dir" !in m && "count" !in m && "page" !in m
    ensures ParseSearchOptions(m) == Valid(SearchOptions(false, ByScore, Descending, 20, 1))
  {
  }

  lemma QueryTextRefused(m: map<string, Json>)
    requires m == map["query" := JStr("hello from:bob")]
    ensures ParseSearchText(m) == Invalid([Issue([Key("query")], Custom(QueryMessage))])
  {
    PatternFacts.ModifierExamples();
    var refused := [Issue([Key("query")], Custom(QueryMessage))];
    assert QueryWithDefault("query", Get(m, "query")) == Invalid(refused);
    assert OptionalString("in_channel", Get(m, "in_channel"), ChannelIdFormat) == Valid(None);
    assert OptionalString("from_user", Get(m, "from_user"), UserIdFormat) == Valid(None);
    assert OptionalString("before", Get(m, "before"), DateFormat) == Valid(None);
    assert OptionalString("after", Get(m, "after"), DateFormat) == Valid(None);
    assert OptionalString("on", Get(m, "on"), DateFormat) == Valid(None);
    assert OptionalString("during", Get(m, "during"), AnyString) == Valid(None);
  }
}
