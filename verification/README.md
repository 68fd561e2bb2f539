# Slack MCP server: request validation, response sanitizing and tool dispatch

This project is a Dafny model of the core of a Model Context Protocol server
that exposes a Slack workspace as ten tools, with proofs about that model. It covers three parts:

- **Input validation.** Each tool has a zod request schema. The model gives each schema its own
  parser (`Requests.Parse*`). The parser returns the typed request or the
  list of issues zod would report, in zod's order, with zod's codes (a failed `.int()` is
  `invalid_type` with expected `"integer"`) and the schemas' own messages. The four anchored
  regular expressions (`^\d{10}\.\d{6}$`, `^C[A-Z0-9]+$`, `^U[A-Z0-9]+$`,
  `^\d{4}-\d{2}-\d{2}$`) are modelled twice: once through a tiny matcher for anchored
  sequences of character classes with repetition counts, once as a direct characterisation, and
  the two are proved equal (`Patterns`, `PatternFacts`). The search-modifier pattern
  `\b(from|in|…|with):` with `/i` is a declarative predicate (`Patterns.HasModifier`), and a
  left-to-right scan (`Patterns.FindModifier`) is proved to find a match exactly when the
  predicate holds.
- **Response sanitizing.** The platform's replies are parsed against zod object schemas in
  "strip" mode. The model is a schema datatype with one `Sanitize` function, specified by an
  independent "strip, then check conformance" definition (`Sanitizer`,
  `SanitizerFacts`). The server's concrete response schemas are in `Responses`.
- **Dispatch.** The call handler checks the params and switches on the tool name. It then
  validates, makes the platform call(s), checks `ok`, and sanitizes or answers with a
  fixed acknowledgement. Every failure surfaces through one catch as a plain error message (`Dispatcher`).
  The search query assembly is in `Search`. The batch profile lookup is in `Batch`. The
  advertised tool list is in `Catalog`.

The platform is an oracle: a function from a call (client handle plus method
and arguments) to a reply, which is either a returned object or a thrown
error. A call's `Outcome` records every platform call it issued, in order,
so "nothing is called before validation succeeds" is a statement about the
model. zod's e-mail and URL checks are parameters (`Formats`), because
their exact grammar is zod's own.

Three behaviours of the code are easy to misread; the model states each as written:

- Request objects are parsed in zod's default strip mode. Unknown keys, including
  `in_group`, `in_dm` and `from_bot` for the search tool, are silently
  dropped and never rejected (`RequestFacts.UnknownKeysIgnored`).
- `slack_get_users` declares `limit` with a minimum but no maximum
  (`RequestFacts.LimitBounds`).
- The batch profile tool turns every failed lookup into an item whose
  `profile` is `null`. The final parse rejects `null` for an optional field, so a single
  failed lookup makes the whole call fail (`BatchFacts.OneFailureFailsBatch`).
  The model states this as written.

## Model

| member | source | states |
|---|---|---|
| Patterns.FindModifier | src/schemas.ts:231-237 | the scan finds a match exactly when the query contains a modifier word followed by `:` at a word boundary, ignoring ASCII case, and reports the leftmost match |
| PatternFacts.TimestampRegexMeaning | src/schemas.ts:106-110 | the timestamp regex matches exactly the 17-character strings of ten digits, a dot and six digits |
| PatternFacts.TimestampParts | src/schemas.ts:106-110 | `seconds + "." + micros` is a timestamp exactly when the two parts are 10 and 6 digits |
| PatternFacts.ChannelIdRegexMeaning | src/schemas.ts:244-249 | the channel-id regex matches exactly `C` followed by one or more upper-case letters or digits |
| PatternFacts.UserIdRegexMeaning | src/schemas.ts:254-259 | the user-id regex matches exactly `U` followed by one or more upper-case letters or digits |
| PatternFacts.PrefixedIdParts | src/schemas.ts:244-259 | a prefixed id is the prefix followed by a non-empty run of upper-case letters and digits, in both directions |
| PatternFacts.DateRegexMeaning | src/schemas.ts:265-285 | the date regex matches exactly `DDDD-DD-DD` with digits |
| PatternFacts.NoCalendarCheck | src/schemas.ts:265-270 | the date check is about shape only: `2024-13-45` passes and `2024-1-05` does not |
| PatternFacts.ModifierExamples | src/schemas.ts:231-241 | `from:` inside a query, upper-case `FROM:` and `In:` after a parenthesis are modifiers; a bare `in` is not |
| PatternFacts.GluedWordIsNotModifier | src/schemas.ts:234-236 | `login:x` carries no modifier, because `in` there is not at a word boundary |
| PatternFacts.NoColonNoModifier | src/schemas.ts:234-236 | a text without a colon never carries a modifier |
| Tools.ToolNamed | src/index.ts:128-346 | the switch returns a tool only for that tool's exact name |
| Tools.ToolNamesRoundTrip | src/index.ts:128-346 | every tool's name dispatches to that tool, and a name dispatches exactly when some tool carries it |
| Tools.AllToolsComplete | src/index.ts:66-120 | there are ten tools with pairwise distinct names |
| Requests.RequiredString | src/schemas.ts:101-114 | a required string field accepts exactly a present string meeting its format rule, and yields that string |
| Requests.OptionalString | src/schemas.ts:244-291 | an optional string field accepts absence or a conforming string; absence yields `undefined` and `null` is refused |
| Requests.IntegerWithDefault | src/schemas.ts:126-133 | an integer field with a default checks the default like a supplied value, accepts exactly integers within the bounds, and yields the value |
| Requests.BooleanWithDefault | src/schemas.ts:293-296 | a boolean field accepts absence or a boolean; absence yields the default |
| Requests.EnumWithDefault | src/schemas.ts:298-306 | an enum field accepts absence or one of its options; absence yields the default, and the result is always an option |
| Requests.QueryWithDefault | src/schemas.ts:224-242 | the query accepts absence or a string without a modifier; absence yields the empty string |
| Requests.NonStringItems | src/schemas.ts:181-182 | an array yields no element issue exactly when every element is a string; each issue names the index of a non-string element |
| Requests.StringList | src/schemas.ts:180-186 | a list of ids accepts exactly arrays of 1 to 100 strings and yields them element by element |
| Requests.ParseListChannels | src/schemas.ts:188-201 | the request is valid exactly when the arguments are an object with an optional string cursor and an integer limit in 1..1000; a valid result carries the given cursor, and the given limit or 100 when none is given; which field an invalid result names is stated by `IssueFacts.ListChannelsIssues` |
| Requests.ParsePostMessage | src/schemas.ts:203-206 | the request is valid exactly when the arguments are an object whose `channel_id` and `text` are strings; both are passed through unchanged; which field an invalid result names is stated by `IssueFacts.PostMessageIssues` |
| Requests.ParseReplyToThread | src/schemas.ts:208-221 | the request is valid exactly when the arguments are an object whose `channel_id` and `text` are strings and whose `thread_ts` is a timestamp; all three are passed through unchanged; which field an invalid result names is stated by `IssueFacts.ReplyToThreadIssues` |
| Requests.ParseAddReaction | src/schemas.ts:101-114 | the request is valid exactly when the arguments are an object whose `channel_id` and `reaction` are strings and whose `timestamp` is a timestamp; all three are passed through unchanged; which field an invalid result names is stated by `IssueFacts.AddReactionIssues` |
| Requests.ParseChannelHistory | src/schemas.ts:116-134 | the request is valid exactly when the arguments are an object with a string channel, an optional cursor and an integer limit in 1..1000; a valid result carries the given channel and cursor, and the given limit or 100; which field an invalid result names is stated by `IssueFacts.ChannelHistoryIssues` |
| Requests.ParseThreadReplies | src/schemas.ts:136-160 | the request is valid exactly when the arguments are an object with a string channel, a timestamp thread, an optional cursor and an integer limit in 1..1000; a valid result carries the given channel, thread and cursor, and the given limit or 100; which field an invalid result names is stated by `IssueFacts.ThreadRepliesIssues` |
| Requests.ParseGetUsers | src/schemas.ts:162-174 | the request is valid exactly when the arguments are an object with an optional cursor and an integer limit of at least 1, with no upper bound; a valid result carries the given cursor, and the given limit or 100; which field an invalid result names is stated by `IssueFacts.GetUsersIssues` |
| Requests.ParseUserProfile | src/schemas.ts:176-178 | the request is valid exactly when the arguments are an object whose `user_id` is a string; which field an invalid result names is stated by `IssueFacts.UserProfileIssues` |
| Requests.ParseUserProfiles | src/schemas.ts:180-186 | the request is valid exactly when the arguments are an object whose `user_ids` holds 1 to 100 strings; the ids are passed through in order; which field an invalid result names is stated by `IssueFacts.UserProfilesIssues` |
| Requests.ParseSearchText | src/schemas.ts:224-291 | the query and filter fields are valid exactly when each is absent or well-formed; a valid result carries the given query (or the empty string) and exactly the given filters and dates, the query has no modifier, ids match their patterns and dates have their shape; which field an invalid result names is stated by the `IssueFacts.Search*Issues` lemmas of the text fields |
| Requests.ParseSearchOptions | src/schemas.ts:293-324 | the result-shaping fields are valid exactly when each is absent or well-formed; a valid result carries each given value, or the defaults `false`, `score`, `desc`, 20 and 1; count and page lie in 1..100; which field an invalid result names is stated by the `IssueFacts.Search*Issues` lemmas of the options |
| Requests.ParseSearch | src/schemas.ts:223-325 | the search request is valid exactly when the arguments are an object whose text and options groups are both valid; a valid request carries the given query, filters, dates and options (or their defaults), and keeps the text group's modifier, id and date-shape guarantees; which field an invalid request names is stated by `IssueFacts.SearchIssues` |
| Requests.KeyOrder | src/schemas.ts:101-325 | each request schema's keys in declaration order: exactly its declared keys, each once |
| IssueFacts.GroupedIssuesNameKeys | src/schemas.ts:101-325 | every issue of a list grouped by a schema's keys has one of those keys at the head of its path |
| IssueFacts.ListChannelsIssues | src/schemas.ts:188-201 | a non-object fails with the one root issue; otherwise the issues are the cursor's, then the limit's, each field's being exactly its own check's, and a field is named exactly when its check refuses it |
| IssueFacts.PostMessageIssues | src/schemas.ts:203-206 | a non-object fails with the one root issue; otherwise the channel's issues, then the text's, and a field is named exactly when it is not a string |
| IssueFacts.ReplyToThreadIssues | src/schemas.ts:208-221 | a non-object fails with the one root issue; otherwise the channel's, text's and thread timestamp's issues in that order, and a field is named exactly when its check refuses it |
| IssueFacts.AddReactionIssues | src/schemas.ts:101-114 | a non-object fails with the one root issue; otherwise the channel's, emoji name's and timestamp's issues in that order, and a field is named exactly when its check refuses it |
| IssueFacts.ChannelHistoryIssues | src/schemas.ts:116-134 | a non-object fails with the one root issue; otherwise the channel's, cursor's and limit's issues in that order, and a field is named exactly when its check refuses it |
| IssueFacts.ThreadRepliesIssues | src/schemas.ts:136-160 | a non-object fails with the one root issue; otherwise the channel's, thread's, cursor's and limit's issues in that order, and a field is named exactly when its check refuses it |
| IssueFacts.GetUsersIssues | src/schemas.ts:162-174 | a non-object fails with the one root issue; otherwise the cursor's issues, then the limit's, and a field is named exactly when its check refuses it |
| IssueFacts.UserProfileIssues | src/schemas.ts:176-178 | a non-object fails with the one root issue; otherwise every issue is at `user_id`, and there is one exactly when it is not a string |
| IssueFacts.UserProfilesIssues | src/schemas.ts:180-186 | a non-object fails with the one root issue; otherwise the issues are the id list's own, all at `user_ids`, and there are some exactly when the request is refused |
| IssueFacts.SearchTextGrouped | src/schemas.ts:224-291 | the text fields' issues come field by field in declaration order |
| IssueFacts.SearchQueryIssues | src/schemas.ts:224-242 | the issues at `query` are its own check's, and there are some exactly when the query is present and not a modifier-free string |
| IssueFacts.SearchInChannelIssues | src/schemas.ts:244-252 | the issues at `in_channel` are its own check's, and there are some exactly when it is present and not a channel id |
| IssueFacts.SearchFromUserIssues | src/schemas.ts:254-262 | the issues at `from_user` are its own check's, and there are some exactly when it is present and not a user id |
| IssueFacts.SearchBeforeIssues | src/schemas.ts:265-271 | the issues at `before` are its own check's, and there are some exactly when it is present and not a date-shaped string |
| IssueFacts.SearchAfterIssues | src/schemas.ts:272-278 | the issues at `after` are its own check's, and there are some exactly when it is present and not a date-shaped string |
| IssueFacts.SearchOnIssues | src/schemas.ts:279-285 | the issues at `on` are its own check's, and there are some exactly when it is present and not a date-shaped string |
| IssueFacts.SearchDuringIssues | src/schemas.ts:286-291 | the issues at `during` are its own check's, and there are some exactly when it is present and not a string |
| IssueFacts.SearchOptionsGrouped | src/schemas.ts:293-324 | the result-shaping fields' issues come field by field in declaration order |
| IssueFacts.SearchHighlightIssues | src/schemas.ts:293-297 | the issues at `highlight` are its own check's, and there are some exactly when it is present and not a boolean |
| IssueFacts.SearchSortIssues | src/schemas.ts:298-302 | the issues at `sort` are its own check's, and there are some exactly when it is present and not `score` or `timestamp` |
| IssueFacts.SearchSortDirIssues | src/schemas.ts:303-307 | the issues at `sort_dir` are its own check's, and there are some exactly when it is present and not `asc` or `desc` |
| IssueFacts.SearchCountIssues | src/schemas.ts:309-316 | the issues at `count` are its own check's, and there are some exactly when the count, or 20, is not an integer in 1..100 |
| IssueFacts.SearchPageIssues | src/schemas.ts:317-324 | the issues at `page` are its own check's, and there are some exactly when the page, or 1, is not an integer in 1..100 |
| IssueFacts.SearchIssues | src/schemas.ts:223-325 | a non-object fails with the one root issue; otherwise the issues are grouped by the search's declared keys, and each text or option field has exactly its group's issues |
| Requests.ParseArgs | src/index.ts:130-305 | a valid result belongs to the requested tool and comes from an object |
| RequestFacts.ParseArgsUsesToolSchema | src/index.ts:130-305 | each tool's arguments are judged by that tool's own schema: same verdict, same issues, and the tool's own parsed value |
| Requests.InputKeys | src/schemas.ts:223-325 | the search tool declares no `in_group`, `in_dm` or `from_bot` key, so those filters never survive parsing |
| RequestFacts.UnknownKeysIgnored | src/schemas.ts:101-325 | keys a schema does not declare never change the result of parsing |
| RequestFacts.MissingArgumentsRejected | src/schemas.ts:101-325 | missing or `null` arguments fail with a single invalid-type issue at the root, for every tool |
| RequestFacts.EmptyObjectDefaults | src/schemas.ts:188-201 | an empty object gives channel listing and user listing the limit 100, and gives search all of its defaults |
| RequestFacts.ShortTimestampRejected | src/schemas.ts:106-110 | a short timestamp gets exactly one issue, at `timestamp`, carrying the schema's message |
| RequestFacts.UndottedTimestampRejected | src/schemas.ts:106-110 | sixteen digits without the dot are refused |
| RequestFacts.DottedTimestampAccepted | src/schemas.ts:101-114 | a well-formed reaction request passes through unchanged |
| RequestFacts.LimitBounds | src/schemas.ts:162-201 | 5000 is too big for channel listing, but users listing accepts it; 0.5 gets an invalid-type issue expecting an integer, then a too-small issue |
| RequestFacts.UserIdsBounds | src/schemas.ts:180-186 | an empty id list is too small; a non-string element is reported at its index; a good list passes in order |
| RequestFacts.QueryModifierRejected | src/schemas.ts:231-241 | a query containing `from:` fails with the refinement's message at `query` |
| RequestFacts.NoOptionsGiven | src/schemas.ts:293-324 | with none of the five option keys present, the options are `false`, `score`, `desc`, 20 and 1 |
| RequestFacts.EnumTypeIssue | src/schemas.ts:298-301 | a number as `sort` gets one invalid-type issue at `sort` whose expected type lists the quoted options |
| SanitizerFacts.SanitizeIsStripThenCheck | src/schemas.ts:7-95 | sanitizing is the same as dropping every undeclared key at every depth, then accepting exactly when the result conforms to the schema |
| Sanitizer.Sanitize | src/schemas.ts:7-95 | a sanitized value has its schema's kind, as the input did, and a sanitized array keeps every element |
| SanitizerFacts.StripConformingIsIdentity | src/schemas.ts:7-95 | stripping leaves a conforming value unchanged |
| SanitizerFacts.StripIdempotent | src/schemas.ts:7-95 | stripping twice is the same as stripping once |
| SanitizerFacts.SanitizedConforms | src/schemas.ts:7-95 | a sanitized value conforms to its schema |
| SanitizerFacts.ConformingIsFixpoint | src/schemas.ts:7-95 | a value that already conforms is returned unchanged |
| SanitizerFacts.SanitizeIdempotent | src/schemas.ts:7-95 | sanitizing a sanitized value changes nothing |
| SanitizerFacts.StrippedFirstIsSame | src/schemas.ts:7-95 | stripping before sanitizing changes nothing |
| SanitizerFacts.ExtraKeysIrrelevant | src/schemas.ts:340-350 | extra top-level keys that the schema does not declare never change the outcome |
| SanitizerFacts.SanitizedObjectKeys | src/schemas.ts:340-350 | a sanitized object holds exactly the declared keys that were present, each with its own sanitized value |
| SanitizerFacts.DeclaredFieldFailure | src/schemas.ts:340-350 | a declared key of the wrong kind or with a rejected value fails the whole parse, and so does a missing required key |
| SanitizerFacts.NullIsNotAbsent | src/schemas.ts:368-376 | an optional field holding `null` fails the parse |
| SanitizerFacts.ExtendKeepsBase | src/schemas.ts:352-389 | an extended schema treats the base's keys exactly as the base schema does |
| Sanitizer.Extend | src/schemas.ts:352-389 | extension adds the new fields to the base's and overrides base fields of the same name |
| Responses.ReplySchema | src/index.ts:139-341 | the six read tools parse their reply with a schema that includes the base reply fields; the three write tools and the batch parse none; which payload each read tool keeps is stated by the `DispatcherFacts.*Reply` lemmas |
| ResponseFacts.PayloadKept | src/schemas.ts:340-389 | a reply schema that extends the base fields with one optional payload keeps exactly the base keys and that payload which the reply has, the payload sanitized by its own schema |
| ResponseFacts.BatchWrapperDropsOk | src/schemas.ts:368-376 | the batch wrapper's `ok` is not declared and is dropped |
| ResponseFacts.NullProfileItemRejected | src/schemas.ts:368-376 | a batch item whose profile is `null` is rejected |
| ResponseFacts.ChannelExtraAttributeDropped | src/schemas.ts:7-33 | an undeclared channel attribute is dropped and a declared one is kept |
| Search.BuildQuery | src/index.ts:309-324 | the query starts with the caller's text, and equals it exactly when no filter is present and non-empty |
| Search.Present | src/index.ts:310-323 | a filter is appended exactly when JavaScript would find its value truthy |
| Search.FiltersOf | src/index.ts:313-324 | a parsed request never carries the group, DM or bot filters |
| Search.SearchCall | src/index.ts:326-333 | search goes through the user's client, with a query extending the caller's text, the validated count, page and highlight, and the validated sort key and direction |
| SearchFacts.ChannelThenUser | src/index.ts:310-321 | `deploy` with channel `C123` and user `U456` becomes `deploy in:C123 from:<@U456>` |
| SearchFacts.FixedOrder | src/index.ts:310-324 | all five filters are appended in their fixed order with their fixed decorations |
| SearchFacts.ParsedIsValidated | src/schemas.ts:223-262 | a parsed search request has a modifier-free query and well-formed channel and user ids |
| SearchFacts.ValidatedQuery | src/index.ts:309-321 | for a validated request the query is the text, then ` in:` with the channel if given, then ` from:<@…>` with the user if given |
| SearchFacts.ModifierAfterSpace | src/schemas.ts:234-236 | a modifier word right after a space is a modifier match whatever surrounds it |
| SearchFacts.ModifiersOnlyFromFilters | src/index.ts:309-321 | the assembled query carries a modifier exactly when a channel or user filter was given |
| SearchFacts.DatesNeverReachCall | src/index.ts:326-333 | the date filters have no effect on the platform call |
| SearchFacts.ParsedSearchQuery | src/index.ts:304-333 | for valid arguments the call's query is the given query, then ` in:` and the given channel if one was given, then ` from:<@…>` with the given user if one was given |
| SearchFacts.DeployRequestQuery | src/index.ts:304-333 | the arguments `deploy`, `C123` and `U456` are valid and give the call query `deploy in:C123 from:<@U456>` |
| SearchFacts.ChannelFilterIsModifier | src/index.ts:310-312 | a given channel filter puts a modifier into the query |
| SearchFacts.UserFilterIsModifier | src/index.ts:319-321 | a given user filter puts a modifier into the query |
| Batch.ProfileCalls | src/index.ts:267-271 | one profile lookup per requested id, on the bot's client, in request order |
| Batch.ProfileItem | src/index.ts:268-291 | an item always names its id; a thrown or not-ok lookup gives a `null` profile and an error, with the fallback texts `Failed to get profile` and `Unknown error`; a good lookup gives only the reply's profile |
| Batch.FetchAll | src/index.ts:267-293 | the items follow the requested ids one for one, in order |
| Batch.BatchResult | src/index.ts:294-297 | a parsed batch result is an object holding only `profiles`, an array with one item per requested id |
| BatchFacts.ItemAccepted | src/index.ts:268-291 | an item survives the final parse exactly when its lookup succeeded and the profile, if any, parses |
| BatchFacts.WrapperParsesIffItemsDo | src/index.ts:294-297 | the batch wrapper parses exactly when every item does |
| BatchFacts.BatchSucceedsIff | src/index.ts:262-302 | the batch succeeds exactly when every lookup succeeded with a parseable profile |
| BatchFacts.OneFailureFailsBatch | src/index.ts:273-291 | one thrown or not-ok lookup fails the whole batch |
| BatchFacts.SuccessfulBatchShape | src/index.ts:293-301 | a successful result holds only `profiles`, one error-free item per id in order, each naming its id |
| Dispatcher.SingleCall | src/index.ts:129-333 | only the search goes through the user's client; which arguments each tool's call carries is stated from the raw arguments by `DispatcherFacts.ListChannelsPublicOnly`, `PostMessageCall`, `ReplyToThreadCall`, `AddReactionCall`, `ChannelHistoryCall`, `ThreadRepliesCall`, `GetUsersCall`, `UserProfileCall` and `SearchMessagesCallMade` |
| Dispatcher.Conclude | src/index.ts:136-142 | a thrown call keeps its thrown value; a not-ok reply fails with the tool's prefix and the reply's error; success needs `ok` and a parseable reply |
| Dispatcher.Run | src/index.ts:129-341 | the batch issues its lookups, every other tool exactly one call; a failure after validation is never an argument error |
| Dispatcher.CallTool | src/index.ts:123-353 | missing params and unknown names fail before any call; argument errors happen exactly when validation fails, and then no call is made |
| Dispatcher.Rendered | src/index.ts:137 | a string error renders as itself, and an absent one as `undefined` |
| Dispatcher.Message | src/index.ts:348-352 | the rethrown message is the fixed text, the thrown error's message or `Unknown error occurred`, or the prefix and the rendered error |
| Dispatcher.FailurePrefix | src/index.ts:137-336 | every tool's failure text begins with `Failed to ` |
| Dispatcher.Acknowledgement | src/index.ts:156-187 | every write tool's success text ends with `successfully` |
| JsonValue.Truthy | src/index.ts:136 | a truthy value is present and not `null`; an array or object is always truthy |
| DispatcherFacts.ValidCallRuns | src/index.ts:129-133 | a recognised name with valid arguments runs the validated request |
| DispatcherFacts.OnlySearchUsesUserToken | src/index.ts:50-51 | a call goes through the user's client exactly when the tool is search |
| DispatcherFacts.SingleCallTools | src/index.ts:129-341 | every tool other than the batch issues exactly one platform call |
| DispatcherFacts.ListChannelsPublicOnly | src/index.ts:129-135 | channel listing always asks for public channels, with the validated limit and cursor |
| DispatcherFacts.PostMessageCall | src/index.ts:146-151 | posting sends the given channel and text, without a thread |
| DispatcherFacts.ReplyToThreadCall | src/index.ts:160-166 | replying sends the given channel, thread timestamp and text |
| DispatcherFacts.AddReactionCall | src/index.ts:176-182 | reacting sends the given channel, timestamp and emoji name |
| DispatcherFacts.ChannelHistoryCall | src/index.ts:191-199 | the history call uses the given channel and cursor, and the given limit or 100 |
| DispatcherFacts.ThreadRepliesCall | src/index.ts:210-219 | the replies call uses the given channel, thread and cursor, and the given limit or 100 |
| DispatcherFacts.GetUsersCall | src/index.ts:230-235 | the user listing uses the given cursor, and the given limit or 100 |
| DispatcherFacts.UserProfileCall | src/index.ts:246-252 | the profile lookup asks for the given user id |
| DispatcherFacts.SearchMessagesCallMade | src/index.ts:304-333 | a valid search makes exactly the one call the search module assembles |
| DispatcherFacts.CallsComeFromRun | src/index.ts:123-135 | a call reaches the platform only after the name was recognised and the arguments validated, and then the call runs the validated request |
| DispatcherFacts.RunClients | src/index.ts:50-51 | a validated request's call uses the user's client exactly when the request is a search |
| DispatcherFacts.NotOkFails | src/index.ts:136-137 | a falsy `ok` fails with the tool's prefix followed by the reply's error, or by `undefined` when it has none |
| DispatcherFacts.ThrownCallFails | src/index.ts:348-352 | a thrown error's message passes through; a thrown non-error becomes `Unknown error occurred` |
| DispatcherFacts.WriteToolsAcknowledge | src/index.ts:146-189 | the three write tools answer success with their fixed texts, whatever the reply holds |
| DispatcherFacts.ReadToolsSanitize | src/index.ts:191-259 | a read tool succeeds exactly when its reply parses, and returns only declared keys that were present |
| DispatcherFacts.PayloadReply | src/index.ts:191-259 | a read tool whose reply schema is the base fields plus one payload succeeds exactly when the reply parses, and then returns only the base keys and that payload, the payload sanitized |
| DispatcherFacts.ListChannelsReply | src/index.ts:129-143 | channel listing succeeds exactly when the reply parses as a channel list, and keeps only `channels`, each sanitized as a channel, besides the base keys |
| DispatcherFacts.ChannelHistoryReply | src/index.ts:191-207 | channel history keeps only `messages`, each sanitized as a history message, besides the base keys |
| DispatcherFacts.ThreadRepliesReply | src/index.ts:210-227 | thread replies keep only `messages`, each sanitized as a history message, besides the base keys |
| DispatcherFacts.GetUsersReply | src/index.ts:230-243 | user listing keeps only `members`, each sanitized to its id and names, besides the base keys |
| DispatcherFacts.UserProfileReply | src/index.ts:246-259 | a profile lookup keeps only `profile`, sanitized as a profile, besides the base keys |
| DispatcherFacts.SearchReply | src/index.ts:304-343 | the search keeps only `messages`, holding at most its `matches` and `pagination`, besides the base keys |
| DispatcherFacts.NotOkMessages | src/index.ts:136-336 | each single-call tool's not-ok failure starts with its own literal text, from `Failed to list channels` to `Failed to search messages` |
| DispatcherFacts.BatchCallsAndResult | src/index.ts:262-302 | the batch issues one lookup per id in order and succeeds exactly when every lookup was usable |
| DispatcherFacts.HandlerMessages | src/index.ts:124-126 | absent params give `Params are required`; an unknown name gives `Unknown tool: ` and the name |
| Catalog.RequiredKeys | src/schemas.ts:101-325 | the required keys are among the declared ones |
| CatalogFacts.OptionalKeyDroppable | src/schemas.ts:101-325 | removing a declared key that is not listed as required from valid arguments keeps them valid, so every key the schema needs is listed |
| Catalog.ListTools | src/index.ts:65-121 | ten tools, in catalog order, each under its dispatch name |
| CatalogFacts.AdvertisedNamesDispatch | src/index.ts:65-121 | each advertised name dispatches to the tool it describes, and advertises that tool's declared keys |
| CatalogFacts.CatalogIsComplete | src/index.ts:65-121 | the advertised names are distinct, and every tool is advertised |
| CatalogFacts.EmptyObjectIffNothingRequired | src/schemas.ts:101-325 | an empty argument object is valid exactly for the tools that require no key |
| CatalogFacts.MissingRequiredRejected | src/schemas.ts:101-325 | an object without a required key is never valid |

## Left out

- Process start-up is not modelled: the token checks, the transport choice (stdio or HTTP with Express), and command-line parsing. All of these are I/O.
- The platform itself is an oracle parameter; the model makes no assumption about what it returns.
- The batch's `Promise.all` runs its lookups concurrently. The model issues them sequentially in request order. The result order is the same, and one lookup never depends on another.
- `zodToJsonSchema` output is reduced to the declared and required keys of each schema. Descriptions and types are not modelled.
- `JSON.stringify` of a sanitized reply is not modelled. The result carries the sanitized JSON value itself.
- zod's e-mail and URL checks are parameters (`Formats`) and are not defined.
- `console.error` logging is not modelled.
- Dispatcher.Message: the text of a `ZodError` (zod's own rendering of its issues) is not stated. Neither is JavaScript's rendering of a non-string, non-null, non-boolean upstream `error`. Both give `None`.
- Requests.ParseArgs: the issue messages zod generates itself (as opposed to the schemas' own messages) are not modelled, and neither is the `received` field of an invalid-type issue. Issue codes, paths, order, the expected type and the bounds are.
- JSON numbers are modelled as reals, so `.int()` is a check that the number is integral. The 64-bit floating-point representation is not modelled.
- The example client script for the batch tool is not part of this model.
