/** The response schemas the server sanitizes upstream replies with. */
module Responses {
  import opened Wrappers
  import opened JsonValue
  import opened Sanitizer
  import opened Tools

  /** An `.optional()` field. */
  function Opt(s: Schema): Field {
    Field(s, true)
  }

  const Text: Schema := SStr(PlainText)

  /** The `purpose` and `topic` objects of a channel. */
  const ChannelTextSchema: Schema := SObj(map[
    "creator" := Opt(Text),
    "last_set" := Opt(SNum),
    "value" := Opt(Text)])

  const ChannelSchema: Schema := SObj(map[
    "conversation_host_id" := Opt(Text),
    "created" := Opt(SNum),
    "id" := Opt(Text),
    "is_archived" := Opt(SBool),
    "name" := Opt(Text),
    "name_normalized" := Opt(Text),
    "num_members" := Opt(SNum),
    "purpose" := Opt(ChannelTextSchema),
    "shared_team_ids" := Opt(SArr(Text)),
    "topic" := Opt(ChannelTextSchema),
    "updated" := Opt(SNum)])

  const ReactionSchema: Schema := SObj(map[
    "count" := Opt(SNum),
    "name" := Opt(Text),
    "url" := Opt(Text),
    "users" := Opt(SArr(Text))])

  const HistoryMessageSchema: Schema := SObj(map[
    "reactions" := Opt(SArr(ReactionSchema)),
    "reply_count" := Opt(SNum),
    "reply_users" := Opt(SArr(Text)),
    "reply_users_count" := Opt(SNum),
    "subtype" := Opt(Text),
    "text" := Opt(Text),
    "thread_ts" := Opt(Text),
    "ts" := Opt(Text),
    "type" := Opt(Text),
    "user" := Opt(Text)])

  const MemberSchema: Schema := SObj(map[
    "id" := Opt(Text),
    "name" := Opt(Text),
    "real_name" := Opt(Text)])

  const ProfileSchema: Schema := SObj(map[
    "display_name" := Opt(Text),
    "display_name_normalized" := Opt(Text),
    "email" := Opt(SStr(Email)),
    "first_name" := Opt(Text),
    "last_name" := Opt(Text),
    "phone" := Opt(Text),
    "real_name" := Opt(Text),
    "real_name_normalized" := Opt(Text),
    "title" := Opt(Text)])

  const SearchMessageSchema: Schema := SObj(map[
    "channel" := Opt(SObj(map["id" := Opt(Text), "name" := Opt(Text)])),
    "permalink" := Opt(SStr(Url)),
    "text" := Opt(Text),
    "ts" := Opt(Text),
    "type" := Opt(Text),
    "user" := Opt(Text)])

  const SearchPaginationSchema: Schema := SObj(map[
    "first" := Opt(SNum),
    "last" := Opt(SNum),
    "page" := Opt(SNum),
    "page_count" := Opt(SNum),
    "per_page" := Opt(SNum),
    "total_count" := Opt(SNum)])

  /** The fields every platform reply shares. */
  const BaseResponseFields: map<string, Field> := map[
    "error" := Opt(Text),
    "ok" := Opt(SBool),
    "response_metadata" := Opt(SObj(map["next_cursor" := Opt(Text)]))]

  const ConversationsHistoryResponse: Schema :=
    SObj(Extend(BaseResponseFields, map["messages" := Opt(SArr(HistoryMessageSchema))]))

  const ConversationsRepliesResponse: Schema :=
    SObj(Extend(BaseResponseFields, map["messages" := Opt(SArr(HistoryMessageSchema))]))

  const GetUsersResponse: Schema :=
    SObj(Extend(BaseResponseFields, map["members" := Opt(SArr(MemberSchema))]))

  const GetUserProfileResponse: Schema :=
    SObj(Extend(BaseResponseFields, map["profile" := Opt(ProfileSchema)]))

  const ListChannelsResponse: Schema :=
    SObj(Extend(BaseResponseFields, map["channels" := Opt(SArr(ChannelSchema))]))

  const SearchMessagesResponse: Schema :=
    SObj(Extend(BaseResponseFields, map["messages" := Opt(SObj(map[
      "matches" := Opt(SArr(SearchMessageSchema)),
      "pagination" := Opt(SearchPaginationSchema)]))]))

  /** One item of the batch profile result: `profile` is optional but not nullable. */
  const ProfileItemSchema: Schema := SObj(map[
    "user_id" := Field(Text, false),
    "profile" := Opt(ProfileSchema),
    "error" := Opt(Text)])

  /** The batch result; it does not extend the base schema, so it declares no `ok`. */
  const GetUserProfilesResponse: Schema := SObj(map["profiles" := Field(SArr(ProfileItemSchema), false)])

  /** The schema each tool sanitizes the platform's reply with; the three write tools parse none. */
  function ReplySchema(t: Tool): (r: Option<Schema>)
    ensures r.None? <==> t in {PostMessage, ReplyToThread, AddReaction, GetUserProfiles}
    ensures r.Some? ==> r.value.SObj? && BaseResponseFields.Keys <= r.value.fields.Keys
  {
    match t
    case ListChannels => Some(ListChannelsResponse)
    case GetChannelHistory => Some(ConversationsHistoryResponse)
    case GetThreadReplies => Some(ConversationsRepliesResponse)
    case GetUsers => Some(GetUsersResponse)
    case GetUserProfile => Some(GetUserProfileResponse)
    case SearchMessages => Some(SearchMessagesResponse)
    case _ => None
  }
}

module ResponseFacts {
  import opened Wrappers
  import opened JsonValue
  import opened Sanitizer
  import opened Responses
  import SanitizerFacts

  /** The batch wrapper's `ok` is not declared, so sanitizing drops it. */
  lemma BatchWrapperDropsOk(formats: Formats)
    ensures Sanitize(formats, GetUserProfilesResponse, JObj(map["ok" := JBool(true), "profiles" := JArr([])]))
         == Some(JObj(map["profiles" := JArr([])]))
  {
    var kept := map["profiles" := JArr([])];
    var extra := map["ok" := JBool(true)];
    assert kept + extra == map["ok" := JBool(true), "profiles" := JArr([])];
    SanitizerFacts.ExtraKeysIrrelevant(formats, GetUserProfilesResponse.fields, kept, extra);
    assert Conforms(formats, GetUserProfilesResponse, JObj(kept));
    SanitizerFacts.ConformingIsFixpoint(formats, GetUserProfilesResponse, JObj(kept));
  }

  /**
   * Sanitizing with the base fields plus one optional `payload` keeps exactly
   * the base keys and `payload` the reply has, `payload` sanitized by `ps`.
   */
  lemma PayloadKept(formats: Formats, payload: string, ps: Schema, body: map<string, Json>)
    requires Sanitize(formats, SObj(Extend(BaseResponseFields, map[payload := Opt(ps)])), JObj(body)).Some?
    ensures var v := Sanitize(formats, SObj(Extend(BaseResponseFields, map[payload := Opt(ps)])), JObj(body)).value;
      && v.JObj?
      && v.fields.Keys == {"error", "ok", "response_metadata", payload} * body.Keys
      && (payload in body ==> Sanitize(formats, ps, body[payload]) == Some(v.fields[payload]))
  {
    var fs := Extend(BaseResponseFields, map[payload := Opt(ps)]);
    assert fs.Keys == {"error", "ok", "response_metadata", payload};
    SanitizerFacts.SanitizedObjectKeys(formats, fs, body);
    assert payload in fs && fs[payload].schema == ps;
  }

  /** A batch item whose `profile` is `null` makes the batch result fail to parse. */
  lemma NullProfileItemRejected(formats: Formats, id: string, error: string)
    ensures Sanitize(formats, ProfileItemSchema,
              JObj(map["user_id" := JStr(id), "profile" := JNull, "error" := JStr(error)])) == None
  {
    SanitizerFacts.NullIsNotAbsent(formats, ProfileItemSchema.fields,
      map["user_id" := JStr(id), "profile" := JNull, "error" := JStr(error)], "profile");
  }

  /** A channel's undeclared attributes are dropped; its declared ones are kept. */
  lemma ChannelExtraAttributeDropped(formats: Formats)
    ensures Sanitize(formats, ChannelSchema, JObj(map["id" := JStr("C1"), "is_private" := JBool(false)]))
         == Some(JObj(map["id" := JStr("C1")]))
  {
    var kept := map["id" := JStr("C1")];
    var extra := map["is_private" := JBool(false)];
    assert kept + extra == map["id" := JStr("C1"), "is_private" := JBool(false)];
    SanitizerFacts.ExtraKeysIrrelevant(formats, ChannelSchema.fields, kept, extra);
    ChannelFieldsOptional();
    SingleFieldConforms(formats, ChannelSchema.fields, "id", JStr("C1"));
    SanitizerFacts.ConformingIsFixpoint(formats, ChannelSchema, JObj(kept));
  }

  /** Every attribute of a channel is optional. */
  lemma ChannelFieldsOptional()
    ensures forall k | k in ChannelSchema.fields :: ChannelSchema.fields[k].optional
  {
  }

  /** An object with a single conforming field conforms when every other field is optional. */
  lemma SingleFieldConforms(formats: Formats, fs: map<string, Field>, k: string, v: Json)
    requires k in fs && Conforms(formats, fs[k].schema, v)
    requires forall j | j in fs :: fs[j].optional
    ensures Conforms(formats, SObj(fs), JObj(map[k := v]))
  {
  }
}
