/**
 * The batch profile tool: one platform call per requested user, each outcome
 * folded into an item (never thrown), and the list of items parsed against
 * the batch result schema at the end.
 */
module Batch {
  import opened Wrappers
  import opened JsonValue
  import opened Sanitizer
  import opened Responses
  import opened Remote

  function ProfileCall(id: string): RemoteCall {
    RemoteCall(BotClient, UsersProfileGet(id))
  }

  /** The calls the batch issues, one per requested id, in request order. */
  function ProfileCalls(ids: seq<string>): (calls: seq<RemoteCall>)
    ensures |calls| == |ids|
    ensures forall i | 0 <= i < |ids| :: calls[i].client == BotClient && calls[i].call == UsersProfileGet(ids[i])
  {
    seq(|ids|, i requires 0 <= i < |ids| => ProfileCall(ids[i]))
  }

  /** The call came back with a truthy `ok`. */
  predicate Fetched(reply: Reply) {
    reply.Returned? && Succeeded(reply.body)
  }

  /** The item one reply becomes: a thrown call and a non-ok reply both become an item with a `null` profile and an error. */
  function ProfileItem(id: string, reply: Reply): (item: map<string, Json>)
    ensures "user_id" in item && item["user_id"] == JStr(id)
    ensures "error" in item <==> !Fetched(reply)
    ensures !Fetched(reply) ==> "profile" in item && item["profile"] == JNull
    ensures Fetched(reply) ==> item.Keys <= {"user_id", "profile"} && Get(item, "profile") == Get(reply.body, "profile")
    ensures reply.Threw? ==> item["error"] == JStr(reply.message.GetOr("Unknown error"))
    ensures reply.Returned? && !Fetched(reply) && Truthy(Get(reply.body, "error")) ==> item["error"] == reply.body["error"]
    ensures reply.Returned? && !Fetched(reply) && !Truthy(Get(reply.body, "error")) ==> item["error"] == JStr("Failed to get profile")
  {
    match reply
    case Threw(message) =>
      map["user_id" := JStr(id), "profile" := JNull, "error" := JStr(message.GetOr("Unknown error"))]
    case Returned(body) =>
      if !Succeeded(body) then
        var error := if Truthy(Get(body, "error")) then body["error"] else JStr("Failed to get profile");
        map["user_id" := JStr(id), "profile" := JNull, "error" := error]
      else if "profile" in body then
        map["user_id" := JStr(id), "profile" := body["profile"]]
      else
        map["user_id" := JStr(id)]
  }

  /** The items, in request order, whatever order the calls settle in. */
  function FetchAll(ids: seq<string>, platform: Platform): (items: seq<Json>)
    ensures |items| == |ids|
    ensures forall i | 0 <= i < |ids| :: items[i] == JObj(ProfileItem(ids[i], platform(ProfileCall(ids[i]))))
  {
    if ids == [] then []
    else
      var last := ids[|ids| - 1];
      FetchAll(ids[..|ids| - 1], platform) + [JObj(ProfileItem(last, platform(ProfileCall(last))))]
  }

  /** The batch wrapper parsed against the batch result schema; `None` where the parse throws. */
  function BatchResult(formats: Formats, ids: seq<string>, platform: Platform): (r: Option<Json>)
    ensures r.Some? ==> r.value.JObj? && r.value.fields.Keys == {"profiles"}
    ensures r.Some? ==> r.value.fields["profiles"].JArr? && |r.value.fields["profiles"].items| == |ids|
  {
    Sanitize(formats, GetUserProfilesResponse,
      JObj(map["ok" := JBool(true), "profiles" := JArr(FetchAll(ids, platform))]))
  }

  /** A reply whose item survives the final parse: fetched, with no profile or one the profile schema accepts. */
  predicate Usable(formats: Formats, reply: Reply) {
    && Fetched(reply)
    && ("profile" in reply.body ==> Sanitize(formats, ProfileSchema, reply.body["profile"]).Some?)
  }
}

module BatchFacts {
  import opened Wrappers
  import opened JsonValue
  import opened Sanitizer
  import opened Responses
  import opened Remote
  import opened Batch
  import SanitizerFacts

  /** An item parses exactly when its reply was usable. */
  lemma ItemAccepted(formats: Formats, id: string, reply: Reply)
    ensures Sanitize(formats, ProfileItemSchema, JObj(ProfileItem(id, reply))).Some? <==> Usable(formats, reply)
  {
    var item := ProfileItem(id, reply);
    var fs := ProfileItemSchema.fields;
    if !Fetched(reply) {
      SanitizerFacts.NullIsNotAbsent(formats, fs, item, "profile");
    } else if "profile" in reply.body {
      assert item == map["user_id" := JStr(id), "profile" := reply.body["profile"]];
      if Sanitize(formats, ProfileSchema, reply.body["profile"]).None? {
        SanitizerFacts.DeclaredFieldFailure(formats, fs, item, "profile");
      }
    } else {
      assert item == map["user_id" := JStr(id)];
    }
  }

  /** The batch wrapper parses exactly when every item does; its `ok` plays no part. */
  lemma WrapperParsesIffItemsDo(formats: Formats, items: seq<Json>)
    ensures Sanitize(formats, GetUserProfilesResponse, JObj(map["ok" := JBool(true), "profiles" := JArr(items)])).Some?
        <==> forall i | 0 <= i < |items| :: Sanitize(formats, ProfileItemSchema, items[i]).Some?
  {
    var fs := GetUserProfilesResponse.fields;
    var kept := map["profiles" := JArr(items)];
    assert kept + map["ok" := JBool(true)] == map["ok" := JBool(true), "profiles" := JArr(items)];
    SanitizerFacts.ExtraKeysIrrelevant(formats, fs, kept, map["ok" := JBool(true)]);
    assert "profiles" in fs && fs["profiles"] == Field(SArr(ProfileItemSchema), false);
    assert fs.Keys == {"profiles"};
    assert Sanitize(formats, SObj(fs), JObj(kept)).Some?
       <==> Sanitize(formats, SArr(ProfileItemSchema), JArr(items)).Some?;
  }

  /** The whole batch parses exactly when every reply was usable. */
  lemma BatchSucceedsIff(formats: Formats, ids: seq<string>, platform: Platform)
    ensures BatchResult(formats, ids, platform).Some?
        <==> forall i | 0 <= i < |ids| :: Usable(formats, platform(ProfileCall(ids[i])))
  {
    var items := FetchAll(ids, platform);
    WrapperParsesIffItemsDo(formats, items);
    forall i | 0 <= i < |ids|
      ensures Sanitize(formats, ProfileItemSchema, items[i]).Some? <==> Usable(formats, platform(ProfileCall(ids[i])))
    {
      ItemAccepted(formats, ids[i], platform(ProfileCall(ids[i])));
    }
  }

  /** A single failed lookup, thrown or not ok, fails the whole batch. */
  lemma OneFailureFailsBatch(formats: Formats, ids: seq<string>, platform: Platform, i: int)
    requires 0 <= i < |ids| && !Fetched(platform(ProfileCall(ids[i])))
    ensures BatchResult(formats, ids, platform) == None
  {
    BatchSucceedsIff(formats, ids, platform);
  }

  /**
   * A successful batch result holds only `profiles`: one error-free item per
   * requested id, in request order, each naming its id.
   */
  lemma SuccessfulBatchShape(formats: Formats, ids: seq<string>, platform: Platform)
    requires BatchResult(formats, ids, platform).Some?
    ensures var r := BatchResult(formats, ids, platform).value;
      && r.JObj? && r.fields.Keys == {"profiles"}
      && r.fields["profiles"].JArr? && |r.fields["profiles"].items| == |ids|
      && forall i | 0 <= i < |ids| ::
           var item := r.fields["profiles"].items[i];
           item.JObj? && Get(item.fields, "user_id") == Some(JStr(ids[i])) && "error" !in item.fields
  {
    var items := FetchAll(ids, platform);
    var fs := GetUserProfilesResponse.fields;
    var whole := map["ok" := JBool(true), "profiles" := JArr(items)];
    BatchSucceedsIff(formats, ids, platform);
    SanitizerFacts.SanitizedObjectKeys(formats, fs, whole);
    var r := BatchResult(formats, ids, platform).value;
    assert "profiles" in fs && fs["profiles"].schema == SArr(ProfileItemSchema);
    assert Sanitize(formats, SArr(ProfileItemSchema), JArr(items)) == Some(r.fields["profiles"]);
    var out := r.fields["profiles"];
    forall i | 0 <= i < |ids|
      ensures var item := out.items[i];
        item.JObj? && Get(item.fields, "user_id") == Some(JStr(ids[i])) && "error" !in item.fields
    {
      var reply := platform(ProfileCall(ids[i]));
      var item := ProfileItem(ids[i], reply);
      assert Usable(formats, reply);
      assert "error" !in item;
      SanitizerFacts.SanitizedObjectKeys(formats, ProfileItemSchema.fields, item);
    }
  }
}
