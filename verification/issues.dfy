/**
 * Which field each issue of a failed request names. zod checks an object's
 * fields in declaration order and runs every field's check, so a failure
 * lists the issues of each refused field, field after field, and names a
 * field exactly when that field's check refused it.
 */
module IssueFacts {
  import opened Wrappers
  import opened JsonValue
  import opened Tools
  import opened Patterns
  import opened Requests

  // ---------------------------------------------------------------------------
  // Grouping issues by field
  // ---------------------------------------------------------------------------

  lemma {:induction false} IssuesForConcat(a: seq<Issue>, b: seq<Issue>, key: string)
    ensures IssuesFor(a + b, key) == IssuesFor(a, key) + IssuesFor(b, key)
  {
    if a == [] {
      assert a + b == b;
    } else {
      assert (a + b)[0] == a[0];
      assert (a + b)[1..] == a[1..] + b;
      IssuesForConcat(a[1..], b, key);
    }
  }

  /** Every issue kept for `key` names `key`. */
  lemma {:induction false} IssuesForNamesKey(a: seq<Issue>, key: string)
    ensures forall i | 0 <= i < |IssuesFor(a, key)| ::
      |IssuesFor(a, key)[i].path| >= 1 && IssuesFor(a, key)[i].path[0] == Key(key)
  {
    if a != [] {
      IssuesForNamesKey(a[1..], key);
    }
  }

  /** Issues that all name `key` are kept whole for `key` and dropped for any other field. */
  lemma {:induction false} IssuesForOneKey(a: seq<Issue>, key: string, other: string)
    requires forall i | 0 <= i < |a| :: |a[i].path| >= 1 && a[i].path[0] == Key(key)
    ensures IssuesFor(a, key) == a
    ensures other != key ==> IssuesFor(a, other) == []
  {
    if a != [] {
      IssuesForOneKey(a[1..], key, other);
      assert a == [a[0]] + a[1..];
    }
  }

  lemma {:induction false} ByKeysElsewhere(x: seq<Issue>, keys: seq<string>, k: string)
    requires k !in keys
    ensures IssuesFor(ByKeys(x, keys), k) == []
  {
    if keys != [] {
      IssuesForConcat(IssuesFor(x, keys[0]), ByKeys(x, keys[1..]), k);
      IssuesForNamesKey(x, keys[0]);
      IssuesForOneKey(IssuesFor(x, keys[0]), keys[0], k);
      ByKeysElsewhere(x, keys[1..], k);
    }
  }

  lemma {:induction false} ByKeysAgree(x: seq<Issue>, y: seq<Issue>, keys: seq<string>)
    requires forall k | k in keys :: IssuesFor(x, k) == IssuesFor(y, k)
    ensures ByKeys(x, keys) == ByKeys(y, keys)
  {
    if keys != [] {
      ByKeysAgree(x, y, keys[1..]);
    }
  }

  lemma {:induction false} ByKeysSplit(x: seq<Issue>, ka: seq<string>, kb: seq<string>)
    ensures ByKeys(x, ka + kb) == ByKeys(x, ka) + ByKeys(x, kb)
  {
    if ka == [] {
      assert ka + kb == kb;
    } else {
      assert (ka + kb)[0] == ka[0];
      assert (ka + kb)[1..] == ka[1..] + kb;
      ByKeysSplit(x, ka[1..], kb);
    }
  }

  /** Every issue of a grouped list names one of the fields it is grouped by. */
  lemma {:induction false} GroupedIssuesNameKeys(x: seq<Issue>, keys: seq<string>)
    ensures forall i | 0 <= i < |ByKeys(x, keys)| ::
      |ByKeys(x, keys)[i].path| >= 1 && ByKeys(x, keys)[i].path[0].Key? && ByKeys(x, keys)[i].path[0].name in keys
  {
    if keys != [] {
      GroupedIssuesNameKeys(x, keys[1..]);
      IssuesForNamesKey(x, keys[0]);
      var first := IssuesFor(x, keys[0]);
      var rest := ByKeys(x, keys[1..]);
      forall i | 0 <= i < |ByKeys(x, keys)|
        ensures |ByKeys(x, keys)[i].path| >= 1 && ByKeys(x, keys)[i].path[0].Key? && ByKeys(x, keys)[i].path[0].name in keys
      {
        if i < |first| {
          assert ByKeys(x, keys)[i] == first[i];
        } else {
          assert ByKeys(x, keys)[i] == rest[i - |first|];
          assert rest[i - |first|].path[0].name in keys[1..];
        }
      }
    }
  }

  /** Issues that all name `key` are kept whole for `key` and dropped for any other field. */
  lemma {:induction false} AllNameFor(a: seq<Issue>, key: string, other: string)
    requires AllName(a, key)
    ensures IssuesFor(a, other) == if other == key then a else []
  {
    if a != [] {
      AllNameFor(a[1..], key, other);
      assert a == [a[0]] + a[1..];
    }
  }

  /** The issues of one field's check, grouped by that field alone. */
  lemma FieldGrouped(a: seq<Issue>, key: string)
    requires AllName(a, key)
    ensures Grouped(a, [key]) && IssuesFor(a, key) == a
  {
    AllNameFor(a, key, key);
    assert ByKeys(a, [key]) == IssuesFor(a, key) + ByKeys(a, []);
  }

  /** Two grouped lists over disjoint fields, one after the other, are grouped over the fields of both. */
  lemma GroupedConcat(a: seq<Issue>, ka: seq<string>, b: seq<Issue>, kb: seq<string>)
    requires Grouped(a, ka) && Grouped(b, kb)
    requires forall k | k in ka :: k !in kb
    ensures Grouped(a + b, ka + kb)
    ensures forall k | k in ka :: IssuesFor(a + b, k) == IssuesFor(a, k)
    ensures forall k | k in kb :: IssuesFor(a + b, k) == IssuesFor(b, k)
  {
    forall k | k in ka
      ensures IssuesFor(a + b, k) == IssuesFor(a, k)
    {
      IssuesForConcat(a, b, k);
      ByKeysElsewhere(b, kb, k);
    }
    forall k | k in kb
      ensures IssuesFor(a + b, k) == IssuesFor(b, k)
    {
      IssuesForConcat(a, b, k);
      ByKeysElsewhere(a, ka, k);
    }
    ByKeysSplit(a + b, ka, kb);
    ByKeysAgree(a + b, a, ka);
    ByKeysAgree(a + b, b, kb);
  }

  /** One more field's issues after a grouped list keep it grouped, with that field last. */
  lemma AppendField(a: seq<Issue>, keys: seq<string>, b: seq<Issue>, key: string)
    requires Grouped(a, keys) && key !in keys
    requires AllName(b, key)
    ensures Grouped(a + b, keys + [key])
    ensures IssuesFor(a + b, key) == b
    ensures forall k | k in keys :: IssuesFor(a + b, k) == IssuesFor(a, k)
  {
    FieldGrouped(b, key);
    GroupedConcat(a, keys, b, [key]);
  }

  /** The issues of two fields' checks, one after the other. */
  lemma TwoFields(a: seq<Issue>, ka: string, b: seq<Issue>, kb: string)
    requires AllName(a, ka) && AllName(b, kb)
    requires ka != kb
    ensures Grouped(a + b, [ka, kb])
    ensures IssuesFor(a + b, ka) == a && IssuesFor(a + b, kb) == b
  {
    FieldGrouped(a, ka);
    AppendField(a, [ka], b, kb);
    assert [ka] + [kb] == [ka, kb];
  }

  /** The issues of three fields' checks, one after the other. */
  lemma ThreeFields(a: seq<Issue>, ka: string, b: seq<Issue>, kb: string, c: seq<Issue>, kc: string)
    requires AllName(a, ka) && AllName(b, kb) && AllName(c, kc)
    requires ka != kb && ka != kc && kb != kc
    ensures Grouped(a + b + c, [ka, kb, kc])
    ensures IssuesFor(a + b + c, ka) == a && IssuesFor(a + b + c, kb) == b && IssuesFor(a + b + c, kc) == c
  {
    TwoFields(a, ka, b, kb);
    AppendField(a + b, [ka, kb], c, kc);
    assert [ka, kb] + [kc] == [ka, kb, kc];
  }

  /** The issues of four fields' checks, one after the other. */
  lemma FourFields(
    a: seq<Issue>, ka: string, b: seq<Issue>, kb: string, c: seq<Issue>, kc: string, d: seq<Issue>, kd: string)
    requires AllName(a, ka) && AllName(b, kb) && AllName(c, kc) && AllName(d, kd)
    requires ka != kb && ka != kc && ka != kd && kb != kc && kb != kd && kc != kd
    ensures Grouped(a + b + c + d, [ka, kb, kc, kd])
    ensures && IssuesFor(a + b + c + d, ka) == a && IssuesFor(a + b + c + d, kb) == b
            && IssuesFor(a + b + c + d, kc) == c && IssuesFor(a + b + c + d, kd) == d
  {
    ThreeFields(a, ka, b, kb, c, kc);
    AppendField(a + b + c, [ka, kb, kc], d, kd);
    assert [ka, kb, kc] + [kd] == [ka, kb, kc, kd];
  }

  /** Concatenation regrouped: the first three parts, then the rest. */
  lemma Regroup5(a: seq<Issue>, b: seq<Issue>, c: seq<Issue>, d: seq<Issue>, e: seq<Issue>)
    ensures a + b + c + d + e == (a + b) + (c + d + e)
  {
  }

  lemma Regroup7(a: seq<Issue>, b: seq<Issue>, c: seq<Issue>, d: seq<Issue>, e: seq<Issue>, f: seq<Issue>, g: seq<Issue>)
    ensures a + b + c + d + e + f + g == (a + b + c) + (d + e + f + g)
  {
  }

  lemma RegroupKeys5(ka: string, kb: string, kc: string, kd: string, ke: string)
    ensures [ka, kb] + [kc, kd, ke] == [ka, kb, kc, kd, ke]
  {
  }

  lemma RegroupKeys7(ka: string, kb: string, kc: string, kd: string, ke: string, kf: string, kg: string)
    ensures [ka, kb, kc] + [kd, ke, kf, kg] == [ka, kb, kc, kd, ke, kf, kg]
  {
  }

  /** The issues of five fields' checks, one after the other, are grouped by those fields. */
  lemma FiveFields(
    a: seq<Issue>, ka: string, b: seq<Issue>, kb: string, c: seq<Issue>, kc: string,
    d: seq<Issue>, kd: string, e: seq<Issue>, ke: string)
    requires AllName(a, ka) && AllName(b, kb) && AllName(c, kc) && AllName(d, kd) && AllName(e, ke)
    requires ka != kb && ka != kc && ka != kd && ka != ke && kb != kc && kb != kd
    requires kb != ke && kc != kd && kc != ke && kd != ke
    ensures Grouped(a + b + c + d + e, [ka, kb, kc, kd, ke])
  {
    TwoFields(a, ka, b, kb);
    ThreeFields(c, kc, d, kd, e, ke);
    GroupedConcat(a + b, [ka, kb], c + d + e, [kc, kd, ke]);
    Regroup5(a, b, c, d, e);
    RegroupKeys5(ka, kb, kc, kd, ke);
  }

  /** The issues of seven fields' checks, one after the other, are grouped by those fields. */
  lemma SevenFields(
    a: seq<Issue>, ka: string, b: seq<Issue>, kb: string, c: seq<Issue>, kc: string,
    d: seq<Issue>, kd: string, e: seq<Issue>, ke: string, f: seq<Issue>, kf: string, g: seq<Issue>, kg: string)
    requires AllName(a, ka) && AllName(b, kb) && AllName(c, kc) && AllName(d, kd)
    requires AllName(e, ke) && AllName(f, kf) && AllName(g, kg)
    requires ka != kb && ka != kc && ka != kd && ka != ke && ka != kf && ka != kg
    requires kb != kc && kb != kd && kb != ke && kb != kf && kb != kg && kc != kd
    requires kc != ke && kc != kf && kc != kg && kd != ke && kd != kf && kd != kg
    requires ke != kf && ke != kg && kf != kg
    ensures Grouped(a + b + c + d + e + f + g, [ka, kb, kc, kd, ke, kf, kg])
  {
    ThreeFields(a, ka, b, kb, c, kc);
    FourFields(d, kd, e, ke, f, kf, g, kg);
    GroupedConcat(a + b + c, [ka, kb, kc], d + e + f + g, [kd, ke, kf, kg]);
    Regroup7(a, b, c, d, e, f, g);
    RegroupKeys7(ka, kb, kc, kd, ke, kf, kg);
  }

  /** One field's issues among five fields' checks: those of the part checked under that field. */
  lemma FiveFieldsFor(a: seq<Issue>, ka: string, b: seq<Issue>, kb: string, c: seq<Issue>, kc: string,
    d: seq<Issue>, kd: string, e: seq<Issue>, ke: string, k: string)
    requires AllName(a, ka) && AllName(b, kb) && AllName(c, kc) && AllName(d, kd) && AllName(e, ke)
    ensures IssuesFor(a + b + c + d + e, k) ==
      (if k == ka then a else []) + (if k == kb then b else []) + (if k == kc then c else [])
      + (if k == kd then d else []) + (if k == ke then e else [])
  {
    IssuesForConcat(a + b + c + d, e, k);
    IssuesForConcat(a + b + c, d, k);
    IssuesForConcat(a + b, c, k);
    IssuesForConcat(a, b, k);
    AllNameFor(a, ka, k);
    AllNameFor(b, kb, k);
    AllNameFor(c, kc, k);
    AllNameFor(d, kd, k);
    AllNameFor(e, ke, k);
  }

  /** One field's issues among seven fields' checks: those of the part checked under that field. */
  lemma SevenFieldsFor(
    a: seq<Issue>, ka: string, b: seq<Issue>, kb: string, c: seq<Issue>, kc: string,
    d: seq<Issue>, kd: string, e: seq<Issue>, ke: string, f: seq<Issue>, kf: string, g: seq<Issue>, kg: string, k: string)
    requires AllName(a, ka) && AllName(b, kb) && AllName(c, kc) && AllName(d, kd)
    requires AllName(e, ke) && AllName(f, kf) && AllName(g, kg)
    ensures IssuesFor(a + b + c + d + e + f + g, k) ==
      (if k == ka then a else []) + (if k == kb then b else []) + (if k == kc then c else [])
      + (if k == kd then d else []) + (if k == ke then e else []) + (if k == kf then f else [])
      + (if k == kg then g else [])
  {
    IssuesForConcat(a + b + c + d + e + f, g, k);
    IssuesForConcat(a + b + c + d + e, f, k);
    IssuesForConcat(a + b + c + d, e, k);
    IssuesForConcat(a + b + c, d, k);
    IssuesForConcat(a + b, c, k);
    IssuesForConcat(a, b, k);
    AllNameFor(a, ka, k);
    AllNameFor(b, kb, k);
    AllNameFor(c, kc, k);
    AllNameFor(d, kd, k);
    AllNameFor(e, ke, k);
    AllNameFor(f, kf, k);
    AllNameFor(g, kg, k);
  }

  // ---------------------------------------------------------------------------
  // The issues of each request schema
  // ---------------------------------------------------------------------------

  /** The declaration order of each schema with fields named one by one. */
  lemma KeyOrders()
    ensures KeyOrder(ListChannels) == ["cursor", "limit"]
    ensures KeyOrder(PostMessage) == ["channel_id", "text"]
    ensures KeyOrder(ReplyToThread) == ["channel_id", "text", "thread_ts"]
    ensures KeyOrder(AddReaction) == ["channel_id", "reaction", "timestamp"]
    ensures KeyOrder(GetChannelHistory) == ["channel_id", "cursor", "limit"]
    ensures KeyOrder(GetThreadReplies) == ["channel_id", "thread_ts", "cursor", "limit"]
    ensures KeyOrder(GetUsers) == ["cursor", "limit"]
    ensures KeyOrder(GetUserProfile) == ["user_id"]
    ensures KeyOrder(GetUserProfiles) == ["user_ids"]
  {
  }

  /** Listing channels: the cursor's issues, then the limit's. */
  lemma ListChannelsIssues(args: Option<Json>)
    ensures !IsObject(args) ==> ParseListChannels(args) == Invalid(NotAnObject)
    ensures IsObject(args) ==>
      var m := FieldsOf(args);
      var issues := ParseListChannels(args).Issues();
      && Grouped(issues, KeyOrder(ListChannels))
      && IssuesFor(issues, "cursor") == OptionalString("cursor", Get(m, "cursor"), AnyString).Issues()
      && IssuesFor(issues, "limit") == IntegerWithDefault("limit", Get(m, "limit"), 1, Some(1000), 100).Issues()
      && (Names(issues, "cursor") <==> !OptionalStringAccepted(Get(m, "cursor"), AnyString))
      && (Names(issues, "limit") <==> !IntegerAccepted(Get(m, "limit").GetOr(JNum(100.0)), 1, Some(1000)))
  {
    if IsObject(args) {
      var m := FieldsOf(args);
      KeyOrders();
      var cursor := OptionalString("cursor", Get(m, "cursor"), AnyString).Issues();
      var limit := IntegerWithDefault("limit", Get(m, "limit"), 1, Some(1000), 100).Issues();
      TwoFields(cursor, "cursor", limit, "limit");
      assert ParseListChannels(args).Issues() == cursor + limit;
    }
  }

  /** Posting: the channel's issues, then the text's. */
  lemma PostMessageIssues(args: Option<Json>)
    ensures !IsObject(args) ==> ParsePostMessage(args) == Invalid(NotAnObject)
    ensures IsObject(args) ==>
      var m := FieldsOf(args);
      var issues := ParsePostMessage(args).Issues();
      && Grouped(issues, KeyOrder(PostMessage))
      && IssuesFor(issues, "channel_id") == RequiredString("channel_id", Get(m, "channel_id"), AnyString).Issues()
      && IssuesFor(issues, "text") == RequiredString("text", Get(m, "text"), AnyString).Issues()
      && (Names(issues, "channel_id") <==> !StringAccepted(Get(m, "channel_id"), AnyString))
      && (Names(issues, "text") <==> !StringAccepted(Get(m, "text"), AnyString))
  {
    if IsObject(args) {
      var m := FieldsOf(args);
      KeyOrders();
      var channel := RequiredString("channel_id", Get(m, "channel_id"), AnyString).Issues();
      var text := RequiredString("text", Get(m, "text"), AnyString).Issues();
      TwoFields(channel, "channel_id", text, "text");
      assert ParsePostMessage(args).Issues() == channel + text;
    }
  }

  /** Replying: the channel's issues, then the text's, then the thread timestamp's. */
  lemma ReplyToThreadIssues(args: Option<Json>)
    ensures !IsObject(args) ==> ParseReplyToThread(args) == Invalid(NotAnObject)
    ensures IsObject(args) ==>
      var m := FieldsOf(args);
      var issues := ParseReplyToThread(args).Issues();
      && Grouped(issues, KeyOrder(ReplyToThread))
      && IssuesFor(issues, "channel_id") == RequiredString("channel_id", Get(m, "channel_id"), AnyString).Issues()
      && IssuesFor(issues, "text") == RequiredString("text", Get(m, "text"), AnyString).Issues()
      && IssuesFor(issues, "thread_ts") == RequiredString("thread_ts", Get(m, "thread_ts"), TimestampFormat).Issues()
      && (Names(issues, "channel_id") <==> !StringAccepted(Get(m, "channel_id"), AnyString))
      && (Names(issues, "text") <==> !StringAccepted(Get(m, "text"), AnyString))
      && (Names(issues, "thread_ts") <==> !StringAccepted(Get(m, "thread_ts"), TimestampFormat))
  {
    if IsObject(args) {
      var m := FieldsOf(args);
      KeyOrders();
      var channel := RequiredString("channel_id", Get(m, "channel_id"), AnyString).Issues();
      var text := RequiredString("text", Get(m, "text"), AnyString).Issues();
      var ts := RequiredString("thread_ts", Get(m, "thread_ts"), TimestampFormat).Issues();
      ThreeFields(channel, "channel_id", text, "text", ts, "thread_ts");
      assert ParseReplyToThread(args).Issues() == channel + text + ts;
    }
  }

  /** Reacting: the channel's issues, then the emoji name's, then the timestamp's. */
  lemma AddReactionIssues(args: Option<Json>)
    ensures !IsObject(args) ==> ParseAddReaction(args) == Invalid(NotAnObject)
    ensures IsObject(args) ==>
      var m := FieldsOf(args);
      var issues := ParseAddReaction(args).Issues();
      && Grouped(issues, KeyOrder(AddReaction))
      && IssuesFor(issues, "channel_id") == RequiredString("channel_id", Get(m, "channel_id"), AnyString).Issues()
      && IssuesFor(issues, "reaction") == RequiredString("reaction", Get(m, "reaction"), AnyString).Issues()
      && IssuesFor(issues, "timestamp") == RequiredString("timestamp", Get(m, "timestamp"), TimestampFormat).Issues()
      && (Names(issues, "channel_id") <==> !StringAccepted(Get(m, "channel_id"), AnyString))
      && (Names(issues, "reaction") <==> !StringAccepted(Get(m, "reaction"), AnyString))
      && (Names(issues, "timestamp") <==> !StringAccepted(Get(m, "timestamp"), TimestampFormat))
  {
    if IsObject(args) {
      var m := FieldsOf(args);
      KeyOrders();
      var channel := RequiredString("channel_id", Get(m, "channel_id"), AnyString).Issues();
      var reaction := RequiredString("reaction", Get(m, "reaction"), AnyString).Issues();
      var ts := RequiredString("timestamp", Get(m, "timestamp"), TimestampFormat).Issues();
      ThreeFields(channel, "channel_id", reaction, "reaction", ts, "timestamp");
      assert ParseAddReaction(args).Issues() == channel + reaction + ts;
    }
  }

  /** Channel history: the channel's issues, then the cursor's, then the limit's. */
  lemma ChannelHistoryIssues(args: Option<Json>)
    ensures !IsObject(args) ==> ParseChannelHistory(args) == Invalid(NotAnObject)
    ensures IsObject(args) ==>
      var m := FieldsOf(args);
      var issues := ParseChannelHistory(args).Issues();
      && Grouped(issues, KeyOrder(GetChannelHistory))
      && IssuesFor(issues, "channel_id") == RequiredString("channel_id", Get(m, "channel_id"), AnyString).Issues()
      && IssuesFor(issues, "cursor") == OptionalString("cursor", Get(m, "cursor"), AnyString).Issues()
      && IssuesFor(issues, "limit") == IntegerWithDefault("limit", Get(m, "limit"), 1, Some(1000), 100).Issues()
      && (Names(issues, "channel_id") <==> !StringAccepted(Get(m, "channel_id"), AnyString))
      && (Names(issues, "cursor") <==> !OptionalStringAccepted(Get(m, "cursor"), AnyString))
      && (Names(issues, "limit") <==> !IntegerAccepted(Get(m, "limit").GetOr(JNum(100.0)), 1, Some(1000)))
  {
    if IsObject(args) {
      var m := FieldsOf(args);
      KeyOrders();
      var channel := RequiredString("channel_id", Get(m, "channel_id"), AnyString).Issues();
      var cursor := OptionalString("cursor", Get(m, "cursor"), AnyString).Issues();
      var limit := IntegerWithDefault("limit", Get(m, "limit"), 1, Some(1000), 100).Issues();
      ThreeFields(channel, "channel_id", cursor, "cursor", limit, "limit");
      assert ParseChannelHistory(args).Issues() == channel + cursor + limit;
    }
  }

  /** Thread replies: the channel's issues, then the thread timestamp's, the cursor's and the limit's. */
  lemma ThreadRepliesIssues(args: Option<Json>)
    ensures !IsObject(args) ==> ParseThreadReplies(args) == Invalid(NotAnObject)
    ensures IsObject(args) ==>
      var m := FieldsOf(args);
      var issues := ParseThreadReplies(args).Issues();
      && Grouped(issues, KeyOrder(GetThreadReplies))
      && IssuesFor(issues, "channel_id") == RequiredString("channel_id", Get(m, "channel_id"), AnyString).Issues()
      && IssuesFor(issues, "thread_ts") == RequiredString("thread_ts", Get(m, "thread_ts"), TimestampFormat).Issues()
      && IssuesFor(issues, "cursor") == OptionalString("cursor", Get(m, "cursor"), AnyString).Issues()
      && IssuesFor(issues, "limit") == IntegerWithDefault("limit", Get(m, "limit"), 1, Some(1000), 100).Issues()
      && (Names(issues, "channel_id") <==> !StringAccepted(Get(m, "channel_id"), AnyString))
      && (Names(issues, "thread_ts") <==> !StringAccepted(Get(m, "thread_ts"), TimestampFormat))
      && (Names(issues, "cursor") <==> !OptionalStringAccepted(Get(m, "cursor"), AnyString))
      && (Names(issues, "limit") <==> !IntegerAccepted(Get(m, "limit").GetOr(JNum(100.0)), 1, Some(1000)))
  {
    if IsObject(args) {
      var m := FieldsOf(args);
      KeyOrders();
      var channel := RequiredString("channel_id", Get(m, "channel_id"), AnyString).Issues();
      var ts := RequiredString("thread_ts", Get(m, "thread_ts"), TimestampFormat).Issues();
      var cursor := OptionalString("cursor", Get(m, "cursor"), AnyString).Issues();
      var limit := IntegerWithDefault("limit", Get(m, "limit"), 1, Some(1000), 100).Issues();
      FourFields(channel, "channel_id", ts, "thread_ts", cursor, "cursor", limit, "limit");
      assert ParseThreadReplies(args).Issues() == channel + ts + cursor + limit;
    }
  }

  /** Listing users: the cursor's issues, then the limit's, which has no upper bound. */
  lemma GetUsersIssues(args: Option<Json>)
    ensures !IsObject(args) ==> ParseGetUsers(args) == Invalid(NotAnObject)
    ensures IsObject(args) ==>
      var m := FieldsOf(args);
      var issues := ParseGetUsers(args).Issues();
      && Grouped(issues, KeyOrder(GetUsers))
      && IssuesFor(issues, "cursor") == OptionalString("cursor", Get(m, "cursor"), AnyString).Issues()
      && IssuesFor(issues, "limit") == IntegerWithDefault("limit", Get(m, "limit"), 1, None, 100).Issues()
      && (Names(issues, "cursor") <==> !OptionalStringAccepted(Get(m, "cursor"), AnyString))
      && (Names(issues, "limit") <==> !IntegerAccepted(Get(m, "limit").GetOr(JNum(100.0)), 1, None))
  {
    if IsObject(args) {
      var m := FieldsOf(args);
      KeyOrders();
      var cursor := OptionalString("cursor", Get(m, "cursor"), AnyString).Issues();
      var limit := IntegerWithDefault("limit", Get(m, "limit"), 1, None, 100).Issues();
      TwoFields(cursor, "cursor", limit, "limit");
      assert ParseGetUsers(args).Issues() == cursor + limit;
    }
  }

  /** One profile: every issue is at `user_id`. */
  lemma UserProfileIssues(args: Option<Json>)
    ensures !IsObject(args) ==> ParseUserProfile(args) == Invalid(NotAnObject)
    ensures IsObject(args) ==>
      var m := FieldsOf(args);
      var issues := ParseUserProfile(args).Issues();
      && Grouped(issues, KeyOrder(GetUserProfile))
      && IssuesFor(issues, "user_id") == RequiredString("user_id", Get(m, "user_id"), AnyString).Issues()
      && (Names(issues, "user_id") <==> !StringAccepted(Get(m, "user_id"), AnyString))
  {
    if IsObject(args) {
      var m := FieldsOf(args);
      KeyOrders();
      var user := RequiredString("user_id", Get(m, "user_id"), AnyString).Issues();
      FieldGrouped(user, "user_id");
      assert ParseUserProfile(args).Issues() == user;
    }
  }

  /** Several profiles: every issue is at `user_ids`, and they are the id list's own. */
  lemma UserProfilesIssues(args: Option<Json>)
    ensures !IsObject(args) ==> ParseUserProfiles(args) == Invalid(NotAnObject)
    ensures IsObject(args) ==>
      var m := FieldsOf(args);
      var issues := ParseUserProfiles(args).Issues();
      && Grouped(issues, KeyOrder(GetUserProfiles))
      && issues == StringList("user_ids", Get(m, "user_ids"), 1, 100).Issues()
      && (Names(issues, "user_ids") <==> ParseUserProfiles(args).Invalid?)
  {
    if IsObject(args) {
      var m := FieldsOf(args);
      KeyOrders();
      var ids := StringList("user_ids", Get(m, "user_ids"), 1, 100).Issues();
      FieldGrouped(ids, "user_ids");
      assert ParseUserProfiles(args).Issues() == ids;
    }
  }

  /** The issues of the search's text fields: the query's, then each filter's and each date's. */
  lemma SearchTextConcat(m: map<string, Json>)
    ensures ParseSearchText(m).Issues() ==
      QueryWithDefault("query", Get(m, "query")).Issues()
      + OptionalString("in_channel", Get(m, "in_channel"), ChannelIdFormat).Issues()
      + OptionalString("from_user", Get(m, "from_user"), UserIdFormat).Issues()
      + OptionalString("before", Get(m, "before"), DateFormat).Issues()
      + OptionalString("after", Get(m, "after"), DateFormat).Issues()
      + OptionalString("on", Get(m, "on"), DateFormat).Issues()
      + OptionalString("during", Get(m, "during"), AnyString).Issues()
  {
  }

  /** The text fields' issues are grouped by field, in declaration order. */
  lemma SearchTextGrouped(m: map<string, Json>)
    ensures Grouped(ParseSearchText(m).Issues(), SearchTextKeys)
  {
    var query := QueryWithDefault("query", Get(m, "query")).Issues();
    var inChannel := OptionalString("in_channel", Get(m, "in_channel"), ChannelIdFormat).Issues();
    var fromUser := OptionalString("from_user", Get(m, "from_user"), UserIdFormat).Issues();
    var before := OptionalString("before", Get(m, "before"), DateFormat).Issues();
    var after := OptionalString("after", Get(m, "after"), DateFormat).Issues();
    var on := OptionalString("on", Get(m, "on"), DateFormat).Issues();
    var during := OptionalString("during", Get(m, "during"), AnyString).Issues();
    SearchTextConcat(m);
    SevenFields(query, "query", inChannel, "in_channel", fromUser, "from_user", before, "before", after, "after", on, "on", during, "during");
  }

  /** The issues at `query` are its own check's, and there are some exactly when that check refuses the field. */
  lemma SearchQueryIssues(m: map<string, Json>)
    ensures var issues := ParseSearchText(m).Issues();
      && IssuesFor(issues, "query") == QueryWithDefault("query", Get(m, "query")).Issues()
      && (Names(issues, "query") <==> !(Get(m, "query").None? || (Get(m, "query").value.JStr? && !HasModifier(Get(m, "query").value.s))))
  {
    var query := QueryWithDefault("query", Get(m, "query")).Issues();
    var inChannel := OptionalString("in_channel", Get(m, "in_channel"), ChannelIdFormat).Issues();
    var fromUser := OptionalString("from_user", Get(m, "from_user"), UserIdFormat).Issues();
    var before := OptionalString("before", Get(m, "before"), DateFormat).Issues();
    var after := OptionalString("after", Get(m, "after"), DateFormat).Issues();
    var on := OptionalString("on", Get(m, "on"), DateFormat).Issues();
    var during := OptionalString("during", Get(m, "during"), AnyString).Issues();
    SearchTextConcat(m);
    SevenFieldsFor(query, "query", inChannel, "in_channel", fromUser, "from_user", before, "before", after, "after", on, "on", during, "during", "query");
  }

  /** The issues at `in_channel` are its own check's, and there are some exactly when that check refuses the field. */
  lemma SearchInChannelIssues(m: map<string, Json>)
    ensures var issues := ParseSearchText(m).Issues();
      && IssuesFor(issues, "in_channel") == OptionalString("in_channel", Get(m, "in_channel"), ChannelIdFormat).Issues()
      && (Names(issues, "in_channel") <==> !OptionalStringAccepted(Get(m, "in_channel"), ChannelIdFormat))
  {
    var query := QueryWithDefault("query", Get(m, "query")).Issues();
    var inChannel := OptionalString("in_channel", Get(m, "in_channel"), ChannelIdFormat).Issues();
    var fromUser := OptionalString("from_user", Get(m, "from_user"), UserIdFormat).Issues();
    var before := OptionalString("before", Get(m, "before"), DateFormat).Issues();
    var after := OptionalString("after", Get(m, "after"), DateFormat).Issues();
    var on := OptionalString("on", Get(m, "on"), DateFormat).Issues();
    var during := OptionalString("during", Get(m, "during"), AnyString).Issues();
    SearchTextConcat(m);
    SevenFieldsFor(query, "query", inChannel, "in_channel", fromUser, "from_user", before, "before", after, "after", on, "on", during, "during", "in_channel");
  }

  /** The issues at `from_user` are its own check's, and there are some exactly when that check refuses the field. */
  lemma SearchFromUserIssues(m: map<string, Json>)
    ensures var issues := ParseSearchText(m).Issues();
      && IssuesFor(issues, "from_user") == OptionalString("from_user", Get(m, "from_user"), UserIdFormat).Issues()
      && (Names(issues, "from_user") <==> !OptionalStringAccepted(Get(m, "from_user"), UserIdFormat))
  {
    var query := QueryWithDefault("query", Get(m, "query")).Issues();
    var inChannel := OptionalString("in_channel", Get(m, "in_channel"), ChannelIdFormat).Issues();
    var fromUser := OptionalString("from_user", Get(m, "from_user"), UserIdFormat).Issues();
    var before := OptionalString("before", Get(m, "before"), DateFormat).Issues();
    var after := OptionalString("after", Get(m, "after"), DateFormat).Issues();
    var on := OptionalString("on", Get(m, "on"), DateFormat).Issues();
    var during := OptionalString("during", Get(m, "during"), AnyString).Issues();
    SearchTextConcat(m);
    SevenFieldsFor(query, "query", inChannel, "in_channel", fromUser, "from_user", before, "before", after, "after", on, "on", during, "during", "from_user");
  }

  /** The issues at `before` are its own check's, and there are some exactly when that check refuses the field. */
  lemma SearchBeforeIssues(m: map<string, Json>)
    ensures var issues := ParseSearchText(m).Issues();
      && IssuesFor(issues, "before") == OptionalString("before", Get(m, "before"), DateFormat).Issues()
      && (Names(issues, "before") <==> !OptionalStringAccepted(Get(m, "before"), DateFormat))
  {
    var query := QueryWithDefault("query", Get(m, "query")).Issues();
    var inChannel := OptionalString("in_channel", Get(m, "in_channel"), ChannelIdFormat).Issues();
    var fromUser := OptionalString("from_user", Get(m, "from_user"), UserIdFormat).Issues();
    var before := OptionalString("before", Get(m, "before"), DateFormat).Issues();
    var after := OptionalString("after", Get(m, "after"), DateFormat).Issues();
    var on := OptionalString("on", Get(m, "on"), DateFormat).Issues();
    var during := OptionalString("during", Get(m, "during"), AnyString).Issues();
    SearchTextConcat(m);
    SevenFieldsFor(query, "query", inChannel, "in_channel", fromUser, "from_user", before, "before", after, "after", on, "on", during, "during", "before");
  }

  /** The issues at `after` are its own check's, and there are some exactly when that check refuses the field. */
  lemma SearchAfterIssues(m: map<string, Json>)
    ensures var issues := ParseSearchText(m).Issues();
      && IssuesFor(issues, "after") == OptionalString("after", Get(m, "after"), DateFormat).Issues()
      && (Names(issues, "after") <==> !OptionalStringAccepted(Get(m, "after"), DateFormat))
  {
    var query := QueryWithDefault("query", Get(m, "query")).Issues();
    var inChannel := OptionalString("in_channel", Get(m, "in_channel"), ChannelIdFormat).Issues();
    var fromUser := OptionalString("from_user", Get(m, "from_user"), UserIdFormat).Issues();
    var before := OptionalString("before", Get(m, "before"), DateFormat).Issues();
    var after := OptionalString("after", Get(m, "after"), DateFormat).Issues();
    var on := OptionalString("on", Get(m, "on"), DateFormat).Issues();
    var during := OptionalString("during", Get(m, "during"), AnyString).Issues();
    SearchTextConcat(m);
    SevenFieldsFor(query, "query", inChannel, "in_channel", fromUser, "from_user", before, "before", after, "after", on, "on", during, "during", "after");
  }

  /** The issues at `on` are its own check's, and there are some exactly when that check refuses the field. */
  lemma SearchOnIssues(m: map<string, Json>)
    ensures var issues := ParseSearchText(m).Issues();
      && IssuesFor(issues, "on") == OptionalString("on", Get(m, "on"), DateFormat).Issues()
      && (Names(issues, "on") <==> !OptionalStringAccepted(Get(m, "on"), DateFormat))
  {
    var query := QueryWithDefault("query", Get(m, "query")).Issues();
    var inChannel := OptionalString("in_channel", Get(m, "in_channel"), ChannelIdFormat).Issues();
    var fromUser := OptionalString("from_user", Get(m, "from_user"), UserIdFormat).Issues();
    var before := OptionalString("before", Get(m, "before"), DateFormat).Issues();
    var after := OptionalString("after", Get(m, "after"), DateFormat).Issues();
    var on := OptionalString("on", Get(m, "on"), DateFormat).Issues();
    var during := OptionalString("during", Get(m, "during"), AnyString).Issues();
    SearchTextConcat(m);
    SevenFieldsFor(query, "query", inChannel, "in_channel", fromUser, "from_user", before, "before", after, "after", on, "on", during, "during", "on");
  }

  /** The issues at `during` are its own check's, and there are some exactly when that check refuses the field. */
  lemma SearchDuringIssues(m: map<string, Json>)
    ensures var issues := ParseSearchText(m).Issues();
      && IssuesFor(issues, "during") == OptionalString("during", Get(m, "during"), AnyString).Issues()
      && (Names(issues, "during") <==> !OptionalStringAccepted(Get(m, "during"), AnyString))
  {
    var query := QueryWithDefault("query", Get(m, "query")).Issues();
    var inChannel := OptionalString("in_channel", Get(m, "in_channel"), ChannelIdFormat).Issues();
    var fromUser := OptionalString("from_user", Get(m, "from_user"), UserIdFormat).Issues();
    var before := OptionalString("before", Get(m, "before"), DateFormat).Issues();
    var after := OptionalString("after", Get(m, "after"), DateFormat).Issues();
    var on := OptionalString("on", Get(m, "on"), DateFormat).Issues();
    var during := OptionalString("during", Get(m, "during"), AnyString).Issues();
    SearchTextConcat(m);
    SevenFieldsFor(query, "query", inChannel, "in_channel", fromUser, "from_user", before, "before", after, "after", on, "on", during, "during", "during");
  }

  /** The issues of the result-shaping fields: highlight, sort, sort direction, count, page. */
  lemma SearchOptionsConcat(m: map<string, Json>)
    ensures ParseSearchOptions(m).Issues() ==
      BooleanWithDefault("highlight", Get(m, "highlight"), false).Issues()
      + EnumWithDefault("sort", Get(m, "sort"), ["score", "timestamp"], "score").Issues()
      + EnumWithDefault("sort_dir", Get(m, "sort_dir"), ["asc", "desc"], "desc").Issues()
      + IntegerWithDefault("count", Get(m, "count"), 1, Some(100), 20).Issues()
      + IntegerWithDefault("page", Get(m, "page"), 1, Some(100), 1).Issues()
  {
  }

  /** The result-shaping fields' issues are grouped by field, in declaration order. */
  lemma SearchOptionsGrouped(m: map<string, Json>)
    ensures Grouped(ParseSearchOptions(m).Issues(), SearchOptionKeys)
  {
    var highlight := BooleanWithDefault("highlight", Get(m, "highlight"), false).Issues();
    var sort := EnumWithDefault("sort", Get(m, "sort"), ["score", "timestamp"], "score").Issues();
    var sortDir := EnumWithDefault("sort_dir", Get(m, "sort_dir"), ["asc", "desc"], "desc").Issues();
    var count := IntegerWithDefault("count", Get(m, "count"), 1, Some(100), 20).Issues();
    var page := IntegerWithDefault("page", Get(m, "page"), 1, Some(100), 1).Issues();
    SearchOptionsConcat(m);
    FiveFields(highlight, "highlight", sort, "sort", sortDir, "sort_dir", count, "count", page, "page");
  }

  /** The issues at `highlight` are its own check's, and there are some exactly when that check refuses the field. */
  lemma SearchHighlightIssues(m: map<string, Json>)
    ensures var issues := ParseSearchOptions(m).Issues();
      && IssuesFor(issues, "highlight") == BooleanWithDefault("highlight", Get(m, "highlight"), false).Issues()
      && (Names(issues, "highlight") <==> !(Get(m, "highlight").None? || Get(m, "highlight").value.JBool?))
  {
    var highlight := BooleanWithDefault("highlight", Get(m, "highlight"), false).Issues();
    var sort := EnumWithDefault("sort", Get(m, "sort"), ["score", "timestamp"], "score").Issues();
    var sortDir := EnumWithDefault("sort_dir", Get(m, "sort_dir"), ["asc", "desc"], "desc").Issues();
    var count := IntegerWithDefault("count", Get(m, "count"), 1, Some(100), 20).Issues();
    var page := IntegerWithDefault("page", Get(m, "page"), 1, Some(100), 1).Issues();
    SearchOptionsConcat(m);
    FiveFieldsFor(highlight, "highlight", sort, "sort", sortDir, "sort_dir", count, "count", page, "page", "highlight");
  }

  /** The issues at `sort` are its own check's, and there are some exactly when that check refuses the field. */
  lemma SearchSortIssues(m: map<string, Json>)
    ensures var issues := ParseSearchOptions(m).Issues();
      && IssuesFor(issues, "sort") == EnumWithDefault("sort", Get(m, "sort"), ["score", "timestamp"], "score").Issues()
      && (Names(issues, "sort") <==> !(Get(m, "sort").None? || (Get(m, "sort").value.JStr? && Get(m, "sort").value.s in ["score", "timestamp"])))
  {
    var highlight := BooleanWithDefault("highlight", Get(m, "highlight"), false).Issues();
    var sort := EnumWithDefault("sort", Get(m, "sort"), ["score", "timestamp"], "score").Issues();
    var sortDir := EnumWithDefault("sort_dir", Get(m, "sort_dir"), ["asc", "desc"], "desc").Issues();
    var count := IntegerWithDefault("count", Get(m, "count"), 1, Some(100), 20).Issues();
    var page := IntegerWithDefault("page", Get(m, "page"), 1, Some(100), 1).Issues();
    SearchOptionsConcat(m);
    FiveFieldsFor(highlight, "highlight", sort, "sort", sortDir, "sort_dir", count, "count", page, "page", "sort");
  }

  /** The issues at `sort_dir` are its own check's, and there are some exactly when that check refuses the field. */
  lemma SearchSortDirIssues(m: map<string, Json>)
    ensures var issues := ParseSearchOptions(m).Issues();
      && IssuesFor(issues, "sort_dir") == EnumWithDefault("sort_dir", Get(m, "sort_dir"), ["asc", "desc"], "desc").Issues()
      && (Names(issues, "sort_dir") <==> !(Get(m, "sort_dir").None? || (Get(m, "sort_dir").value.JStr? && Get(m, "sort_dir").value.s in ["asc", "desc"])))
  {
    var highlight := BooleanWithDefault("highlight", Get(m, "highlight"), false).Issues();
    var sort := EnumWithDefault("sort", Get(m, "sort"), ["score", "timestamp"], "score").Issues();
    var sortDir := EnumWithDefault("sort_dir", Get(m, "sort_dir"), ["asc", "desc"], "desc").Issues();
    var count := IntegerWithDefault("count", Get(m, "count"), 1, Some(100), 20).Issues();
    var page := IntegerWithDefault("page", Get(m, "page"), 1, Some(100), 1).Issues();
    SearchOptionsConcat(m);
    FiveFieldsFor(highlight, "highlight", sort, "sort", sortDir, "sort_dir", count, "count", page, "page", "sort_dir");
  }

  /** The issues at `count` are its own check's, and there are some exactly when that check refuses the field. */
  lemma SearchCountIssues(m: map<string, Json>)
    ensures var issues := ParseSearchOptions(m).Issues();
      && IssuesFor(issues, "count") == IntegerWithDefault("count", Get(m, "count"), 1, Some(100), 20).Issues()
      && (Names(issues, "count") <==> !IntegerAccepted(Get(m, "count").GetOr(JNum(20.0)), 1, Some(100)))
  {
    var highlight := BooleanWithDefault("highlight", Get(m, "highlight"), false).Issues();
    var sort := EnumWithDefault("sort", Get(m, "sort"), ["score", "timestamp"], "score").Issues();
    var sortDir := EnumWithDefault("sort_dir", Get(m, "sort_dir"), ["asc", "desc"], "desc").Issues();
    var count := IntegerWithDefault("count", Get(m, "count"), 1, Some(100), 20).Issues();
    var page := IntegerWithDefault("page", Get(m, "page"), 1, Some(100), 1).Issues();
    SearchOptionsConcat(m);
    FiveFieldsFor(highlight, "highlight", sort, "sort", sortDir, "sort_dir", count, "count", page, "page", "count");
  }

  /** The issues at `page` are its own check's, and there are some exactly when that check refuses the field. */
  lemma SearchPageIssues(m: map<string, Json>)
    ensures var issues := ParseSearchOptions(m).Issues();
      && IssuesFor(issues, "page") == IntegerWithDefault("page", Get(m, "page"), 1, Some(100), 1).Issues()
      && (Names(issues, "page") <==> !IntegerAccepted(Get(m, "page").GetOr(JNum(1.0)), 1, Some(100)))
  {
    var highlight := BooleanWithDefault("highlight", Get(m, "highlight"), false).Issues();
    var sort := EnumWithDefault("sort", Get(m, "sort"), ["score", "timestamp"], "score").Issues();
    var sortDir := EnumWithDefault("sort_dir", Get(m, "sort_dir"), ["asc", "desc"], "desc").Issues();
    var count := IntegerWithDefault("count", Get(m, "count"), 1, Some(100), 20).Issues();
    var page := IntegerWithDefault("page", Get(m, "page"), 1, Some(100), 1).Issues();
    SearchOptionsConcat(m);
    FiveFieldsFor(highlight, "highlight", sort, "sort", sortDir, "sort_dir", count, "count", page, "page", "page");
  }

  lemma SearchKeysDisjoint()
    ensures forall k | k in SearchTextKeys :: k !in SearchOptionKeys
  {
  }

  /** The text fields' issues, then the result-shaping fields', are grouped by the search's declared keys. */
  lemma SearchFieldsGrouped(text: seq<Issue>, options: seq<Issue>)
    requires Grouped(text, SearchTextKeys) && Grouped(options, SearchOptionKeys)
    ensures Grouped(text + options, SearchTextKeys + SearchOptionKeys)
    ensures forall k | k in SearchTextKeys :: IssuesFor(text + options, k) == IssuesFor(text, k)
    ensures forall k | k in SearchOptionKeys :: IssuesFor(text + options, k) == IssuesFor(options, k)
  {
    SearchKeysDisjoint();
    GroupedConcat(text, SearchTextKeys, options, SearchOptionKeys);
  }

  lemma SearchKeyOrder()
    ensures KeyOrder(SearchMessages) == SearchTextKeys + SearchOptionKeys
  {
  }

  lemma SearchConcat(args: Option<Json>)
    requires IsObject(args)
    ensures ParseSearch(args).Issues() == ParseSearchText(FieldsOf(args)).Issues() + ParseSearchOptions(FieldsOf(args)).Issues()
  {
  }

  /** A search: a non-object fails at the root; otherwise the text fields' issues, then the options'. */
  lemma SearchIssues(args: Option<Json>)
    ensures !IsObject(args) ==> ParseSearch(args) == Invalid(NotAnObject)
    ensures IsObject(args) ==>
      var m := FieldsOf(args);
      var issues := ParseSearch(args).Issues();
      && Grouped(issues, KeyOrder(SearchMessages))
      && (forall k | k in SearchTextKeys :: IssuesFor(issues, k) == IssuesFor(ParseSearchText(m).Issues(), k))
      && (forall k | k in SearchOptionKeys :: IssuesFor(issues, k) == IssuesFor(ParseSearchOptions(m).Issues(), k))
  {
    if IsObject(args) {
      var m := FieldsOf(args);
      SearchTextGrouped(m);
      SearchOptionsGrouped(m);
      SearchFieldsGrouped(ParseSearchText(m).Issues(), ParseSearchOptions(m).Issues());
      SearchConcat(args);
      SearchKeyOrder();
    }
  }
}
