/** How the search tool assembles the platform query from the validated request. */
module Search {
  import opened Wrappers
  import opened JsonValue
  import opened Patterns
  import opened Requests
  import opened Remote

  /** The five filters the query builder reads, in the order it appends them. */
  datatype Filters = Filters(
    inChannel: Option<string>,
    inGroup: Option<string>,
    inDm: Option<string>,
    fromUser: Option<string>,
    fromBot: Option<string>)

  /** `if (value)` on an optional string: present and not empty. */
  predicate Present(v: Option<string>)
    ensures Present(v) <==> Truthy(if v.None? then None else Some(JStr(v.value)))
  {
    v.Some? && v.value != ""
  }

  /** ` <open><value><close>` when the filter is present, nothing otherwise. */
  function Token(v: Option<string>, open: string, close: string): string {
    if Present(v) then " " + open + v.value + close else ""
  }

  /** The query: the caller's text, then each present filter as a modifier, in a fixed order. */
  function BuildQuery(base: string, f: Filters): (q: string)
    ensures base <= q
    ensures q == base <==> !Present(f.inChannel) && !Present(f.inGroup) && !Present(f.inDm)
                           && !Present(f.fromUser) && !Present(f.fromBot)
  {
    base
      + Token(f.inChannel, "in:", "")
      + Token(f.inGroup, "in:", "")
      + Token(f.inDm, "in:<@", ">")
      + Token(f.fromUser, "from:<@", ">")
      + Token(f.fromBot, "from:", "")
  }

  /**
   * The filters as the builder reads them from a parsed request: `in_group`,
   * `in_dm` and `from_bot` are not declared by the schema, so parsing has
   * already dropped them and they read as `undefined`.
   */
  function FiltersOf(a: SearchArgs): (f: Filters)
    ensures f.inGroup.None? && f.inDm.None? && f.fromBot.None?
  {
    Filters(a.inChannel, None, None, a.fromUser, None)
  }

  /** The platform call the search tool issues; the date filters are not part of it. */
  function SearchCall(a: SearchArgs): (c: RemoteCall)
    ensures c.client == UserClient
    ensures c.call.SearchMessagesCall?
    ensures a.query <= c.call.query
    ensures c.call.count == a.count && c.call.page == a.page && c.call.highlight == a.highlight
    ensures c.call.sort == SortKeyName(a.sort) && c.call.sortDir == SortDirName(a.sortDir)
  {
    RemoteCall(UserClient, SearchMessagesCall(
      BuildQuery(a.query, FiltersOf(a)), a.highlight, SortKeyName(a.sort), SortDirName(a.sortDir), a.count, a.page))
  }
}

module SearchFacts {
  import opened Wrappers
  import opened JsonValue
  import opened Patterns
  import opened Requests
  import opened Remote
  import opened Search
  import PatternFacts

  /** A worked example: the channel filter, then the user filter. */
  lemma ChannelThenUser()
    ensures BuildQuery("deploy", Filters(Some("C123"), None, None, Some("U456"), None))
         == "deploy in:C123 from:<@U456>"
  {
  }

  /** All five filters, in their fixed order. */
  lemma FixedOrder(q: string, c: string, g: string, d: string, u: string, b: string)
    requires c != "" && g != "" && d != "" && u != "" && b != ""
    ensures BuildQuery(q, Filters(Some(c), Some(g), Some(d), Some(u), Some(b)))
         == q + " in:" + c + " in:" + g + " in:<@" + d + ">" + " from:<@" + u + ">" + " from:" + b
  {
    var f := Filters(Some(c), Some(g), Some(d), Some(u), Some(b));
    var t1, t2, t3, t4, t5 := " in:" + c, " in:" + g, " in:<@" + d + ">", " from:<@" + u + ">", " from:" + b;
    assert Token(f.inChannel, "in:", "") == t1;
    assert Token(f.inGroup, "in:", "") == t2;
    assert Token(f.inDm, "in:<@", ">") == t3;
    assert Token(f.fromUser, "from:<@", ">") == t4;
    assert Token(f.fromBot, "from:", "") == t5;
    assert BuildQuery(q, f) == q + t1 + t2 + t3 + t4 + t5;
    var s1 := q + " in:" + c;
    assert q + t1 == s1;
    var s2 := s1 + " in:" + g;
    assert s1 + t2 == s2;
    var s3 := s2 + " in:<@" + d + ">";
    assert s2 + t3 == s3;
    var s4 := s3 + " from:<@" + u + ">";
    assert s3 + t4 == s4;
    assert s4 + t5 == s4 + " from:" + b;
  }

  /** What validation guarantees about the parts of a search request the query builder reads. */
  predicate ValidatedText(a: SearchArgs) {
    && (a.query == "" || !HasModifier(a.query))
    && (a.inChannel.None? || IsChannelId(a.inChannel.value))
    && (a.fromUser.None? || IsUserId(a.fromUser.value))
  }

  lemma ParsedIsValidated(args: Option<Json>)
    requires ParseSearch(args).Valid?
    ensures ValidatedText(ParseSearch(args).value)
  {
  }

  /** For a validated request only the channel and user filters can contribute. */
  lemma ValidatedQuery(a: SearchArgs)
    requires a.inChannel.None? || IsChannelId(a.inChannel.value)
    requires a.fromUser.None? || IsUserId(a.fromUser.value)
    ensures BuildQuery(a.query, FiltersOf(a))
         == a.query
            + (if a.inChannel.Some? then " in:" + a.inChannel.value else "")
            + (if a.fromUser.Some? then " from:<@" + a.fromUser.value + ">" else "")
  {
    NonEmptyFilters(a.inChannel, a.fromUser);
    var f := FiltersOf(a);
    var channelPart := Token(f.inChannel, "in:", "");
    var userPart := Token(f.fromUser, "from:<@", ">");
    if a.inChannel.Some? {
      assert Present(f.inChannel);
      assert channelPart == " in:" + a.inChannel.value;
    } else {
      assert channelPart == "";
    }
    if a.fromUser.Some? {
      assert Present(f.fromUser);
      assert userPart == " from:<@" + a.fromUser.value + ">";
    } else {
      assert userPart == "";
    }
    assert !Present(f.inGroup) && !Present(f.inDm) && !Present(f.fromBot);
    assert Token(f.inGroup, "in:", "") == "" && Token(f.inDm, "in:<@", ">") == "" && Token(f.fromBot, "from:", "") == "";
    assert BuildQuery(a.query, f) == a.query + channelPart + "" + "" + userPart + "";
    assert a.query + channelPart + "" + "" + userPart + "" == a.query + channelPart + userPart;
  }

  /** Validated channel and user ids are never empty, so a present filter always contributes. */
  lemma NonEmptyFilters(inChannel: Option<string>, fromUser: Option<string>)
    requires inChannel.None? || IsChannelId(inChannel.value)
    requires fromUser.None? || IsUserId(fromUser.value)
    ensures inChannel.Some? ==> Present(inChannel)
    ensures fromUser.Some? ==> Present(fromUser)
  {
  }

  /** A modifier word right after a space is a modifier match, whatever surrounds it. */
  lemma ModifierAfterSpace(before: string, j: nat, after: string)
    requires j < |ModifierWords|
    ensures HasModifier(before + " " + ModifierWords[j] + ":" + after)
  {
    var w := ModifierWords[j];
    var s := before + " " + w + ":" + after;
    var i := |before| + 1;
    assert forall n | 0 <= n < |ModifierWords| :: |ModifierWords[n]| > 0 && 'a' <= ModifierWords[n][0] <= 'z';
    assert s[i - 1] == ' ' && s[i] == w[0];
    forall k | 0 <= k < |w| ensures FoldsTo(s[i + k], w[k]) {
      assert s[i + k] == w[k];
    }
    assert s[i + |w|] == ':';
    assert TokenAt(s, i, w);
    assert ModifierAt(s, i);
  }

  /**
   * After assembly the query carries a search modifier exactly when a filter
   * contributed one: the validated text itself never does.
   */
  lemma {:induction false} ModifiersOnlyFromFilters(a: SearchArgs)
    requires ValidatedText(a)
    ensures HasModifier(BuildQuery(a.query, FiltersOf(a))) <==> a.inChannel.Some? || a.fromUser.Some?
  {
    if a.inChannel.Some? {
      ChannelFilterIsModifier(a);
    } else if a.fromUser.Some? {
      UserFilterIsModifier(a);
    } else {
      ValidatedQuery(a);
      assert BuildQuery(a.query, FiltersOf(a)) == a.query;
    }
  }

  /** A present channel filter puts ` in:` into the query. */
  lemma ChannelFilterIsModifier(a: SearchArgs)
    requires a.inChannel.Some? && IsChannelId(a.inChannel.value)
    requires a.fromUser.None? || IsUserId(a.fromUser.value)
    ensures HasModifier(BuildQuery(a.query, FiltersOf(a)))
  {
    ValidatedQuery(a);
    InModifier(a.query, a.inChannel.value, if a.fromUser.Some? then " from:<@" + a.fromUser.value + ">" else "");
  }

  /** A present user filter puts ` from:` into the query. */
  lemma UserFilterIsModifier(a: SearchArgs)
    requires a.inChannel.None? && a.fromUser.Some? && IsUserId(a.fromUser.value)
    ensures HasModifier(BuildQuery(a.query, FiltersOf(a)))
  {
    ValidatedQuery(a);
    FromModifier(a.query, a.fromUser.value);
  }

  lemma InModifier(query: string, channel: string, userPart: string)
    ensures HasModifier(query + (" in:" + channel) + userPart)
  {
    var rest := channel + userPart;
    assert query + (" in:" + channel) + userPart == query + " " + ModifierWords[1] + ":" + rest;
    ModifierAfterSpace(query, 1, rest);
  }

  lemma FromModifier(query: string, user: string)
    ensures HasModifier(query + "" + (" from:<@" + user + ">"))
  {
    var rest := "<@" + user + ">";
    assert query + "" + (" from:<@" + user + ">") == query + " " + ModifierWords[0] + ":" + rest;
    ModifierAfterSpace(query, 0, rest);
  }

  /**
   * The query of the call, stated on the raw arguments: the caller's text (or
   * nothing), then ` in:<channel>` and ` from:<@user>` for each filter given.
   */
  lemma ParsedSearchQuery(args: Option<Json>)
    requires ParseSearch(args).Valid?
    ensures var m := FieldsOf(args);
      SearchCall(ParseSearch(args).value).call.query
        == (if "query" in m then m["query"].s else "")
           + (if "in_channel" in m then " in:" + m["in_channel"].s else "")
           + (if "from_user" in m then " from:<@" + m["from_user"].s + ">" else "")
  {
    var a := ParseSearch(args).value;
    ValidatedQuery(a);
  }

  /** A worked example, from the raw arguments to the platform query. */
  lemma DeployRequestQuery(args: Option<Json>)
    requires args == Some(JObj(map["query" := JStr("deploy"), "in_channel" := JStr("C123"), "from_user" := JStr("U456")]))
    ensures ParseSearch(args).Valid?
    ensures SearchCall(ParseSearch(args).value).call.query == "deploy in:C123 from:<@U456>"
  {
    var m := args.value.fields;
    DeployRequestAccepted(m);
    assert ParseSearch(args).Valid?;
    assert Get(m, "query") == Some(JStr("deploy"));
    assert Get(m, "in_channel") == Some(JStr("C123"));
    assert Get(m, "from_user") == Some(JStr("U456"));
    FullyFilteredQuery(args, "deploy", "C123", "U456");
    DeployText();
  }

  lemma DeployText()
    ensures "deploy" + " in:" + "C123" + " from:<@" + "U456" + ">" == "deploy in:C123 from:<@U456>"
  {
  }

  /** A request giving the text and both filters. */
  lemma FullyFilteredQuery(args: Option<Json>, text: string, channel: string, user: string)
    requires ParseSearch(args).Valid?
    requires var m := FieldsOf(args);
      Get(m, "query") == Some(JStr(text)) && Get(m, "in_channel") == Some(JStr(channel)) && Get(m, "from_user") == Some(JStr(user))
    ensures SearchCall(ParseSearch(args).value).call.query == text + " in:" + channel + " from:<@" + user + ">"
  {
    ParsedSearchQuery(args);
  }

  lemma DeployRequestAccepted(m: map<string, Json>)
    requires m == map["query" := JStr("deploy"), "in_channel" := JStr("C123"), "from_user" := JStr("U456")]
    ensures SearchTextAccepted(m) && SearchOptionsAccepted(m)
  {
    PatternFacts.NoColonNoModifier("deploy");
    PatternFacts.PrefixedIdParts('C', "123");
    assert "C123" == ['C'] + "123";
    PatternFacts.PrefixedIdParts('U', "456");
    assert "U456" == ['U'] + "456";
    assert Get(m, "before").None? && Get(m, "after").None? && Get(m, "on").None? && Get(m, "during").None?;
  }

  /** The date filters never reach the platform: two requests that differ only in them make the same call. */
  lemma DatesNeverReachCall(a: SearchArgs, b: SearchArgs)
    requires a.(before := b.before, after := b.after, on := b.on, during := b.during) == b
    ensures SearchCall(a) == SearchCall(b)
  {
  }
}
