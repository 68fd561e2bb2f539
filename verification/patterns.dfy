/**
 * The regular expressions of the request schemas, as character predicates.
 *
 * The source's regexes are JavaScript regexes without the `u` or `m` flag:
 * `\d` is `[0-9]`, `\b` uses the ASCII word class `[A-Za-z0-9_]`, `/i` folds
 * ASCII letters only, and `^...$` anchors the whole string.
 */
module Patterns {

  predicate IsDigit(c: char) {
    '0' <= c <= '9'
  }

  /** The class `[A-Z0-9]`. */
  predicate IsUpperOrDigit(c: char) {
    'A' <= c <= 'Z' || IsDigit(c)
  }

  /** The class `\w` of a non-unicode JavaScript regex. */
  predicate IsWordChar(c: char) {
    'a' <= c <= 'z' || 'A' <= c <= 'Z' || IsDigit(c) || c == '_'
  }

  predicate AllDigits(s: string) {
    forall i | 0 <= i < |s| :: IsDigit(s[i])
  }

  predicate AllUpperOrDigit(s: string) {
    forall i | 0 <= i < |s| :: IsUpperOrDigit(s[i])
  }

  // ---------------------------------------------------------------------------
  // Anchored patterns, as a tiny regex language with its textbook semantics
  // ---------------------------------------------------------------------------

  datatype CharClass = Digit | UpperOrDigit | Literal(c: char)

  predicate InClass(cls: CharClass, c: char) {
    match cls
    case Digit => IsDigit(c)
    case UpperOrDigit => IsUpperOrDigit(c)
    case Literal(l) => c == l
  }

  predicate AllIn(cls: CharClass, s: string) {
    forall i | 0 <= i < |s| :: InClass(cls, s[i])
  }

  /** `cls{n}` or `cls+`. */
  datatype Atom = Times(cls: CharClass, n: nat) | OneOrMore(cls: CharClass)

  /** `^re$` matches `s`: the atoms consume consecutive pieces of `s`, and nothing is left over. */
  predicate FullMatch(re: seq<Atom>, s: string)
    decreases |re|
  {
    if re == [] then s == []
    else match re[0]
      case Times(cls, n) => n <= |s| && AllIn(cls, s[..n]) && FullMatch(re[1..], s[n..])
      case OneOrMore(cls) => exists k | 1 <= k <= |s| :: AllIn(cls, s[..k]) && FullMatch(re[1..], s[k..])
  }

  /** `^\d{10}\.\d{6}$` */
  const TimestampRegex: seq<Atom> := [Times(Digit, 10), Times(Literal('.'), 1), Times(Digit, 6)]
  /** `^C[A-Z0-9]+$` */
  const ChannelIdRegex: seq<Atom> := [Times(Literal('C'), 1), OneOrMore(UpperOrDigit)]
  /** `^U[A-Z0-9]+$` */
  const UserIdRegex: seq<Atom> := [Times(Literal('U'), 1), OneOrMore(UpperOrDigit)]
  /** `^\d{4}-\d{2}-\d{2}$` */
  const DateRegex: seq<Atom> :=
    [Times(Digit, 4), Times(Literal('-'), 1), Times(Digit, 2), Times(Literal('-'), 1), Times(Digit, 2)]

  // ---------------------------------------------------------------------------
  // The same patterns as position-by-position predicates (used by the schemas)
  // ---------------------------------------------------------------------------

  /** A Slack message timestamp `1234567890.123456`. */
  predicate IsTimestamp(s: string) {
    && |s| == 17
    && (forall i | 0 <= i < 17 && i != 10 :: IsDigit(s[i]))
    && s[10] == '.'
  }

  /** An identifier: the given prefix letter, then at least one of `[A-Z0-9]`. */
  predicate IsPrefixedId(prefix: char, s: string) {
    && |s| >= 2
    && s[0] == prefix
    && (forall i | 1 <= i < |s| :: IsUpperOrDigit(s[i]))
  }

  predicate IsChannelId(s: string) {
    IsPrefixedId('C', s)
  }

  predicate IsUserId(s: string) {
    IsPrefixedId('U', s)
  }

  /** The shape `DDDD-DD-DD`; no calendar check is made. */
  predicate IsDateShape(s: string) {
    && |s| == 10
    && (forall i | 0 <= i < 10 && i != 4 && i != 7 :: IsDigit(s[i]))
    && s[4] == '-'
    && s[7] == '-'
  }

  // ---------------------------------------------------------------------------
  // The query refinement `/\b(from|in|before|after|on|during|has|is|with):/i`
  // ---------------------------------------------------------------------------

  const ModifierWords: seq<string> := ["from", "in", "before", "after", "on", "during", "has", "is", "with"]

  /** `c` matches the lower-case ASCII letter `lower` under non-unicode `/i`. */
  predicate FoldsTo(c: char, lower: char) {
    c == lower || ('a' <= lower <= 'z' && c as int == lower as int - 32)
  }

  /** Whether position `i` of `s` holds a word character (outside `s` counts as non-word). */
  predicate WordCharAt(s: string, i: int) {
    0 <= i < |s| && IsWordChar(s[i])
  }

  /** `\b` at position `i`: a word character on exactly one side. */
  predicate BoundaryAt(s: string, i: int) {
    WordCharAt(s, i - 1) != WordCharAt(s, i)
  }

  /** `w:` (case-insensitively) occurs in `s` at position `i`. */
  predicate TokenAt(s: string, i: nat, w: string) {
    && i + |w| < |s|
    && (forall k | 0 <= k < |w| :: FoldsTo(s[i + k], w[k]))
    && s[i + |w|] == ':'
  }

  /** The modifier pattern matches at position `i`. */
  predicate ModifierAt(s: string, i: nat) {
    BoundaryAt(s, i) && exists j | 0 <= j < |ModifierWords| :: TokenAt(s, i, ModifierWords[j])
  }

  /** `modifierPattern.test(s)`. */
  predicate HasModifier(s: string) {
    exists i: nat | i < |s| :: ModifierAt(s, i)
  }

  /**
   * The search `RegExp.prototype.test` performs: try each start position from
   * the left and report the leftmost one where the pattern matches.
   */
  method FindModifier(s: string) returns (found: bool, at: nat)
    ensures found <==> HasModifier(s)
    ensures found ==> at < |s| && ModifierAt(s, at)
    ensures found ==> forall i: nat | i < at :: !ModifierAt(s, i)
  {
    var i: nat := 0;
    while i < |s|
      invariant i <= |s|
      invariant forall p: nat | p < i :: !ModifierAt(s, p)
    {
      var j := 0;
      var hit := false;
      if BoundaryAt(s, i) {
        while j < |ModifierWords| && !hit
          invariant j <= |ModifierWords|
          invariant hit ==> j >= 1 && TokenAt(s, i, ModifierWords[j - 1])
          invariant !hit ==> forall q | 0 <= q < j :: !TokenAt(s, i, ModifierWords[q])
        {
          hit := TokenAt(s, i, ModifierWords[j]);
          j := j + 1;
        }
      }
      if hit {
        assert ModifierAt(s, i);
        return true, i;
      }
      i := i + 1;
    }
    return false, 0;
  }
}

module PatternFacts {
  import opened Patterns

  /** Unfolding `FullMatch` on a leading fixed-count atom. */
  lemma {:induction false} FullMatchTimes(cls: CharClass, n: nat, rest: seq<Atom>, s: string)
    ensures FullMatch([Times(cls, n)] + rest, s)
        <==> n <= |s| && AllIn(cls, s[..n]) && FullMatch(rest, s[n..])
  {
    var re := [Times(cls, n)] + rest;
    assert re[0] == Times(cls, n) && re[1..] == rest;
  }

  lemma {:induction false} TimestampRegexMeaning(s: string)
    ensures FullMatch(TimestampRegex, s) <==> IsTimestamp(s)
  {
    FullMatchTimes(Digit, 10, [Times(Literal('.'), 1), Times(Digit, 6)], s);
    assert TimestampRegex == [Times(Digit, 10)] + [Times(Literal('.'), 1), Times(Digit, 6)];
    if 10 <= |s| {
      var s1 := s[10..];
      FullMatchTimes(Literal('.'), 1, [Times(Digit, 6)], s1);
      assert [Times(Literal('.'), 1), Times(Digit, 6)] == [Times(Literal('.'), 1)] + [Times(Digit, 6)];
      if 1 <= |s1| {
        var s2 := s1[1..];
        FullMatchTimes(Digit, 6, [], s2);
        assert [Times(Digit, 6)] == [Times(Digit, 6)] + [];
        if IsTimestamp(s) {
          assert AllIn(Digit, s[..10]) by {
            forall i | 0 <= i < 10 ensures IsDigit(s[..10][i]) { assert s[..10][i] == s[i]; }
          }
          assert AllIn(Digit, s2[..6]) by {
            forall i | 0 <= i < 6 ensures IsDigit(s2[..6][i]) { assert s2[..6][i] == s[11 + i]; }
          }
        }
        if FullMatch(TimestampRegex, s) {
          forall i | 0 <= i < 17 && i != 10 ensures IsDigit(s[i]) {
            if i < 10 { assert s[..10][i] == s[i]; } else { assert s2[..6][i - 11] == s[i]; }
          }
          assert s1[..1][0] == s[10];
        }
      }
    }
  }

  /** Unfolding `FullMatch` on a leading `cls+` atom. */
  lemma {:induction false} FullMatchOneOrMore(cls: CharClass, rest: seq<Atom>, s: string)
    ensures FullMatch([OneOrMore(cls)] + rest, s)
        <==> exists k | 1 <= k <= |s| :: AllIn(cls, s[..k]) && FullMatch(rest, s[k..])
  {
    var re := [OneOrMore(cls)] + rest;
    assert re[0] == OneOrMore(cls) && re[1..] == rest;
  }

  /** `^P[A-Z0-9]+$` means exactly `IsPrefixedId(P, s)`. */
  lemma {:induction false} PrefixedIdRegexMeaning(prefix: char, s: string)
    ensures FullMatch([Times(Literal(prefix), 1), OneOrMore(UpperOrDigit)], s) <==> IsPrefixedId(prefix, s)
  {
    var tail := [OneOrMore(UpperOrDigit)];
    assert [Times(Literal(prefix), 1), OneOrMore(UpperOrDigit)] == [Times(Literal(prefix), 1)] + tail;
    FullMatchTimes(Literal(prefix), 1, tail, s);
    if 1 <= |s| {
      var s1 := s[1..];
      assert s[..1][0] == s[0];
      assert tail == [OneOrMore(UpperOrDigit)] + [];
      FullMatchOneOrMore(UpperOrDigit, [], s1);
      if IsPrefixedId(prefix, s) {
        assert AllIn(UpperOrDigit, s1[..|s1|]) by {
          forall i | 0 <= i < |s1| ensures IsUpperOrDigit(s1[..|s1|][i]) { assert s1[..|s1|][i] == s[i + 1]; }
        }
        assert s1[|s1|..] == [];
        assert FullMatch([], s1[|s1|..]);
      }
      if FullMatch([Times(Literal(prefix), 1), OneOrMore(UpperOrDigit)], s) {
        var k :| 1 <= k <= |s1| && AllIn(UpperOrDigit, s1[..k]) && FullMatch([], s1[k..]);
        assert k == |s1|;
        forall i | 1 <= i < |s| ensures IsUpperOrDigit(s[i]) { assert s1[..k][i - 1] == s[i]; }
      }
    }
  }

  lemma ChannelIdRegexMeaning(s: string)
    ensures FullMatch(ChannelIdRegex, s) <==> IsChannelId(s)
  {
    PrefixedIdRegexMeaning('C', s);
  }

  lemma UserIdRegexMeaning(s: string)
    ensures FullMatch(UserIdRegex, s) <==> IsUserId(s)
  {
    PrefixedIdRegexMeaning('U', s);
  }

  lemma {:induction false} DateRegexMeaning(s: string)
    ensures FullMatch(DateRegex, s) <==> IsDateShape(s)
  {
    var r1 := [Times(Literal('-'), 1), Times(Digit, 2), Times(Literal('-'), 1), Times(Digit, 2)];
    var r2 := [Times(Digit, 2), Times(Literal('-'), 1), Times(Digit, 2)];
    var r3 := [Times(Literal('-'), 1), Times(Digit, 2)];
    var r4 := [Times(Digit, 2)];
    assert DateRegex == [Times(Digit, 4)] + r1;
    assert r1 == [Times(Literal('-'), 1)] + r2;
    assert r2 == [Times(Digit, 2)] + r3;
    assert r3 == [Times(Literal('-'), 1)] + r4;
    assert r4 == [Times(Digit, 2)] + [];
    FullMatchTimes(Digit, 4, r1, s);
    if 4 <= |s| {
      var s1 := s[4..];
      FullMatchTimes(Literal('-'), 1, r2, s1);
      if 1 <= |s1| {
        var s2 := s1[1..];
        FullMatchTimes(Digit, 2, r3, s2);
        if 2 <= |s2| {
          var s3 := s2[2..];
          FullMatchTimes(Literal('-'), 1, r4, s3);
          if 1 <= |s3| {
            var s4 := s3[1..];
            FullMatchTimes(Digit, 2, [], s4);
            assert s1[..1][0] == s[4];
            assert s3[..1][0] == s[7];
            if IsDateShape(s) {
              assert AllIn(Digit, s[..4]) by {
                forall i | 0 <= i < 4 ensures IsDigit(s[..4][i]) { assert s[..4][i] == s[i]; }
              }
              assert AllIn(Digit, s2[..2]) by {
                forall i | 0 <= i < 2 ensures IsDigit(s2[..2][i]) { assert s2[..2][i] == s[5 + i]; }
              }
              assert AllIn(Digit, s4[..2]) by {
                forall i | 0 <= i < 2 ensures IsDigit(s4[..2][i]) { assert s4[..2][i] == s[8 + i]; }
              }
            }
            if FullMatch(DateRegex, s) {
              forall i | 0 <= i < 10 && i != 4 && i != 7 ensures IsDigit(s[i]) {
                if i < 4 { assert s[..4][i] == s[i]; }
                else if i < 7 { assert s2[..2][i - 5] == s[i]; }
                else { assert s4[..2][i - 8] == s[i]; }
              }
            }
          }
        }
      }
    }
  }

  /** A timestamp is ten digits, a dot and six digits, and nothing else. */
  lemma {:induction false} TimestampParts(seconds: string, micros: string)
    ensures IsTimestamp(seconds + "." + micros)
        <==> |seconds| == 10 && |micros| == 6 && AllDigits(seconds) && AllDigits(micros)
  {
    var s := seconds + "." + micros;
    if IsTimestamp(s) {
      assert s[|seconds|] == '.';
      assert |seconds| == 10 && |micros| == 6;
      forall i | 0 <= i < 10 ensures IsDigit(seconds[i]) { assert s[i] == seconds[i]; }
      forall i | 0 <= i < 6 ensures IsDigit(micros[i]) { assert s[i + 11] == micros[i]; }
    }
    if |seconds| == 10 && |micros| == 6 && AllDigits(seconds) && AllDigits(micros) {
      forall i | 0 <= i < 17 && i != 10 ensures IsDigit(s[i]) {
        if i < 10 { assert s[i] == seconds[i]; } else { assert s[i] == micros[i - 11]; }
      }
    }
  }

  /** An identifier is its prefix letter followed by a non-empty run of `[A-Z0-9]`. */
  lemma {:induction false} PrefixedIdParts(prefix: char, rest: string)
    ensures IsPrefixedId(prefix, [prefix] + rest) <==> |rest| >= 1 && AllUpperOrDigit(rest)
  {
    var s := [prefix] + rest;
    if IsPrefixedId(prefix, s) {
      forall i | 0 <= i < |rest| ensures IsUpperOrDigit(rest[i]) { assert s[i + 1] == rest[i]; }
    }
    if |rest| >= 1 && AllUpperOrDigit(rest) {
      forall i | 1 <= i < |s| ensures IsUpperOrDigit(s[i]) { assert s[i] == rest[i - 1]; }
    }
  }

  /** The date check is purely lexical: a thirteenth month and a 45th day pass. */
  lemma NoCalendarCheck()
    ensures IsDateShape("2024-13-45")
    ensures IsDateShape("0000-00-00")
    ensures !IsDateShape("2024-1-05")
  {
  }

  lemma ModifierExamples()
    ensures HasModifier("hello from:bob")
    ensures HasModifier("FROM:bob")
    ensures HasModifier("x (In:general)")
    ensures !HasModifier("in")
  {
    assert TokenAt("hello from:bob", 6, ModifierWords[0]);
    assert ModifierAt("hello from:bob", 6);
    assert TokenAt("FROM:bob", 0, ModifierWords[0]);
    assert ModifierAt("FROM:bob", 0);
    assert TokenAt("x (In:general)", 3, ModifierWords[1]);
    assert ModifierAt("x (In:general)", 3);
  }

  /** Every modifier ends in a colon, so text without one never matches. */
  lemma NoColonNoModifier(s: string)
    requires forall i | 0 <= i < |s| :: s[i] != ':'
    ensures !HasModifier(s)
  {
  }

  /** A modifier word glued to a preceding word character is not at a word boundary. */
  lemma GluedWordIsNotModifier()
    ensures !HasModifier("login:x")
  {
    var s := "login:x";
    forall i: nat | i < |s| ensures !ModifierAt(s, i) {
      if BoundaryAt(s, i) {
        assert i == 0 || i == 5 || i == 6;
        forall j | 0 <= j < |ModifierWords| ensures !TokenAt(s, i, ModifierWords[j]) {
          assert !FoldsTo(s[i], ModifierWords[j][0]);
        }
      }
    }
  }
}
