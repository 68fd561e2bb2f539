/**
 * zod object schemas in "strip" mode, applied to upstream responses: declared
 * keys are checked (recursively through nested objects and arrays) and kept,
 * undeclared keys are dropped, and any declared key holding a value of the
 * wrong kind makes the whole parse fail.
 */
module Sanitizer {
  import opened Wrappers
  import opened JsonValue

  /** `z.string()`, `z.string().email()` or `z.string().url()`. */
  datatype StringFormat = PlainText | Email | Url

  /** zod's e-mail and URL checkers, which the model does not define. */
  datatype Formats = Formats(isEmail: string -> bool, isUrl: string -> bool)

  predicate FormatHolds(formats: Formats, f: StringFormat, s: string) {
    match f
    case PlainText => true
    case Email => formats.isEmail(s)
    case Url => formats.isUrl(s)
  }

  /** A response schema: a string, number, boolean, array or object of declared fields. */
  datatype Schema =
    | SStr(format: StringFormat)
    | SNum
    | SBool
    | SArr(elem: Schema)
    | SObj(fields: map<string, Field>)

  /** A declared field; an `.optional()` field may be absent (but not `null`). */
  datatype Field = Field(schema: Schema, optional: bool)

  /** `schema.parse(j)`: the stripped value, or `None` where zod throws. */
  function Sanitize(formats: Formats, s: Schema, j: Json): (r: Option<Json>)
    ensures r.Some? ==> KindMatches(s, j) && KindMatches(s, r.value)
    ensures r.Some? && s.SArr? ==> |r.value.items| == |j.items|
    decreases s
  {
    match s
    case SStr(f) => if j.JStr? && FormatHolds(formats, f, j.s) then Some(j) else None
    case SNum => if j.JNum? then Some(j) else None
    case SBool => if j.JBool? then Some(j) else None
    case SArr(e) =>
      if j.JArr? && forall i | 0 <= i < |j.items| :: Sanitize(formats, e, j.items[i]).Some? then
        Some(JArr(seq(|j.items|, i requires 0 <= i < |j.items| && Sanitize(formats, e, j.items[i]).Some? =>
          Sanitize(formats, e, j.items[i]).value)))
      else None
    case SObj(fs) =>
      if j.JObj? && forall k | k in fs ::
           if k in j.fields then Sanitize(formats, fs[k].schema, j.fields[k]).Some? else fs[k].optional
      then
        Some(JObj(map k | k in j.fields && k in fs :: Sanitize(formats, fs[k].schema, j.fields[k]).value))
      else None
  }

  /**
   * `j` already has the shape `s` declares: the right kinds and formats, every
   * required key present, and no key the schema does not declare.
   */
  predicate Conforms(formats: Formats, s: Schema, j: Json)
    decreases s
  {
    match s
    case SStr(f) => j.JStr? && FormatHolds(formats, f, j.s)
    case SNum => j.JNum?
    case SBool => j.JBool?
    case SArr(e) => j.JArr? && forall i | 0 <= i < |j.items| :: Conforms(formats, e, j.items[i])
    case SObj(fs) =>
      && j.JObj?
      && j.fields.Keys <= fs.Keys
      && forall k | k in fs :: if k in j.fields then Conforms(formats, fs[k].schema, j.fields[k]) else fs[k].optional
  }

  /** Drops every key `s` does not declare, at every depth, without checking anything. */
  function Strip(s: Schema, j: Json): (r: Json)
    decreases s
  {
    match s
    case SArr(e) =>
      if j.JArr? then JArr(seq(|j.items|, i requires 0 <= i < |j.items| => Strip(e, j.items[i]))) else j
    case SObj(fs) =>
      if j.JObj? then JObj(map k | k in j.fields && k in fs :: Strip(fs[k].schema, j.fields[k])) else j
    case _ => j
  }

  /** The JSON kind a schema expects at its top level. */
  predicate KindMatches(s: Schema, j: Json) {
    match s
    case SStr(_) => j.JStr?
    case SNum => j.JNum?
    case SBool => j.JBool?
    case SArr(_) => j.JArr?
    case SObj(_) => j.JObj?
  }

  /** zod's `.extend(...)`: the extension's fields are added to (and override) the base's. */
  function Extend(base: map<string, Field>, extension: map<string, Field>): (r: map<string, Field>)
    ensures r.Keys == base.Keys + extension.Keys
    ensures forall k | k in extension :: r[k] == extension[k]
    ensures forall k | k in base && k !in extension :: r[k] == base[k]
  {
    base + extension
  }
}

module SanitizerFacts {
  import opened Wrappers
  import opened JsonValue
  import opened Sanitizer

  /** Sanitizing is stripping the undeclared keys, then checking the declared shape. */
  lemma {:induction false} SanitizeIsStripThenCheck(formats: Formats, s: Schema, j: Json)
    ensures Sanitize(formats, s, j)
         == if Conforms(formats, s, Strip(s, j)) then Some(Strip(s, j)) else None
    decreases s
  {
    match s
    case SStr(_) =>
    case SNum =>
    case SBool =>
    case SArr(e) =>
      if j.JArr? {
        forall i | 0 <= i < |j.items|
          ensures Sanitize(formats, e, j.items[i])
               == if Conforms(formats, e, Strip(e, j.items[i])) then Some(Strip(e, j.items[i])) else None
        {
          SanitizeIsStripThenCheck(formats, e, j.items[i]);
        }
        var p := Strip(s, j);
        assert |p.items| == |j.items|;
        assert forall i | 0 <= i < |j.items| :: p.items[i] == Strip(e, j.items[i]);
        if forall i | 0 <= i < |j.items| :: Sanitize(formats, e, j.items[i]).Some? {
          var q := Sanitize(formats, s, j).value;
          assert |q.items| == |p.items|;
          assert forall i | 0 <= i < |q.items| :: q.items[i] == p.items[i];
          assert q.items == p.items;
        } else {
          var i :| 0 <= i < |j.items| && Sanitize(formats, e, j.items[i]).None?;
          assert !Conforms(formats, e, p.items[i]);
        }
      }
    case SObj(fs) =>
      if j.JObj? {
        forall k | k in fs && k in j.fields
          ensures Sanitize(formats, fs[k].schema, j.fields[k])
               == if Conforms(formats, fs[k].schema, Strip(fs[k].schema, j.fields[k]))
                  then Some(Strip(fs[k].schema, j.fields[k])) else None
        {
          SanitizeIsStripThenCheck(formats, fs[k].schema, j.fields[k]);
        }
        var p := Strip(s, j);
        assert p.fields.Keys <= fs.Keys;
        assert forall k | k in fs :: (k in p.fields <==> k in j.fields);
        if forall k | k in fs :: if k in j.fields then Sanitize(formats, fs[k].schema, j.fields[k]).Some? else fs[k].optional {
          var q := Sanitize(formats, s, j).value;
          assert q.fields.Keys == p.fields.Keys;
          assert forall k | k in q.fields :: q.fields[k] == p.fields[k];
          assert q.fields == p.fields;
          assert Conforms(formats, s, p);
        } else {
          var k :| k in fs && !(if k in j.fields then Sanitize(formats, fs[k].schema, j.fields[k]).Some? else fs[k].optional);
          assert !Conforms(formats, s, p);
        }
      }
  }

  /** Stripping keeps a value that already conforms unchanged. */
  lemma {:induction false} StripConformingIsIdentity(formats: Formats, s: Schema, j: Json)
    requires Conforms(formats, s, j)
    ensures Strip(s, j) == j
    decreases s
  {
    match s
    case SStr(_) =>
    case SNum =>
    case SBool =>
    case SArr(e) =>
      forall i | 0 <= i < |j.items| ensures Strip(e, j.items[i]) == j.items[i] {
        StripConformingIsIdentity(formats, e, j.items[i]);
      }
      assert Strip(s, j).items == j.items;
    case SObj(fs) =>
      forall k | k in j.fields ensures Strip(fs[k].schema, j.fields[k]) == j.fields[k] {
        StripConformingIsIdentity(formats, fs[k].schema, j.fields[k]);
      }
      assert Strip(s, j).fields == j.fields;
  }

  /** Stripping twice strips nothing more. */
  lemma {:induction false} StripIdempotent(s: Schema, j: Json)
    ensures Strip(s, Strip(s, j)) == Strip(s, j)
    decreases s
  {
    match s
    case SStr(_) =>
    case SNum =>
    case SBool =>
    case SArr(e) =>
      if j.JArr? {
        var p := Strip(s, j);
        forall i | 0 <= i < |p.items| ensures Strip(e, p.items[i]) == p.items[i] {
          StripIdempotent(e, j.items[i]);
        }
        assert Strip(s, p).items == p.items;
      }
    case SObj(fs) =>
      if j.JObj? {
        var p := Strip(s, j);
        forall k | k in p.fields ensures Strip(fs[k].schema, p.fields[k]) == p.fields[k] {
          StripIdempotent(fs[k].schema, j.fields[k]);
        }
        assert Strip(s, p).fields == p.fields;
      }
  }

  /** A sanitized value has exactly the declared shape: nothing undeclared survives, at any depth. */
  lemma SanitizedConforms(formats: Formats, s: Schema, j: Json)
    requires Sanitize(formats, s, j).Some?
    ensures Conforms(formats, s, Sanitize(formats, s, j).value)
  {
    SanitizeIsStripThenCheck(formats, s, j);
  }

  /** A value that already has the declared shape passes through unchanged. */
  lemma ConformingIsFixpoint(formats: Formats, s: Schema, j: Json)
    requires Conforms(formats, s, j)
    ensures Sanitize(formats, s, j) == Some(j)
  {
    SanitizeIsStripThenCheck(formats, s, j);
    StripConformingIsIdentity(formats, s, j);
  }

  /** Sanitizing a sanitized value changes nothing. */
  lemma SanitizeIdempotent(formats: Formats, s: Schema, j: Json)
    requires Sanitize(formats, s, j).Some?
    ensures Sanitize(formats, s, Sanitize(formats, s, j).value) == Sanitize(formats, s, j)
  {
    SanitizedConforms(formats, s, j);
    ConformingIsFixpoint(formats, s, Sanitize(formats, s, j).value);
  }

  /** Only the declared part of a value matters: removing undeclared keys first changes nothing. */
  lemma StrippedFirstIsSame(formats: Formats, s: Schema, j: Json)
    ensures Sanitize(formats, s, Strip(s, j)) == Sanitize(formats, s, j)
  {
    SanitizeIsStripThenCheck(formats, s, j);
    SanitizeIsStripThenCheck(formats, s, Strip(s, j));
    StripIdempotent(s, j);
  }

  /** Extra top-level keys the schema does not declare are irrelevant to the outcome. */
  lemma ExtraKeysIrrelevant(formats: Formats, fs: map<string, Field>, m: map<string, Json>, extra: map<string, Json>)
    requires extra.Keys !! fs.Keys
    ensures Sanitize(formats, SObj(fs), JObj(m + extra)) == Sanitize(formats, SObj(fs), JObj(m))
  {
    assert Strip(SObj(fs), JObj(m + extra)) == Strip(SObj(fs), JObj(m));
    StrippedFirstIsSame(formats, SObj(fs), JObj(m + extra));
    StrippedFirstIsSame(formats, SObj(fs), JObj(m));
  }

  /**
   * The sanitized object holds exactly the declared keys that were present,
   * each with its own sanitized value.
   */
  lemma SanitizedObjectKeys(formats: Formats, fs: map<string, Field>, m: map<string, Json>)
    requires Sanitize(formats, SObj(fs), JObj(m)).Some?
    ensures Sanitize(formats, SObj(fs), JObj(m)).value.JObj?
    ensures Sanitize(formats, SObj(fs), JObj(m)).value.fields.Keys == fs.Keys * m.Keys
    ensures forall k | k in fs && k in m ::
      Sanitize(formats, fs[k].schema, m[k]) == Some(Sanitize(formats, SObj(fs), JObj(m)).value.fields[k])
  {
  }

  /**
   * A declared key holding a value of the wrong kind, or any value its own
   * schema rejects, makes the whole parse fail; so does a missing required key.
   */
  lemma DeclaredFieldFailure(formats: Formats, fs: map<string, Field>, m: map<string, Json>, k: string)
    requires k in fs
    requires (k in m && (!KindMatches(fs[k].schema, m[k]) || Sanitize(formats, fs[k].schema, m[k]).None?))
          || (k !in m && !fs[k].optional)
    ensures Sanitize(formats, SObj(fs), JObj(m)) == None
  {
  }

  /** `null` is not "absent": an optional field holding `null` fails. */
  lemma NullIsNotAbsent(formats: Formats, fs: map<string, Field>, m: map<string, Json>, k: string)
    requires k in fs && k in m && m[k] == JNull
    ensures Sanitize(formats, SObj(fs), JObj(m)) == None
  {
    DeclaredFieldFailure(formats, fs, m, k);
  }

  /**
   * An extended schema sanitizes the base's keys exactly as the base schema
   * does, when the extension declares none of them.
   */
  lemma ExtendKeepsBase(formats: Formats, base: map<string, Field>, extension: map<string, Field>, m: map<string, Json>)
    requires base.Keys !! extension.Keys
    requires Sanitize(formats, SObj(Extend(base, extension)), JObj(m)).Some?
    ensures Sanitize(formats, SObj(base), JObj(m)).Some?
    ensures Sanitize(formats, SObj(base), JObj(m)).value.fields
         == map k | k in Sanitize(formats, SObj(Extend(base, extension)), JObj(m)).value.fields && k in base
              :: Sanitize(formats, SObj(Extend(base, extension)), JObj(m)).value.fields[k]
  {
    var all := Extend(base, extension);
    assert forall k | k in base :: all[k] == base[k];
  }
}
