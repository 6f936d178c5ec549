/**
 * `parse_property`: the typed, optionally required extraction of one key of
 * the configuration hash, with its three ways of failing.
 */
module PropertyParser {
  import opened Wrappers
  import opened ConfigValue

  /** The classes the core passes as `type`: String, Integer and Range. */
  datatype ExpectedType = TString | TInteger | TRange

  /** What a successful call returns: the object unchanged, or a new inclusive Range. */
  datatype Parsed = Plain(v: Value) | IntRange(first: int, last: int)

  /** The three errors `parse_property` raises. */
  datatype PropertyError =
    | MissingRequired(key: string)                  // "Missing required option: <key>"
    | InvalidRange(obj: Value)                      // "Invalid Range object: <obj>"
    | InvalidType(expected: ExpectedType, obj: Value) // "Invalid <type> object: <obj>"

  /** `Ok(None)` is the `nil` an absent optional key yields. */
  type ParseResult = Result<Option<Parsed>, PropertyError>

  /** The arguments of one call site: key, type and the `:optional` flag. */
  datatype PropertySpec = PropertySpec(key: string, ty: ExpectedType, optional: bool)

  /**
   * `obj.kind_of?(type)` for the two plain classes (never true for Range), as
   * the source tests it; for String and Integer it agrees with `Conforms`.
   */
  predicate KindOf(obj: Value, ty: ExpectedType)
    ensures KindOf(obj, ty) ==> ty != TRange
    ensures ty != TRange ==> (KindOf(obj, ty) <==> Conforms(obj, ty))
  {
    (ty == TString && obj.VStr?) || (ty == TInteger && obj.VInt?)
  }

  function ParseProperty(config: Config, key: string, ty: ExpectedType, optional: bool): (r: ParseResult)
    ensures r.Ok? && r.value.Some? ==> key in config && Conforms(config[key], ty)
    ensures r.Ok? && r.value.Some? && ty != TRange ==> r.value.value == Plain(config[key])
    ensures r.Ok? && r.value.Some? && ty == TRange ==>
      r.value.value == IntRange(config[key].entries["first"].i, config[key].entries["last"].i)
    ensures r.Ok? && r.value.None? ==> optional
    ensures r.Err? && r.error.MissingRequired? ==> !optional && r.error.key == key
  {
    match Lookup(config, key)
    case None =>
      if optional then Ok(None) else Err(MissingRequired(key))
    case Some(obj) =>
      if ty == TRange then
        if !obj.VMap? then Err(InvalidRange(obj))
        else
          var first, last := Lookup(obj.entries, "first"), Lookup(obj.entries, "last");
          if first.Some? && first.value.VInt? && last.Some? && last.value.VInt?
          then Ok(Some(IntRange(first.value.i, last.value.i)))
          else Err(InvalidRange(obj))
      else if KindOf(obj, ty) then Ok(Some(Plain(obj)))
      else Err(InvalidType(ty, obj))
  }

  /** One call site applied to a configuration. */
  function Parse(config: Config, spec: PropertySpec): ParseResult
  {
    ParseProperty(config, spec.key, spec.ty, spec.optional)
  }

  // ---------------------------------------------------------------------------
  // Reference reading of the contract, independent of the nested conditionals
  // ---------------------------------------------------------------------------

  /** The object is acceptable for the declared type. */
  predicate Conforms(v: Value, ty: ExpectedType) {
    match ty
    case TString => v.VStr?
    case TInteger => v.VInt?
    case TRange => v.VMap? && IntAt(v.entries, "first") && IntAt(v.entries, "last")
  }

  predicate IntAt(m: map<string, Value>, k: string) {
    k in m && m[k].VInt?
  }

  /** A key that is present conforms; a key that is absent or null is optional. */
  predicate Satisfies(config: Config, spec: PropertySpec) {
    if spec.key in config && config[spec.key] != VNull
    then Conforms(config[spec.key], spec.ty)
    else spec.optional
  }

  /** The inclusive integer range a Range value denotes. */
  function Members(first: int, last: int): (s: set<int>)
    ensures forall x :: x in s <==> first <= x <= last
    decreases if first <= last then last - first + 1 else 0
  {
    if first > last then {} else Members(first, last - 1) + {last}
  }

  /** The configuration object that a parsed value is read back from. */
  function Render(p: Parsed): Value {
    match p
    case Plain(v) => v
    case IntRange(first, last) => VMap(map["first" := VInt(first), "last" := VInt(last)])
  }

  /** The type a parsed value is extracted with, when it is of one of the three. */
  function TypeOf(p: Parsed): Option<ExpectedType> {
    match p
    case IntRange(_, _) => Some(TRange)
    case Plain(VStr(_)) => Some(TString)
    case Plain(VInt(_)) => Some(TInteger)
    case Plain(_) => None
  }

  // ---------------------------------------------------------------------------
  // Properties
  // ---------------------------------------------------------------------------

  /** Success is exactly the reference reading; no other input gets through. */
  lemma ParseOkIffSatisfies(config: Config, spec: PropertySpec)
    ensures Parse(config, spec).Ok? <==> Satisfies(config, spec)
  {
  }

  /** An absent or null required key fails, naming exactly that key; a present one never does. */
  lemma MissingRequiredNamesKey(config: Config, key: string, ty: ExpectedType, k: string)
    ensures ParseProperty(config, key, ty, false) == Err(MissingRequired(k))
        <==> k == key && (key !in config || config[key] == VNull)
  {
  }

  /** An absent or null optional key yields `nil`, not an error. */
  lemma OptionalAbsentIsNil(config: Config, key: string, ty: ExpectedType)
    requires key !in config || config[key] == VNull
    ensures ParseProperty(config, key, ty, true) == Ok(None)
  {
  }

  /** `:optional` changes only the missing case: a present value is judged identically. */
  lemma OptionalOnlySuppressesMissing(config: Config, key: string, ty: ExpectedType)
    requires key in config && config[key] != VNull
    ensures ParseProperty(config, key, ty, true) == ParseProperty(config, key, ty, false)
    ensures ParseProperty(config, key, ty, true) != Ok(None)
  {
  }

  /** A present value of the wrong plain type fails naming the type, even when optional. */
  lemma WrongPlainTypeFails(config: Config, key: string, ty: ExpectedType, optional: bool)
    requires ty != TRange && key in config && config[key] != VNull
    ensures ParseProperty(config, key, ty, optional) == Err(InvalidType(ty, config[key]))
        <==> !Conforms(config[key], ty)
  {
  }

  /** No coercion: a string is no Integer and an integer is no String. */
  lemma NoCoercion(config: Config, key: string, optional: bool, s: string, n: int)
    ensures ParseProperty(config[key := VStr(s)], key, TInteger, optional) == Err(InvalidType(TInteger, VStr(s)))
    ensures ParseProperty(config[key := VInt(n)], key, TString, optional) == Err(InvalidType(TString, VInt(n)))
  {
  }

  /** A present value of the right plain type comes back unchanged. */
  lemma PlainValueUnchanged(config: Config, key: string, ty: ExpectedType, optional: bool)
    requires ty != TRange && key in config && Conforms(config[key], ty)
    ensures ParseProperty(config, key, ty, optional) == Ok(Some(Plain(config[key])))
  {
  }

  /** For Range, every error is an invalid-Range error unless the key is missing. */
  lemma RangeErrorsAreRangeErrors(config: Config, key: string, optional: bool)
    requires key in config && config[key] != VNull
    ensures ParseProperty(config, key, TRange, optional).Err?
        <==> ParseProperty(config, key, TRange, optional) == Err(InvalidRange(config[key]))
    ensures ParseProperty(config, key, TRange, optional).Err? <==> !Conforms(config[key], TRange)
  {
  }

  /** A present value that is not a hash is an invalid Range. */
  lemma RangeRejectsNonMap(config: Config, key: string, optional: bool)
    requires key in config && config[key] != VNull && !config[key].VMap?
    ensures ParseProperty(config, key, TRange, optional) == Err(InvalidRange(config[key]))
  {
  }

  /**
   * A hash whose `first` and `last` are integers yields first..last inclusive,
   * with no check that first <= last.
   */
  lemma RangeFromBounds(config: Config, key: string, optional: bool, m: map<string, Value>, first: int, last: int)
    requires "first" in m && m["first"] == VInt(first) && "last" in m && m["last"] == VInt(last)
    ensures ParseProperty(config[key := VMap(m)], key, TRange, optional) == Ok(Some(IntRange(first, last)))
    ensures first <= last ==> first in Members(first, last) && last in Members(first, last)
    ensures first > last ==> Members(first, last) == {}
  {
  }

  /** Keys other than `first` and `last` in a Range hash are ignored. */
  lemma RangeIgnoresOtherKeys(config: Config, key: string, optional: bool, m: map<string, Value>, k: string, w: Value)
    requires k != "first" && k != "last"
    ensures ParseProperty(config[key := VMap(m[k := w])], key, TRange, optional).Ok?
        <==> ParseProperty(config[key := VMap(m)], key, TRange, optional).Ok?
    ensures ParseProperty(config[key := VMap(m[k := w])], key, TRange, optional).Ok? ==>
      ParseProperty(config[key := VMap(m[k := w])], key, TRange, optional)
      == ParseProperty(config[key := VMap(m)], key, TRange, optional)
  {
  }

  /** A missing, null or non-integer `first` or `last` is an invalid Range. */
  lemma RangeBadBounds(config: Config, key: string, optional: bool, m: map<string, Value>)
    requires !IntAt(m, "first") || !IntAt(m, "last")
    ensures ParseProperty(config[key := VMap(m)], key, TRange, optional) == Err(InvalidRange(VMap(m)))
  {
  }

  /** Writing a parsed value into the configuration and parsing it back returns it. */
  lemma ParseRenderRoundTrip(config: Config, key: string, p: Parsed, optional: bool)
    requires TypeOf(p).Some?
    ensures ParseProperty(config[key := Render(p)], key, TypeOf(p).value, optional) == Ok(Some(p))
  {
  }

  /** What a successful parse returns renders back to the configured object (for Range: its bounds). */
  lemma RenderParseRoundTrip(config: Config, key: string, ty: ExpectedType, optional: bool)
    requires ParseProperty(config, key, ty, optional).Ok?
    requires ParseProperty(config, key, ty, optional).value.Some?
    ensures var p := ParseProperty(config, key, ty, optional).value.value;
      TypeOf(p) == Some(ty) &&
      (ty != TRange ==> Render(p) == config[key]) &&
      (ty == TRange ==> forall b :: b in Render(p).entries ==> b in config[key].entries && Render(p).entries[b] == config[key].entries[b])
  {
  }

  /** The range built has last - first + 1 members, both bounds included, and none when first > last. */
  lemma {:induction false} MembersCount(first: int, last: int)
    ensures |Members(first, last)| == if first <= last then last - first + 1 else 0
    decreases if first <= last then last - first + 1 else 0
  {
    if first <= last {
      MembersCount(first, last - 1);
      assert last !in Members(first, last - 1);
    }
  }

  /** {first: 5, last: 10} is 5..10; {first: "a", last: 10} is an invalid Range. */
  lemma RangeExamples()
    ensures ParseProperty(map["r" := VMap(map["first" := VInt(5), "last" := VInt(10)])], "r", TRange, false)
      == Ok(Some(IntRange(5, 10)))
    ensures ParseProperty(map["r" := VMap(map["first" := VStr("a"), "last" := VInt(10)])], "r", TRange, false)
      == Err(InvalidRange(VMap(map["first" := VStr("a"), "last" := VInt(10)])))
  {
  }
}
