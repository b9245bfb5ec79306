/** The ClinVar 2.4 schema's `AssertionTypeAttrSCVonly` simple type: a string
    restriction with a single enumeration value, bound to a Java enum whose
    constants carry their schema string. */
module ClinVar {
  import opened Wrappers

  /** The enum's constants, in declaration order. */
  datatype AssertionTypeAttrSCVonly = VariationToIncludedDisease

  /** `fromValue` throws IllegalArgumentException carrying the rejected string. */
  datatype Error = IllegalArgument(value: string)

  /** `values()`: every constant, in declaration order. */
  function Values(): (cs: seq<AssertionTypeAttrSCVonly>)
    ensures forall c: AssertionTypeAttrSCVonly :: c.VariationToIncludedDisease? ==> c in cs
    ensures forall i, j :: 0 <= i < j < |cs| ==> cs[i] != cs[j]
  {
    [VariationToIncludedDisease]
  }

  /** `value()`: the schema string the constant was declared with. */
  function Value(c: AssertionTypeAttrSCVonly): string
  {
    match c
    case VariationToIncludedDisease => "variation to included disease"
  }

  /** The loop of `fromValue` over a sequence of constants: the first constant
      whose value equals `v` (case-sensitive, exact), if any. */
  function FindByValue(cs: seq<AssertionTypeAttrSCVonly>, v: string): (r: Option<AssertionTypeAttrSCVonly>)
    ensures r.Some? ==> r.value in cs && Value(r.value) == v
    ensures r.Some? ==> exists i :: 0 <= i < |cs| && cs[i] == r.value && forall j :: 0 <= j < i ==> Value(cs[j]) != v
    ensures r.None? <==> forall i :: 0 <= i < |cs| ==> Value(cs[i]) != v
  {
    if cs == [] then None
    else if Value(cs[0]) == v then Some(cs[0])
    else FindByValue(cs[1..], v)
  }

  /** `fromValue(v)`: the constant whose value is `v`, or IllegalArgumentException(v). */
  function FromValue(v: string): (r: Result<AssertionTypeAttrSCVonly, Error>)
    ensures r.Ok? <==> exists c :: Value(c) == v
    ensures r.Ok? ==> Value(r.value) == v
    ensures r.Err? ==> r.error == IllegalArgument(v)
  {
    match FindByValue(Values(), v)
    case Some(c) => Ok(c)
    case None => Err(IllegalArgument(v))
  }

  /** The single constant's value is the schema's enumeration string. */
  lemma ValueIsSchemaString()
    ensures Value(VariationToIncludedDisease) == "variation to included disease"
  {
  }

  /** Distinct constants have distinct values, so the search's answer is unique. */
  lemma ValueInjective(c: AssertionTypeAttrSCVonly, d: AssertionTypeAttrSCVonly)
    ensures Value(c) == Value(d) ==> c == d
  {
  }

  /** Round trip: reading back any constant's value yields that constant. */
  lemma FromValueOfValue(c: AssertionTypeAttrSCVonly)
    ensures FromValue(Value(c)) == Ok(c)
  {
    ValueInjective(FromValue(Value(c)).value, c);
  }

  /** Reverse round trip: whatever `fromValue` accepts is exactly the value of
      the constant it returns. */
  lemma ValueOfFromValue(v: string)
    ensures FromValue(v).Ok? ==> Value(FromValue(v).value) == v
    ensures FromValue(v).Ok? <==> v == "variation to included disease"
  {
  }

  /** Matching is exact and case-sensitive: neither a capitalised spelling nor a
      padded one is accepted. */
  lemma FromValueIsCaseSensitive()
    ensures FromValue("Variation to included disease") == Err(IllegalArgument("Variation to included disease"))
    ensures FromValue("variation to included disease ") == Err(IllegalArgument("variation to included disease "))
    ensures FromValue("VARIATION_TO_INCLUDED_DISEASE") == Err(IllegalArgument("VARIATION_TO_INCLUDED_DISEASE"))
  {
    ValueOfFromValue("Variation to included disease");
    ValueOfFromValue("variation to included disease ");
    ValueOfFromValue("VARIATION_TO_INCLUDED_DISEASE");
  }
}
