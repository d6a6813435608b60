/**
 * The mapping-type normaliser of both revisions of `ProjectProcessor`:
 * a token from a project's `mappingTypes` list (an ordinal or a name) is
 * turned into one of the four canonical category names, or into nothing.
 */
module MappingTypes {
  import opened Values

  /** The keys of `MAPPING_TYPES`, in declaration order. */
  const Keys: seq<string> := ["ROADS", "BUILDINGS", "WATERWAYS", "LAND_USE"]

  /** The values of `MAPPING_TYPES`, in declaration order. */
  const Names: seq<string> := ["Roads", "Buildings", "Waterways", "Landuse"]

  /** `MAPPING_TYPES.get(key)`. */
  function Lookup(key: string): (r: Option<string>)
    ensures r.Some? <==> key in Keys
    ensures forall i :: 0 <= i < |Keys| && key == Keys[i] ==> r == Some(Names[i])
  {
    if key == Keys[0] then Some(Names[0])
    else if key == Keys[1] then Some(Names[1])
    else if key == Keys[2] then Some(Names[2])
    else if key == Keys[3] then Some(Names[3])
    else None
  }

  /** `list(MAPPING_TYPES.values())[index]` when the index is in range. */
  function NameAt(index: int): (r: Option<string>)
    ensures r.Some? <==> 0 <= index < |Names|
    ensures 0 <= index < |Names| ==> r == Some(Names[index])
  {
    if 0 <= index < |Names| then Some(Names[index]) else None
  }

  /**
   * The current `get_mapping_list`: an int (a Python bool is an int) is
   * decremented before indexing, a string is upper-cased and looked up,
   * anything else yields nothing.
   */
  function Normalize(token: Json): (r: Option<string>)
    ensures r.Some? ==> r.value in Names
  {
    match token
    case JInt(n) => NameAt(n - 1)
    case JBool(b) => NameAt((if b then 1 else 0) - 1)
    case JStr(s) => Lookup(Upper(s))
    case _ => None
  }

  /**
   * The earlier revision's `get_mapping_list`: an int is incremented before
   * indexing; a value that is neither int nor string raises, since `.upper()`
   * is called on it without a type check.
   */
  function LegacyNormalize(token: Json): (r: Result<Option<string>>)
    ensures r.Err? <==> !(token.JInt? || token.JBool? || token.JStr?)
    ensures r.Ok? && r.value.Some? ==> r.value.value in Names
  {
    match token
    case JInt(n) => Ok(NameAt(n + 1))
    case JBool(b) => Ok(NameAt((if b then 1 else 0) + 1))
    case JStr(s) => Ok(Lookup(Upper(s)))
    case _ => Err("AttributeError: object has no attribute 'upper'")
  }

  /** An ordinal n names the n-th category (1-based) and nothing else does. */
  lemma NormalizeOrdinal(n: int)
    ensures Normalize(JInt(n)).Some? <==> 1 <= n <= 4
    ensures 1 <= n <= 4 ==> Normalize(JInt(n)) == Some(Names[n - 1])
  {
  }

  /** A string names a category exactly when its upper-cased form is one of the four keys. */
  lemma NormalizeString(s: string)
    ensures Normalize(JStr(s)).Some? <==> Upper(s) in Keys
    ensures Upper(s) in Keys ==> Normalize(JStr(s)).value == Names[IndexOf(Keys, Upper(s))]
  {
  }

  /** The position of `x` in `xs`. */
  function IndexOf(xs: seq<string>, x: string): (r: nat)
    requires x in xs
    ensures r < |xs| && xs[r] == x
    ensures forall j :: 0 <= j < r ==> xs[j] != x
  {
    if xs[0] == x then 0 else 1 + IndexOf(xs[1..], x)
  }

  /** The earlier revision names category n+1 (0-based) for -1 <= n <= 2. */
  lemma LegacyNormalizeOrdinal(n: int)
    ensures LegacyNormalize(JInt(n)).Ok?
    ensures LegacyNormalize(JInt(n)).value.Some? <==> -1 <= n <= 2
    ensures -1 <= n <= 2 ==> LegacyNormalize(JInt(n)).value == Some(Names[n + 1])
  {
  }

  /**
   * The two ordinal conventions are two apart: the earlier revision's n is the
   * current revision's n + 2, and they agree on every string.
   */
  lemma OrdinalConventionsDiffer(token: Json)
    requires token.JInt? || token.JStr?
    ensures token.JInt? ==> LegacyNormalize(token) == Ok(Normalize(JInt(token.i + 2)))
    ensures token.JStr? ==> LegacyNormalize(token) == Ok(Normalize(token))
  {
  }

  lemma UpperIdempotent(s: string)
    ensures Upper(Upper(s)) == Upper(s)
  {
    var u := Upper(s);
    assert forall i :: 0 <= i < |u| ==> Upper(u)[i] == u[i];
  }

  /** Name lookup ignores case: a name and its upper-cased form normalise alike. */
  lemma NormalizeCaseInsensitive(s: string)
    ensures Normalize(JStr(s)) == Normalize(JStr(Upper(s)))
  {
    UpperIdempotent(s);
  }

  /** Every canonical key, in any letter case, yields its canonical name. */
  lemma NormalizeKnownNames(i: nat, s: string)
    requires i < |Keys| && Upper(s) == Keys[i]
    ensures Normalize(JStr(s)) == Some(Names[i])
  {
  }

  /** The key spelling "land_use", in any letter case, is recognised. */
  lemma NormalizeLandUseSpelling()
    ensures Normalize(JStr("land_use")) == Some("Landuse")
  {
    assert Upper("land_use") == "LAND_USE";
  }

  /** The category's own name "landuse" is not: it matches no key. */
  lemma NormalizeLanduseUnknown()
    ensures Normalize(JStr("landuse")) == None
  {
    assert |Upper("landuse")| == 7;
  }

  /** Values other than ints and strings never normalise in the current revision. */
  lemma NormalizeOtherTypes(token: Json)
    requires !(token.JInt? || token.JBool? || token.JStr?)
    ensures Normalize(token) == None
  {
  }
}
