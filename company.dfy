/**
 * The classification of a software company and its decoder from the enum
 * name stored in the database (`CompanyClassification.fromString`).
 */
module Companies {
  import opened Types

  datatype CompanyClassification = CONSULTORIA | DESARROLLO_MEDIDA | FABRICA_SOFTWARE

  /** The enum constant's `name`, the text written to the database. */
  function Name(c: CompanyClassification): (n: string)
    ensures c == CONSULTORIA ==> n == "CONSULTORIA"
    ensures c == DESARROLLO_MEDIDA ==> n == "DESARROLLO_MEDIDA"
    ensures c == FABRICA_SOFTWARE ==> n == "FABRICA_SOFTWARE"
    ensures |n| > 1 && forall i :: 0 <= i < |n| ==> 'A' <= n[i] <= 'Z' || n[i] == '_'
  {
    match c
    case CONSULTORIA => "CONSULTORIA"
    case DESARROLLO_MEDIDA => "DESARROLLO_MEDIDA"
    case FABRICA_SOFTWARE => "FABRICA_SOFTWARE"
  }

  /** The label shown to the user. */
  function DisplayName(c: CompanyClassification): (shown: string)
    ensures c == CONSULTORIA ==> shown == "Consultoría"
    ensures c == DESARROLLO_MEDIDA ==> shown == "Desarrollo a la medida"
    ensures c == FABRICA_SOFTWARE ==> shown == "Fábrica de software"
    ensures |shown| > 1 && 'a' <= shown[|shown| - 1] <= 'z'
  {
    match c
    case CONSULTORIA => "Consultoría"
    case DESARROLLO_MEDIDA => "Desarrollo a la medida"
    case FABRICA_SOFTWARE => "Fábrica de software"
  }

  /** `values()`: every classification, in declaration order. */
  function Values(): (vs: seq<CompanyClassification>)
    ensures |vs| == 3
    ensures vs[0] == CONSULTORIA && vs[1] == DESARROLLO_MEDIDA && vs[2] == FABRICA_SOFTWARE
  {
    [CONSULTORIA, DESARROLLO_MEDIDA, FABRICA_SOFTWARE]
  }

  /** `find { it.name == value }`: the first element whose name is the value, if any. */
  function FindByName(cs: seq<CompanyClassification>, value: string): (r: Option<CompanyClassification>)
    ensures r.Some? ==> r.value in cs && Name(r.value) == value
    ensures r.None? <==> forall i :: 0 <= i < |cs| ==> Name(cs[i]) != value
  {
    if cs == [] then None
    else if Name(cs[0]) == value then Some(cs[0])
    else FindByName(cs[1..], value)
  }

  /**
   * `fromString`: the classification with exactly this name; anything else,
   * including the display labels, falls back to CONSULTORIA.
   */
  function FromString(value: string): (c: CompanyClassification)
    ensures (exists d :: Name(d) == value) ==> Name(c) == value
    ensures (forall d :: Name(d) != value) ==> c == CONSULTORIA
  {
    match FindByName(Values(), value)
    case Some(c) => c
    case None =>
      assert forall d :: Name(d) != value by {
        forall d ensures Name(d) != value {
          var i := if d == CONSULTORIA then 0 else if d == DESARROLLO_MEDIDA then 1 else 2;
          assert Values()[i] == d;
        }
      }
      CONSULTORIA
  }

  /** The names of the three classifications are pairwise different. */
  lemma NamesDistinct(c: CompanyClassification, d: CompanyClassification)
    ensures Name(c) == Name(d) ==> c == d
  {
    if c != d {
      assert |Name(c)| != |Name(d)|;
    }
  }

  /** Decoding the stored name gives back the classification that was written. */
  lemma FromStringRoundTrip(c: CompanyClassification)
    ensures FromString(Name(c)) == c
  {
    NamesDistinct(FromString(Name(c)), c);
  }

  /** A display label is not a name, so it decodes to the fallback. */
  lemma DisplayNamesDecodeToFallback(c: CompanyClassification)
    ensures FromString(DisplayName(c)) == CONSULTORIA
  {
    forall d ensures Name(d) != DisplayName(c) {
      assert Name(d)[|Name(d)| - 1] != DisplayName(c)[|DisplayName(c)| - 1];
    }
  }
}
