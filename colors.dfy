/** Colours and colour scales. The linear d3 scales are left abstract: a
    scale is any function from a data value to a colour, possibly partial. */
module Colors {

  datatype Color = Rgb(r: int, g: int, b: int) | Named(name: string)

  /** `defC = d3.rgb(140,140,140)`: the fill of an uncoloured circle. */
  const DefaultFill: Color := Rgb(140, 140, 140)

  /** A colour scale; partial because an ordinal scale has a fixed domain. */
  type Scale = real --> Color

  predicate Distinct<T(==)>(xs: seq<T>) {
    forall i, j :: 0 <= i < j < |xs| ==> xs[i] != xs[j]
  }

  /** Position of the first occurrence of `x` in `xs`. */
  function IndexOf(xs: seq<real>, x: real): (k: nat)
    requires x in xs
    ensures k < |xs| && xs[k] == x
    ensures forall j :: 0 <= j < k ==> xs[j] != x
  {
    if xs[0] == x then 0 else 1 + IndexOf(xs[1..], x)
  }

  /** An ordinal scale over an explicit domain without repeated values
      (d3 drops repeats): a domain value is mapped to the range entry at
      the same position. */
  function Ordinal(domain: seq<real>, range: seq<Color>, x: real): Color
    requires Distinct(domain) && x in domain && |domain| <= |range|
  {
    range[IndexOf(domain, x)]
  }

  /** The severity grades and their palette (`loaded_hd_caps`). */
  const SeverityDomain: seq<real> := [0.0, 1.0, 2.0, 3.0]
  const SeverityRange: seq<Color> := [Named("white"), Named("yellow"), Named("orange"), Named("red")]

  function SeverityScale(grade: real): Color
    requires grade in SeverityDomain
  {
    Ordinal(SeverityDomain, SeverityRange, grade)
  }

  /** The palette of the severity grade, entry by entry. */
  lemma SeverityPalette()
    ensures SeverityScale(0.0) == Named("white")
    ensures SeverityScale(1.0) == Named("yellow")
    ensures SeverityScale(2.0) == Named("orange")
    ensures SeverityScale(3.0) == Named("red")
  {
  }

  /** An ordinal scale whose range has no repeated colour tells every two
      domain values apart. */
  lemma OrdinalInjective(domain: seq<real>, range: seq<Color>, x: real, y: real)
    requires Distinct(domain) && Distinct(range) && |domain| <= |range|
    requires x in domain && y in domain && x != y
    ensures Ordinal(domain, range, x) != Ordinal(domain, range, y)
  {
  }

  /** Two different severity grades are painted in different colours. */
  lemma SeverityGradesDistinct(g: real, h: real)
    requires g in SeverityDomain && h in SeverityDomain && g != h
    ensures SeverityScale(g) != SeverityScale(h)
  {
  }
}
