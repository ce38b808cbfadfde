/** The Matplotlib backend's translation of the GSP style enumerations into
  * the strings Matplotlib understands. Every member has a translation, so
  * the `ValueError` branches cannot be reached with a member. */
module MatplotlibConverters {
  import opened Wrappers
  import opened Styles

  /** `cap_style_gsp_to_mpl`. Matplotlib names the cap styles as GSP does,
    * so the translation is the member's own value. */
  function CapStyleToMpl(c: CapStyle): (r: string)
    ensures r == CapValue(c)
  {
    if c == CapButt then "butt"
    else if c == CapRound then "round"
    else "projecting"
  }

  /** `join_style_gsp_to_mpl`: likewise the member's own value. */
  function JoinStyleToMpl(j: JoinStyle): (r: string)
    ensures r == JoinValue(j)
  {
    if j == JoinMiter then "miter"
    else if j == JoinRound then "round"
    else "bevel"
  }

  /** `marker_shape_gsp_to_mpl`: Matplotlib's one-letter marker codes for
    * the disc and the square, and a mathtext symbol, written between `$`
    * signs, for the club. */
  function MarkerShapeToMpl(m: MarkerShape): (r: string)
    ensures |r| == 1 <==> m != Club
    ensures m == Club ==> |r| > 2 && r[0] == '$' && r[|r| - 1] == '$'
  {
    match m
    case Disc => "o"
    case Square => "s"
    case Club =>
      var club := "$\\clubsuit$";
      assert |club| == 11 && club[0] == '$' && club[10] == '$';
      club
  }

  /** Reads a Matplotlib marker code back. */
  function MarkerShapeFromMpl(s: string): (r: Option<MarkerShape>)
    ensures r.Some? ==> MarkerShapeToMpl(r.value) == s
  {
    if s == "o" then Some(Disc)
    else if s == "s" then Some(Square)
    else if s == "$\\clubsuit$" then Some(Club)
    else None
  }

  /** Reads a Matplotlib cap style back. */
  function CapStyleFromMpl(s: string): (r: Option<CapStyle>)
    ensures r.Some? ==> CapStyleToMpl(r.value) == s
  {
    if s == "butt" then Some(CapButt)
    else if s == "round" then Some(CapRound)
    else if s == "projecting" then Some(CapProjecting)
    else None
  }

  /** Reads a Matplotlib join style back. */
  function JoinStyleFromMpl(s: string): (r: Option<JoinStyle>)
    ensures r.Some? ==> JoinStyleToMpl(r.value) == s
  {
    if s == "miter" then Some(JoinMiter)
    else if s == "round" then Some(JoinRound)
    else if s == "bevel" then Some(JoinBevel)
    else None
  }

  /** Each translation can be read back, so the three are injective: two
    * members never share a Matplotlib string. */
  lemma MplRoundTrips(c: CapStyle, j: JoinStyle, m: MarkerShape)
    ensures CapStyleFromMpl(CapStyleToMpl(c)) == Some(c)
    ensures JoinStyleFromMpl(JoinStyleToMpl(j)) == Some(j)
    ensures MarkerShapeFromMpl(MarkerShapeToMpl(m)) == Some(m)
  {
  }

  lemma MplInjective(c1: CapStyle, c2: CapStyle, j1: JoinStyle, j2: JoinStyle, m1: MarkerShape, m2: MarkerShape)
    ensures CapStyleToMpl(c1) == CapStyleToMpl(c2) ==> c1 == c2
    ensures JoinStyleToMpl(j1) == JoinStyleToMpl(j2) ==> j1 == j2
    ensures MarkerShapeToMpl(m1) == MarkerShapeToMpl(m2) ==> m1 == m2
  {
    MplRoundTrips(c1, j1, m1);
    MplRoundTrips(c2, j2, m2);
  }
}
