/** The Datoviz backend's translation of the GSP style enumerations. Datoviz
  * has no miter join, and calls the projecting cap and the bevel join
  * "square". */
module DatovizConverters {
  import opened Wrappers
  import opened Styles

  /** `cap_style_gsp_to_dvz`. */
  function CapStyleToDvz(c: CapStyle): (r: string)
    ensures c != CapProjecting ==> r == CapValue(c)
    ensures c == CapProjecting ==> r == "square"
  {
    if c == CapButt then "butt"
    else if c == CapRound then "round"
    else "square"
  }

  /** `join_style_gsp_to_dvz`: the miter join raises ValueError. */
  function JoinStyleToDvz(j: JoinStyle): (r: Result<string>)
    ensures r.Err? <==> j == JoinMiter
    ensures r.Err? ==> r.error == ValueError
    ensures j == JoinRound ==> r == Ok(JoinValue(j))
    ensures j == JoinBevel ==> r == Ok("square")
  {
    if j == JoinMiter then Err(ValueError)
    else if j == JoinRound then Ok("round")
    else Ok("square")
  }

  /** `marker_shape_gsp_to_dvz`: the shape's own value. */
  function MarkerShapeToDvz(m: MarkerShape): (r: string)
    ensures r == MarkerValue(m)
  {
    if m == Disc then "disc"
    else if m == Square then "square"
    else "club"
  }

  /** The cap and marker translations are injective; the joins that
    * translate do so to different strings. */
  lemma DvzInjective(c1: CapStyle, c2: CapStyle, j1: JoinStyle, j2: JoinStyle, m1: MarkerShape, m2: MarkerShape)
    ensures CapStyleToDvz(c1) == CapStyleToDvz(c2) ==> c1 == c2
    ensures JoinStyleToDvz(j1).Ok? && JoinStyleToDvz(j1) == JoinStyleToDvz(j2) ==> j1 == j2
    ensures MarkerShapeToDvz(m1) == MarkerShapeToDvz(m2) ==> m1 == m2
  {
  }

  /** "square" names a cap for Datoviz where Matplotlib says "projecting",
    * and a join where Matplotlib says "bevel". */
  lemma SquareStandsForTwoStyles()
    ensures CapStyleToDvz(CapProjecting) == "square" != CapValue(CapProjecting)
    ensures JoinStyleToDvz(JoinBevel) == Ok("square") && JoinValue(JoinBevel) != "square"
  {
  }
}
