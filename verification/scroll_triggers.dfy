/** Edge-proximity decisions on a scroll container: the list page's
    horizontal absolute-distance trigger and the footer's vertical
    fractional trigger. Geometry is exact `real` arithmetic. */
module ScrollTriggers {

  /** One axis of a scroll container: `offset` is scrollLeft or scrollTop,
      `extent` is scrollWidth or scrollHeight, `viewport` is clientWidth or
      clientHeight. */
  datatype Axis = Axis(offset: real, extent: real, viewport: real)

  /** Distance below which the horizontal carousel asks for more. */
  const EndDistance: real := 1500.0

  /** Fraction of the vertical content seen above which the footer asks. */
  const SeenFraction: real := 0.8

  /** Content left beyond the right edge of the viewport. */
  function DistanceFromEnd(g: Axis): real
  {
    g.extent - (g.offset + g.viewport)
  }

  /** `distanceFromEnd < 1500`. */
  predicate NearEnd(g: Axis)
  {
    DistanceFromEnd(g) < EndDistance
  }

  /** `(scrollTop + clientHeight) / scrollHeight >= 0.8` with JavaScript
      number semantics: dividing a positive amount by zero
      gives +Infinity (fires), a zero or negative amount gives NaN or
      -Infinity (does not fire). */
  predicate ReachedFraction(g: Axis)
  {
    var seen := g.offset + g.viewport;
    if g.extent != 0.0 then seen / g.extent >= SeenFraction
    else seen > 0.0
  }

  /** Scrolling further right never turns the horizontal trigger off. */
  lemma NearEndMonotone(g: Axis, further: real)
    requires NearEnd(g) && g.offset <= further
    ensures NearEnd(g.(offset := further))
  {
  }

  /** The horizontal trigger fires exactly when the offset has passed the
      point 1500 units before the last full viewport. */
  lemma NearEndThreshold(g: Axis)
    ensures NearEnd(g) <==> g.offset > g.extent - g.viewport - EndDistance
  {
  }

  /** For a nonempty container the fractional trigger is the
      division-free comparison `seen >= 0.8 * extent`. */
  lemma ReachedFractionNoDivision(g: Axis)
    requires g.extent > 0.0
    ensures ReachedFraction(g) <==> g.offset + g.viewport >= SeenFraction * g.extent
  {
    var seen := g.offset + g.viewport;
    assert seen / g.extent * g.extent == seen;
    if seen / g.extent >= SeenFraction {
      assert seen >= SeenFraction * g.extent;
    } else {
      assert seen < SeenFraction * g.extent;
    }
  }

  /** On an empty container (height zero) the ratio is +Infinity when
      anything is seen and NaN or -Infinity otherwise, so the trigger fires
      exactly when the seen amount is positive. */
  lemma ReachedFractionZeroHeight(g: Axis)
    requires g.extent == 0.0
    ensures ReachedFraction(g) <==> g.offset + g.viewport > 0.0
  {
  }

  /** Scrolling further down never turns the vertical trigger off. */
  lemma ReachedFractionMonotone(g: Axis, further: real)
    requires g.extent > 0.0 && ReachedFraction(g) && g.offset <= further
    ensures ReachedFraction(g.(offset := further))
  {
    ReachedFractionNoDivision(g);
    ReachedFractionNoDivision(g.(offset := further));
  }

  /** Top 750, viewport 250, height 1000: everything is seen, ratio 1.0,
      the footer asks for more. */
  lemma ScenarioFooterBottom()
    ensures var g := Axis(750.0, 1000.0, 250.0);
            (g.offset + g.viewport) / g.extent == 1.0 && ReachedFraction(g)
  {
  }

  /** Width 3000, viewport 400: at offset 100 there are 2500 units left (no
      load); at offset 1200 there are 1400 left (load). */
  lemma ScenarioCarousel()
    ensures DistanceFromEnd(Axis(100.0, 3000.0, 400.0)) == 2500.0 && !NearEnd(Axis(100.0, 3000.0, 400.0))
    ensures DistanceFromEnd(Axis(1200.0, 3000.0, 400.0)) == 1400.0 && NearEnd(Axis(1200.0, 3000.0, 400.0))
  {
  }
}
