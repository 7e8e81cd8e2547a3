/**
 * Model of the random sky-field selection of gmag/sdss.py.
 *
 * The source draws an integer corner (ra, dec) with NumPy's `randint`,
 * rejects it while it lies strictly inside one of three excluded regions,
 * and returns the 10 x 10 degree box with that corner as its lower-left
 * corner. The random number generator is not modelled: the stream of
 * draws it would produce is an input, each draw already in the range
 * `randint` promises.
 */
module Sdss {
  import opened Wrappers

  /** `np.random.randint(0, 350)`: the upper bound is exclusive. */
  const RaDrawLow: int := 0
  const RaDrawHigh: int := 350
  /** `np.random.randint(-30, 80)`: the upper bound is exclusive. */
  const DecDrawLow: int := -30
  const DecDrawHigh: int := 80
  /** Width of the returned box, in degrees, along both axes. */
  const FieldSize: int := 10

  type RaDraw = x: int | RaDrawLow <= x < RaDrawHigh
  type DecDraw = x: int | DecDrawLow <= x < DecDrawHigh

  /** One iteration's pair of draws; `ra` is drawn first, then `dec`. */
  datatype Draw = Draw(ra: RaDraw, dec: DecDraw)

  /** The tuple `(ra_min, ra_max, dec_min, dec_max)` the function returns. */
  datatype Field = Field(raMin: int, raMax: int, decMin: int, decMax: int)

  /**
   * The rejection test of the loop: the corner lies strictly inside one of
   * the three regions. Only the corner is tested, never the whole box.
   */
  predicate Excluded(ra: int, dec: int)
    ensures Excluded(ra, dec) ==> DocumentedExcluded(ra, dec)
    ensures Excluded(ra, dec) ==> 0 < ra < 220 && -30 < dec < 90
  {
    (50 < dec < 90 && 0 < ra < 20) ||
    (-30 < dec < -10 && 140 < ra < 160) ||
    (70 < dec < 90 && 200 < ra < 220)
  }

  predicate Rejected(d: Draw)
  {
    Excluded(d.ra, d.dec)
  }

  /** The box returned for an accepted corner. */
  function Box(d: Draw): (f: Field)
    ensures f.raMax - f.raMin == FieldSize && f.decMax - f.decMin == FieldSize
    ensures f.raMin == d.ra && f.decMin == d.dec
  {
    Field(d.ra, d.ra + FieldSize, d.dec, d.dec + FieldSize)
  }

  /**
   * What a returned field always satisfies: it is exactly 10 wide on both
   * axes, its corner came from the draw ranges (which is how the
   * "Dec below -30" region is kept out), and its corner is not excluded.
   */
  predicate WellFormed(f: Field)
  {
    && f.raMax == f.raMin + FieldSize
    && f.decMax == f.decMin + FieldSize
    && 0 <= f.raMin <= 349 && 10 <= f.raMax <= 359
    && -30 <= f.decMin <= 79 && -20 <= f.decMax <= 89
    && !Excluded(f.raMin, f.decMin)
  }

  /**
   * Reference definition of the loop: the box of the first draw that is not
   * rejected, or None when every given draw is rejected.
   */
  function FirstAccepted(draws: seq<Draw>): Option<Field>
  {
    if |draws| == 0 then None
    else if Rejected(draws[0]) then FirstAccepted(draws[1..])
    else Some(Box(draws[0]))
  }

  /**
   * The `while True` loop of the source, over a finite stream of draws.
   * `consumed` is the number of draws the loop took. When a field is
   * returned, the last consumed draw is the accepted one and every
   * earlier draw was rejected; otherwise every draw was rejected.
   */
  method GetRandomField(draws: seq<Draw>) returns (field: Option<Field>, consumed: nat)
    ensures field == FirstAccepted(draws)
    ensures consumed <= |draws|
    ensures field.Some? ==>
              && consumed >= 1
              && !Rejected(draws[consumed - 1])
              && field.value == Box(draws[consumed - 1])
              && WellFormed(field.value)
    ensures field.None? ==> consumed == |draws|
    ensures forall k :: 0 <= k < consumed && (field.None? || k < consumed - 1) ==> Rejected(draws[k])
  {
    consumed := 0;
    while consumed < |draws|
      invariant consumed <= |draws|
      invariant forall k :: 0 <= k < consumed ==> Rejected(draws[k])
      invariant FirstAccepted(draws[consumed..]) == FirstAccepted(draws)
    {
      var d := draws[consumed];
      consumed := consumed + 1;
      if Rejected(d) {
        assert draws[consumed..] == draws[consumed - 1..][1..];
        continue;
      }
      field := Some(Box(d));
      return;
    }
    field := None;
  }

  /** An accepted draw always yields a well-formed field. */
  lemma BoxWellFormed(d: Draw)
    requires !Rejected(d)
    ensures WellFormed(Box(d))
  {
  }

  /** Every field the selection returns is well formed. */
  lemma {:induction false} FirstAcceptedWellFormed(draws: seq<Draw>)
    ensures FirstAccepted(draws).Some? ==> WellFormed(FirstAccepted(draws).value)
  {
    if |draws| > 0 {
      if Rejected(draws[0]) {
        FirstAcceptedWellFormed(draws[1..]);
      } else {
        BoxWellFormed(draws[0]);
      }
    }
  }

  /** The result is the box of draw i when draw i is the first one accepted. */
  lemma {:induction false} FirstAcceptedAt(draws: seq<Draw>, i: nat)
    requires i < |draws|
    requires !Rejected(draws[i])
    requires forall k :: 0 <= k < i ==> Rejected(draws[k])
    ensures FirstAccepted(draws) == Some(Box(draws[i]))
  {
    if i > 0 {
      FirstAcceptedAt(draws[1..], i - 1);
    }
  }

  /** No field is returned exactly when every draw is rejected. */
  lemma {:induction false} FirstAcceptedNone(draws: seq<Draw>)
    ensures FirstAccepted(draws).None? <==> forall k :: 0 <= k < |draws| ==> Rejected(draws[k])
  {
    if |draws| > 0 {
      FirstAcceptedNone(draws[1..]);
      assert forall k :: 1 <= k < |draws| ==> draws[k] == draws[1..][k - 1];
    }
  }

  /** Rejected draws are skipped and leave no trace on the result. */
  lemma {:induction false} SkipRejected(rejected: seq<Draw>, rest: seq<Draw>)
    requires forall k :: 0 <= k < |rejected| ==> Rejected(rejected[k])
    ensures FirstAccepted(rejected + rest) == FirstAccepted(rest)
  {
    if |rejected| > 0 {
      assert (rejected + rest)[0] == rejected[0];
      assert (rejected + rest)[1..] == rejected[1..] + rest;
      SkipRejected(rejected[1..], rest);
    } else {
      assert rejected + rest == rest;
    }
  }

  /** Draws after the accepted one are never looked at. */
  lemma {:induction false} LaterDrawsIgnored(draws: seq<Draw>, later: seq<Draw>)
    requires FirstAccepted(draws).Some?
    ensures FirstAccepted(draws + later) == FirstAccepted(draws)
  {
    assert |draws| > 0;
    if Rejected(draws[0]) {
      assert (draws + later)[1..] == draws[1..] + later;
      LaterDrawsIgnored(draws[1..], later);
    }
  }

  /**
   * The regions as the doc-comment of the function lists them, on closed
   * intervals: any RA with Dec in [-90, -30]; Dec in [50, 90] with RA in
   * [0, 20]; Dec in [-30, -10] with RA in [140, 160]; Dec in [70, 90] with
   * RA in [200, 220].
   */
  predicate DocumentedExcluded(ra: int, dec: int)
  {
    (-90 <= dec <= -30) ||
    (50 <= dec <= 90 && 0 <= ra <= 20) ||
    (-30 <= dec <= -10 && 140 <= ra <= 160) ||
    (70 <= dec <= 90 && 200 <= ra <= 220)
  }

  /**
   * The code's strict test excludes only interiors of documented regions,
   * and corners on their edges are accepted: with RA 0 any Dec passes, and
   * so does Dec 50 with any RA, and the lowest Dec draw -30. The corners
   * (0, 60), (10, 50) and any corner with Dec -30 lie on documented regions.
   */
  lemma ExcludedWithinDocumented(ra: int, dec: int)
    ensures Excluded(ra, dec) ==> DocumentedExcluded(ra, dec)
    ensures !Excluded(0, dec) && !Excluded(ra, 50) && !Excluded(ra, -30)
    ensures DocumentedExcluded(0, 60) && DocumentedExcluded(10, 50)
    ensures DocumentedExcluded(ra, -30)
  {
  }
}
