/** The bearing calculator: the clockwise angle from north to the Kaaba as seen
    from the observer, computed with the SDK's integer trigonometry.
    `CwOffset` follows `tan_lookup` and `calculate_qibla_north_cw_offset` step
    by step, with the width of C's `long` as a parameter (32 bits on the watch),
    and yields None wherever a step overflows or divides by zero. `ExactBearing`
    is the same formula over unbounded integers, the reference the lemmas
    compare it with. */
module Bearing {
  import opened CInt
  import opened Trig

  /** The Kaaba's latitude and longitude, degrees scaled so that 360 degrees
      is TRIG_MAX_ANGLE, truncated to an integer as C's conversion does. */
  const KAABA_LAT: int := (21.423333 * (TRIG_MAX_ANGLE as real) / 360.0).Floor
  const KAABA_LON: int := (39.823333 * (TRIG_MAX_ANGLE as real) / 360.0).Floor

  lemma KaabaCoordinates()
    ensures KAABA_LAT == 3899 && KAABA_LON == 7249
  {
  }

  /** The coordinates the companion app sends: degrees on the TRIG_MAX_ANGLE
      scale, latitude within a quarter turn, longitude within half a turn.
      The unset sentinel -1 lies inside this range. */
  predicate GeoInRange(lat: int, lon: int)
  {
    && -TRIG_MAX_ANGLE / 4 <= lat <= TRIG_MAX_ANGLE / 4
    && -TRIG_MAX_ANGLE / 2 <= lon <= TRIG_MAX_ANGLE / 2
  }

  /** The Kaaba lies below 45 degrees of latitude, so the tables give it a
      positive cosine no smaller than the magnitude of its sine. */
  ghost predicate KaabaBelow45(t: Lookups)
  {
    0 < t.cos(KAABA_LAT) && Abs(t.sin(KAABA_LAT)) <= t.cos(KAABA_LAT)
  }

  /** What the engine assumes of the SDK tables. */
  ghost predicate LookupsValid(t: Lookups)
  {
    RatiosInRange(t) && KaabaBelow45(t)
  }

  /** `tan_lookup`: sine scaled by a full turn, divided by cosine, in `long`
      arithmetic, the quotient returned as an `int`. */
  function TanLookup(t: Lookups, x: int, long: Width): Option<int>
  {
    var scaled := t.sin(x) * TRIG_MAX_ANGLE;
    if !Fits(scaled, long) || t.cos(x) == 0 then None
    else
      var q := TruncDiv(scaled, t.cos(x));
      if !Fits(q, long) then None else Some(Wrap(q, W32))
  }

  /** `calculate_qibla_north_cw_offset` with `long` of the given width. */
  function CwOffset(t: Lookups, lat: int, lon: int, long: Width): Option<int>
  {
    var dLon := KAABA_LON - lon;
    if !Fits(dLon, W32) then None
    else
      var numerator := t.sin(dLon);
      match TanLookup(t, KAABA_LAT, long)
      case None => None
      case Some(tan) =>
        var denomA := t.cos(lat) * tan;
        var denomB := t.sin(lat) * t.cos(dLon);
        if !Fits(denomA, long) || !Fits(denomB, long) then None
        else
          var denominator := TruncDiv(denomA, TRIG_MAX_ANGLE) - TruncDiv(denomB, TRIG_MAX_ANGLE);
          if !Fits(denominator, long) then None
          else Some(t.atan2(Wrap(TruncDiv(numerator, 4), W16), Wrap(TruncDiv(denominator, 4), W16)))
  }

  /** The reference: the same formula without any width limit or cast. */
  function ExactTan(t: Lookups): int
    requires t.cos(KAABA_LAT) != 0
  {
    TruncDiv(t.sin(KAABA_LAT) * TRIG_MAX_ANGLE, t.cos(KAABA_LAT))
  }

  function ExactNumerator(t: Lookups, lon: int): int
  {
    t.sin(KAABA_LON - lon)
  }

  function ExactDenominator(t: Lookups, lat: int, lon: int): int
    requires t.cos(KAABA_LAT) != 0
  {
    TruncDiv(t.cos(lat) * ExactTan(t), TRIG_MAX_ANGLE)
      - TruncDiv(t.sin(lat) * t.cos(KAABA_LON - lon), TRIG_MAX_ANGLE)
  }

  function ExactBearing(t: Lookups, lat: int, lon: int): int
    requires t.cos(KAABA_LAT) != 0
  {
    t.atan2(TruncDiv(ExactNumerator(t, lon), 4), TruncDiv(ExactDenominator(t, lat, lon), 4))
  }

  /** The tangent of the Kaaba's latitude is at most a full turn in magnitude. */
  lemma ExactTanBound(t: Lookups)
    requires KaabaBelow45(t)
    ensures Abs(ExactTan(t)) <= TRIG_MAX_ANGLE
  {
    var c := t.cos(KAABA_LAT);
    var s := t.sin(KAABA_LAT);
    assert Abs(s * TRIG_MAX_ANGLE) == Abs(s) * TRIG_MAX_ANGLE;
    assert Abs(s) * TRIG_MAX_ANGLE <= c * TRIG_MAX_ANGLE;
    QuotientBound(Abs(s * TRIG_MAX_ANGLE), c, TRIG_MAX_ANGLE);
  }

  /** A product bounded by TRIG_MAX_RATIO * TRIG_MAX_ANGLE, scaled back by a
      full turn, is a ratio again. */
  lemma ScaledProductBound(p: int)
    requires Abs(p) <= TRIG_MAX_RATIO * TRIG_MAX_ANGLE
    ensures Abs(TruncDiv(p, TRIG_MAX_ANGLE)) <= TRIG_MAX_RATIO
  {
    QuotientBound(Abs(p), TRIG_MAX_ANGLE, TRIG_MAX_RATIO);
  }

  /** The two terms of the denominator, each scaled back by a full turn, are
      ratios; so the denominator is at most twice TRIG_MAX_RATIO in magnitude. */
  lemma DenominatorTerms(t: Lookups, lat: int, lon: int)
    requires LookupsValid(t)
    ensures Abs(t.cos(lat) * ExactTan(t)) <= TRIG_MAX_RATIO * TRIG_MAX_ANGLE
    ensures Abs(t.sin(lat) * t.cos(KAABA_LON - lon)) <= TRIG_MAX_RATIO * TRIG_MAX_ANGLE
    ensures Abs(ExactDenominator(t, lat, lon)) <= 2 * TRIG_MAX_RATIO
  {
    ExactTanBound(t);
    MulAbsBound(t.cos(lat), ExactTan(t), TRIG_MAX_RATIO, TRIG_MAX_ANGLE);
    MulAbsBound(t.sin(lat), t.cos(KAABA_LON - lon), TRIG_MAX_RATIO, TRIG_MAX_ANGLE);
    ScaledProductBound(t.cos(lat) * ExactTan(t));
    ScaledProductBound(t.sin(lat) * t.cos(KAABA_LON - lon));
  }

  /** The `(int16_t)` casts lose nothing: a quarter of the numerator and a
      quarter of the denominator both fit in 16 bits, for every observer. */
  lemma AtanArgumentsFit(t: Lookups, lat: int, lon: int)
    requires LookupsValid(t)
    ensures Fits(TruncDiv(ExactNumerator(t, lon), 4), W16)
    ensures Fits(TruncDiv(ExactDenominator(t, lat, lon), 4), W16)
  {
    DenominatorTerms(t, lat, lon);
  }

  /** With a 64-bit `long` nothing overflows: the stepwise computation is
      defined and equals the exact formula, for every observer in range. */
  lemma Long64OffsetIsExact(t: Lookups, lat: int, lon: int)
    requires LookupsValid(t) && GeoInRange(lat, lon)
    ensures CwOffset(t, lat, lon, W64) == Some(ExactBearing(t, lat, lon))
  {
    ExactTanBound(t);
    MulAbsBound(t.sin(KAABA_LAT), TRIG_MAX_ANGLE, TRIG_MAX_RATIO, TRIG_MAX_ANGLE);
    DenominatorTerms(t, lat, lon);
    AtanArgumentsFit(t, lat, lon);
  }

  /** The Kaaba lies below 26.5 degrees of latitude: its tangent is below one
      half. The watch's 32-bit `long` needs this much for line 153. */
  ghost predicate KaabaTanBelowHalf(t: Lookups)
  {
    0 < t.cos(KAABA_LAT) && 2 * Abs(t.sin(KAABA_LAT)) <= t.cos(KAABA_LAT)
  }

  /** Under that bound line 144 fits in 32 bits and the tangent is at most half
      a turn in magnitude. */
  lemma Long32Tan(t: Lookups)
    requires RatiosInRange(t) && KaabaTanBelowHalf(t)
    ensures TanLookup(t, KAABA_LAT, W32) == Some(ExactTan(t))
    ensures Abs(ExactTan(t)) <= TRIG_MAX_ANGLE / 2
  {
    var c := t.cos(KAABA_LAT);
    var s := t.sin(KAABA_LAT);
    assert Abs(s) < 0x8000;
    assert Fits(s * TRIG_MAX_ANGLE, W32);
    assert Abs(s * TRIG_MAX_ANGLE) == Abs(s) * TRIG_MAX_ANGLE <= c * (TRIG_MAX_ANGLE / 2);
    QuotientBound(Abs(s * TRIG_MAX_ANGLE), c, TRIG_MAX_ANGLE / 2);
  }

  /** With the watch's 32-bit `long` the computation is defined exactly when
      the product sin(lat) * cos(dLon) of line 154 fits in 32 bits, and is
      then exact. */
  lemma Long32OffsetDefinedIff(t: Lookups, lat: int, lon: int)
    requires RatiosInRange(t) && KaabaTanBelowHalf(t) && GeoInRange(lat, lon)
    ensures CwOffset(t, lat, lon, W32)
         == if Fits(t.sin(lat) * t.cos(KAABA_LON - lon), W32) then Some(ExactBearing(t, lat, lon)) else None
  {
    Long32Tan(t);
    var tan := ExactTan(t);
    var dLon := KAABA_LON - lon;
    assert Fits(dLon, W32);
    var denomA := t.cos(lat) * tan;
    MulAbsBound(t.cos(lat), tan, TRIG_MAX_RATIO, TRIG_MAX_ANGLE / 2);
    assert Fits(denomA, W32);
    var denomB := t.sin(lat) * t.cos(dLon);
    if Fits(denomB, W32) {
      DenominatorTerms(t, lat, lon);
      AtanArgumentsFit(t, lat, lon);
      var denominator := TruncDiv(denomA, TRIG_MAX_ANGLE) - TruncDiv(denomB, TRIG_MAX_ANGLE);
      assert denominator == ExactDenominator(t, lat, lon);
      assert Fits(denominator, W32);
    }
  }

  /** Line 144 overflows a 32-bit `long` for any angle whose sine is at least
      2^15 or below -2^15. */
  lemma Long32TanOverflows(t: Lookups, x: int)
    requires t.sin(x) >= 0x8000 || t.sin(x) < -0x8000
    ensures TanLookup(t, x, W32) == None
  {
  }

  /** London (51.51 N, 0.13 W is latitude 9377 and longitude -23 on this
      scale): the SDK's sine of the latitude, about 51300, and cosine of the
      longitude difference, about 50200, both exceed 46341, the square root of
      2^31, so line 154 overflows the watch's 32-bit `long`. */
  lemma Long32OverflowsAtLondon(t: Lookups)
    requires RatiosInRange(t) && KaabaTanBelowHalf(t)
    requires t.sin(9377) >= 46341 && t.cos(KAABA_LON + 23) >= 46341
    ensures CwOffset(t, 9377, -23, W32) == None
  {
    var s, c := t.sin(9377), t.cos(KAABA_LON + 23);
    MulMonotone(c, 46341, s);
    MulMonotone(46341, 46341, c);
    assert 46341 * 46341 >= 0x8000_0000;
    assert !Fits(s * c, W32);
    Long32OffsetDefinedIff(t, 9377, -23);
  }

  /** The corrected calculator the engine uses: `long` 64 bits wide, as the
      casts to `long` evidently intend. Defined for every observer in range,
      equal to the exact formula. */
  function QiblaNorthCwOffset(t: Lookups, lat: int, lon: int): (r: int)
    requires LookupsValid(t) && GeoInRange(lat, lon)
    ensures CwOffset(t, lat, lon, W64) == Some(r)
    ensures r == ExactBearing(t, lat, lon)
  {
    Long64OffsetIsExact(t, lat, lon);
    CwOffset(t, lat, lon, W64).value
  }
}
