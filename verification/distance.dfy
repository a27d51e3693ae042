/**
  The display policy at the end of `calculateDistance`: a great-circle
  distance in kilometres is shown in whole metres below 1 km and in
  kilometres from 1 km on. The distance itself (the Haversine formula) is an
  input here; it is never negative, since it is 6371 times an angle that
  `atan2` of two square roots puts in [0, pi].
 */
module Distance {
  import opened Decimal

  /** The two display forms: whole metres, or kilometres (rendered with two decimals). */
  datatype Reading = Metres(m: int) | Kilometres(km: real)

  /**
    `distance < 1 ? Math.round(distance * 1000) m : distance km`: the metre
    branch is taken exactly below 1 km and holds the integer nearest to the
    distance in metres (halves rounded up); the kilometre branch keeps the
    distance unchanged.
   */
  function Classify(km: real): (r: Reading)
    ensures r.Metres? <==> km < 1.0
    ensures r.Metres? ==> r.m as real - 0.5 <= km * 1000.0 < r.m as real + 0.5
    ensures r.Kilometres? ==> r.km == km
  {
    if km < 1.0 then Metres(Round(km * 1000.0)) else Kilometres(km)
  }

  /** For a distance in [0, 1) the metre count lies in 0..1000. */
  lemma MetresBounded(km: real)
    requires 0.0 <= km < 1.0
    ensures Classify(km).Metres?
    ensures 0 <= Classify(km).m <= 1000
  {
  }

  /** Rounding can carry a distance just under 1 km up to exactly 1000 m. */
  lemma MetresCanReachOneThousand()
    ensures Classify(0.9995) == Metres(1000)
  {
  }

  /** Exactly 1 km, and every longer distance, is shown in kilometres. */
  lemma KilometreThresholdInclusive(km: real)
    requires km >= 1.0
    ensures Classify(km) == Kilometres(km)
  {
  }

  /** A longer distance never shows fewer metres. */
  lemma MetresMonotone(d1: real, d2: real)
    requires d1 <= d2 < 1.0
    ensures Classify(d1).m <= Classify(d2).m
  {
    RoundMonotone(d1 * 1000.0, d2 * 1000.0);
  }

  /**
    The displayed text. `fixed2` stands for `Number.prototype.toFixed(2)`,
    whose float-to-decimal digits are not modelled.
   */
  function Render(km: real, fixed2: real -> string): (s: string)
    ensures km < 1.0 ==>
              && |s| >= 3 && s[|s| - 2..] == " m"
              && var digits := s[..|s| - 2];
                 |digits| >= 1
                 && (digits[0] != '-' ==> forall i | 0 <= i < |digits| :: IsDigit(digits[i]))
                 && (digits[0] == '-' ==> forall i | 1 <= i < |digits| :: IsDigit(digits[i]))
    ensures km >= 1.0 ==> s == fixed2(km) + " km"
  {
    match Classify(km)
    case Metres(m) => IntToString(m) + " m"
    case Kilometres(d) => fixed2(d) + " km"
  }

  /**
    Reading the metre text back: the number before " m" is the distance in
    metres to within half a metre, and the text ends in " m" exactly when
    the distance is below 1 km.
   */
  lemma RenderMetresRoundTrip(km: real, fixed2: real -> string)
    ensures var s := Render(km, fixed2);
            |s| >= 2 && (s[|s| - 2..] == " m" <==> km < 1.0)
    ensures km < 1.0 ==>
              var s := Render(km, fixed2);
              var n := ParseInt(s[..|s| - 2]);
              n as real - 0.5 <= km * 1000.0 < n as real + 0.5
  {
    var s := Render(km, fixed2);
    if km < 1.0 {
      var m := Classify(km).m;
      assert s[..|s| - 2] == IntToString(m);
      IntToStringRoundTrip(m);
    } else {
      assert s[|s| - 2..] == "km";
    }
  }

  /** A distance of zero (a point to itself) reads "0 m". */
  lemma ZeroDistanceIsZeroMetres(fixed2: real -> string)
    ensures Render(0.0, fixed2) == "0 m"
  {
  }
}
