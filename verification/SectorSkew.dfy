/** Which skews the sector map accepts. */
module SectorSkew {
  import opened Bytes
  import opened SectorImages

  /** Up to a skew of 25 the map walks the places 1..25 in equal strides around a circle. */
  lemma {:induction false} Strides(skew: nat, n: nat)
    requires 1 <= skew <= 25 && 1 <= n
    ensures Position(skew, n) == 1 + (n * skew - 1) % 25
  {
    if n == 1 {
      assert Position(skew, 0) == 0;
    } else {
      Strides(skew, n - 1);
      var walked: int := (n - 1) * skew - 1;
      assert n * skew - 1 == walked + skew;
      AroundTheCircle(walked, skew);
    }
  }

  lemma {:induction false} AroundTheCircle(walked: int, skew: nat)
    requires 1 <= skew <= 25
    ensures (walked + skew) % 25
         == if walked % 25 + skew >= 25 then walked % 25 + skew - 25 else walked % 25 + skew
  {
  }

  /** From 26 on every step moves on by `skew - 25`. */
  lemma {:induction false} Runaway(skew: nat, n: nat)
    requires skew >= 26
    ensures Position(skew, n) == n * (skew - 25)
  {
    if n > 0 {
      Runaway(skew, n - 1);
      assert n * (skew - 25) == (n - 1) * (skew - 25) + (skew - 25);
    }
  }

  /** Five divides a product with a factor it does not divide only through the other one. */
  lemma {:induction false} FiveDivides(x: nat, y: nat, q: int)
    requires x * y == 5 * q && y % 5 != 0
    ensures x % 5 == 0
  {
    var a, b := y / 5, y % 5;
    Distribute(x, a, b);
    FiveDividesSmall(x, b, q - x * a);
  }

  lemma {:induction false} Distribute(x: int, a: int, b: int)
    ensures x * (5 * a + b) == 5 * (x * a) + x * b
  {
  }

  lemma {:induction false} FiveDividesSmall(x: nat, b: nat, q: int)
    requires 1 <= b <= 4 && x * b == 5 * q
    ensures x % 5 == 0
  {
    if b == 1 { } else if b == 2 { } else if b == 3 { } else { assert b == 4; }
  }

  lemma {:induction false} FullStep(skew: nat, d: nat, turns: int)
    requires skew % 5 != 0 && 0 < d < 25
    ensures d * skew != 25 * turns
  {
    if d * skew == 25 * turns {
      FiveDivides(d, skew, 5 * turns);
      var e := d / 5;
      Associate(e, skew);
      FiveDivides(e, skew, turns);
      assert false;
    }
  }

  lemma {:induction false} Associate(e: int, skew: int)
    ensures (5 * e) * skew == 5 * (e * skew)
  {
  }

  lemma {:induction false} NeverMeet(skew: nat, i: nat, j: nat)
    requires skew % 5 != 0 && 1 <= skew < 25 && 1 <= i < j < i + 25
    ensures Position(skew, i) != Position(skew, j)
  {
    Strides(skew, i);
    Strides(skew, j);
    var a, b := i * skew, j * skew;
    assert b - a == (j - i) * skew;
    FullStep(skew, j - i, (b - 1) / 25 - (a - 1) / 25);
  }

  lemma {:induction false} StridesFit(skew: nat)
    requires skew % 5 != 0 && skew < 25
    ensures AcceptsSkew(skew)
  {
    forall i, j | 0 <= i < j < SECTORS_PER_TRACK
      ensures Position(skew, i) != Position(skew, j)
    {
      Strides(skew, j);
      if i > 0 {
        NeverMeet(skew, i, j);
      }
    }
    forall i | 0 <= i < SECTORS_PER_TRACK
      ensures Position(skew, i) < SECTORS_PER_TRACK
    {
      if i > 0 {
        Strides(skew, i);
      }
    }
  }

  lemma {:induction false} InOrderFits()
    ensures AcceptsSkew(26)
  {
    forall i | 0 <= i < SECTORS_PER_TRACK
      ensures Position(26, i) == i
    {
      Runaway(26, i);
    }
  }

  /** Two sectors at the same place. */
  lemma {:induction false} MeetingFails(skew: nat, i: nat, j: nat)
    requires i < j < SECTORS_PER_TRACK && Position(skew, i) == Position(skew, j)
    ensures !AcceptsSkew(skew)
  {
  }

  lemma {:induction false} CirclesMeet(skew: nat, five: nat, ten: nat)
    requires skew <= 25 && skew % 5 == 0 && skew != 0 && five == 5 && ten == 10
    ensures Position(skew, five) == Position(skew, ten)
  {
    var m := skew / 5;
    assert five * skew == 25 * m && ten * skew == 25 * (2 * m);
    Strides(skew, five);
    Strides(skew, ten);
    BeforeFullTurn(m);
    BeforeFullTurn(2 * m);
  }

  lemma {:induction false} BeforeFullTurn(turns: nat)
    ensures (25 * turns - 1) % 25 == 24
  {
  }

  lemma {:induction false} StandingStill(none: nat, one: nat)
    requires none == 0 && one == 1
    ensures Position(none, one) == Position(none, none)
  {
  }

  lemma {:induction false} ShortCircleFails(skew: nat, none: nat, one: nat, five: nat, ten: nat)
    requires skew <= 25 && skew % 5 == 0 && none == 0 && one == 1 && five == 5 && ten == 10
    ensures !AcceptsSkew(skew)
  {
    if skew == 0 {
      StandingStill(none, one);
      MeetingFails(skew, none, one);
    } else {
      CirclesMeet(skew, five, ten);
      MeetingFails(skew, five, ten);
    }
  }

  lemma {:induction false} RunawayFails(skew: nat)
    requires skew > 26
    ensures !AcceptsSkew(skew)
  {
    Runaway(skew, 13);
    assert Position(skew, 13) >= SECTORS_PER_TRACK;
  }

  /** The skews `Import` accepts: those below 25 that five does not divide, and 26, which walks
      the places in order. */
  lemma {:induction false} AcceptedSkews(skew: nat)
    ensures AcceptsSkew(skew) <==> (skew < 25 && skew % 5 != 0) || skew == 26
  {
    if skew > 26 {
      RunawayFails(skew);
    } else if skew == 26 {
      InOrderFits();
    } else if skew % 5 == 0 {
      ShortCircleFails(skew, 0, 1, 5, 10);
    } else {
      StridesFit(skew);
    }
  }

  /** Where the sectors go: sector one first on the track, and sector `n + 1` at the place that `n` strides
      of the skew reach around the other twenty-five. */
  lemma {:induction false} PlacesBySkew(order: seq<byte>, skew: nat, n: nat)
    requires IsSkewed(order, skew) && AcceptsSkew(skew) && n < 26
    ensures var place := if n == 0 then 0 else 1 + (n * skew - 1) % 25;
            place < |order| && order[place] == n + 1
  {
    AcceptedSkews(skew);
    assert SectorAt(order, skew, n);
    if n > 0 && skew == 26 {
      Runaway(skew, n);
      Overfull(n);
    } else if n > 0 {
      Strides(skew, n);
    }
  }

  lemma {:induction false} Overfull(n: nat)
    requires 1 <= n < 26
    ensures 1 + (n * 26 - 1) % 25 == n
  {
    assert n * 26 - 1 == n * 25 + (n - 1);
  }
}
