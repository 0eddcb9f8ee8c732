/** Experience levels as the profile and group screens compute them
    (src/screens/ProfileScreen.tsx, src/screens/GroupProfileScreen.tsx): level
    L covers the experience from 100·(L-1)² up to, not including, 100·L². */
module Levels {
  import opened Wrappers

  /** The integer square root: `Math.floor(Math.sqrt(n))` for a whole `n`. */
  function Isqrt(n: nat): (r: nat)
    ensures r * r <= n < (r + 1) * (r + 1)
    decreases n
  {
    if n < 4 then (if n == 0 then 0 else 1)
    else
      var s := Isqrt(n / 4);
      var r := 2 * s;
      DoubleRoot(n, s);
      if (r + 1) * (r + 1) <= n then r + 1 else r
  }

  /** Doubling the root of a quarter brackets the whole within two. */
  lemma DoubleRoot(n: nat, s: nat)
    requires s * s <= n / 4 < (s + 1) * (s + 1)
    ensures (2 * s) * (2 * s) <= n < (2 * s + 2) * (2 * s + 2)
  {
    var m := n / 4;
    assert 4 * m <= n < 4 * m + 4;
    assert (2 * s) * (2 * s) == 4 * (s * s);
    assert (2 * s + 2) * (2 * s + 2) == 4 * ((s + 1) * (s + 1));
  }

  lemma SquareMonotone(a: nat, b: nat)
    requires a <= b
    ensures a * a <= b * b
  {
    assert a * a <= a * b <= b * b;
  }

  /** The square root is the only number whose square brackets `n` that way. */
  lemma IsqrtUnique(n: nat, k: nat)
    requires k * k <= n < (k + 1) * (k + 1)
    ensures Isqrt(n) == k
  {
    var r := Isqrt(n);
    if r < k {
      SquareMonotone(r + 1, k);
    } else if r > k {
      SquareMonotone(k + 1, r);
    }
  }

  /** `floor(sqrt(xp / 100))` equals the integer square root of the whole
      hundreds, since a square is a whole number. */
  lemma WholeHundreds(xp: nat, k: nat)
    ensures k * k <= xp / 100 <==> 100 * (k * k) <= xp
  {
  }

  /** `getLevel(xp)`. */
  function Level(xp: nat): (l: nat)
    ensures l >= 1
    ensures 100 * ((l - 1) * (l - 1)) <= xp < 100 * (l * l)
  {
    var k := Isqrt(xp / 100);
    WholeHundreds(xp, k);
    WholeHundreds(xp, k + 1);
    k + 1
  }

  /** The level is the one whose band contains the experience. */
  lemma LevelIsBand(xp: nat, l: nat)
    requires l >= 1
    ensures Level(xp) == l <==> 100 * ((l - 1) * (l - 1)) <= xp < 100 * (l * l)
  {
    if 100 * ((l - 1) * (l - 1)) <= xp < 100 * (l * l) {
      WholeHundreds(xp, l - 1);
      WholeHundreds(xp, l);
      IsqrtUnique(xp / 100, l - 1);
    }
  }

  /** More experience never means a lower level. */
  lemma LevelMonotone(a: nat, b: nat)
    requires a <= b
    ensures Level(a) <= Level(b)
  {
    var la, lb := Level(a), Level(b);
    if la > lb {
      SquareMonotone(lb, la - 1);
    }
  }

  /** `Math.round(num / den)` for non-negative `num`: halves round up. */
  function RoundDiv(num: nat, den: nat): (r: nat)
    requires den > 0
    ensures 2 * num < den * (2 * r + 1)
    ensures den * (2 * r - 1) <= 2 * num
  {
    (2 * num + den) / (2 * den)
  }

  datatype Progress = Progress(percent: nat, toNext: nat)

  /** The progress through the band from `low` to `high`: the rounded share
      already earned, capped at 100, and what is still missing. */
  function BandProgress(xp: nat, low: nat, high: nat): (p: Progress)
    requires low <= xp < high
    ensures p.percent <= 100
    ensures xp + p.toNext == high
  {
    var percent := RoundDiv((xp - low) * 100, high - low);
    Progress(if percent < 100 then percent else 100, high - xp)
  }

  /** `calculateXpProgress(xp)`: the progress through the band of its level. */
  function XpProgress(xp: nat): (p: Progress)
    ensures p.percent <= 100
    ensures p.toNext >= 1
    ensures xp + p.toNext == 100 * (Level(xp) * Level(xp))
  {
    var l := Level(xp);
    BandProgress(xp, 100 * ((l - 1) * (l - 1)), 100 * (l * l))
  }

  /** Reaching 100·k² starts level k+1. */
  lemma LevelAtBandStart(k: nat)
    ensures Level(100 * (k * k)) == k + 1
  {
    var x := 100 * (k * k);
    var l := k + 1;
    assert 100 * ((l - 1) * (l - 1)) == x;
    assert x < 100 * (l * l) by {
      SquareMonotone(k, l);
      assert k * k < l * l;
    }
    LevelIsBand(x, l);
  }

  /** Progress at the very start of a band is zero. */
  lemma EmptyBar(low: nat, high: nat)
    requires low < high
    ensures BandProgress(low, low, high) == Progress(0, high - low)
  {
    assert RoundDiv(0, high - low) == 0;
  }

  /** Reaching 100·k² starts level k+1 with an empty bar and the whole band
      of 100·(2k+1) ahead. */
  lemma BandStart(k: nat)
    ensures Level(100 * (k * k)) == k + 1
    ensures XpProgress(100 * (k * k)) == Progress(0, 100 * (2 * k + 1))
  {
    var x := 100 * (k * k);
    var high := 100 * ((k + 1) * (k + 1));
    LevelAtBandStart(k);
    assert high == x + 100 * (2 * k + 1) by {
      assert (k + 1) * (k + 1) == k * k + 2 * k + 1;
    }
    EmptyBar(x, high);
  }

  /** What the profile shows: the computed values when the profile loaded, and
      level 1, 0 % and 100 to go before that. */
  function Shown(xp: Option<nat>): (r: (nat, Progress))
    ensures xp.Some? ==> r == (Level(xp.value), XpProgress(xp.value))
  {
    match xp
    case Some(v) => (Level(v), XpProgress(v))
    case None => (1, Progress(0, 100))
  }

  /** The placeholder before loading is exactly what a profile with no
      experience shows. */
  lemma PlaceholderIsZeroXp()
    ensures Shown(None) == Shown(Some(0))
  {
    BandStart(0);
  }
}
