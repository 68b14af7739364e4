/** Slayer points for a streak of completed tasks (src/lib/slayer/slayerUtil.ts, calculateSlayerPoints). */
module SlayerPoints {

  const STREAKS := [1000, 250, 100, 50, 10]

  const MULTIPLIER := [50, 35, 25, 15, 5]

  /** The bonus is set by the largest bonus streak dividing the current one. */
  ghost predicate IsMultiplier(streak: nat, m: nat) {
    || (streak < 5 && m == 0)
    || (streak >= 5 && m == 1 && forall i :: 0 <= i < |STREAKS| ==> streak % STREAKS[i] != 0)
    || (streak >= 5 && exists i :: IsBonus(streak, m, i))
  }

  ghost predicate IsBonus(streak: nat, m: nat, i: nat) {
    && i < |STREAKS| && m == MULTIPLIER[i] && streak % STREAKS[i] == 0
    && forall j :: 0 <= j < i ==> streak % STREAKS[j] != 0
  }

  /** What each task of a streak is worth, as a multiple of the base points. */
  function Multiplier(streak: nat): nat {
    if streak < 5 then 0
    else if streak % 1000 == 0 then 50
    else if streak % 250 == 0 then 35
    else if streak % 100 == 0 then 25
    else if streak % 50 == 0 then 15
    else if streak % 10 == 0 then 5
    else 1
  }

  lemma MultiplierIs(streak: nat, m: nat)
    requires IsMultiplier(streak, m)
    ensures m == Multiplier(streak)
  {
    assert STREAKS[0] == 1000 && STREAKS[1] == 250 && STREAKS[2] == 100 && STREAKS[3] == 50 && STREAKS[4] == 10;
    if streak >= 5 && !(forall i :: 0 <= i < |STREAKS| ==> streak % STREAKS[i] != 0) {
      var i :| IsBonus(streak, m, i);
      assert i == 0 || i == 1 || i == 2 || i == 3 || i == 4;
    }
  }

  method CalculateSlayerPoints(currentStreak: nat, masterPoints: nat, isKonar: bool, hasKourendElite: bool)
    returns (points: nat)
    ensures forall m: nat :: IsMultiplier(currentStreak, m) ==>
                               points == (if isKonar && hasKourendElite then 20 else masterPoints) * m
    ensures exists m: nat :: IsMultiplier(currentStreak, m)
  {
    forall m: nat | IsMultiplier(currentStreak, m) ensures m == Multiplier(currentStreak)
    {
      MultiplierIs(currentStreak, m);
    }
    MultiplierExists(currentStreak);
    if currentStreak < 5 {
      return 0;
    }
    var basePoints := masterPoints;
    if isKonar {
      if hasKourendElite {
        basePoints := 20;
      }
    }
    for i := 0 to |STREAKS|
      invariant forall j :: 0 <= j < i ==> currentStreak % STREAKS[j] != 0
    {
      if currentStreak >= STREAKS[i] && currentStreak % STREAKS[i] == 0 {
        assert IsBonus(currentStreak, MULTIPLIER[i], i);
        assert IsMultiplier(currentStreak, MULTIPLIER[i]);
        return basePoints * MULTIPLIER[i];
      }
      assert currentStreak % STREAKS[i] != 0;
    }
    assert IsMultiplier(currentStreak, 1);
    return basePoints;
  }

  lemma MultiplierExists(streak: nat)
    ensures IsMultiplier(streak, Multiplier(streak))
  {
    assert STREAKS[0] == 1000 && STREAKS[1] == 250 && STREAKS[2] == 100 && STREAKS[3] == 50 && STREAKS[4] == 10;
    var m := Multiplier(streak);
    if streak >= 5 && m != 1 {
      var i := if m == 50 then 0 else if m == 35 then 1 else if m == 25 then 2 else if m == 15 then 3 else 4;
      assert IsBonus(streak, m, i);
    }
  }

  // ---------- The total over a streak ----------

  /** What the tasks 1..n of a streak pay together. */
  function TotalPoints(base: nat, n: nat): nat {
    if n == 0 then 0 else TotalPoints(base, n - 1) + base * Multiplier(n)
  }

  function Weight(n: nat): int {
    (if n < 4 then 0 else n - 4) + 4 * (n / 10) + 10 * (n / 50) + 10 * (n / 100)
    + 20 * (n / 250) - 10 * (n / 500) + 15 * (n / 1000)
  }

  function Hit(n: nat, d: nat): nat
    requires d > 0
  {
    if n % d == 0 then 1 else 0
  }

  lemma NextQuotient(n: nat, d: nat)
    requires n > 0 && d > 0
    ensures n / d == (n - 1) / d + Hit(n, d)
  {
    var q, r := (n - 1) / d, (n - 1) % d;
    if r + 1 == d {
      QuotientIs(n, d, q + 1, 0);
    } else {
      QuotientIs(n, d, q, r + 1);
    }
  }

  lemma QuotientIs(n: nat, d: nat, q: nat, r: nat)
    requires r < d && n == q * d + r
    ensures n / d == q && n % d == r
  {
    var k := n / d;
    assert k < q ==> (k + 1) * d <= q * d;
    assert k > q ==> (q + 1) * d <= k * d;
  }

  lemma Divides(n: nat, d: nat, k: nat)
    requires d > 0 && k > 0 && n % (d * k) == 0
    ensures n % d == 0
  {
    var q := n / (d * k);
    assert n == (k * q) * d;
    QuotientIs(n, d, k * q, 0);
  }

  lemma HalvesMeet(n: nat)
    requires n % 250 == 0 && n % 100 == 0
    ensures n % 500 == 0
  {
    var a, b := n / 100, n / 250;
    assert n == 100 * a == 250 * b;
    QuotientIs(n, 500, a - 2 * b, 0);
  }

  /** How the bonus streaks divide one another. */
  lemma BonusesNest(n: nat)
    ensures Hit(n, 1000) <= Hit(n, 500)
    ensures Hit(n, 500) == (if Hit(n, 250) == 1 && Hit(n, 100) == 1 then 1 else 0)
    ensures Hit(n, 250) <= Hit(n, 50) && Hit(n, 100) <= Hit(n, 50) <= Hit(n, 10)
  {
    if n % 1000 == 0 { Divides(n, 500, 2); }
    if n % 500 == 0 {
      Divides(n, 250, 2);
      Divides(n, 100, 5);
    }
    if n % 250 == 0 && n % 100 == 0 { HalvesMeet(n); }
    if n % 250 == 0 { Divides(n, 50, 5); }
    if n % 100 == 0 { Divides(n, 50, 2); }
    if n % 50 == 0 { Divides(n, 10, 5); }
  }

  lemma MultiplierFromHits(n: nat)
    requires n > 0
    ensures Multiplier(n) == (if n < 5 then 0 else 1) + 4 * Hit(n, 10) + 10 * Hit(n, 50) + 10 * Hit(n, 100)
                             + 20 * Hit(n, 250) - 10 * Hit(n, 500) + 15 * Hit(n, 1000)
  {
    BonusesNest(n);
  }

  /** One more task adds its own multiplier. */
  lemma WeightStep(n: nat)
    requires n > 0
    ensures Weight(n) == Weight(n - 1) + Multiplier(n)
  {
    NextQuotient(n, 10);
    NextQuotient(n, 50);
    NextQuotient(n, 100);
    NextQuotient(n, 250);
    NextQuotient(n, 500);
    NextQuotient(n, 1000);
    MultiplierFromHits(n);
  }

  /** The closed form of a whole streak's points. */
  lemma {:induction false} TotalClosedForm(base: nat, n: nat)
    ensures TotalPoints(base, n) == base * Weight(n)
  {
    if n > 0 {
      TotalClosedForm(base, n - 1);
      WeightStep(n);
      assert base * (Weight(n - 1) + Multiplier(n)) == base * Weight(n - 1) + base * Multiplier(n);
    }
  }
}
