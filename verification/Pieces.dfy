/**
 Handing out set pieces one at a time, each to the first kind the player owns least of. The same rule serves the
 slayer drops (src/lib/slayer/slayerUtil.ts) and the Wintertodt crates (src/lib/simulation/wintertodt.ts).
 A player completes as many sets as the kind owned least, so the measure of a distribution is its minimum.
 */
module Pieces {
  import opened Banks

  function Sum(s: seq<nat>): nat {
    if s == [] then 0 else Sum(s[..|s| - 1]) + s[|s| - 1]
  }

  /** The first kind owned least. */
  function FirstLeast(s: seq<nat>): (k: nat)
    requires s != []
    ensures k < |s|
    ensures forall i :: 0 <= i < |s| ==> s[k] <= s[i]
    ensures forall i :: 0 <= i < k ==> s[k] < s[i]
  {
    if |s| == 1 then 0
    else
      var n := |s| - 1;
      var k := FirstLeast(s[..n]);
      assert forall i :: 0 <= i < n ==> s[..n][i] == s[i];
      if s[n] < s[k] then n else k
  }

  /** The number of complete sets. */
  function Min(s: seq<nat>): nat
    requires s != []
  {
    s[FirstLeast(s)]
  }

  /** How many a bank holds of each piece. */
  function Amounts<T(==)>(bank: Bank<T>, pieces: seq<T>): (r: seq<nat>)
    ensures |r| == |pieces|
  {
    seq(|pieces|, i requires 0 <= i < |pieces| => bank[pieces[i]])
  }

  /** The scan for the first kind whose count is the minimum. */
  method FirstMinimal(bank: seq<nat>) returns (i: nat)
    requires bank != []
    ensures i == FirstLeast(bank)
  {
    var minBank := Min(bank);
    i := 0;
    while bank[i] != minBank
      invariant i <= FirstLeast(bank)
      decreases |bank| - i
    {
      i := i + 1;
    }
  }

  function GiveOne(owned: seq<nat>): (r: seq<nat>)
    requires owned != []
    ensures |r| == |owned|
  {
    owned[FirstLeast(owned) := owned[FirstLeast(owned)] + 1]
  }

  /** Owned counts after n pieces were handed out by the rule. */
  function Greedy(owned: seq<nat>, n: nat): (g: seq<nat>)
    requires owned != []
    ensures |g| == |owned|
  {
    if n == 0 then owned else GiveOne(Greedy(owned, n - 1))
  }

  /** Handing out in two goes is handing out in one. */
  lemma {:induction false} GreedyInTwo(owned: seq<nat>, a: nat, b: nat)
    requires owned != []
    ensures Greedy(Greedy(owned, a), b) == Greedy(owned, a + b)
  {
    if b != 0 {
      GreedyInTwo(owned, a, b - 1);
      assert a + b - 1 == a + (b - 1);
    }
  }

  lemma {:induction false} SumUpdate(s: seq<nat>, k: nat, x: nat)
    requires k < |s|
    ensures Sum(s[k := x]) + s[k] == Sum(s) + x
  {
    var n := |s| - 1;
    if k == n {
      assert s[k := x][..n] == s[..n];
    } else {
      SumUpdate(s[..n], k, x);
      assert s[k := x][..n] == s[..n][k := x];
    }
  }

  /** Giving one piece raises one of the least kinds by one. */
  lemma GiveOneEffect(s: seq<nat>)
    requires s != []
    ensures Min(s) <= Min(GiveOne(s))
    ensures forall i :: 0 <= i < |s| ==>
                          GiveOne(s)[i] == s[i] || (s[i] == Min(s) && GiveOne(s)[i] == Min(s) + 1)
  {
    var g, k := GiveOne(s), FirstLeast(s);
    assert g[FirstLeast(g)] >= s[FirstLeast(g)] >= s[k];
  }

  lemma GiveOneSum(owned: seq<nat>)
    requires owned != []
    ensures Sum(GiveOne(owned)) == Sum(owned) + 1
  {
    var k := FirstLeast(owned);
    SumUpdate(owned, k, owned[k] + 1);
  }

  /** Exactly n pieces are given. */
  lemma {:induction false} GreedySum(owned: seq<nat>, n: nat)
    requires owned != []
    ensures Sum(Greedy(owned, n)) == Sum(owned) + n
  {
    if n != 0 {
      GreedySum(owned, n - 1);
      GiveOneSum(Greedy(owned, n - 1));
    }
  }

  /** No kind is given a piece that would put it two ahead of the kind owned least. */
  lemma {:induction false} GreedyLevels(owned: seq<nat>, n: nat)
    requires owned != []
    ensures forall i :: 0 <= i < |owned| ==>
                          || Greedy(owned, n)[i] == owned[i]
                          || owned[i] < Greedy(owned, n)[i] <= Min(Greedy(owned, n)) + 1
  {
    if n != 0 {
      GreedyLevels(owned, n - 1);
      GiveOneEffect(Greedy(owned, n - 1));
    }
  }

  ghost predicate Level(s: seq<nat>) {
    forall i, j :: 0 <= i < |s| && 0 <= j < |s| ==> s[i] <= s[j] + 1
  }

  /** Once no two kinds differ by more than one, they never do again. */
  lemma {:induction false} GreedyStaysLevel(owned: seq<nat>, n: nat)
    requires owned != [] && Level(owned)
    ensures Level(Greedy(owned, n))
  {
    if n != 0 {
      GreedyStaysLevel(owned, n - 1);
    }
  }

  function Plus(a: seq<nat>, b: seq<nat>): (r: seq<nat>)
    requires |a| == |b|
    ensures |r| == |a|
    ensures forall i :: 0 <= i < |a| ==> r[i] == a[i] + b[i]
  {
    seq(|a|, i requires 0 <= i < |a| => a[i] + b[i])
  }

  lemma {:induction false} SumPlus(a: seq<nat>, b: seq<nat>)
    requires |a| == |b|
    ensures Sum(Plus(a, b)) == Sum(a) + Sum(b)
  {
    if a != [] {
      var n := |a| - 1;
      SumPlus(a[..n], b[..n]);
      assert Plus(a, b)[..n] == Plus(a[..n], b[..n]);
    }
  }

  lemma {:induction false} SumBelow(a: seq<nat>, b: seq<nat>)
    requires |a| == |b|
    requires forall i :: 0 <= i < |a| ==> a[i] <= b[i]
    ensures Sum(a) <= Sum(b)
    ensures (exists i :: 0 <= i < |a| && a[i] < b[i]) ==> Sum(a) < Sum(b)
  {
    if a != [] {
      var n := |a| - 1;
      SumBelow(a[..n], b[..n]);
      if i :| 0 <= i < n && a[i] < b[i] {
        assert a[..n][i] < b[..n][i];
      }
    }
  }

  /** The rule is optimal: no way of handing out n pieces completes more sets. */
  lemma GreedyIsOptimal(owned: seq<nat>, n: nat, given: seq<nat>)
    requires owned != [] && |given| == |owned| && Sum(given) == n
    ensures Min(Plus(owned, given)) <= Min(Greedy(owned, n))
  {
    var g, other := Greedy(owned, n), Plus(owned, given);
    GreedyLevels(owned, n);
    GreedySum(owned, n);
    SumPlus(owned, given);
    if Min(other) > Min(g) {
      assert g[FirstLeast(g)] < other[FirstLeast(g)];
      SumBelow(g, other);
    }
  }

  /** From nothing, the n pieces go round the four kinds in order. */
  lemma {:induction false} GreedyFromFourZeros(n: nat)
    ensures Greedy([0, 0, 0, 0], n) == Rounds(n)
  {
    if n != 0 {
      GreedyFromFourZeros(n - 1);
      RoundRobin(n - 1);
    }
  }

  /** Four counts after n pieces went round them in order. */
  function Rounds(n: nat): seq<nat> {
    [(n + 3) / 4, (n + 2) / 4, (n + 1) / 4, n / 4]
  }

  lemma RoundRobin(n: nat)
    ensures GiveOne(Rounds(n)) == Rounds(n + 1)
  {
    var g, m, k := Rounds(n), n / 4, n % 4;
    assert n == 4 * m + k;
    assert g[3] == m;
    assert Min(g) == m;
    assert forall i :: 0 <= i < 4 ==> g[i] == if i < k then m + 1 else m;
    assert forall i :: 0 <= i < 4 ==> g[FirstLeast(g)] <= g[i];
    assert g[k] == m && FirstLeast(g) == k;
  }
}
