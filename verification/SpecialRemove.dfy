/**
 * Paying for a trip out of three stores at once: the bank, the worn ammo and the loaded blowpipe
 * (src/lib/MUser.ts, specialRemoveItems).
 */
module SpecialRemove {
  import opened Banks

  type ItemId = nat

  const COINS: ItemId := 995
  const SCALES: ItemId := 12934

  datatype Tables = Tables(darts: set<ItemId>, projectiles: set<ItemId>)

  datatype Stack = Stack(item: ItemId, quantity: nat)

  datatype Blowpipe = Blowpipe(scales: int, dartID: Option<ItemId>, dartQuantity: int)

  datatype Error =
    | TwoDarts
    | NoAmmoEquipped
    | WrongAmmo
    | NotEnoughAmmo
    | BadBlowpipe
    | NoBlowpipe
    | NoDarts
    | NotEnoughDarts
    | NotEnoughScales
    | NotOwned
    | NotEnoughCoins
    | WriteFailed

  datatype Result<+T> = Ok(value: T) | Err(error: Error)

  predicate ValidBlowpipe(t: Tables, bp: Blowpipe) {
    && (bp.dartID.None? ==> bp.dartQuantity == 0)
    && (bp.dartID.Some? ==> bp.dartID.value in t.darts)
    && bp.dartQuantity >= 0 && bp.scales >= 0
  }

  /** The bank's kinds of item, each once, in the order the bank lists them. */
  ghost predicate Lists(bank: Bank<ItemId>, order: seq<ItemId>) {
    && (forall x :: x in order <==> x in bank)
    && (forall i, j :: 0 <= i < j < |order| ==> order[i] != order[j])
  }

  // ---------- Runes a worn staff supplies ----------

  datatype RuneRow = RuneRow(sources: set<ItemId>, runes: seq<ItemId>)

  ghost predicate Supplied(rows: seq<RuneRow>, worn: set<ItemId>, rune: ItemId) {
    exists k :: 0 <= k < |rows| && rows[k].sources * worn != {} && rune in rows[k].runes
  }

  function Without(bank: Bank<ItemId>, runes: seq<ItemId>): Bank<ItemId> {
    if runes == [] then bank else Without(bank, runes[..|runes| - 1])[runes[|runes| - 1] := 0]
  }

  function Unsupplied(rows: seq<RuneRow>, worn: set<ItemId>, bank: Bank<ItemId>): Bank<ItemId> {
    if rows == [] then bank
    else
      var row, rest := rows[|rows| - 1], Unsupplied(rows[..|rows| - 1], worn, bank);
      if row.sources * worn != {} then Without(rest, row.runes) else rest
  }

  lemma {:induction false} WithoutAt(bank: Bank<ItemId>, runes: seq<ItemId>, x: ItemId)
    ensures Without(bank, runes)[x] == if x in runes then 0 else bank[x]
  {
    if runes != [] {
      var n := |runes| - 1;
      WithoutAt(bank, runes[..n], x);
      assert runes == runes[..n] + [runes[n]];
    }
  }

  /** Runes a worn weapon or shield supplies cost nothing; everything else is unchanged. */
  lemma {:induction false} UnsuppliedAt(rows: seq<RuneRow>, worn: set<ItemId>, bank: Bank<ItemId>, x: ItemId)
    ensures Unsupplied(rows, worn, bank)[x] == if Supplied(rows, worn, x) then 0 else bank[x]
  {
    if rows != [] {
      var n := |rows| - 1;
      UnsuppliedAt(rows[..n], worn, bank, x);
      WithoutAt(Unsupplied(rows[..n], worn, bank), rows[n].runes, x);
      SuppliedByOneMore(rows, worn, n, x);
      assert rows[..n + 1] == rows;
    }
  }

  method DetermineRunes(rows: seq<RuneRow>, worn: set<ItemId>, runeBank: Bank<ItemId>) returns (bank: Bank<ItemId>)
    ensures bank == Unsupplied(rows, worn, runeBank)
  {
    bank := runeBank;
    for i := 0 to |rows|
      invariant bank == Unsupplied(rows[..i], worn, runeBank)
    {
      assert rows[..i + 1][..i] == rows[..i];
      ghost var before := bank;
      if rows[i].sources * worn != {} {
        for j := 0 to |rows[i].runes|
          invariant bank == Without(before, rows[i].runes[..j])
        {
          assert rows[i].runes[..j + 1][..j] == rows[i].runes[..j];
          bank := bank[rows[i].runes[j] := 0];
        }
        assert rows[i].runes[..|rows[i].runes|] == rows[i].runes;
      }
    }
    assert rows[..|rows|] == rows;
  }

  lemma SuppliedByOneMore(rows: seq<RuneRow>, worn: set<ItemId>, i: nat, x: ItemId)
    requires i < |rows|
    ensures Supplied(rows[..i + 1], worn, x) <==>
            Supplied(rows[..i], worn, x) || (rows[i].sources * worn != {} && x in rows[i].runes)
  {
    var more := rows[..i + 1];
    assert more[i] == rows[i];
    if Supplied(rows[..i], worn, x) {
      var k :| 0 <= k < |rows[..i]| && rows[..i][k].sources * worn != {} && x in rows[..i][k].runes;
      assert more[k] == rows[..i][k];
    }
    if Supplied(more, worn, x) {
      var k :| 0 <= k < |more| && more[k].sources * worn != {} && x in more[k].runes;
      assert k < i ==> rows[..i][k] == more[k];
    }
  }

  /** The listed items the bank still holds. */
  function Present(order: seq<ItemId>, bank: Bank<ItemId>): (r: seq<ItemId>)
    ensures forall x :: x in r <==> x in order && x in bank
  {
    if order == [] then []
    else
      var n := |order| - 1;
      Present(order[..n], bank) + if order[n] in bank then [order[n]] else []
  }

  lemma {:induction false} PresentDistinct(order: seq<ItemId>, bank: Bank<ItemId>)
    requires forall i, j :: 0 <= i < j < |order| ==> order[i] != order[j]
    ensures var r := Present(order, bank); forall i, j :: 0 <= i < j < |r| ==> r[i] != r[j]
  {
    if order != [] {
      var n := |order| - 1;
      PresentDistinct(order[..n], bank);
      assert order[n] !in order[..n];
      assert order[n] !in Present(order[..n], bank);
    }
  }

  /** Runes the gear supplies drop out of the list of items too. */
  lemma UnsuppliedLists(rows: seq<RuneRow>, worn: set<ItemId>, bank: Bank<ItemId>, order: seq<ItemId>)
    requires Lists(bank, order)
    ensures var rest := Unsupplied(rows, worn, bank); rest <= bank && Lists(rest, Present(order, rest))
  {
    var rest := Unsupplied(rows, worn, bank);
    forall x: ItemId ensures rest[x] <= bank[x]
    {
      UnsuppliedAt(rows, worn, bank, x);
    }
    PresentDistinct(order, rest);
  }

  // ---------- Splitting the request ----------

  /** The first item of a kind among the first n listed. */
  function FirstIn(order: seq<ItemId>, n: nat, kind: set<ItemId>): (r: Option<ItemId>)
    requires n <= |order|
    ensures r.None? ==> forall k :: 0 <= k < n ==> order[k] !in kind
    ensures r.Some? ==> r.value in kind && exists k :: 0 <= k < n && order[k] == r.value
  {
    if n == 0 then None
    else
      var first := FirstIn(order, n - 1, kind);
      if first.Some? then first else if order[n - 1] in kind then Some(order[n - 1]) else None
  }

  predicate IsAlso(o: Option<ItemId>, x: ItemId) {
    o.Some? && o.value == x
  }

  /** One dart kind, one projectile kind, and a bill for the bank. */
  datatype Split = Split(fromBank: Bank<ItemId>, ammo: Option<ItemId>, dart: Option<ItemId>)

  predicate IsListed(order: seq<ItemId>, n: nat, x: ItemId)
    requires n <= |order|
  {
    exists k :: 0 <= k < n && order[k] == x
  }

  /** The bank pays for what is listed, save the dart and the projectile set apart. */
  ghost predicate BillsRest(request: Bank<ItemId>, order: seq<ItemId>, n: nat, s: Split)
    requires n <= |order|
  {
    forall x :: s.fromBank[x] == if !IsListed(order, n, x) || IsAlso(s.dart, x) || IsAlso(s.ammo, x) then 0
                                 else request[x]
  }

  /** The first dart and the first projectile are set apart. */
  ghost predicate IsSplit(t: Tables, request: Bank<ItemId>, order: seq<ItemId>, n: nat, s: Split)
    requires n <= |order|
  {
    && s.dart == FirstIn(order, n, t.darts)
    && s.ammo == FirstIn(order, n, t.projectiles - t.darts)
    && BillsRest(request, order, n, s)
  }

  function SplitOf(t: Tables, request: Bank<ItemId>, order: seq<ItemId>): Split {
    var dart, ammo := FirstIn(order, |order|, t.darts), FirstIn(order, |order|, t.projectiles - t.darts);
    var rest := if dart.Some? then request[dart.value := 0] else request;
    Split(if ammo.Some? then rest[ammo.value := 0] else rest, ammo, dart)
  }

  /** Among the first n listed there is at most one dart kind. */
  ghost predicate OneDart(t: Tables, order: seq<ItemId>, n: nat)
    requires n <= |order|
  {
    forall i, j :: 0 <= i < j < n && order[i] in t.darts ==> order[j] !in t.darts
  }

  ghost predicate OneDartAtMost(t: Tables, order: seq<ItemId>) {
    OneDart(t, order, |order|)
  }

  /** One turn of the loop. */
  function Sorted(t: Tables, request: Bank<ItemId>, s: Split, x: ItemId): Split {
    if x in t.darts then s.(dart := Some(x))
    else if x in t.projectiles && s.ammo.None? then s.(ammo := Some(x))
    else s.(fromBank := Add(s.fromBank, x, request[x]))
  }

  lemma BillsMore(t: Tables, request: Bank<ItemId>, order: seq<ItemId>, i: nat, s: Split)
    requires i < |order| && Lists(request, order) && BillsRest(request, order, i, s)
    requires order[i] in t.darts ==> s.dart.None?
    ensures !IsAlso(s.dart, order[i]) && !IsAlso(s.ammo, order[i]) ==>
              BillsRest(request, order, i + 1, Sorted(t, request, s, order[i]))
  {
    var x := order[i];
    assert !IsListed(order, i, x);
    assert forall y :: IsListed(order, i + 1, y) <==> IsListed(order, i, y) || y == x;
  }

  /** Where the loop stands after the first i items. */
  ghost predicate SplitUpTo(t: Tables, request: Bank<ItemId>, order: seq<ItemId>, i: nat, s: Split)
    requires i <= |order|
  {
    IsSplit(t, request, order, i, s) && OneDart(t, order, i)
  }

  lemma SplitMore(t: Tables, request: Bank<ItemId>, order: seq<ItemId>, i: nat, s: Split)
    requires i < |order| && Lists(request, order) && SplitUpTo(t, request, order, i, s)
    requires order[i] in t.darts ==> s.dart.None?
    ensures SplitUpTo(t, request, order, i + 1, Sorted(t, request, s, order[i]))
  {
    BillsMore(t, request, order, i, s);
  }

  lemma SplitIsUnique(t: Tables, request: Bank<ItemId>, order: seq<ItemId>, s: Split)
    requires Lists(request, order) && SplitUpTo(t, request, order, |order|, s)
    ensures OneDartAtMost(t, order) && s == SplitOf(t, request, order)
  {
    forall x ensures s.fromBank[x] == SplitOf(t, request, order).fromBank[x]
    {
      assert IsListed(order, |order|, x) <==> x in order;
    }
  }

  method SortItem(t: Tables, request: Bank<ItemId>, s: Split, item: ItemId) returns (more: Split)
    ensures more == Sorted(t, request, s, item)
  {
    if item in t.darts {
      return s.(dart := Some(item));
    }
    if item in t.projectiles && s.ammo.None? {
      return s.(ammo := Some(item));
    }
    return s.(fromBank := Add(s.fromBank, item, request[item]));
  }

  /** Sorting the requested items into dart, projectile and the bank's share. */
  method SplitRequest(t: Tables, request: Bank<ItemId>, order: seq<ItemId>) returns (r: Result<Split>)
    requires Lists(request, order)
    ensures r.Ok? <==> OneDartAtMost(t, order)
    ensures r.Ok? ==> r.value == SplitOf(t, request, order)
  {
    var s := Split(multiset{}, None, None);
    SplitStarts(t, request, order);
    for i := 0 to |order|
      invariant SplitUpTo(t, request, order, i, s)
    {
      var item := order[i];
      if item in t.darts && s.dart.Some? {
        SplitStops(t, request, order, i, s);
        return Err(TwoDarts);
      }
      SplitMore(t, request, order, i, s);
      s := SortItem(t, request, s, item);
    }
    SplitIsUnique(t, request, order, s);
    return Ok(s);
  }

  lemma SplitStarts(t: Tables, request: Bank<ItemId>, order: seq<ItemId>)
    ensures SplitUpTo(t, request, order, 0, Split(multiset{}, None, None))
  {
  }

  lemma SplitStops(t: Tables, request: Bank<ItemId>, order: seq<ItemId>, i: nat, s: Split)
    requires i < |order| && SplitUpTo(t, request, order, i, s) && order[i] in t.darts && s.dart.Some?
    ensures !OneDartAtMost(t, order)
  {
    TwoDartsListed(t, order, i);
  }

  lemma TwoDartsListed(t: Tables, order: seq<ItemId>, i: nat)
    requires i < |order| && order[i] in t.darts && FirstIn(order, i, t.darts).Some?
    ensures !OneDartAtMost(t, order)
  {
    var j :| 0 <= j < i && order[j] == FirstIn(order, i, t.darts).value;
    assert order[j] in t.darts;
  }

  // ---------- Ava's saves ----------

  /** How many of the first n rolls came up: each one saved a projectile. */
  function Saved(rolls: nat -> bool, n: nat): (k: nat)
    ensures k <= n
  {
    if n == 0 then 0 else Saved(rolls, n - 1) + if rolls(n - 1) then 1 else 0
  }

  function Needed(hasAvas: bool, rolls: nat -> bool, quantity: nat): nat {
    if hasAvas then quantity - Saved(rolls, quantity) else quantity
  }

  /** Each save takes one off what must be paid and off the recorded cost. */
  method RollSaves(hasAvas: bool, rolls: nat -> bool, item: ItemId, quantity: nat, cost: Bank<ItemId>)
    returns (needed: nat, realCost: Bank<ItemId>)
    requires cost[item] == quantity
    ensures needed == Needed(hasAvas, rolls, quantity)
    ensures realCost == cost[item := needed]
  {
    needed, realCost := quantity, cost;
    if hasAvas {
      for i := 0 to quantity
        invariant needed == quantity - Saved(rolls, i)
        invariant realCost == cost[item := needed]
      {
        if rolls(i) {
          needed := needed - 1;
          realCost := realCost - multiset{item};
        }
      }
    }
  }

  /** Ten scales for every three darts, rounded up. */
  function ScalesFor(darts: nat): (scales: nat)
    ensures 3 * scales >= 10 * darts > 3 * (scales - 1)
  {
    (10 * darts + 2) / 3
  }

  // ---------- What is paid ----------

  /** Everything this routine can take from. */
  datatype Wealth = Wealth(bank: Bank<ItemId>, gp: nat, ammo: Option<Stack>, blowpipe: Blowpipe)

  function Loaded(n: int): nat {
    if n < 0 then 0 else n
  }

  function LoadedDart(bp: Blowpipe): ItemId {
    if bp.dartID.Some? then bp.dartID.value else 0
  }

  function StackBank(s: Option<Stack>): Bank<ItemId> {
    if s.Some? then Copies(s.value.item, s.value.quantity) else multiset{}
  }

  /** All of it as one bank. */
  function Owned(w: Wealth): Bank<ItemId> {
    w.bank + Copies(COINS, w.gp) + StackBank(w.ammo)
    + Copies(LoadedDart(w.blowpipe), Loaded(w.blowpipe.dartQuantity)) + Copies(SCALES, Loaded(w.blowpipe.scales))
  }

  /** The projectiles and darts still to be paid once the saves are rolled. */
  datatype Bill = Bill(fromBank: Bank<ItemId>, ammo: Option<Stack>, dart: Option<Stack>)

  predicate AmmoCovers(w: Wealth, need: Option<Stack>) {
    need.Some? ==>
      && w.ammo.Some? && w.ammo.value.item == need.value.item
      && w.ammo.value.quantity > 0 && w.ammo.value.quantity >= need.value.quantity
  }

  predicate BlowpipeCovers(t: Tables, w: Wealth, ownsBlowpipe: bool, need: Option<Stack>) {
    need.Some? ==>
      && ownsBlowpipe && ValidBlowpipe(t, w.blowpipe)
      && w.blowpipe.dartQuantity > 0 && w.blowpipe.dartQuantity >= need.value.quantity
      && w.blowpipe.scales > 0 && w.blowpipe.scales >= ScalesFor(need.value.quantity)
  }

  predicate BankCovers(w: Wealth, need: Bank<ItemId>) {
    need[COINS] <= w.gp && need[COINS := 0] <= w.bank
  }

  function BankAfter(bank: Bank<ItemId>, need: Bank<ItemId>): Bank<ItemId> {
    bank - need[COINS := 0]
  }

  predicate CanPay(t: Tables, w: Wealth, ownsBlowpipe: bool, b: Bill) {
    AmmoCovers(w, b.ammo) && BlowpipeCovers(t, w, ownsBlowpipe, b.dart) && BankCovers(w, b.fromBank)
  }

  function AmmoAfter(w: Wealth, need: Option<Stack>): Option<Stack>
    requires AmmoCovers(w, need)
  {
    if need.Some? then Some(Stack(w.ammo.value.item, w.ammo.value.quantity - need.value.quantity)) else w.ammo
  }

  function BlowpipeAfter(bp: Blowpipe, need: Option<Stack>): Blowpipe {
    if need.Some?
    then
      var darts := need.value.quantity;
      bp.(dartQuantity := bp.dartQuantity - darts, scales := bp.scales - ScalesFor(darts))
    else bp
  }

  function After(t: Tables, w: Wealth, ownsBlowpipe: bool, b: Bill): Wealth
    requires CanPay(t, w, ownsBlowpipe, b)
  {
    Wealth(BankAfter(w.bank, b.fromBank), w.gp - b.fromBank[COINS],
           AmmoAfter(w, b.ammo), BlowpipeAfter(w.blowpipe, b.dart))
  }

  function Darts(b: Bill): nat {
    if b.dart.Some? then b.dart.value.quantity else 0
  }

  function ScalesPaid(b: Bill): nat {
    if b.dart.Some? then ScalesFor(Darts(b)) else 0
  }

  /** What leaves the player: the bank's share, the worn ammo, loaded darts, and scales. */
  function Paid(w: Wealth, b: Bill): Bank<ItemId> {
    b.fromBank + StackBank(b.ammo) + Copies(LoadedDart(w.blowpipe), Darts(b)) + Copies(SCALES, ScalesPaid(b))
  }

  lemma CopiesTaken(x: ItemId, n: nat, taken: nat)
    requires taken <= n
    ensures Copies(x, n) == Copies(x, n - taken) + Copies(x, taken)
  {
  }

  lemma BankTaken(bank: Bank<ItemId>, gp: nat, need: Bank<ItemId>)
    requires need[COINS] <= gp && need[COINS := 0] <= bank
    ensures bank + Copies(COINS, gp) == (bank - need[COINS := 0]) + Copies(COINS, gp - need[COINS]) + need
  {
    var rest := need[COINS := 0];
    assert bank == (bank - rest) + rest;
    assert need == rest + Copies(COINS, need[COINS]);
    CopiesTaken(COINS, gp, need[COINS]);
  }

  lemma Regroup(a: Bank<ItemId>, a1: Bank<ItemId>, b: Bank<ItemId>, b1: Bank<ItemId>,
                c: Bank<ItemId>, c1: Bank<ItemId>, d: Bank<ItemId>, d1: Bank<ItemId>)
    ensures (a + a1) + (b + b1) + (c + c1) + (d + d1) == (a + b + c + d) + (a1 + b1 + c1 + d1)
  {
  }

  lemma AmmoTaken(w: Wealth, need: Option<Stack>)
    requires AmmoCovers(w, need)
    ensures StackBank(w.ammo) == StackBank(AmmoAfter(w, need)) + StackBank(need)
  {
  }

  lemma BlowpipeTaken(t: Tables, w: Wealth, ownsBlowpipe: bool, b: Bill)
    requires BlowpipeCovers(t, w, ownsBlowpipe, b.dart)
    ensures var before, after := w.blowpipe, BlowpipeAfter(w.blowpipe, b.dart);
            && LoadedDart(before) == LoadedDart(after)
            && Copies(LoadedDart(before), Loaded(before.dartQuantity)) ==
               Copies(LoadedDart(before), Loaded(after.dartQuantity)) + Copies(LoadedDart(before), Darts(b))
            && Copies(SCALES, Loaded(before.scales)) ==
               Copies(SCALES, Loaded(after.scales)) + Copies(SCALES, ScalesPaid(b))
  {
    if b.dart.Some? {
      CopiesTaken(LoadedDart(w.blowpipe), w.blowpipe.dartQuantity, Darts(b));
      CopiesTaken(SCALES, w.blowpipe.scales, ScalesPaid(b));
    } else {
      CopiesTaken(LoadedDart(w.blowpipe), Loaded(w.blowpipe.dartQuantity), 0);
      CopiesTaken(SCALES, Loaded(w.blowpipe.scales), 0);
    }
  }

  /** Paying moves exactly the bill out of what is owned: the loaded darts go, and their scales with them. */
  lemma PaymentConserves(t: Tables, w: Wealth, ownsBlowpipe: bool, b: Bill)
    requires CanPay(t, w, ownsBlowpipe, b)
    ensures Owned(w) == Owned(After(t, w, ownsBlowpipe, b)) + Paid(w, b)
  {
    var w2 := After(t, w, ownsBlowpipe, b);
    var dart := LoadedDart(w.blowpipe);
    BankTaken(w.bank, w.gp, b.fromBank);
    AmmoTaken(w, b.ammo);
    BlowpipeTaken(t, w, ownsBlowpipe, b);
    Regroup(w2.bank + Copies(COINS, w2.gp), b.fromBank, StackBank(w2.ammo), StackBank(b.ammo),
            Copies(dart, Loaded(w2.blowpipe.dartQuantity)), Copies(dart, Darts(b)),
            Copies(SCALES, Loaded(w2.blowpipe.scales)), Copies(SCALES, ScalesPaid(b)));
  }

  // ---------- The recorded cost ----------

  function Charged(cost: Bank<ItemId>, need: Option<Stack>): Bank<ItemId> {
    if need.Some? then cost[need.value.item := need.value.quantity] else cost
  }

  /** The request with the projectiles and darts that were saved taken off. */
  function RealCost(request: Bank<ItemId>, b: Bill): Bank<ItemId> {
    Charged(Charged(request, b.ammo), b.dart)
  }

  function Due(item: Option<ItemId>, request: Bank<ItemId>, hasAvas: bool, rolls: nat -> bool): Option<Stack> {
    if item.Some? then Some(Stack(item.value, Needed(hasAvas, rolls, request[item.value]))) else None
  }

  function BillOf(s: Split, request: Bank<ItemId>, hasAvas: bool, ammoRolls: nat -> bool,
                  dartRolls: nat -> bool): Bill
  {
    Bill(s.fromBank, Due(s.ammo, request, hasAvas, ammoRolls), Due(s.dart, request, hasAvas, dartRolls))
  }

  /** The bill for a request, once the rolls are known. */
  function BillFor(t: Tables, request: Bank<ItemId>, order: seq<ItemId>, hasAvas: bool,
                   ammoRolls: nat -> bool, dartRolls: nat -> bool): Bill
  {
    BillOf(SplitOf(t, request, order), request, hasAvas, ammoRolls, dartRolls)
  }

  lemma ChargedElsewhere(item: Option<ItemId>, request: Bank<ItemId>, hasAvas: bool, rolls: nat -> bool,
                         x: Option<ItemId>)
    requires x.Some? ==> item != x
    ensures x.Some? ==> Charged(request, Due(item, request, hasAvas, rolls))[x.value] == request[x.value]
  {
  }

  function Zeroed(bank: Bank<ItemId>, item: Option<ItemId>): Bank<ItemId> {
    if item.Some? then bank[item.value := 0] else bank
  }

  lemma ChargedIsRest(bank: Bank<ItemId>, item: Option<ItemId>, request: Bank<ItemId>, hasAvas: bool,
                      rolls: nat -> bool)
    ensures Charged(bank, Due(item, request, hasAvas, rolls)) ==
            Zeroed(bank, item) + StackBank(Due(item, request, hasAvas, rolls))
  {
  }

  lemma ChargedIsLess(bank: Bank<ItemId>, item: Option<ItemId>, request: Bank<ItemId>, hasAvas: bool,
                      rolls: nat -> bool)
    requires item.Some? ==> bank[item.value] == request[item.value]
    ensures Charged(bank, Due(item, request, hasAvas, rolls)) <= bank
    ensures !hasAvas ==> Charged(bank, Due(item, request, hasAvas, rolls)) == bank
  {
  }

  lemma ZeroedThenCharged(bank: Bank<ItemId>, item: Option<ItemId>, need: Option<Stack>)
    requires need.Some? ==> item != Some(need.value.item)
    ensures Zeroed(Charged(bank, need), item) == Charged(Zeroed(bank, item), need)
  {
  }

  lemma SplitIsZeroed(t: Tables, request: Bank<ItemId>, order: seq<ItemId>)
    ensures var s := SplitOf(t, request, order);
            s.fromBank == Zeroed(Zeroed(request, s.dart), s.ammo) && (s.dart.Some? ==> s.ammo != s.dart)
  {
  }

  /** The recorded cost is the bill, never more than was asked for, and all of it without Ava's. */
  lemma CostIsTheBill(t: Tables, request: Bank<ItemId>, order: seq<ItemId>, hasAvas: bool,
                      ammoRolls: nat -> bool, dartRolls: nat -> bool)
    ensures var b := BillFor(t, request, order, hasAvas, ammoRolls, dartRolls);
            && RealCost(request, b) == b.fromBank + StackBank(b.ammo) + StackBank(b.dart)
            && RealCost(request, b) <= request
            && (!hasAvas ==> RealCost(request, b) == request)
  {
    SplitIsZeroed(t, request, order);
    var s := SplitOf(t, request, order);
    CostIsTheSplit(s, request, hasAvas, ammoRolls, dartRolls);
  }

  lemma CostIsTheSplit(s: Split, request: Bank<ItemId>, hasAvas: bool, ammoRolls: nat -> bool, dartRolls: nat -> bool)
    requires s.fromBank == Zeroed(Zeroed(request, s.dart), s.ammo) && (s.dart.Some? ==> s.ammo != s.dart)
    ensures var b := BillOf(s, request, hasAvas, ammoRolls, dartRolls);
            && RealCost(request, b) == b.fromBank + StackBank(b.ammo) + StackBank(b.dart)
            && RealCost(request, b) <= request
            && (!hasAvas ==> RealCost(request, b) == request)
  {
    var b := BillOf(s, request, hasAvas, ammoRolls, dartRolls);
    var charged := Charged(request, b.ammo);
    ChargedElsewhere(s.ammo, request, hasAvas, ammoRolls, s.dart);
    ChargedIsLess(request, s.ammo, request, hasAvas, ammoRolls);
    ChargedIsLess(charged, s.dart, request, hasAvas, dartRolls);
    ChargedIsRest(charged, s.dart, request, hasAvas, dartRolls);
    ZeroedThenCharged(request, s.dart, b.ammo);
    ChargedIsRest(Zeroed(request, s.dart), s.ammo, request, hasAvas, ammoRolls);
  }

  /** What leaves is the recorded cost and the scales exactly when no dart is charged or the loaded dart is the one
      asked for. */
  lemma LeavesTheCostIff(t: Tables, w: Wealth, request: Bank<ItemId>, order: seq<ItemId>, hasAvas: bool,
                         ammoRolls: nat -> bool, dartRolls: nat -> bool)
    ensures var b := BillFor(t, request, order, hasAvas, ammoRolls, dartRolls);
            Paid(w, b) == RealCost(request, b) + Copies(SCALES, ScalesPaid(b)) <==>
            Darts(b) == 0 || LoadedDart(w.blowpipe) == b.dart.value.item
  {
    var b := BillFor(t, request, order, hasAvas, ammoRolls, dartRolls);
    CostIsTheBill(t, request, order, hasAvas, ammoRolls, dartRolls);
    if Darts(b) > 0 && LoadedDart(w.blowpipe) != b.dart.value.item {
      var x := LoadedDart(w.blowpipe);
      assert Copies(x, Darts(b))[x] > StackBank(b.dart)[x];
      assert Paid(w, b)[x] > (RealCost(request, b) + Copies(SCALES, ScalesPaid(b)))[x];
    }
  }

  lemma Cancel(x: Bank<ItemId>, a: Bank<ItemId>, b: Bank<ItemId>)
    ensures x + a == x + b <==> a == b
  {
    if x + a == x + b {
      forall i: ItemId ensures a[i] == b[i]
      {
        assert (x + a)[i] == (x + b)[i];
      }
    }
  }

  /** So a payment takes its recorded cost and the scales, nothing else, exactly under that condition. */
  lemma TakesTheCostIff(t: Tables, w: Wealth, ownsBlowpipe: bool, request: Bank<ItemId>, order: seq<ItemId>,
                        hasAvas: bool, ammoRolls: nat -> bool, dartRolls: nat -> bool)
    requires CanPay(t, w, ownsBlowpipe, BillFor(t, request, order, hasAvas, ammoRolls, dartRolls))
    ensures var b := BillFor(t, request, order, hasAvas, ammoRolls, dartRolls);
            var after := After(t, w, ownsBlowpipe, b);
            Owned(w) == Owned(after) + (RealCost(request, b) + Copies(SCALES, ScalesPaid(b))) <==>
            Darts(b) == 0 || LoadedDart(w.blowpipe) == b.dart.value.item
  {
    var b := BillFor(t, request, order, hasAvas, ammoRolls, dartRolls);
    PaymentConserves(t, w, ownsBlowpipe, b);
    LeavesTheCostIff(t, w, request, order, hasAvas, ammoRolls, dartRolls);
    Cancel(Owned(After(t, w, ownsBlowpipe, b)), Paid(w, b), RealCost(request, b) + Copies(SCALES, ScalesPaid(b)));
  }

  /** One dart asked for, another kind loaded: the payment goes through and takes the wrong one. */
  lemma WrongDartIsTaken(t: Tables, asked: ItemId, loaded: ItemId)
    requires asked in t.darts && loaded in t.darts && asked != loaded
    ensures var w := Wealth(multiset{}, 0, None, Blowpipe(4, Some(loaded), 1));
            var none := (i: nat) => false;
            var b := BillFor(t, multiset{asked}, [asked], false, none, none);
            && CanPay(t, w, true, b)
            && RealCost(multiset{asked}, b) == multiset{asked}
            && Owned(w) != Owned(After(t, w, true, b)) + (RealCost(multiset{asked}, b) + Copies(SCALES, ScalesPaid(b)))
  {
    var w := Wealth(multiset{}, 0, None, Blowpipe(4, Some(loaded), 1));
    var none := (i: nat) => false;
    assert FirstIn([asked], 1, t.darts) == Some(asked) && FirstIn([asked], 1, t.projectiles - t.darts) == None;
    var b := BillFor(t, multiset{asked}, [asked], false, none, none);
    assert b == Bill(multiset{}, None, Some(Stack(asked, 1)));
    TakesTheCostIff(t, w, true, multiset{asked}, [asked], false, none, none);
    CostIsTheBill(t, multiset{asked}, [asked], false, none, none);
  }

  // ---------- Two writes ----------

  /** How the database answers a write: it may also have been written when it is reported as failed. */
  datatype Reply = Confirmed | Failed(written: bool)

  predicate IsWritten(reply: Reply) {
    reply.Confirmed? || reply.written
  }

  /** The answers to the write of the bank and purse, and to the later write of the gear and blowpipe. */
  datatype Replies = Replies(bank: Reply, gear: Reply)

  /** The bank is only written when it has to pay. */
  predicate IsBankPaid(b: Bill, replies: Replies) {
    b.fromBank == multiset{} || IsWritten(replies.bank)
  }

  predicate IsBankConfirmed(b: Bill, replies: Replies) {
    b.fromBank == multiset{} || replies.bank.Confirmed?
  }

  predicate AllConfirmed(b: Bill, replies: Replies) {
    IsBankConfirmed(b, replies) && replies.gear.Confirmed?
  }

  /** The gear is only written once the bank's write is confirmed. */
  predicate IsGearPaid(b: Bill, replies: Replies) {
    IsBankConfirmed(b, replies) && IsWritten(replies.gear)
  }

  function WithBankPaid(w: Wealth, need: Bank<ItemId>): Wealth
    requires need[COINS] <= w.gp
  {
    w.(bank := BankAfter(w.bank, need), gp := w.gp - need[COINS])
  }

  /** What a payment that passed its checks leaves behind. */
  function Persisted(t: Tables, w: Wealth, ownsBlowpipe: bool, b: Bill, replies: Replies): Wealth
    requires CanPay(t, w, ownsBlowpipe, b)
  {
    if IsGearPaid(b, replies) then After(t, w, ownsBlowpipe, b)
    else if IsBankPaid(b, replies) then WithBankPaid(w, b.fromBank)
    else w
  }

  /** The worn ammo and the blowpipe are charged something. */
  predicate ChargesGear(b: Bill) {
    (b.ammo.Some? && b.ammo.value.quantity > 0) || Darts(b) > 0
  }

  lemma BankPaidDiffers(w: Wealth, need: Bank<ItemId>)
    requires BankCovers(w, need)
    ensures WithBankPaid(w, need) == w <==> need == multiset{}
  {
    if need != multiset{} {
      var x :| x in need;
      if x != COINS {
        assert BankAfter(w.bank, need)[x] == w.bank[x] - need[x];
      }
    } else {
      assert BankAfter(w.bank, need) == w.bank;
    }
  }

  lemma GearPaidDiffers(t: Tables, w: Wealth, ownsBlowpipe: bool, b: Bill)
    requires CanPay(t, w, ownsBlowpipe, b)
    ensures After(t, w, ownsBlowpipe, b) == WithBankPaid(w, b.fromBank) <==> !ChargesGear(b)
  {
  }

  /** A payment is left half done if and only if it charges both bank and gear, the bank is written, and the gear is
      not. */
  lemma HalfPaidIff(t: Tables, w: Wealth, ownsBlowpipe: bool, b: Bill, replies: Replies)
    requires CanPay(t, w, ownsBlowpipe, b)
    ensures var left := Persisted(t, w, ownsBlowpipe, b, replies);
            left != w && left != After(t, w, ownsBlowpipe, b) <==>
            b.fromBank != multiset{} && ChargesGear(b) && IsWritten(replies.bank) && !IsGearPaid(b, replies)
  {
    BankPaidDiffers(w, b.fromBank);
    GearPaidDiffers(t, w, ownsBlowpipe, b);
  }

  /** An error after the checks leaves everything as it was if and only if nothing that was written was charged. */
  lemma ErrorIsHarmlessIff(t: Tables, w: Wealth, ownsBlowpipe: bool, b: Bill, replies: Replies)
    requires CanPay(t, w, ownsBlowpipe, b) && !AllConfirmed(b, replies)
    ensures Persisted(t, w, ownsBlowpipe, b, replies) == w <==>
            (b.fromBank == multiset{} || !IsWritten(replies.bank)) && (!ChargesGear(b) || !IsGearPaid(b, replies))
  {
    BankPaidDiffers(w, b.fromBank);
    GearPaidDiffers(t, w, ownsBlowpipe, b);
    if IsGearPaid(b, replies) && b.fromBank != multiset{} {
      assert After(t, w, ownsBlowpipe, b).bank == WithBankPaid(w, b.fromBank).bank;
      assert After(t, w, ownsBlowpipe, b).gp == WithBankPaid(w, b.fromBank).gp;
    }
  }

  /** An item from the bank and a worn projectile asked for, and the second write fails: the item is gone, the
      projectile is not. */
  lemma HalfPaid(t: Tables, item: ItemId, arrow: ItemId)
    requires item != COINS && item !in t.darts && item !in t.projectiles && arrow in t.projectiles - t.darts
    ensures var w := Wealth(multiset{item}, 0, Some(Stack(arrow, 1)), Blowpipe(0, None, 0));
            var none := (i: nat) => false;
            var b := BillFor(t, multiset{item, arrow}, [item, arrow], false, none, none);
            && CanPay(t, w, false, b)
            && Persisted(t, w, false, b, Replies(Confirmed, Failed(false))) == w.(bank := multiset{})
  {
    var w := Wealth(multiset{item}, 0, Some(Stack(arrow, 1)), Blowpipe(0, None, 0));
    var none := (i: nat) => false;
    var order := [item, arrow];
    assert FirstIn(order, 2, t.darts) == None && FirstIn(order, 2, t.projectiles - t.darts) == Some(arrow);
    var b := BillFor(t, multiset{item, arrow}, order, false, none, none);
    assert b.fromBank == multiset{item};
  }

  // ---------- Overlapping payments ----------

  /** Worn ammo, loaded darts and scales, as far as a bill rewrites them. */
  function Stores(w: Wealth, b: Bill): Bank<ItemId> {
    (if b.ammo.Some? then StackBank(w.ammo) else multiset{})
    + if b.dart.Some? then
        Copies(LoadedDart(w.blowpipe), Loaded(w.blowpipe.dartQuantity)) + Copies(SCALES, Loaded(w.blowpipe.scales))
      else multiset{}
  }

  /** The second write puts down what it made of an earlier reading. */
  function GearWritten(w: Wealth, read: Wealth, b: Bill): Wealth
    requires AmmoCovers(read, b.ammo)
  {
    w.(ammo := if b.ammo.Some? then AmmoAfter(read, b.ammo) else w.ammo,
       blowpipe := if b.dart.Some? then BlowpipeAfter(read.blowpipe, b.dart) else w.blowpipe)
  }

  /** What the second write is meant to take. */
  function GearBill(read: Wealth, b: Bill): Bank<ItemId> {
    StackBank(b.ammo) + Copies(LoadedDart(read.blowpipe), Darts(b)) + Copies(SCALES, ScalesPaid(b))
  }

  /** Everything else a player owns. */
  function Others(w: Wealth, b: Bill): Bank<ItemId> {
    w.bank + Copies(COINS, w.gp) + (if b.ammo.Some? then multiset{} else StackBank(w.ammo))
    + if b.dart.Some? then multiset{}
      else Copies(LoadedDart(w.blowpipe), Loaded(w.blowpipe.dartQuantity)) + Copies(SCALES, Loaded(w.blowpipe.scales))
  }

  lemma OwnedInParts(w: Wealth, b: Bill)
    ensures Owned(w) == Others(w, b) + Stores(w, b)
  {
  }

  lemma StoresTaken(t: Tables, w: Wealth, read: Wealth, ownsBlowpipe: bool, b: Bill)
    requires AmmoCovers(read, b.ammo) && BlowpipeCovers(t, read, ownsBlowpipe, b.dart)
    ensures Others(GearWritten(w, read, b), b) == Others(w, b)
    ensures Stores(GearWritten(w, read, b), b) + GearBill(read, b) == Stores(read, b)
  {
    AmmoTaken(read, b.ammo);
    BlowpipeTaken(t, read, ownsBlowpipe, b);
  }

  /** Whatever else happened since the gear was read, the second write takes exactly its charge if and only if the
      stores it rewrites still hold what was read. */
  lemma LateWriteConservesIff(t: Tables, w: Wealth, read: Wealth, ownsBlowpipe: bool, b: Bill)
    requires AmmoCovers(read, b.ammo) && BlowpipeCovers(t, read, ownsBlowpipe, b.dart)
    ensures Owned(w) == Owned(GearWritten(w, read, b)) + GearBill(read, b) <==> Stores(w, b) == Stores(read, b)
  {
    var after := GearWritten(w, read, b);
    StoresTaken(t, w, read, ownsBlowpipe, b);
    OwnedInParts(w, b);
    OwnedInParts(after, b);
    Cancel(Others(w, b), Stores(w, b), Stores(read, b));
    assert Owned(after) + GearBill(read, b) == Others(w, b) + (Stores(after, b) + GearBill(read, b));
  }

  /** Of two payments that read the same worn ammo only the later one is charged. */
  lemma FirstChargeUndone(w: Wealth, b: Bill, c: Bill)
    requires AmmoCovers(w, b.ammo) && AmmoCovers(w, c.ammo) && b.ammo.Some? && c.ammo.Some?
    requires b.dart.None? && c.dart.None?
    ensures GearWritten(GearWritten(w, w, b), w, c) == GearWritten(w, w, c)
  {
  }

  // ---------- The user ----------

  /** How a bill ends: refused with nothing touched, or written as far as the database did, and the cost reported if it
      confirmed everything. */
  ghost predicate SettlesBill(t: Tables, before: Wealth, after: Wealth, request: Bank<ItemId>, ownsBlowpipe: bool,
                              b: Bill, replies: Replies, r: Result<Bank<ItemId>>)
  {
    && (r.Ok? <==> CanPay(t, before, ownsBlowpipe, b) && AllConfirmed(b, replies))
    && after == (if CanPay(t, before, ownsBlowpipe, b) then Persisted(t, before, ownsBlowpipe, b, replies) else before)
    && (r.Ok? ==> r.value == RealCost(request, b))
  }

  lemma Refused(t: Tables, before: Wealth, after: Wealth, request: Bank<ItemId>, ownsBlowpipe: bool, b: Bill,
                replies: Replies, e: Error)
    requires after == before
    requires !CanPay(t, before, ownsBlowpipe, b)
    ensures SettlesBill(t, before, after, request, ownsBlowpipe, b, replies, Err(e))
  {
  }

  /** The bank's write was not confirmed. */
  lemma BankFailed(t: Tables, before: Wealth, after: Wealth, request: Bank<ItemId>, ownsBlowpipe: bool, b: Bill,
                   replies: Replies, e: Error)
    requires CanPay(t, before, ownsBlowpipe, b) && !IsBankConfirmed(b, replies)
    requires after == if IsBankPaid(b, replies) then WithBankPaid(before, b.fromBank) else before
    ensures SettlesBill(t, before, after, request, ownsBlowpipe, b, replies, Err(e))
  {
  }

  lemma Settled(t: Tables, before: Wealth, after: Wealth, request: Bank<ItemId>, ownsBlowpipe: bool, b: Bill,
                replies: Replies, r: Result<Bank<ItemId>>)
    requires CanPay(t, before, ownsBlowpipe, b) && IsBankConfirmed(b, replies)
    requires after.bank == BankAfter(before.bank, b.fromBank) && after.gp == before.gp - b.fromBank[COINS]
    requires after.ammo == if IsWritten(replies.gear) then AmmoAfter(before, b.ammo) else before.ammo
    requires after.blowpipe ==
             if IsWritten(replies.gear) then BlowpipeAfter(before.blowpipe, b.dart) else before.blowpipe
    requires r.Ok? <==> replies.gear.Confirmed?
    requires r.Ok? ==> r.value == RealCost(request, b)
    ensures SettlesBill(t, before, after, request, ownsBlowpipe, b, replies, r)
  {
  }

  /** How a request ends: as its bill does, unless it names two kinds of dart. */
  ghost predicate Settles(t: Tables, before: Wealth, after: Wealth, request: Bank<ItemId>, order: seq<ItemId>,
                          ownsBlowpipe: bool, b: Bill, replies: Replies, r: Result<Bank<ItemId>>)
  {
    if OneDartAtMost(t, order) then SettlesBill(t, before, after, request, ownsBlowpipe, b, replies, r)
    else r.Err? && after == before
  }

  // ---------- What a request charges ----------

  /** What is left to pay of a quantity: with Ava's the rolls below it that missed, and else all of it. */
  ghost predicate IsUnsaved(hasAvas: bool, rolls: nat -> bool, quantity: nat, n: nat) {
    n == if hasAvas then |set i: nat | i < quantity && !rolls(i)| else quantity
  }

  lemma {:induction false} SavedAndMissed(rolls: nat -> bool, quantity: nat)
    ensures Saved(rolls, quantity) + |set i: nat | i < quantity && !rolls(i)| == quantity
  {
    var missed := set i: nat | i < quantity && !rolls(i);
    if quantity > 0 {
      var before := set i: nat | i < quantity - 1 && !rolls(i);
      SavedAndMissed(rolls, quantity - 1);
      assert missed == if rolls(quantity - 1) then before else before + {quantity - 1};
    } else {
      assert missed == {};
    }
  }

  lemma NeededIsUnsaved(hasAvas: bool, rolls: nat -> bool, quantity: nat, n: nat)
    ensures IsUnsaved(hasAvas, rolls, quantity, n) <==> n == Needed(hasAvas, rolls, quantity)
  {
    SavedAndMissed(rolls, quantity);
  }

  ghost predicate IsDart(t: Tables, x: ItemId) {
    x in t.darts
  }

  /** The first projectile listed that is no dart: it is paid out of the worn ammo. */
  ghost predicate IsAmmo(t: Tables, order: seq<ItemId>, k: nat)
    requires k < |order|
  {
    && order[k] in t.projectiles && order[k] !in t.darts
    && forall j :: 0 <= j < k ==> order[j] !in t.projectiles || order[j] in t.darts
  }

  /** The blowpipe can pay n darts, and ten scales for every three of them. */
  ghost predicate BlowpipeHolds(t: Tables, w: Wealth, ownsBlowpipe: bool, n: nat) {
    && ownsBlowpipe && w.blowpipe.dartID.Some? && w.blowpipe.dartID.value in t.darts
    && w.blowpipe.dartQuantity >= n && w.blowpipe.dartQuantity > 0
    && 3 * w.blowpipe.scales >= 10 * n && w.blowpipe.scales > 0
  }

  /** Some item of the request is paid out of the bank. */
  ghost predicate AsksOfBank(t: Tables, order: seq<ItemId>) {
    exists k :: 0 <= k < |order| && !IsDart(t, order[k]) && !IsAmmo(t, order, k)
  }

  ghost predicate BlowpipePays(before: Blowpipe, after: Blowpipe, n: nat) {
    && after.dartQuantity == before.dartQuantity - n && after.dartID == before.dartID
    && 3 * (before.scales - after.scales) >= 10 * n > 3 * (before.scales - after.scales - 1)
  }

  ghost predicate AmmoHolds(w: Wealth, x: ItemId, n: nat) {
    match w.ammo
    case None => false
    case Some(s) => s.item == x && s.quantity >= n && s.quantity > 0
  }

  ghost predicate AmmoPays(before: Wealth, after: Wealth, x: ItemId, n: nat) {
    && before.ammo.Some? && after.ammo.Some? && after.ammo.value.item == x
    && after.ammo.value.quantity + n == before.ammo.value.quantity
  }

  ghost predicate BankHolds(w: Wealth, x: ItemId, n: nat) {
    (if x == COINS then w.gp else w.bank[x]) >= n
  }

  /** One item of the request is there to be taken. */
  ghost predicate AffordsOne(t: Tables, w: Wealth, ownsBlowpipe: bool, request: Bank<ItemId>, order: seq<ItemId>,
                             hasAvas: bool, ammoRolls: nat -> bool, dartRolls: nat -> bool, k: nat)
    requires k < |order|
  {
    var q := request[order[k]];
    if IsDart(t, order[k])
    then forall n :: IsUnsaved(hasAvas, dartRolls, q, n) ==> BlowpipeHolds(t, w, ownsBlowpipe, n)
    else if IsAmmo(t, order, k)
    then forall n :: IsUnsaved(hasAvas, ammoRolls, q, n) ==> AmmoHolds(w, order[k], n)
    else BankHolds(w, order[k], q)
  }

  /** Everything the request asks for is there to be taken. */
  ghost predicate Affords(t: Tables, w: Wealth, ownsBlowpipe: bool, request: Bank<ItemId>, order: seq<ItemId>,
                          hasAvas: bool, ammoRolls: nat -> bool, dartRolls: nat -> bool)
  {
    forall k :: 0 <= k < |order| ==>
                  AffordsOne(t, w, ownsBlowpipe, request, order, hasAvas, ammoRolls, dartRolls, k)
  }

  /** One item of the request is charged where it belongs and recorded as charged. */
  ghost predicate ChargesOne(t: Tables, before: Wealth, after: Wealth, request: Bank<ItemId>, order: seq<ItemId>,
                             hasAvas: bool, ammoRolls: nat -> bool, dartRolls: nat -> bool, cost: Bank<ItemId>, k: nat)
    requires k < |order|
  {
    var x, q := order[k], request[order[k]];
    if IsDart(t, x)
    then forall n :: IsUnsaved(hasAvas, dartRolls, q, n) ==>
                       cost[x] == n && BlowpipePays(before.blowpipe, after.blowpipe, n)
    else if IsAmmo(t, order, k)
    then forall n :: IsUnsaved(hasAvas, ammoRolls, q, n) ==> cost[x] == n && AmmoPays(before, after, x, n)
    else cost[x] == q == TakenFromBank(before, after, x)
  }

  ghost predicate Charges(t: Tables, before: Wealth, after: Wealth, request: Bank<ItemId>, order: seq<ItemId>,
                          hasAvas: bool, ammoRolls: nat -> bool, dartRolls: nat -> bool, cost: Bank<ItemId>)
  {
    forall k :: 0 <= k < |order| ==>
                  ChargesOne(t, before, after, request, order, hasAvas, ammoRolls, dartRolls, cost, k)
  }

  ghost function TakenFromBank(before: Wealth, after: Wealth, x: ItemId): int {
    if x == COINS then before.gp - after.gp else (before.bank[x] as int) - after.bank[x]
  }

  /** What no item of the request is charged to stays as it was. */
  ghost predicate SparesTheRest(t: Tables, before: Wealth, after: Wealth, order: seq<ItemId>) {
    && ((forall k :: 0 <= k < |order| ==> !IsDart(t, order[k])) ==> after.blowpipe == before.blowpipe)
    && ((forall k :: 0 <= k < |order| ==> !IsAmmo(t, order, k)) ==> after.ammo == before.ammo)
    && (forall x :: TakenFromBank(before, after, x) != 0 ==>
                      exists k :: 0 <= k < |order| && order[k] == x && !IsDart(t, x) && !IsAmmo(t, order, k))
  }

  lemma {:induction false} FirstIsFirst(order: seq<ItemId>, n: nat, kind: set<ItemId>, k: nat)
    requires k < n <= |order| && forall i, j :: 0 <= i < j < |order| ==> order[i] != order[j]
    ensures FirstIn(order, n, kind) == Some(order[k]) <==>
            order[k] in kind && forall j :: 0 <= j < k ==> order[j] !in kind
  {
    if k < n - 1 {
      FirstIsFirst(order, n - 1, kind, k);
      assert order[k] != order[n - 1];
    } else {
      var first := FirstIn(order, k, kind);
      if first.Some? {
        var j :| 0 <= j < k && order[j] == first.value;
        assert order[j] != order[k];
      }
    }
  }

  /** The dart and the ammo set apart are the ones the order shows. */
  lemma SplitShows(t: Tables, request: Bank<ItemId>, order: seq<ItemId>, k: nat)
    requires Lists(request, order) && OneDartAtMost(t, order) && k < |order|
    ensures IsDart(t, order[k]) <==> SplitOf(t, request, order).dart == Some(order[k])
    ensures IsAmmo(t, order, k) <==> SplitOf(t, request, order).ammo == Some(order[k])
  {
    FirstIsFirst(order, |order|, t.darts, k);
    FirstIsFirst(order, |order|, t.projectiles - t.darts, k);
    assert OneDart(t, order, |order|);
  }

  lemma SplitBills(t: Tables, request: Bank<ItemId>, order: seq<ItemId>, x: ItemId)
    requires Lists(request, order)
    ensures var s := SplitOf(t, request, order);
            s.fromBank[x] == if s.dart == Some(x) || s.ammo == Some(x) then 0 else request[x]
  {
  }

  lemma SplitNames(t: Tables, request: Bank<ItemId>, order: seq<ItemId>)
    requires Lists(request, order) && OneDartAtMost(t, order)
    ensures var s := SplitOf(t, request, order);
            && (s.dart.Some? ==> exists k :: 0 <= k < |order| && order[k] == s.dart.value && IsDart(t, order[k]))
            && (s.ammo.Some? ==> exists k :: 0 <= k < |order| && order[k] == s.ammo.value && IsAmmo(t, order, k))
  {
    var s := SplitOf(t, request, order);
    if s.dart.Some? {
      var k :| 0 <= k < |order| && order[k] == s.dart.value;
      SplitShows(t, request, order, k);
    }
    if s.ammo.Some? {
      var k :| 0 <= k < |order| && order[k] == s.ammo.value;
      SplitShows(t, request, order, k);
    }
  }

  lemma BlowpipeHoldsIff(t: Tables, w: Wealth, ownsBlowpipe: bool, x: ItemId, n: nat)
    ensures BlowpipeCovers(t, w, ownsBlowpipe, Some(Stack(x, n))) <==> BlowpipeHolds(t, w, ownsBlowpipe, n)
  {
  }

  lemma BankCoversIff(w: Wealth, need: Bank<ItemId>)
    ensures BankCovers(w, need) <==> forall x :: x in need ==> BankHolds(w, x, need[x])
  {
    if forall x :: x in need ==> BankHolds(w, x, need[x]) {
      forall x: ItemId ensures need[COINS := 0][x] <= w.bank[x]
      {
        assert x in need && x != COINS ==> BankHolds(w, x, need[x]);
      }
      assert COINS in need ==> BankHolds(w, COINS, need[COINS]);
    }
  }

  lemma AffordsOneIff(t: Tables, w: Wealth, ownsBlowpipe: bool, request: Bank<ItemId>, order: seq<ItemId>,
                      hasAvas: bool, ammoRolls: nat -> bool, dartRolls: nat -> bool, k: nat)
    requires Lists(request, order) && OneDartAtMost(t, order) && k < |order|
    ensures var b := BillFor(t, request, order, hasAvas, ammoRolls, dartRolls);
            AffordsOne(t, w, ownsBlowpipe, request, order, hasAvas, ammoRolls, dartRolls, k) <==>
            if IsDart(t, order[k]) then b.dart.Some? && b.dart.value.item == order[k] &&
                                        BlowpipeCovers(t, w, ownsBlowpipe, b.dart)
            else if IsAmmo(t, order, k) then b.ammo.Some? && b.ammo.value.item == order[k] && AmmoCovers(w, b.ammo)
            else order[k] in b.fromBank && BankHolds(w, order[k], b.fromBank[order[k]])
  {
    var x, q := order[k], request[order[k]];
    SplitShows(t, request, order, k);
    SplitBills(t, request, order, x);
    var darts, arrows := Needed(hasAvas, dartRolls, q), Needed(hasAvas, ammoRolls, q);
    NeededIsUnsaved(hasAvas, dartRolls, q, darts);
    NeededIsUnsaved(hasAvas, ammoRolls, q, arrows);
    BlowpipeHoldsIff(t, w, ownsBlowpipe, x, darts);
  }

  lemma AffordsThenPays(t: Tables, w: Wealth, ownsBlowpipe: bool, request: Bank<ItemId>, order: seq<ItemId>,
                        hasAvas: bool, ammoRolls: nat -> bool, dartRolls: nat -> bool)
    requires Lists(request, order) && OneDartAtMost(t, order)
    requires Affords(t, w, ownsBlowpipe, request, order, hasAvas, ammoRolls, dartRolls)
    ensures CanPay(t, w, ownsBlowpipe, BillFor(t, request, order, hasAvas, ammoRolls, dartRolls))
  {
    var b := BillFor(t, request, order, hasAvas, ammoRolls, dartRolls);
    SplitNames(t, request, order);
    if b.dart.Some? {
      var k :| 0 <= k < |order| && order[k] == b.dart.value.item && IsDart(t, order[k]);
      AffordsOneIff(t, w, ownsBlowpipe, request, order, hasAvas, ammoRolls, dartRolls, k);
    }
    if b.ammo.Some? {
      var k :| 0 <= k < |order| && order[k] == b.ammo.value.item && IsAmmo(t, order, k);
      AffordsOneIff(t, w, ownsBlowpipe, request, order, hasAvas, ammoRolls, dartRolls, k);
    }
    forall x | x in b.fromBank ensures BankHolds(w, x, b.fromBank[x])
    {
      BankShareIsListed(t, request, order, x);
      var k :| 0 <= k < |order| && order[k] == x && !IsDart(t, x) && !IsAmmo(t, order, k);
      AffordsOneIff(t, w, ownsBlowpipe, request, order, hasAvas, ammoRolls, dartRolls, k);
    }
    BankCoversIff(w, b.fromBank);
  }

  lemma PaysThenAffords(t: Tables, w: Wealth, ownsBlowpipe: bool, request: Bank<ItemId>, order: seq<ItemId>,
                        hasAvas: bool, ammoRolls: nat -> bool, dartRolls: nat -> bool, k: nat)
    requires Lists(request, order) && OneDartAtMost(t, order) && k < |order|
    requires CanPay(t, w, ownsBlowpipe, BillFor(t, request, order, hasAvas, ammoRolls, dartRolls))
    ensures AffordsOne(t, w, ownsBlowpipe, request, order, hasAvas, ammoRolls, dartRolls, k)
  {
    var b := BillFor(t, request, order, hasAvas, ammoRolls, dartRolls);
    SplitShows(t, request, order, k);
    SplitBills(t, request, order, order[k]);
    BankCoversIff(w, b.fromBank);
    AffordsOneIff(t, w, ownsBlowpipe, request, order, hasAvas, ammoRolls, dartRolls, k);
  }

  /** A request is affordable exactly when every item of it is there to be taken. */
  lemma AffordsIff(t: Tables, w: Wealth, ownsBlowpipe: bool, request: Bank<ItemId>, order: seq<ItemId>,
                   hasAvas: bool, ammoRolls: nat -> bool, dartRolls: nat -> bool)
    requires Lists(request, order) && OneDartAtMost(t, order)
    ensures Affords(t, w, ownsBlowpipe, request, order, hasAvas, ammoRolls, dartRolls) <==>
            CanPay(t, w, ownsBlowpipe, BillFor(t, request, order, hasAvas, ammoRolls, dartRolls))
  {
    if Affords(t, w, ownsBlowpipe, request, order, hasAvas, ammoRolls, dartRolls) {
      AffordsThenPays(t, w, ownsBlowpipe, request, order, hasAvas, ammoRolls, dartRolls);
    } else if CanPay(t, w, ownsBlowpipe, BillFor(t, request, order, hasAvas, ammoRolls, dartRolls)) {
      forall k | 0 <= k < |order|
        ensures AffordsOne(t, w, ownsBlowpipe, request, order, hasAvas, ammoRolls, dartRolls, k)
      {
        PaysThenAffords(t, w, ownsBlowpipe, request, order, hasAvas, ammoRolls, dartRolls, k);
      }
    }
  }

  /** The bank pays for listed items that are neither the dart nor the ammo. */
  lemma BankShareIsListed(t: Tables, request: Bank<ItemId>, order: seq<ItemId>, x: ItemId)
    requires Lists(request, order) && OneDartAtMost(t, order) && x in SplitOf(t, request, order).fromBank
    ensures exists k :: 0 <= k < |order| && order[k] == x && !IsDart(t, x) && !IsAmmo(t, order, k)
  {
    SplitBills(t, request, order, x);
    assert x in order;
    var k :| 0 <= k < |order| && order[k] == x;
    SplitShows(t, request, order, k);
  }

  lemma AsksOfBankIff(t: Tables, request: Bank<ItemId>, order: seq<ItemId>)
    requires Lists(request, order) && OneDartAtMost(t, order)
    ensures AsksOfBank(t, order) <==> SplitOf(t, request, order).fromBank != multiset{}
  {
    var fromBank := SplitOf(t, request, order).fromBank;
    if AsksOfBank(t, order) {
      var k :| 0 <= k < |order| && !IsDart(t, order[k]) && !IsAmmo(t, order, k);
      SplitShows(t, request, order, k);
      SplitBills(t, request, order, order[k]);
      assert order[k] in fromBank;
    }
    if x :| x in fromBank {
      BankShareIsListed(t, request, order, x);
    }
  }

  lemma BlowpipeIsPaid(t: Tables, before: Wealth, ownsBlowpipe: bool, x: ItemId, n: nat)
    requires BlowpipeCovers(t, before, ownsBlowpipe, Some(Stack(x, n)))
    ensures BlowpipePays(before.blowpipe, BlowpipeAfter(before.blowpipe, Some(Stack(x, n))), n)
  {
  }

  lemma BankIsTaken(t: Tables, before: Wealth, ownsBlowpipe: bool, b: Bill, x: ItemId)
    requires CanPay(t, before, ownsBlowpipe, b)
    ensures TakenFromBank(before, After(t, before, ownsBlowpipe, b), x) == b.fromBank[x]
  {
  }

  lemma ChargesOneOf(t: Tables, before: Wealth, ownsBlowpipe: bool, request: Bank<ItemId>, order: seq<ItemId>,
                     hasAvas: bool, ammoRolls: nat -> bool, dartRolls: nat -> bool, k: nat)
    requires Lists(request, order) && OneDartAtMost(t, order) && k < |order|
    requires CanPay(t, before, ownsBlowpipe, BillFor(t, request, order, hasAvas, ammoRolls, dartRolls))
    ensures var b := BillFor(t, request, order, hasAvas, ammoRolls, dartRolls);
            ChargesOne(t, before, After(t, before, ownsBlowpipe, b), request, order, hasAvas, ammoRolls, dartRolls,
                       RealCost(request, b), k)
  {
    var x, q := order[k], request[order[k]];
    var b := BillFor(t, request, order, hasAvas, ammoRolls, dartRolls);
    SplitIsZeroed(t, request, order);
    SplitShows(t, request, order, k);
    SplitBills(t, request, order, x);
    BankIsTaken(t, before, ownsBlowpipe, b, x);
    var darts, arrows := Needed(hasAvas, dartRolls, q), Needed(hasAvas, ammoRolls, q);
    forall n
      ensures IsUnsaved(hasAvas, dartRolls, q, n) <==> n == darts
      ensures IsUnsaved(hasAvas, ammoRolls, q, n) <==> n == arrows
    {
      NeededIsUnsaved(hasAvas, dartRolls, q, n);
      NeededIsUnsaved(hasAvas, ammoRolls, q, n);
    }
    if IsDart(t, x) {
      BlowpipeIsPaid(t, before, ownsBlowpipe, x, darts);
    }
  }

  lemma SparesOthers(t: Tables, before: Wealth, ownsBlowpipe: bool, request: Bank<ItemId>, order: seq<ItemId>,
                     hasAvas: bool, ammoRolls: nat -> bool, dartRolls: nat -> bool)
    requires Lists(request, order) && OneDartAtMost(t, order)
    requires CanPay(t, before, ownsBlowpipe, BillFor(t, request, order, hasAvas, ammoRolls, dartRolls))
    ensures var b := BillFor(t, request, order, hasAvas, ammoRolls, dartRolls);
            SparesTheRest(t, before, After(t, before, ownsBlowpipe, b), order)
  {
    var b := BillFor(t, request, order, hasAvas, ammoRolls, dartRolls);
    var after := After(t, before, ownsBlowpipe, b);
    SplitNames(t, request, order);
    forall x | TakenFromBank(before, after, x) != 0
      ensures exists k :: 0 <= k < |order| && order[k] == x && !IsDart(t, x) && !IsAmmo(t, order, k)
    {
      BankIsTaken(t, before, ownsBlowpipe, b, x);
      BankShareIsListed(t, request, order, x);
    }
  }

  /** A payment charges each item asked for where it belongs, by what the rolls did not save, and nothing else. */
  lemma PaymentCharges(t: Tables, before: Wealth, ownsBlowpipe: bool, request: Bank<ItemId>, order: seq<ItemId>,
                       hasAvas: bool, ammoRolls: nat -> bool, dartRolls: nat -> bool)
    requires Lists(request, order) && OneDartAtMost(t, order)
    requires CanPay(t, before, ownsBlowpipe, BillFor(t, request, order, hasAvas, ammoRolls, dartRolls))
    ensures var b := BillFor(t, request, order, hasAvas, ammoRolls, dartRolls);
            var after := After(t, before, ownsBlowpipe, b);
            && Charges(t, before, after, request, order, hasAvas, ammoRolls, dartRolls, RealCost(request, b))
            && SparesTheRest(t, before, after, order)
  {
    var b := BillFor(t, request, order, hasAvas, ammoRolls, dartRolls);
    var after := After(t, before, ownsBlowpipe, b);
    forall k | 0 <= k < |order|
      ensures ChargesOne(t, before, after, request, order, hasAvas, ammoRolls, dartRolls, RealCost(request, b), k)
    {
      ChargesOneOf(t, before, ownsBlowpipe, request, order, hasAvas, ammoRolls, dartRolls, k);
    }
    SparesOthers(t, before, ownsBlowpipe, request, order, hasAvas, ammoRolls, dartRolls);
  }

  class User {
    var bank: Bank<ItemId>
    var gp: nat
    var ammo: Option<Stack>
    var blowpipe: Blowpipe

    constructor (w: Wealth)
      ensures Abs() == w
    {
      bank, gp, ammo, blowpipe := w.bank, w.gp, w.ammo, w.blowpipe;
    }

    ghost function Abs(): Wealth
      reads this
    {
      Wealth(bank, gp, ammo, blowpipe)
    }

    /** Taking items out of the bank, coins out of the purse (src/lib/util/transactItemsFromBank.ts). */
    method TransactRemove(items: Bank<ItemId>, reply: Reply) returns (error: Option<Error>)
      modifies this`bank, this`gp
      ensures var owned := items[COINS] <= old(gp) && items[COINS := 0] <= old(bank);
              && (error.None? <==> owned && reply.Confirmed?)
              && (owned && IsWritten(reply) ==> bank == BankAfter(old(bank), items) && gp == old(gp) - items[COINS])
              && (!(owned && IsWritten(reply)) ==> bank == old(bank) && gp == old(gp))
    {
      if gp < items[COINS] {
        return Some(NotEnoughCoins);
      }
      var itemsToRemove := items[COINS := 0];
      if !(itemsToRemove <= bank) {
        return Some(NotOwned);
      }
      if IsWritten(reply) {
        gp := gp - items[COINS];
        bank := bank - itemsToRemove;
      }
      return if reply.Confirmed? then None else Some(WriteFailed);
    }

    /** The bank's share, with coins counted in; an empty share is not sent at all. */
    method ChargeBank(items: Bank<ItemId>, reply: Reply) returns (error: Option<Error>)
      modifies this`bank, this`gp
      ensures var sent := items != multiset{};
              && (error.None? <==> BankCovers(old(Abs()), items) && (sent ==> reply.Confirmed?))
              && (BankCovers(old(Abs()), items) && (sent ==> IsWritten(reply)) ==>
                    bank == BankAfter(old(bank), items) && gp == old(gp) - items[COINS])
              && (!(BankCovers(old(Abs()), items) && (sent ==> IsWritten(reply))) ==>
                    bank == old(bank) && gp == old(gp))
    {
      if items == multiset{} {
        return None;
      }
      if !(items <= bank + Copies(COINS, gp)) {
        return Some(NotOwned);
      }
      error := TransactRemove(items, reply);
    }

    /** The worn ammo must be the projectile asked for and cover what the rolls did not save. */
    method ChargeAmmo(item: Option<ItemId>, request: Bank<ItemId>, hasAvas: bool, rolls: nat -> bool)
      returns (r: Result<Option<Stack>>, realCost: Bank<ItemId>)
      ensures var due := Due(item, request, hasAvas, rolls);
              && (r.Ok? <==> AmmoCovers(Abs(), due))
              && (r.Ok? ==> realCost == Charged(request, due) && r.value == AmmoAfter(Abs(), due))
    {
      realCost := request;
      if item.None? {
        return Ok(ammo), realCost;
      }
      if ammo.None? {
        return Err(NoAmmoEquipped), realCost;
      }
      if ammo.value.item != item.value {
        return Err(WrongAmmo), realCost;
      }
      var needed;
      needed, realCost := RollSaves(hasAvas, rolls, item.value, request[item.value], realCost);
      if ammo.value.quantity == 0 || ammo.value.quantity < needed {
        return Err(NotEnoughAmmo), realCost;
      }
      r := Ok(Some(Stack(item.value, ammo.value.quantity - needed)));
    }

    /** The blowpipe must hold enough darts and scales; which dart is loaded is not looked at. */
    method ChargeBlowpipe(t: Tables, item: Option<ItemId>, request: Bank<ItemId>, hasAvas: bool, rolls: nat -> bool,
                          ownsBlowpipe: bool, cost: Bank<ItemId>)
      returns (r: Result<Blowpipe>, realCost: Bank<ItemId>)
      requires item.Some? ==> cost[item.value] == request[item.value]
      ensures var due := Due(item, request, hasAvas, rolls);
              && (r.Ok? <==> BlowpipeCovers(t, Abs(), ownsBlowpipe, due))
              && (r.Ok? ==> realCost == Charged(cost, due) && r.value == BlowpipeAfter(blowpipe, due))
    {
      realCost := cost;
      if item.None? {
        return Ok(blowpipe), realCost;
      }
      var needed;
      needed, realCost := RollSaves(hasAvas, rolls, item.value, request[item.value], realCost);
      var scales := ScalesFor(needed);
      if !ValidBlowpipe(t, blowpipe) {
        return Err(BadBlowpipe), realCost;
      }
      if !ownsBlowpipe {
        return Err(NoBlowpipe), realCost;
      }
      if blowpipe.dartID.None? || blowpipe.dartQuantity == 0 {
        return Err(NoDarts), realCost;
      }
      if blowpipe.dartQuantity < needed {
        return Err(NotEnoughDarts), realCost;
      }
      if blowpipe.scales == 0 || blowpipe.scales < scales {
        return Err(NotEnoughScales), realCost;
      }
      var bpData := blowpipe.(dartQuantity := blowpipe.dartQuantity - needed, scales := blowpipe.scales - scales);
      // The validation of the new data can no longer fail.
      assert ValidBlowpipe(t, bpData);
      r := Ok(bpData);
    }

    /** The second write, of what was made of the first reading. */
    method WriteUpdates(newAmmo: Option<Stack>, newBlowpipe: Blowpipe, reply: Reply) returns (error: Option<Error>)
      modifies this`ammo, this`blowpipe
      ensures ammo == (if IsWritten(reply) then newAmmo else old(ammo))
      ensures blowpipe == (if IsWritten(reply) then newBlowpipe else old(blowpipe))
      ensures error.None? <==> reply.Confirmed?
    {
      if IsWritten(reply) {
        ammo, blowpipe := newAmmo, newBlowpipe;
      }
      return if reply.Confirmed? then None else Some(WriteFailed);
    }

    /** The second write comes after the first is confirmed. */
    method WriteBoth(t: Tables, fromBank: Bank<ItemId>, newAmmo: Option<Stack>, newBlowpipe: Blowpipe,
                     realCost: Bank<ItemId>, replies: Replies, ghost request: Bank<ItemId>, ghost ownsBlowpipe: bool,
                     ghost b: Bill)
      returns (r: Result<Bank<ItemId>>)
      requires AmmoCovers(Abs(), b.ammo) && newAmmo == AmmoAfter(Abs(), b.ammo)
      requires BlowpipeCovers(t, Abs(), ownsBlowpipe, b.dart) && newBlowpipe == BlowpipeAfter(blowpipe, b.dart)
      requires fromBank == b.fromBank && realCost == RealCost(request, b)
      modifies this
      ensures SettlesBill(t, old(Abs()), Abs(), request, ownsBlowpipe, b, replies, r)
    {
      ghost var before := Abs();
      var failed := ChargeBank(fromBank, replies.bank);
      if failed.Some? {
        if BankCovers(before, b.fromBank) {
          BankFailed(t, before, Abs(), request, ownsBlowpipe, b, replies, failed.value);
        } else {
          Refused(t, before, Abs(), request, ownsBlowpipe, b, replies, failed.value);
        }
        return Err(failed.value);
      }
      failed := WriteUpdates(newAmmo, newBlowpipe, replies.gear);
      r := if failed.Some? then Err(failed.value) else Ok(realCost);
      Settled(t, before, Abs(), request, ownsBlowpipe, b, replies, r);
    }

    /** Every check of the gear comes before the first write. */
    method PaySplit(t: Tables, s: Split, request: Bank<ItemId>, hasAvas: bool,
                    ammoRolls: nat -> bool, dartRolls: nat -> bool, ownsBlowpipe: bool, replies: Replies)
      returns (r: Result<Bank<ItemId>>)
      requires s.dart.Some? ==> s.ammo != s.dart
      modifies this
      ensures SettlesBill(t, old(Abs()), Abs(), request, ownsBlowpipe,
                          BillOf(s, request, hasAvas, ammoRolls, dartRolls), replies, r)
    {
      ghost var before, b := Abs(), BillOf(s, request, hasAvas, ammoRolls, dartRolls);
      var newAmmo, ammoCost := ChargeAmmo(s.ammo, request, hasAvas, ammoRolls);
      if newAmmo.Err? {
        Refused(t, before, Abs(), request, ownsBlowpipe, b, replies, newAmmo.error);
        return Err(newAmmo.error);
      }
      ChargedElsewhere(s.ammo, request, hasAvas, ammoRolls, s.dart);
      var newBlowpipe, realCost := ChargeBlowpipe(t, s.dart, request, hasAvas, dartRolls, ownsBlowpipe, ammoCost);
      if newBlowpipe.Err? {
        Refused(t, before, Abs(), request, ownsBlowpipe, b, replies, newBlowpipe.error);
        return Err(newBlowpipe.error);
      }
      r := WriteBoth(t, s.fromBank, newAmmo.value, newBlowpipe.value, realCost, replies, request, ownsBlowpipe, b);
    }

    method PayRequest(t: Tables, request: Bank<ItemId>, order: seq<ItemId>, hasAvas: bool,
                      ammoRolls: nat -> bool, dartRolls: nat -> bool, ownsBlowpipe: bool, replies: Replies)
      returns (r: Result<Bank<ItemId>>)
      requires Lists(request, order)
      modifies this
      ensures Settles(t, old(Abs()), Abs(), request, order, ownsBlowpipe,
                      BillFor(t, request, order, hasAvas, ammoRolls, dartRolls), replies, r)
    {
      var split := SplitRequest(t, request, order);
      if split.Err? {
        return Err(split.error);
      }
      r := PaySplit(t, split.value, request, hasAvas, ammoRolls, dartRolls, ownsBlowpipe, replies);
    }

    method SpecialRemoveItems(t: Tables, rows: seq<RuneRow>, worn: set<ItemId>, bankToRemove: Bank<ItemId>,
                              order: seq<ItemId>, hasAvas: bool, ammoRolls: nat -> bool, dartRolls: nat -> bool,
                              ownsBlowpipe: bool, replies: Replies)
      returns (r: Result<Bank<ItemId>>)
      requires Lists(bankToRemove, order)
      modifies this
      ensures var request := Unsupplied(rows, worn, bankToRemove);
              var items := Present(order, request);
              var b := BillFor(t, request, items, hasAvas, ammoRolls, dartRolls);
              && Settles(t, old(Abs()), Abs(), request, items, ownsBlowpipe, b, replies, r)
              && (r.Ok? ==>
                    r.value <= request <= bankToRemove && old(Owned(Abs())) == Owned(Abs()) + Paid(old(Abs()), b))
      ensures var request := Unsupplied(rows, worn, bankToRemove);
              var items := Present(order, request);
              && (r.Ok? <==>
                  && OneDartAtMost(t, items)
                  && Affords(t, old(Abs()), ownsBlowpipe, request, items, hasAvas, ammoRolls, dartRolls)
                  && (replies.bank.Confirmed? || !AsksOfBank(t, items)) && replies.gear.Confirmed?)
              && (r.Ok? ==>
                    && Charges(t, old(Abs()), Abs(), request, items, hasAvas, ammoRolls, dartRolls, r.value)
                    && SparesTheRest(t, old(Abs()), Abs(), items))
    {
      var request := DetermineRunes(rows, worn, bankToRemove);
      UnsuppliedLists(rows, worn, bankToRemove, order);
      var items := Present(order, request);
      ghost var before := Abs();
      r := PayRequest(t, request, items, hasAvas, ammoRolls, dartRolls, ownsBlowpipe, replies);
      if OneDartAtMost(t, items) {
        AffordsIff(t, before, ownsBlowpipe, request, items, hasAvas, ammoRolls, dartRolls);
        AsksOfBankIff(t, request, items);
      }
      if r.Ok? {
        PaymentCharges(t, before, ownsBlowpipe, request, items, hasAvas, ammoRolls, dartRolls);
        ghost var b := BillFor(t, request, items, hasAvas, ammoRolls, dartRolls);
        PaymentConserves(t, before, ownsBlowpipe, b);
        CostIsTheBill(t, request, items, hasAvas, ammoRolls, dartRolls);
      }
    }
  }
}
