/** Which worn items a wilderness death takes (src/lib/util/calculateGearLostOnDeathWilderness.ts). */
module WildernessDeath {
  import opened Banks

  type Slot = string
  type ItemId = int

  /** What the item tables say: prices, the parts some items are valued by, and the locked items. */
  datatype Item = Item(price: nat, cost: nat, highalch: Option<nat>)

  datatype Tables = Tables(items: ItemId -> Item, gearSwap: map<ItemId, seq<ItemId>>, locked: set<ItemId>)

  /** A swap's parts are ordinary items, and locked items are not swapped. */
  ghost predicate Sensible(t: Tables) {
    forall id :: id in t.gearSwap ==> id !in t.locked && forall k :: k in t.gearSwap[id] ==> k !in t.locked
  }

  datatype Removable = Removable(slot: Slot, sorter: int, item: ItemId)

  function Larger(a: nat, b: nat): nat {
    if a < b then b else a
  }

  function Worth(t: Tables, id: ItemId): int {
    if id in t.locked then -1
    else
      var i := t.items(id);
      Larger(Larger(i.price, i.cost), if i.highalch.Some? then i.highalch.value else 0)
  }

  function TotalWorth(t: Tables, ids: seq<ItemId>): int {
    if ids == [] then 0 else TotalWorth(t, ids[..|ids| - 1]) + Worth(t, ids[|ids| - 1])
  }

  /** The protection value of a worn item. */
  function Value(t: Tables, id: ItemId): int {
    TotalWorth(t, if id in t.gearSwap then t.gearSwap[id] else [id])
  }

  lemma {:induction false} PartsWorth(t: Tables, ids: seq<ItemId>)
    requires forall k :: k in ids ==> k !in t.locked
    ensures TotalWorth(t, ids) >= 0
  {
    if ids != [] {
      PartsWorth(t, ids[..|ids| - 1]);
      assert ids[|ids| - 1] in ids;
    }
  }

  /** Locked items are valued below every other item. */
  lemma LockedIsLeast(t: Tables, id: ItemId)
    requires Sensible(t)
    ensures if id in t.locked then Value(t, id) == -1 else Value(t, id) >= 0
  {
    if id in t.gearSwap {
      PartsWorth(t, t.gearSwap[id]);
    } else {
      assert [id][..0] == [];
      assert TotalWorth(t, []) == 0;
    }
  }

  /** What an item is worth: -1 when locked, and else the largest of its price, its cost and its high alch. */
  ghost predicate IsWorth(t: Tables, id: ItemId, v: int) {
    if id in t.locked then v == -1
    else
      var i := t.items(id);
      && v >= i.price && v >= i.cost && (i.highalch.Some? ==> v >= i.highalch.value)
      && (v == i.price || v == i.cost || Some(v) == i.highalch)
  }

  lemma WorthIs(t: Tables, id: ItemId, v: int)
    ensures IsWorth(t, id, v) <==> v == Worth(t, id)
  {
  }

  ghost function Sum(vs: seq<int>): int {
    if vs == [] then 0 else vs[0] + Sum(vs[1..])
  }

  /** The parts are worth this much one by one. */
  ghost predicate AreWorth(t: Tables, ids: seq<ItemId>, vs: seq<int>) {
    |vs| == |ids| && forall k :: 0 <= k < |ids| ==> IsWorth(t, ids[k], vs[k])
  }

  /** A swapped item is valued by its parts, any other by itself. */
  ghost predicate IsValue(t: Tables, id: ItemId, v: int) {
    if id in t.gearSwap then exists vs :: AreWorth(t, t.gearSwap[id], vs) && v == Sum(vs) else IsWorth(t, id, v)
  }

  lemma {:induction false} SumOfMore(a: seq<int>, v: int)
    ensures Sum(a + [v]) == Sum(a) + v
  {
    if a == [] {
      assert a + [v] == [v];
    } else {
      SumOfMore(a[1..], v);
      assert (a + [v])[1..] == a[1..] + [v];
    }
  }

  lemma {:induction false} TotalIsSum(t: Tables, ids: seq<ItemId>, vs: seq<int>)
    requires AreWorth(t, ids, vs)
    ensures TotalWorth(t, ids) == Sum(vs)
  {
    if ids != [] {
      var n := |ids| - 1;
      TotalIsSum(t, ids[..n], vs[..n]);
      WorthIs(t, ids[n], vs[n]);
      SumOfMore(vs[..n], vs[n]);
      assert vs == vs[..n] + [vs[n]];
    }
  }

  lemma ValueIs(t: Tables, id: ItemId, v: int)
    ensures IsValue(t, id, v) <==> v == Value(t, id)
  {
    WorthIs(t, id, v);
    if id in t.gearSwap {
      var parts := t.gearSwap[id];
      var vs := seq(|parts|, k requires 0 <= k < |parts| => Worth(t, parts[k]));
      forall k | 0 <= k < |parts| ensures IsWorth(t, parts[k], vs[k])
      {
        WorthIs(t, parts[k], vs[k]);
      }
      assert AreWorth(t, parts, vs);
      forall ws | AreWorth(t, parts, ws) ensures Sum(ws) == TotalWorth(t, parts)
      {
        TotalIsSum(t, parts, ws);
      }
    } else {
      assert TotalWorth(t, [id]) == TotalWorth(t, [id][..0]) + Worth(t, id);
    }
  }

  // ---------- Sorting ----------

  ghost predicate SortedDown(s: seq<Removable>) {
    forall i, j :: 0 <= i < j < |s| ==> s[i].sorter >= s[j].sorter
  }

  /** Where an item goes: after all those worth as much, so the sort is stable. */
  function Place(s: seq<Removable>, x: Removable): (p: nat)
    ensures p <= |s|
    ensures forall i :: p <= i < |s| ==> s[i].sorter < x.sorter
    ensures p > 0 ==> s[p - 1].sorter >= x.sorter
  {
    if s == [] || s[|s| - 1].sorter >= x.sorter then |s| else Place(s[..|s| - 1], x)
  }

  function InsertAt(s: seq<Removable>, p: nat, x: Removable): (r: seq<Removable>)
    requires p <= |s|
    ensures |r| == |s| + 1
    ensures forall i :: 0 <= i < |r| ==> r[i] == if i < p then s[i] else if i == p then x else s[i - 1]
  {
    s[..p] + [x] + s[p..]
  }

  /** Sorting by value, highest first. */
  function Sort(s: seq<Removable>): (r: seq<Removable>)
    ensures |r| == |s|
  {
    if s == [] then []
    else
      var r, x := Sort(s[..|s| - 1]), s[|s| - 1];
      InsertAt(r, Place(r, x), x)
  }

  lemma InsertSorted(s: seq<Removable>, x: Removable)
    requires SortedDown(s)
    ensures SortedDown(InsertAt(s, Place(s, x), x))
  {
    var p, r := Place(s, x), InsertAt(s, Place(s, x), x);
    forall i, j | 0 <= i < j < |r|
      ensures r[i].sorter >= r[j].sorter
    {
      if i < p && j == p {
        assert s[i].sorter >= s[p - 1].sorter;
      }
    }
  }

  lemma InsertPermutes(s: seq<Removable>, p: nat, x: Removable)
    requires p <= |s|
    ensures multiset(InsertAt(s, p, x)) == multiset(s) + multiset{x}
  {
    assert s == s[..p] + s[p..];
    assert multiset(s) == multiset(s[..p]) + multiset(s[p..]);
  }

  lemma LastApart(s: seq<Removable>)
    requires s != []
    ensures multiset(s) == multiset(s[..|s| - 1]) + multiset{s[|s| - 1]}
  {
    assert s == s[..|s| - 1] + [s[|s| - 1]];
  }

  lemma {:induction false} SortSorts(s: seq<Removable>)
    ensures SortedDown(Sort(s)) && multiset(Sort(s)) == multiset(s)
  {
    if s != [] {
      var n := |s| - 1;
      var r, x := Sort(s[..n]), s[n];
      SortSorts(s[..n]);
      InsertSorted(r, x);
      InsertPermutes(r, Place(r, x), x);
      LastApart(s);
    }
  }

  // ---------- Dying ----------

  datatype GearItem = GearItem(item: ItemId, quantity: nat)

  type Gear = map<Slot, GearItem>

  /** The gear's filled slots, each once, in the order the object lists them. */
  ghost predicate Lists(gear: Gear, order: seq<Slot>) {
    && (forall i :: 0 <= i < |order| ==> order[i] in gear)
    && (forall s :: s in gear ==> s in order)
    && (forall i, j :: 0 <= i < j < |order| ==> order[i] != order[j])
  }

  function Removables(t: Tables, gear: Gear, order: seq<Slot>): (r: seq<Removable>)
    requires forall i :: 0 <= i < |order| ==> order[i] in gear
    ensures |r| == |order|
    ensures forall i :: 0 <= i < |r| ==> r[i] == Removable(order[i], Value(t, gear[order[i]].item), gear[order[i]].item)
  {
    seq(|order|, i requires 0 <= i < |order| =>
      Removable(order[i], Value(t, gear[order[i]].item), gear[order[i]].item))
  }

  /** The slots emptied among the first n of the ranking: those past the saved ones whose item is not locked. */
  function LostSlots(t: Tables, sorted: seq<Removable>, saves: nat, n: nat): set<Slot>
    requires n <= |sorted|
  {
    set i | saves <= i < n && sorted[i].item !in t.locked :: sorted[i].slot
  }

  function LostItems(t: Tables, sorted: seq<Removable>, saves: nat, n: nat): Bank<ItemId>
    requires n <= |sorted|
  {
    if n <= saves then multiset{}
    else if sorted[n - 1].item in t.locked then LostItems(t, sorted, saves, n - 1)
    else Add(LostItems(t, sorted, saves, n - 1), sorted[n - 1].item, 1)
  }

  /** Steps 1 and 2: every worn item with its protection value. */
  method CollectRemovable(t: Tables, gear: Gear, order: seq<Slot>) returns (removableItems: seq<Removable>)
    requires Lists(gear, order)
    ensures removableItems == Removables(t, gear, order)
  {
    removableItems := [];
    for i := 0 to |order|
      invariant removableItems == Removables(t, gear, order)[..i]
    {
      var item := gear[order[i]].item;
      var replacedGear := [item];
      if item in t.gearSwap {
        replacedGear := t.gearSwap[item];
      }
      removableItems := removableItems + [Removable(order[i], TotalWorth(t, replacedGear), item)];
    }
  }

  /** Where step 5 stands after the first i items of the ranking. */
  ghost predicate LostUpTo(t: Tables, gear: Gear, sorted: seq<Removable>, saves: nat, i: nat,
                           lostItems: Bank<ItemId>, userGear: Gear)
    requires i <= |sorted|
  {
    && userGear == gear - LostSlots(t, sorted, saves, i)
    && lostItems == LostItems(t, sorted, saves, i)
  }

  lemma LostOneMore(t: Tables, sorted: seq<Removable>, i: nat, saves: nat)
    requires saves <= i < |sorted|
    ensures LostSlots(t, sorted, saves, i + 1) ==
            LostSlots(t, sorted, saves, i) + if sorted[i].item in t.locked then {} else {sorted[i].slot}
  {
  }

  lemma LoseOne(t: Tables, gear: Gear, sorted: seq<Removable>, saves: nat, i: nat,
                lostItems: Bank<ItemId>, userGear: Gear)
    requires saves <= i < |sorted|
    requires LostUpTo(t, gear, sorted, saves, i, lostItems, userGear)
    ensures if sorted[i].item in t.locked
            then LostUpTo(t, gear, sorted, saves, i + 1, lostItems, userGear)
            else LostUpTo(t, gear, sorted, saves, i + 1, Add(lostItems, sorted[i].item, 1), userGear - {sorted[i].slot})
  {
    LostOneMore(t, sorted, i, saves);
    var before := LostSlots(t, sorted, saves, i);
    assert before + {} == before;
    assert gear - before - {sorted[i].slot} == gear - (before + {sorted[i].slot});
  }

  /** Step 5: emptying the slots past the saved ones, locked items excepted. */
  method LoseUnsaved(t: Tables, gear: Gear, sortedGear: seq<Removable>, itemsToSave: nat)
    returns (lostItems: Bank<ItemId>, userGear: Gear)
    ensures LostUpTo(t, gear, sortedGear, itemsToSave, |sortedGear|, lostItems, userGear)
  {
    lostItems, userGear := multiset{}, gear;
    var first := if itemsToSave <= |sortedGear| then itemsToSave else |sortedGear|;
    assert LostSlots(t, sortedGear, itemsToSave, first) == {};
    assert gear - {} == gear;
    for i := first to |sortedGear|
      invariant LostUpTo(t, gear, sortedGear, itemsToSave, i, lostItems, userGear)
    {
      var r := sortedGear[i];
      LoseOne(t, gear, sortedGear, itemsToSave, i, lostItems, userGear);
      if r.item !in t.locked {
        userGear := userGear - {r.slot};
        lostItems := Add(lostItems, r.item, 1);
      }
    }
  }

  // ---------- What a death keeps ----------

  ghost predicate SlotsDistinct(sorted: seq<Removable>) {
    forall i, j :: 0 <= i < j < |sorted| ==> sorted[i].slot != sorted[j].slot
  }

  /** What the sorted list is: every slot once, values descending, locked items valued -1. */
  ghost predicate Ranked(t: Tables, gear: Gear, sorted: seq<Removable>) {
    && SortedDown(sorted)
    && SlotsDistinct(sorted)
    && (forall i :: 0 <= i < |sorted| ==>
                      && sorted[i].slot in gear
                      && sorted[i].item == gear[sorted[i].slot].item
                      && sorted[i].sorter == Value(t, sorted[i].item))
    && (forall s :: s in gear ==> exists i :: 0 <= i < |sorted| && sorted[i].slot == s)
  }

  lemma {:induction false} DistinctOnce(r: seq<Removable>)
    requires SlotsDistinct(r)
    ensures forall x :: multiset(r)[x] <= 1
  {
    if r != [] {
      var n := |r| - 1;
      DistinctOnce(r[..n]);
      assert r == r[..n] + [r[n]];
      assert r[n] !in r[..n];
    }
  }

  lemma SortedSlotsDistinct(r: seq<Removable>, s: seq<Removable>)
    requires multiset(s) == multiset(r)
    requires SlotsDistinct(r)
    ensures SlotsDistinct(s)
  {
    DistinctOnce(r);
    forall i, j | 0 <= i < j < |s| ensures s[i].slot != s[j].slot
    {
      assert multiset(s[..j])[s[i]] >= 1 && s[i] in s[..j];
      assert s[..j + 1] == s[..j] + [s[j]];
      assert s == s[..j + 1] + s[j + 1..];
      assert s[i] != s[j];
      assert s[i] in multiset(r) && s[j] in multiset(r);
      var a :| 0 <= a < |r| && r[a] == s[i];
      var b :| 0 <= b < |r| && r[b] == s[j];
    }
  }

  /** A permutation of the worn items lists each of them. */
  lemma PermutationCovers(t: Tables, gear: Gear, order: seq<Slot>, s: seq<Removable>)
    requires Lists(gear, order) && multiset(s) == multiset(Removables(t, gear, order))
    ensures forall i :: 0 <= i < |s| ==>
                          && s[i].slot in gear
                          && s[i].item == gear[s[i].slot].item
                          && s[i].sorter == Value(t, s[i].item)
    ensures forall slot :: slot in gear ==> exists i :: 0 <= i < |s| && s[i].slot == slot
  {
    var r := Removables(t, gear, order);
    forall i | 0 <= i < |s|
      ensures s[i].slot in gear && s[i].item == gear[s[i].slot].item && s[i].sorter == Value(t, s[i].item)
    {
      assert s[i] in multiset(r);
      var k :| 0 <= k < |r| && r[k] == s[i];
    }
    forall slot | slot in gear
      ensures exists i :: 0 <= i < |s| && s[i].slot == slot
    {
      var k :| 0 <= k < |order| && order[k] == slot;
      assert r[k] in multiset(s);
      var i :| 0 <= i < |s| && s[i] == r[k];
    }
  }

  lemma SortIsRanked(t: Tables, gear: Gear, order: seq<Slot>)
    requires Lists(gear, order)
    ensures Ranked(t, gear, Sort(Removables(t, gear, order)))
  {
    var r := Removables(t, gear, order);
    SortSorts(r);
    SortedSlotsDistinct(r, Sort(r));
    PermutationCovers(t, gear, order, Sort(r));
  }

  function Unlocked(t: Tables, gear: Gear): set<Slot> {
    set s | s in gear && gear[s].item !in t.locked
  }

  /** The slots of a stretch of the ranking. */
  function Stretch(sorted: seq<Removable>, lo: nat, hi: nat): set<Slot>
    requires lo <= hi <= |sorted|
  {
    set i | lo <= i < hi :: sorted[i].slot
  }

  lemma {:induction false} StretchSize(sorted: seq<Removable>, lo: nat, hi: nat)
    requires lo <= hi <= |sorted|
    requires SlotsDistinct(sorted)
    ensures |Stretch(sorted, lo, hi)| == hi - lo
    decreases hi
  {
    if lo < hi {
      StretchSize(sorted, lo, hi - 1);
      assert Stretch(sorted, lo, hi) == Stretch(sorted, lo, hi - 1) + {sorted[hi - 1].slot};
    }
  }

  /** The locked items are the tail of the ranking. */
  lemma LockedAreLast(t: Tables, gear: Gear, sorted: seq<Removable>)
    requires Sensible(t) && Ranked(t, gear, sorted)
    ensures var k := |Unlocked(t, gear)|;
            && k <= |sorted|
            && Stretch(sorted, 0, k) == Unlocked(t, gear)
            && (forall i :: 0 <= i < |sorted| ==> (sorted[i].item !in t.locked <==> i < k))
  {
    var k := 0;
    while k < |sorted| && sorted[k].item !in t.locked
      invariant k <= |sorted| && forall i :: 0 <= i < k ==> sorted[i].item !in t.locked
    {
      k := k + 1;
    }
    forall i | k <= i < |sorted| ensures sorted[i].item in t.locked
    {
      LockedIsLeast(t, sorted[k].item);
      LockedIsLeast(t, sorted[i].item);
      assert i > k ==> sorted[k].sorter >= sorted[i].sorter;
    }
    forall s | s in Unlocked(t, gear) ensures s in Stretch(sorted, 0, k)
    {
      var i :| 0 <= i < |sorted| && sorted[i].slot == s;
    }
    assert Stretch(sorted, 0, k) == Unlocked(t, gear);
    StretchSize(sorted, 0, k);
  }

  function Smaller(a: nat, b: nat): nat {
    if a < b then a else b
  }

  /** The lost slots are the unlocked ones past the saved stretch. */
  lemma LostIsStretch(t: Tables, gear: Gear, sorted: seq<Removable>, saves: nat)
    requires Sensible(t) && Ranked(t, gear, sorted)
    ensures var k := |Unlocked(t, gear)|;
            && k <= |sorted|
            && LostSlots(t, sorted, saves, |sorted|) == Stretch(sorted, Smaller(saves, k), k)
            && LostSlots(t, sorted, saves, |sorted|) <= Unlocked(t, gear)
            && Unlocked(t, gear) - LostSlots(t, sorted, saves, |sorted|) == Stretch(sorted, 0, Smaller(saves, k))
            && |Stretch(sorted, 0, Smaller(saves, k))| == Smaller(saves, k)
            && |LostSlots(t, sorted, saves, |sorted|)| == k - Smaller(saves, k)
  {
    LockedAreLast(t, gear, sorted);
    var k := |Unlocked(t, gear)|;
    var m := Smaller(saves, k);
    assert LostSlots(t, sorted, saves, |sorted|) == Stretch(sorted, m, k);
    assert Stretch(sorted, 0, k) - Stretch(sorted, m, k) == Stretch(sorted, 0, m);
    StretchSize(sorted, 0, m);
    StretchSize(sorted, m, k);
  }

  // ---------- Optimality ----------

  /** The protection value of a set of worn slots. */
  ghost function SetValue(t: Tables, gear: Gear, slots: set<Slot>): int
    requires slots <= gear.Keys
  {
    if slots == {} then 0
    else
      var s :| s in slots;
      Value(t, gear[s].item) + SetValue(t, gear, slots - {s})
  }

  lemma {:induction false} SetValueTake(t: Tables, gear: Gear, slots: set<Slot>, s: Slot)
    requires slots <= gear.Keys && s in slots
    ensures SetValue(t, gear, slots) == Value(t, gear[s].item) + SetValue(t, gear, slots - {s})
    decreases slots
  {
    var first :| first in slots &&
                 SetValue(t, gear, slots) == Value(t, gear[first].item) + SetValue(t, gear, slots - {first});
    if first != s {
      SetValueTake(t, gear, slots - {first}, s);
      SetValueTake(t, gear, slots - {s}, first);
      assert slots - {first} - {s} == slots - {s} - {first};
    }
  }

  lemma {:induction false} SetValueSplit(t: Tables, gear: Gear, a: set<Slot>, b: set<Slot>)
    requires a <= gear.Keys && b <= gear.Keys && a !! b
    ensures SetValue(t, gear, a + b) == SetValue(t, gear, a) + SetValue(t, gear, b)
    decreases a
  {
    if a == {} {
      assert a + b == b;
    } else {
      var s :| s in a;
      SetValueSplit(t, gear, a - {s}, b);
      SetValueTake(t, gear, a, s);
      SetValueTake(t, gear, a + b, s);
      assert a + b - {s} == (a - {s}) + b;
    }
  }

  /** Below v against at least v, and no more of them. */
  lemma {:induction false} Dominated(t: Tables, gear: Gear, low: set<Slot>, high: set<Slot>, v: nat)
    requires low <= gear.Keys && high <= gear.Keys && |low| <= |high|
    requires forall s :: s in low ==> Value(t, gear[s].item) <= v
    requires forall s :: s in high ==> Value(t, gear[s].item) >= v
    ensures SetValue(t, gear, low) <= SetValue(t, gear, high)
    decreases high
  {
    if high != {} {
      var h :| h in high;
      SetValueTake(t, gear, high, h);
      if low == {} {
        Dominated(t, gear, low, high - {h}, v);
      } else {
        var l :| l in low;
        SetValueTake(t, gear, low, l);
        Dominated(t, gear, low - {l}, high - {h}, v);
      }
    }
  }

  /** A set whose members are all worth at least v, against one no larger whose other members are worth at most v. */
  lemma Exchange(t: Tables, gear: Gear, kept: set<Slot>, other: set<Slot>, v: nat)
    requires kept <= gear.Keys && other <= gear.Keys && |other| <= |kept|
    requires forall s :: s in kept ==> Value(t, gear[s].item) >= v
    requires forall s :: s in other - kept ==> Value(t, gear[s].item) <= v
    ensures SetValue(t, gear, other) <= SetValue(t, gear, kept)
  {
    var both := other * kept;
    SetValueSplit(t, gear, both, other - kept);
    SetValueSplit(t, gear, both, kept - other);
    assert both + (other - kept) == other && both + (kept - other) == kept;
    assert |other| == |both| + |other - kept| && |kept| == |both| + |kept - other|;
    Dominated(t, gear, other - kept, kept - other, v);
  }

  /** Nothing of the kept size among the unlocked slots is worth more than what is kept. */
  ghost predicate KeepsTheBest(t: Tables, gear: Gear, kept: set<Slot>)
    requires kept <= gear.Keys
  {
    forall other: set<Slot> ::
      other <= Unlocked(t, gear) && |other| <= |kept| ==> SetValue(t, gear, other) <= SetValue(t, gear, kept)
  }

  /** The last of a prefix of the ranking parts what is in the prefix from what is not. */
  lemma PrefixParts(t: Tables, gear: Gear, sorted: seq<Removable>, m: nat)
    requires Ranked(t, gear, sorted) && 0 < m <= |sorted|
    ensures Stretch(sorted, 0, m) <= gear.Keys
    ensures forall s :: s in Stretch(sorted, 0, m) ==> Value(t, gear[s].item) >= sorted[m - 1].sorter
    ensures forall s :: s in gear.Keys - Stretch(sorted, 0, m) ==> Value(t, gear[s].item) <= sorted[m - 1].sorter
  {
    forall s | s in gear.Keys - Stretch(sorted, 0, m)
      ensures Value(t, gear[s].item) <= sorted[m - 1].sorter
    {
      var i :| 0 <= i < |sorted| && sorted[i].slot == s;
      assert m <= i;
    }
  }

  lemma PrefixIsBest(t: Tables, gear: Gear, sorted: seq<Removable>, m: nat)
    requires Ranked(t, gear, sorted) && m <= |sorted|
    requires m > 0 ==> sorted[m - 1].sorter >= 0
    ensures Stretch(sorted, 0, m) <= gear.Keys && KeepsTheBest(t, gear, Stretch(sorted, 0, m))
  {
    var kept := Stretch(sorted, 0, m);
    if m > 0 {
      PrefixParts(t, gear, sorted, m);
    }
    forall other: set<Slot> | other <= Unlocked(t, gear) && |other| <= |kept|
      ensures SetValue(t, gear, other) <= SetValue(t, gear, kept)
    {
      if m == 0 {
        assert other == {} == kept;
      } else {
        Exchange(t, gear, kept, other, sorted[m - 1].sorter);
      }
    }
  }

  // ---------- The lost bank ----------

  /** The lost slots an item was worn in. */
  function Holding(gear: Gear, lost: set<Slot>, id: ItemId): set<Slot>
    requires lost <= gear.Keys
  {
    set s | s in lost && gear[s].item == id
  }

  /** The bank records one of each lost slot's item. */
  ghost predicate RecordsEach(gear: Gear, lost: set<Slot>, lostItems: Bank<ItemId>) {
    lost <= gear.Keys && forall id: ItemId :: lostItems[id] == |Holding(gear, lost, id)|
  }

  lemma RecordOne(gear: Gear, lost: set<Slot>, lostItems: Bank<ItemId>, slot: Slot)
    requires RecordsEach(gear, lost, lostItems) && slot in gear && slot !in lost
    ensures RecordsEach(gear, lost + {slot}, Add(lostItems, gear[slot].item, 1))
  {
    forall id: ItemId
      ensures Add(lostItems, gear[slot].item, 1)[id] == |Holding(gear, lost + {slot}, id)|
    {
      var before, now := Holding(gear, lost, id), Holding(gear, lost + {slot}, id);
      if gear[slot].item == id {
        assert now == before + {slot};
      } else {
        assert now == before;
      }
    }
  }

  lemma RecordNone(gear: Gear, lost: set<Slot>)
    requires lost == {}
    ensures RecordsEach(gear, lost, multiset{})
  {
    assert forall id: ItemId :: Holding(gear, lost, id) == {};
  }

  lemma {:induction false} LostItemsRecordEach(t: Tables, gear: Gear, sorted: seq<Removable>, saves: nat, n: nat)
    requires SlotsDistinct(sorted) && n <= |sorted|
    requires forall k :: 0 <= k < |sorted| ==> sorted[k].slot in gear && sorted[k].item == gear[sorted[k].slot].item
    ensures RecordsEach(gear, LostSlots(t, sorted, saves, n), LostItems(t, sorted, saves, n))
  {
    if n <= saves {
      RecordNone(gear, LostSlots(t, sorted, saves, n));
    } else {
      var i := n - 1;
      LostItemsRecordEach(t, gear, sorted, saves, i);
      LostOneMore(t, sorted, i, saves);
      if sorted[i].item !in t.locked {
        RecordOne(gear, LostSlots(t, sorted, saves, i), LostItems(t, sorted, saves, i), sorted[i].slot);
      } else {
        assert LostSlots(t, sorted, saves, i) + {} == LostSlots(t, sorted, saves, i);
      }
    }
  }

  // ---------- The whole death ----------

  /** What a death with so many saves must do: the parts below leave no freedom but between items of equal value. */
  ghost predicate FairDeath(t: Tables, gear: Gear, saves: nat, lostItems: Bank<ItemId>, newGear: Gear) {
    var lost := gear.Keys - newGear.Keys;
    && newGear == gear - lost
    && lost <= Unlocked(t, gear)
    && |lost| == |Unlocked(t, gear)| - Smaller(saves, |Unlocked(t, gear)|)
    && KeepsTheBest(t, gear, Unlocked(t, gear) - lost)
    && RecordsEach(gear, lost, lostItems)
  }

  lemma RankedKeepsTheBest(t: Tables, gear: Gear, sorted: seq<Removable>, m: nat)
    requires Sensible(t) && Ranked(t, gear, sorted) && m <= |Unlocked(t, gear)|
    ensures m <= |sorted| && Stretch(sorted, 0, m) <= gear.Keys && KeepsTheBest(t, gear, Stretch(sorted, 0, m))
  {
    LockedAreLast(t, gear, sorted);
    if m > 0 {
      LockedIsLeast(t, sorted[m - 1].item);
    }
    PrefixIsBest(t, gear, sorted, m);
  }

  lemma FairFromParts(t: Tables, gear: Gear, saves: nat, lost: set<Slot>, lostItems: Bank<ItemId>, newGear: Gear)
    requires newGear == gear - lost && lost <= Unlocked(t, gear)
    requires |lost| == |Unlocked(t, gear)| - Smaller(saves, |Unlocked(t, gear)|)
    requires KeepsTheBest(t, gear, Unlocked(t, gear) - lost) && RecordsEach(gear, lost, lostItems)
    ensures FairDeath(t, gear, saves, lostItems, newGear)
  {
    assert gear.Keys - newGear.Keys == lost;
  }

  lemma RankedDeathIsFair(t: Tables, gear: Gear, sorted: seq<Removable>, saves: nat,
                          lostItems: Bank<ItemId>, newGear: Gear)
    requires Sensible(t) && Ranked(t, gear, sorted)
    requires LostUpTo(t, gear, sorted, saves, |sorted|, lostItems, newGear)
    ensures FairDeath(t, gear, saves, lostItems, newGear)
  {
    LostIsStretch(t, gear, sorted, saves);
    LostItemsRecordEach(t, gear, sorted, saves, |sorted|);
    RankedKeepsTheBest(t, gear, sorted, Smaller(saves, |Unlocked(t, gear)|));
    FairFromParts(t, gear, saves, LostSlots(t, sorted, saves, |sorted|), lostItems, newGear);
  }

  /** The outcome the ranking prescribes. */
  ghost predicate RankedDeath(t: Tables, gear: Gear, order: seq<Slot>, saves: nat, lostItems: Bank<ItemId>,
                              newGear: Gear)
    requires Lists(gear, order)
  {
    var sorted := Sort(Removables(t, gear, order));
    LostUpTo(t, gear, sorted, saves, |sorted|, lostItems, newGear)
  }

  lemma DeathIsFair(t: Tables, gear: Gear, order: seq<Slot>, saves: nat, lostItems: Bank<ItemId>, newGear: Gear)
    requires Sensible(t) && Lists(gear, order)
    requires RankedDeath(t, gear, order, saves, lostItems, newGear)
    ensures FairDeath(t, gear, saves, lostItems, newGear)
  {
    SortIsRanked(t, gear, order);
    RankedDeathIsFair(t, gear, Sort(Removables(t, gear, order)), saves, lostItems, newGear);
  }

  /** Three saves, none when skulled, and one more for a protect item that was not smited. */
  ghost predicate IsSaves(skulled: bool, smited: bool, protectItem: bool, saves: nat) {
    && (!skulled && (!protectItem || smited) ==> saves == 3)
    && (!skulled && protectItem && !smited ==> saves == 4)
    && (skulled && (!protectItem || smited) ==> saves == 0)
    && (skulled && protectItem && !smited ==> saves == 1)
  }

  ghost predicate IsNotDearer(t: Tables, a: ItemId, b: ItemId) {
    forall v, w :: IsValue(t, a, v) && IsValue(t, b, w) ==> v <= w
  }

  /** Nothing lost is worth more than an unlocked item kept. */
  ghost predicate LosesTheCheapest(t: Tables, gear: Gear, newGear: Gear) {
    forall l, k :: l in gear.Keys - newGear.Keys && k in gear.Keys * newGear.Keys && gear[k].item !in t.locked ==>
                     IsNotDearer(t, gear[l].item, gear[k].item)
  }

  /** A set worth the most of its size holds nothing cheaper than what it leaves out. */
  lemma BestIsDearest(t: Tables, gear: Gear, kept: set<Slot>, l: Slot, k: Slot)
    requires kept <= Unlocked(t, gear) && KeepsTheBest(t, gear, kept)
    requires l in Unlocked(t, gear) && l !in kept && k in kept
    ensures Value(t, gear[l].item) <= Value(t, gear[k].item)
  {
    var rest := kept - {k};
    var other := rest + {l};
    SetValueTake(t, gear, kept, k);
    SetValueTake(t, gear, other, l);
    assert other - {l} == rest && |other| == |kept|;
  }

  lemma FairLosesTheCheapest(t: Tables, gear: Gear, saves: nat, lostItems: Bank<ItemId>, newGear: Gear)
    requires FairDeath(t, gear, saves, lostItems, newGear)
    ensures LosesTheCheapest(t, gear, newGear)
  {
    var lost := gear.Keys - newGear.Keys;
    forall l, k | l in lost && k in gear.Keys * newGear.Keys && gear[k].item !in t.locked
      ensures IsNotDearer(t, gear[l].item, gear[k].item)
    {
      BestIsDearest(t, gear, Unlocked(t, gear) - lost, l, k);
      forall v, w | IsValue(t, gear[l].item, v) && IsValue(t, gear[k].item, w) ensures v <= w
      {
        ValueIs(t, gear[l].item, v);
        ValueIs(t, gear[k].item, w);
      }
    }
  }

  /** Dying: 3 saves unless skulled, one more for an unsmited protect item. */
  method CalculateGearLost(t: Tables, gear: Gear, order: seq<Slot>, skulled: bool, smited: bool, protectItem: bool)
    returns (lostItems: Bank<ItemId>, newGear: Gear)
    requires Lists(gear, order)
    ensures forall saves :: IsSaves(skulled, smited, protectItem, saves) ==>
                              && RankedDeath(t, gear, order, saves, lostItems, newGear)
                              && (Sensible(t) ==> FairDeath(t, gear, saves, lostItems, newGear))
    ensures Sensible(t) ==> LosesTheCheapest(t, gear, newGear)
  {
    var removableItems := CollectRemovable(t, gear, order);
    var sortedGear := Sort(removableItems);
    var itemsToSave := 3;
    if skulled {
      itemsToSave := itemsToSave - 3;
    }
    if protectItem && !smited {
      itemsToSave := itemsToSave + 1;
    }
    lostItems, newGear := LoseUnsaved(t, gear, sortedGear, itemsToSave);
    if Sensible(t) {
      DeathIsFair(t, gear, order, itemsToSave, lostItems, newGear);
      FairLosesTheCheapest(t, gear, itemsToSave, lostItems, newGear);
    }
  }

  lemma StretchMinus(sorted: seq<Removable>, a: nat, b: nat, c: nat)
    requires SlotsDistinct(sorted) && a <= b <= c <= |sorted|
    ensures Stretch(sorted, b, c) <= Stretch(sorted, a, c)
    ensures |Stretch(sorted, a, c) - Stretch(sorted, b, c)| == b - a
  {
    assert Stretch(sorted, a, c) - Stretch(sorted, b, c) == Stretch(sorted, a, b);
    StretchSize(sorted, a, b);
  }

  lemma RankedMoreSaves(t: Tables, gear: Gear, sorted: seq<Removable>, few: nat, many: nat)
    requires Sensible(t) && Ranked(t, gear, sorted) && few <= many
    ensures LostSlots(t, sorted, many, |sorted|) <= LostSlots(t, sorted, few, |sorted|)
    ensures |LostSlots(t, sorted, few, |sorted|) - LostSlots(t, sorted, many, |sorted|)| ==
            Smaller(many, |Unlocked(t, gear)|) - Smaller(few, |Unlocked(t, gear)|)
  {
    var k := |Unlocked(t, gear)|;
    LostIsStretch(t, gear, sorted, few);
    LostIsStretch(t, gear, sorted, many);
    StretchMinus(sorted, Smaller(few, k), Smaller(many, k), k);
  }

  /** More saves lose a subset, smaller by exactly the further slots they protect. */
  lemma MoreSavesLoseLess(t: Tables, gear: Gear, order: seq<Slot>, few: nat, many: nat)
    requires Sensible(t) && Lists(gear, order) && few <= many
    ensures var sorted := Sort(Removables(t, gear, order));
            && LostSlots(t, sorted, many, |sorted|) <= LostSlots(t, sorted, few, |sorted|)
            && |LostSlots(t, sorted, few, |sorted|) - LostSlots(t, sorted, many, |sorted|)| ==
               Smaller(many, |Unlocked(t, gear)|) - Smaller(few, |Unlocked(t, gear)|)
  {
    SortIsRanked(t, gear, order);
    RankedMoreSaves(t, gear, Sort(Removables(t, gear, order)), few, many);
  }
}
