/**
 Equipping a list of items at once (src/lib/util/equipMulti.ts). The first loop picks a
 conflict-free set of the listed items; the second puts them on one by one, taking off
 whatever they displace.
 */
module GearEquip {
  import opened Banks

  datatype Slot =
    TwoHanded | Ammo | Body | Cape | Feet | Hands | Head | Legs | Neck | Ring | Shield | Weapon

  type Requirements = map<string, int>

  datatype Equipment = Equipment(slot: Slot, requirements: Option<Requirements>)

  datatype Item = Item(id: int, stackable: bool, equipableByPlayer: bool, equipment: Option<Equipment>)

  /** One parsed entry of the request: an item and the quantity asked for, if any. */
  datatype Listed = Listed(item: Item, quantity: Option<nat>)

  datatype GearItem = GearItem(item: int, quantity: nat)

  /** A gear setup; an absent slot is empty. */
  type Gear = map<Slot, GearItem>

  /** An item chosen to be put on. */
  datatype Entry = Entry(id: int, slot: Slot, quantity: nat)

  // ---------- Choosing ----------

  function Quantity(l: Listed): (q: nat)
    ensures q >= 1
  {
    if l.item.stackable && l.quantity.Some? && l.quantity.value > 0 then l.quantity.value else 1
  }

  predicate Affordable(bank: Bank<int>, l: Listed) {
    bank[l.item.id] >= Quantity(l)
  }

  predicate LacksSkills(meets: Requirements -> bool, l: Listed) {
    && l.item.equipment.Some?
    && l.item.equipment.value.requirements.Some?
    && !meets(l.item.equipment.value.requirements.value)
  }

  /** The item can be worn by this user, other items aside. */
  predicate Qualifies(meets: Requirements -> bool, bank: Bank<int>, l: Listed) {
    && Affordable(bank, l)
    && !LacksSkills(meets, l)
    && l.item.equipableByPlayer
    && l.item.equipment.Some?
  }

  predicate OneHand(s: Slot) {
    s == Weapon || s == Shield
  }

  /** Two slots that cannot both be filled from one request. */
  predicate Conflicts(a: Slot, b: Slot) {
    a == b || (a == TwoHanded && OneHand(b)) || (OneHand(a) && b == TwoHanded)
  }

  function EntryOf(l: Listed): Entry
    requires l.item.equipment.Some?
  {
    Entry(l.item.id, l.item.equipment.value.slot, Quantity(l))
  }

  /** `chosen[k]` says whether the k-th listed item is put on: when it qualifies and no earlier chosen item
      conflicts with it. */
  ghost predicate IsChoice(meets: Requirements -> bool, bank: Bank<int>, listed: seq<Listed>, chosen: seq<bool>) {
    && |chosen| == |listed|
    && (forall k :: 0 <= k < |listed| && chosen[k] ==> Qualifies(meets, bank, listed[k]))
    && (forall k :: 0 <= k < |listed| ==>
          (chosen[k] <==>
           Qualifies(meets, bank, listed[k]) &&
           forall j :: 0 <= j < k && chosen[j] ==>
                         !Conflicts(EntryOf(listed[j]).slot, EntryOf(listed[k]).slot)))
  }

  /** The request determines who is chosen. */
  lemma {:induction false} ChoiceIsUnique(meets: Requirements -> bool, bank: Bank<int>, listed: seq<Listed>,
                                          a: seq<bool>, b: seq<bool>)
    requires IsChoice(meets, bank, listed, a) && IsChoice(meets, bank, listed, b)
    ensures a == b
  {
    var k := 0;
    while k < |listed|
      invariant 0 <= k <= |listed| && a[..k] == b[..k]
    {
      assert forall j :: 0 <= j < k ==> a[j] == a[..k][j] == b[..k][j] == b[j];
      assert a[k] == b[k];
      k := k + 1;
    }
    assert a == a[..k] && b == b[..k];
  }

  /** The entries of the chosen items, in the order they were listed. */
  function Picked(listed: seq<Listed>, chosen: seq<bool>): seq<Entry>
    requires |chosen| == |listed|
    requires forall k :: 0 <= k < |listed| && chosen[k] ==> listed[k].item.equipment.Some?
  {
    if listed == [] then []
    else
      var n := |listed| - 1;
      Picked(listed[..n], chosen[..n]) + if chosen[n] then [EntryOf(listed[n])] else []
  }

  /** What a list of entries takes out of the bank. */
  function Cost(entries: seq<Entry>): Bank<int> {
    if entries == [] then multiset{}
    else
      var n := |entries| - 1;
      Cost(entries[..n]) + Copies(entries[n].id, entries[n].quantity)
  }

  ghost predicate ConflictFree(entries: seq<Entry>) {
    forall j, k :: 0 <= j < k < |entries| ==> !Conflicts(entries[j].slot, entries[k].slot)
  }

  /** One id is one item. */
  ghost predicate Consistent(listed: seq<Listed>) {
    forall j, k :: 0 <= j < |listed| && 0 <= k < |listed| && listed[j].item.id == listed[k].item.id ==>
                     listed[j].item == listed[k].item
  }

  /** The bank of the listed items that are affordable but whose requirements the user does not meet. */
  function SkillFails(meets: Requirements -> bool, bank: Bank<int>, listed: seq<Listed>): Bank<int> {
    if listed == [] then multiset{}
    else
      var n := |listed| - 1;
      var before := SkillFails(meets, bank, listed[..n]);
      if Affordable(bank, listed[n]) && LacksSkills(meets, listed[n])
      then before + Copies(listed[n].item.id, Quantity(listed[n])) else before
  }

  /** Deciding the next listed item extends a choice. */
  lemma ChoiceExtends(meets: Requirements -> bool, bank: Bank<int>, listed: seq<Listed>, i: nat,
                      chosen: seq<bool>, take: bool)
    requires i < |listed|
    requires IsChoice(meets, bank, listed[..i], chosen)
    requires take <==>
             Qualifies(meets, bank, listed[i]) &&
             forall j :: 0 <= j < i && chosen[j] ==>
                           !Conflicts(EntryOf(listed[j]).slot, EntryOf(listed[i]).slot)
    ensures IsChoice(meets, bank, listed[..i + 1], chosen + [take])
    ensures Picked(listed[..i + 1], chosen + [take]) ==
            Picked(listed[..i], chosen) + if take then [EntryOf(listed[i])] else []
    ensures Cost(Picked(listed[..i + 1], chosen + [take])) ==
            Cost(Picked(listed[..i], chosen)) +
            if take then Copies(listed[i].item.id, Quantity(listed[i])) else multiset{}
    ensures SkillFails(meets, bank, listed[..i + 1]) ==
            SkillFails(meets, bank, listed[..i]) +
            if Affordable(bank, listed[i]) && LacksSkills(meets, listed[i])
            then Copies(listed[i].item.id, Quantity(listed[i])) else multiset{}
  {
    var longer, more := listed[..i + 1], chosen + [take];
    assert longer[..i] == listed[..i] && more[..i] == chosen;
    var before := Picked(listed[..i], chosen);
    if take {
      CostGrows(before, EntryOf(listed[i]));
    } else {
      assert before + [] == before;
      assert Cost(before) + multiset{} == Cost(before);
    }
  }

  lemma CostGrows(entries: seq<Entry>, e: Entry)
    ensures Cost(entries + [e]) == Cost(entries) + Copies(e.id, e.quantity)
  {
    assert (entries + [e])[..|entries|] == entries;
  }

  /** `slots` holds exactly the slots of the chosen items. */
  ghost predicate SlotsTaken(listed: seq<Listed>, chosen: seq<bool>, slots: set<Slot>)
    requires |chosen| == |listed|
    requires forall k :: 0 <= k < |listed| && chosen[k] ==> listed[k].item.equipment.Some?
  {
    && (forall j :: 0 <= j < |listed| && chosen[j] ==> EntryOf(listed[j]).slot in slots)
    && (forall s :: s in slots ==> exists j :: 0 <= j < |listed| && chosen[j] && EntryOf(listed[j]).slot == s)
  }

  predicate Blocked(slots: set<Slot>, slot: Slot) {
    || slot in slots
    || (TwoHanded in slots && (slot == Weapon || slot == Shield))
    || ((Shield in slots || Weapon in slots) && slot == TwoHanded)
  }

  lemma BlockedIsConflict(listed: seq<Listed>, chosen: seq<bool>, slots: set<Slot>, slot: Slot)
    requires |chosen| == |listed|
    requires forall k :: 0 <= k < |listed| && chosen[k] ==> listed[k].item.equipment.Some?
    requires SlotsTaken(listed, chosen, slots)
    ensures Blocked(slots, slot) <==>
            exists j :: 0 <= j < |listed| && chosen[j] && Conflicts(EntryOf(listed[j]).slot, slot)
  {
    if Blocked(slots, slot) {
      var s :| s in slots && Conflicts(s, slot);
      var j :| 0 <= j < |listed| && chosen[j] && EntryOf(listed[j]).slot == s;
      assert Conflicts(EntryOf(listed[j]).slot, slot);
    }
  }

  lemma SlotsExtend(listed: seq<Listed>, i: nat, chosen: seq<bool>, take: bool, slots: set<Slot>)
    requires i < |listed| && |chosen| == i
    requires forall k :: 0 <= k < i && chosen[k] ==> listed[k].item.equipment.Some?
    requires take ==> listed[i].item.equipment.Some?
    requires SlotsTaken(listed[..i], chosen, slots)
    ensures SlotsTaken(listed[..i + 1], chosen + [take],
                       if take then slots + {EntryOf(listed[i]).slot} else slots)
  {
    var more, now := chosen + [take], if take then slots + {EntryOf(listed[i]).slot} else slots;
    forall s | s in now
      ensures exists j :: 0 <= j < i + 1 && more[j] && EntryOf(listed[..i + 1][j]).slot == s
    {
      if s in slots {
        var j :| 0 <= j < i && chosen[j] && EntryOf(listed[..i][j]).slot == s;
        assert more[j] && EntryOf(listed[..i + 1][j]).slot == s;
      } else {
        assert more[i] && EntryOf(listed[..i + 1][i]).slot == s;
      }
    }
  }

  /** What the choosing loop knows once the first items are decided. */
  ghost predicate Chosen(meets: Requirements -> bool, bank: Bank<int>, listed: seq<Listed>, chosen: seq<bool>,
                         slots: set<Slot>, equipBank: Bank<int>, failed: Bank<int>)
  {
    && IsChoice(meets, bank, listed, chosen)
    && SlotsTaken(listed, chosen, slots)
    && equipBank == Cost(Picked(listed, chosen))
    && failed == SkillFails(meets, bank, listed)
  }

  lemma ChosenExtends(meets: Requirements -> bool, bank: Bank<int>, listed: seq<Listed>, i: nat, chosen: seq<bool>,
                      slots: set<Slot>, equipBank: Bank<int>, failed: Bank<int>, take: bool)
    requires i < |listed|
    requires Chosen(meets, bank, listed[..i], chosen, slots, equipBank, failed)
    requires take <==> Qualifies(meets, bank, listed[i]) && !Blocked(slots, EntryOf(listed[i]).slot)
    ensures Chosen(meets, bank, listed[..i + 1], chosen + [take],
                   if take then slots + {EntryOf(listed[i]).slot} else slots,
                   if take then Add(equipBank, listed[i].item.id, Quantity(listed[i])) else equipBank,
                   if Affordable(bank, listed[i]) && LacksSkills(meets, listed[i])
                   then Add(failed, listed[i].item.id, Quantity(listed[i])) else failed)
  {
    if listed[i].item.equipment.Some? {
      BlockedIsConflict(listed[..i], chosen, slots, EntryOf(listed[i]).slot);
    }
    SlotsExtend(listed, i, chosen, take, slots);
    ChoiceExtends(meets, bank, listed, i, chosen, take);
    AddIsSum(equipBank, listed[i].item.id, Quantity(listed[i]));
    AddIsSum(failed, listed[i].item.id, Quantity(listed[i]));
  }

  /** Choosing the items: `oneItemPerSlot` is the set of slots already spoken for. */
  method Choose(meets: Requirements -> bool, bank: Bank<int>, listed: seq<Listed>)
    returns (equipBank: Bank<int>, failedToEquipBank: Bank<int>, chosen: seq<bool>)
    ensures IsChoice(meets, bank, listed, chosen)
    ensures equipBank == Cost(Picked(listed, chosen))
    ensures failedToEquipBank == SkillFails(meets, bank, listed)
  {
    var oneItemPerSlot: set<Slot> := {};
    equipBank, failedToEquipBank, chosen := multiset{}, multiset{}, [];
    for i := 0 to |listed|
      invariant Chosen(meets, bank, listed[..i], chosen, oneItemPerSlot, equipBank, failedToEquipBank)
    {
      var l := listed[i];
      var qty := Quantity(l);
      var take := false;
      ghost var slots, equip, failed := oneItemPerSlot, equipBank, failedToEquipBank;
      if bank[l.item.id] >= qty {
        if LacksSkills(meets, l) {
          failedToEquipBank := Add(failedToEquipBank, l.item.id, qty);
        } else if l.item.equipableByPlayer && l.item.equipment.Some? &&
                  !Blocked(oneItemPerSlot, l.item.equipment.value.slot) {
          oneItemPerSlot := oneItemPerSlot + {l.item.equipment.value.slot};
          equipBank := Add(equipBank, l.item.id, qty);
          take := true;
        }
      }
      ChosenExtends(meets, bank, listed, i, chosen, slots, equip, failed, take);
      chosen := chosen + [take];
    }
    assert listed[..|listed|] == listed;
  }

  /** Chosen items never conflict with each other. */
  lemma {:induction false} PickedConflictFree(meets: Requirements -> bool, bank: Bank<int>, listed: seq<Listed>,
                                              chosen: seq<bool>)
    requires IsChoice(meets, bank, listed, chosen)
    ensures ConflictFree(Picked(listed, chosen))
    ensures forall e :: e in Picked(listed, chosen) ==>
                          exists k :: 0 <= k < |listed| && chosen[k] && EntryOf(listed[k]) == e
  {
    if listed != [] {
      var n := |listed| - 1;
      assert forall k :: 0 <= k < n ==> listed[..n][k] == listed[k] && chosen[..n][k] == chosen[k];
      PickedConflictFree(meets, bank, listed[..n], chosen[..n]);
      var before := Picked(listed[..n], chosen[..n]);
      forall e | e in before ensures exists k :: 0 <= k < n && chosen[k] && EntryOf(listed[k]) == e
      {
        var k :| 0 <= k < n && chosen[..n][k] && EntryOf(listed[..n][k]) == e;
        assert chosen[k] && EntryOf(listed[k]) == e;
      }
      forall e | e in before && chosen[n] ensures !Conflicts(e.slot, EntryOf(listed[n]).slot)
      {
        var k :| 0 <= k < n && chosen[k] && EntryOf(listed[k]) == e;
      }
      if chosen[n] {
        assert EntryOf(listed[n]) == Picked(listed, chosen)[|before|];
      }
    }
  }

  lemma {:induction false} PickedIds(listed: seq<Listed>, chosen: seq<bool>, id: int)
    requires |chosen| == |listed|
    requires forall k :: 0 <= k < |listed| && chosen[k] ==> listed[k].item.equipment.Some?
    requires forall k :: 0 <= k < |listed| && chosen[k] ==> listed[k].item.id != id
    ensures id !in Cost(Picked(listed, chosen))
  {
    if listed != [] {
      var n := |listed| - 1;
      PickedIds(listed[..n], chosen[..n], id);
      if chosen[n] {
        CostGrows(Picked(listed[..n], chosen[..n]), EntryOf(listed[n]));
      } else {
        assert Picked(listed, chosen) == Picked(listed[..n], chosen[..n]);
      }
    }
  }

  /** What is put on was in the bank: an item listed twice takes one slot, so it is chosen at most once. */
  lemma {:induction false} PickedFromBank(meets: Requirements -> bool, bank: Bank<int>, listed: seq<Listed>,
                                          chosen: seq<bool>)
    requires IsChoice(meets, bank, listed, chosen) && Consistent(listed)
    ensures Cost(Picked(listed, chosen)) <= bank
  {
    if listed != [] {
      var n := |listed| - 1;
      ChoicePrefix(meets, bank, listed, chosen, n);
      PickedFromBank(meets, bank, listed[..n], chosen[..n]);
      if chosen[n] {
        PickedIds(listed[..n], chosen[..n], listed[n].item.id);
        CostGrows(Picked(listed[..n], chosen[..n]), EntryOf(listed[n]));
      } else {
        assert Picked(listed, chosen) == Picked(listed[..n], chosen[..n]);
      }
    }
  }

  lemma ChoicePrefix(meets: Requirements -> bool, bank: Bank<int>, listed: seq<Listed>, chosen: seq<bool>, n: nat)
    requires IsChoice(meets, bank, listed, chosen) && Consistent(listed) && n < |listed|
    ensures IsChoice(meets, bank, listed[..n], chosen[..n]) && Consistent(listed[..n])
    ensures chosen[n] ==> forall k :: 0 <= k < n && chosen[k] ==> listed[k].item.id != listed[n].item.id
  {
    forall k | 0 <= k < n && chosen[k] && chosen[n]
      ensures listed[k].item.id != listed[n].item.id
    {
      assert !Conflicts(EntryOf(listed[k]).slot, EntryOf(listed[n]).slot);
    }
  }

  // ---------- Putting on ----------

  datatype Worn = Worn(gear: Gear, unequipBank: Bank<int>)

  function At(gear: Gear, s: Slot): Bank<int> {
    if s in gear then Copies(gear[s].item, gear[s].quantity) else multiset{}
  }

  const ALL_SLOTS: seq<Slot> :=
    [TwoHanded, Ammo, Body, Cape, Feet, Hands, Head, Legs, Neck, Ring, Shield, Weapon]

  function Rank(s: Slot): nat {
    match s
    case TwoHanded => 0 case Ammo => 1 case Body => 2 case Cape => 3 case Feet => 4 case Hands => 5
    case Head => 6 case Legs => 7 case Neck => 8 case Ring => 9 case Shield => 10 case Weapon => 11
  }

  /** ALL_SLOTS lists every slot once. */
  lemma AllSlots(s: Slot)
    ensures s in ALL_SLOTS
    ensures forall j, k :: 0 <= j < k < |ALL_SLOTS| ==> ALL_SLOTS[j] != ALL_SLOTS[k]
  {
    assert ALL_SLOTS[Rank(s)] == s;
    assert forall j :: 0 <= j < |ALL_SLOTS| ==> Rank(ALL_SLOTS[j]) == j;
  }

  function HeldIn(gear: Gear, slots: seq<Slot>): Bank<int> {
    if slots == [] then multiset{} else At(gear, slots[0]) + HeldIn(gear, slots[1..])
  }

  /** Everything a gear setup holds. */
  function Contents(gear: Gear): Bank<int> {
    HeldIn(gear, ALL_SLOTS)
  }

  /** Takes off whatever a slot holds. */
  function TakeOff(w: Worn, s: Slot): (r: Worn)
    ensures r.gear == w.gear - {s}
  {
    if s in w.gear then Worn(w.gear - {s}, Add(w.unequipBank, w.gear[s].item, w.gear[s].quantity)) else w
  }

  /** Puts on one chosen item, taking off what it displaces. */
  function PutOn(w: Worn, e: Entry): Worn {
    var a := if e.slot == TwoHanded then TakeOff(TakeOff(w, Shield), Weapon)
             else if OneHand(e.slot) then TakeOff(w, TwoHanded)
             else w;
    var b := TakeOff(a, e.slot);
    Worn(b.gear[e.slot := GearItem(e.id, e.quantity)], b.unequipBank)
  }

  function PutOnAll(w: Worn, entries: seq<Entry>): Worn {
    if entries == [] then w
    else
      var n := |entries| - 1;
      PutOn(PutOnAll(w, entries[..n]), entries[n])
  }

  lemma PutOnAllGrows(w: Worn, entries: seq<Entry>, i: nat)
    requires i < |entries|
    ensures PutOnAll(w, entries[..i + 1]) == PutOn(PutOnAll(w, entries[..i]), entries[i])
  {
    assert entries[..i + 1][..i] == entries[..i];
  }

  /** One turn of the applying loop. */
  method ApplyOne(worn: Gear, taken: Bank<int>, e: Entry) returns (equippedGear: Gear, unequipBank: Bank<int>)
    ensures Worn(equippedGear, unequipBank) == PutOn(Worn(worn, taken), e)
  {
    equippedGear, unequipBank := worn, taken;
    var slot := e.slot;
    ghost var w := Worn(worn, taken);
    if slot == TwoHanded && Shield in equippedGear {
      unequipBank := Add(unequipBank, equippedGear[Shield].item, equippedGear[Shield].quantity);
      equippedGear := equippedGear - {Shield};
    }
    w := if slot == TwoHanded then TakeOff(w, Shield) else w;
    assert Worn(equippedGear, unequipBank) == w;
    if slot == TwoHanded && Weapon in equippedGear {
      unequipBank := Add(unequipBank, equippedGear[Weapon].item, equippedGear[Weapon].quantity);
      equippedGear := equippedGear - {Weapon};
    }
    w := if slot == TwoHanded then TakeOff(w, Weapon) else w;
    assert Worn(equippedGear, unequipBank) == w;
    if TwoHanded in equippedGear && (slot == Shield || slot == Weapon) {
      unequipBank := Add(unequipBank, equippedGear[TwoHanded].item, equippedGear[TwoHanded].quantity);
      equippedGear := equippedGear - {TwoHanded};
    }
    w := if OneHand(slot) then TakeOff(w, TwoHanded) else w;
    assert Worn(equippedGear, unequipBank) == w;
    if slot in equippedGear {
      unequipBank := Add(unequipBank, equippedGear[slot].item, equippedGear[slot].quantity);
    }
    var item := GearItem(e.id, e.quantity);
    assert equippedGear[slot := item] == (equippedGear - {slot})[slot := item];
    equippedGear := equippedGear[slot := item];
    assert Worn(equippedGear, unequipBank) ==
           Worn(TakeOff(w, slot).gear[slot := item], TakeOff(w, slot).unequipBank);
  }

  /** The applying loop, for the chosen items in whatever order the bank yields them. */
  method Apply(worn: Gear, entries: seq<Entry>) returns (equippedGear: Gear, unequipBank: Bank<int>)
    ensures Worn(equippedGear, unequipBank) == PutOnAll(Worn(worn, multiset{}), entries)
  {
    equippedGear, unequipBank := worn, multiset{};
    for i := 0 to |entries|
      invariant Worn(equippedGear, unequipBank) == PutOnAll(Worn(worn, multiset{}), entries[..i])
    {
      PutOnAllGrows(Worn(worn, multiset{}), entries, i);
      equippedGear, unequipBank := ApplyOne(equippedGear, unequipBank, entries[i]);
    }
    assert entries[..|entries|] == entries;
  }

  /** What putting on a set of items means, with no mention of an order: the slots they displace are emptied and
      their own slots filled. */
  function Target(entries: seq<Entry>): Gear {
    if entries == [] then map[]
    else
      var n := |entries| - 1;
      Target(entries[..n])[entries[n].slot := GearItem(entries[n].id, entries[n].quantity)]
  }

  function Displaces(slots: set<Slot>): set<Slot> {
    slots
    + (if TwoHanded in slots then {Weapon, Shield} else {})
    + (if Weapon in slots || Shield in slots then {TwoHanded} else {})
  }

  function Part(g: Gear, slots: set<Slot>): Gear {
    map s | s in g && s in slots :: g[s]
  }

  function GearAfter(before: Gear, target: Gear): Gear {
    (before - Displaces(target.Keys)) + target
  }

  /** The target of conflict-free items is their slot-by-slot contents. */
  lemma {:induction false} TargetHolds(entries: seq<Entry>)
    requires ConflictFree(entries)
    ensures forall e :: e in entries ==>
                          e.slot in Target(entries) && Target(entries)[e.slot] == GearItem(e.id, e.quantity)
    ensures forall s :: s in Target(entries) ==> exists e :: e in entries && e.slot == s
  {
    if entries != [] {
      var n := |entries| - 1;
      TargetHolds(entries[..n]);
      forall e | e in entries
        ensures e.slot in Target(entries) && Target(entries)[e.slot] == GearItem(e.id, e.quantity)
      {
        assert e in entries[..n] || e == entries[n];
      }
    }
  }

  lemma {:induction false} HeldInAdd(a: Gear, b: Gear, c: Gear, slots: seq<Slot>)
    requires forall s :: At(a, s) + At(b, s) == At(c, s)
    ensures HeldIn(a, slots) + HeldIn(b, slots) == HeldIn(c, slots)
  {
    if slots != [] {
      HeldInAdd(a, b, c, slots[1..]);
      assert At(a, slots[0]) + At(b, slots[0]) == At(c, slots[0]);
    }
  }

  lemma {:induction false} HeldInOne(g: Gear, s: Slot, slots: seq<Slot>)
    requires g.Keys <= {s}
    requires forall j, k :: 0 <= j < k < |slots| ==> slots[j] != slots[k]
    ensures HeldIn(g, slots) == if s in slots then At(g, s) else multiset{}
  {
    if slots != [] {
      HeldInOne(g, s, slots[1..]);
      assert slots == [slots[0]] + slots[1..];
    }
  }

  lemma ContentsAdd(a: Gear, b: Gear, c: Gear)
    requires forall s :: At(a, s) + At(b, s) == At(c, s)
    ensures Contents(a) + Contents(b) == Contents(c)
  {
    HeldInAdd(a, b, c, ALL_SLOTS);
  }

  /** A setup with at most one slot filled holds just that slot's item. */
  lemma ContentsOfOne(g: Gear, s: Slot)
    requires g.Keys <= {s}
    ensures Contents(g) == At(g, s)
  {
    AllSlots(s);
    HeldInOne(g, s, ALL_SLOTS);
  }

  /** Everything worn or taken off so far. */
  function Total(w: Worn): Bank<int> {
    Contents(w.gear) + w.unequipBank
  }

  /** Filling an empty slot adds its item. */
  lemma FillAdds(g: Gear, s: Slot, x: GearItem)
    requires s !in g
    ensures Contents(g[s := x]) == Contents(g) + Copies(x.item, x.quantity)
  {
    var one: Gear := map[s := x];
    ContentsAdd(g, one, g[s := x]);
    ContentsOfOne(one, s);
  }

  /** Taking off moves an item from the gear to the unequip bank. */
  lemma TakeOffConserves(w: Worn, s: Slot)
    ensures Total(TakeOff(w, s)) == Total(w)
  {
    if s in w.gear {
      AddIsSum(w.unequipBank, w.gear[s].item, w.gear[s].quantity);
      assert (w.gear - {s})[s := w.gear[s]] == w.gear;
      FillAdds(w.gear - {s}, s, w.gear[s]);
    } else {
      assert w.gear - {s} == w.gear;
    }
  }

  /** Nothing is created or lost by putting an item on. */
  lemma PutOnConserves(w: Worn, e: Entry)
    ensures Total(PutOn(w, e)) == Total(w) + Copies(e.id, e.quantity)
  {
    TakeOffConserves(w, Shield);
    TakeOffConserves(TakeOff(w, Shield), Weapon);
    TakeOffConserves(w, TwoHanded);
    var a := if e.slot == TwoHanded then TakeOff(TakeOff(w, Shield), Weapon)
             else if OneHand(e.slot) then TakeOff(w, TwoHanded)
             else w;
    TakeOffConserves(a, e.slot);
    FillAdds(TakeOff(a, e.slot).gear, e.slot, GearItem(e.id, e.quantity));
  }

  lemma {:induction false} PutOnAllConserves(w: Worn, entries: seq<Entry>)
    ensures Total(PutOnAll(w, entries)) == Total(w) + Cost(entries)
  {
    if entries == [] {
      assert Total(w) + multiset{} == Total(w);
    } else {
      var n := |entries| - 1;
      PutOnAllConserves(w, entries[..n]);
      PutOnConserves(PutOnAll(w, entries[..n]), entries[n]);
    }
  }

  /** Putting on one item leaves exactly the slots it does not displace. */
  lemma PutOnKeeps(w: Worn, e: Entry)
    ensures PutOn(w, e).gear == (w.gear - Displaces({e.slot}))[e.slot := GearItem(e.id, e.quantity)]
  {
    var g := w.gear;
    match e.slot {
      case TwoHanded => assert g - {Shield} - {Weapon} - {TwoHanded} == g - Displaces({TwoHanded});
      case Weapon => assert g - {TwoHanded} - {Weapon} == g - Displaces({Weapon});
      case Shield => assert g - {TwoHanded} - {Shield} == g - Displaces({Shield});
      case _ =>
    }
  }

  lemma Balance(kept: Bank<int>, part: Bank<int>, gear: Bank<int>, put: Bank<int>, now: Bank<int>,
                taken: Bank<int>, takenNow: Bank<int>)
    requires kept + part == gear && kept + put == now && now + takenNow == gear + taken + put
    ensures takenNow == taken + part
  {
    forall i ensures takenNow[i] == taken[i] + part[i]
    {
      assert (kept + part)[i] == gear[i] && (kept + put)[i] == now[i];
      assert (now + takenNow)[i] == (gear + taken + put)[i];
    }
  }

  /** Putting on one item takes off exactly the slots it displaces. */
  lemma PutOnTakesOff(w: Worn, e: Entry)
    ensures PutOn(w, e).unequipBank == w.unequipBank + Contents(Part(w.gear, Displaces({e.slot})))
  {
    var part := Part(w.gear, Displaces({e.slot}));
    var kept := w.gear - Displaces({e.slot});
    PutOnConserves(w, e);
    PutOnKeeps(w, e);
    ContentsAdd(kept, part, w.gear);
    FillAdds(kept, e.slot, GearItem(e.id, e.quantity));
    Balance(Contents(kept), Contents(part), Contents(w.gear), Copies(e.id, e.quantity),
            Contents(PutOn(w, e).gear), w.unequipBank, PutOn(w, e).unequipBank);
  }

  lemma DisplacesIsConflict(slots: set<Slot>, s: Slot)
    ensures s in Displaces(slots) <==> exists t :: t in slots && Conflicts(t, s)
  {
    if s in Displaces(slots) {
      if s in slots {
        assert Conflicts(s, s);
      } else if s == TwoHanded {
        assert Conflicts(if Weapon in slots then Weapon else Shield, s);
      } else {
        assert Conflicts(TwoHanded, s);
      }
    }
  }

  /** One more item on top of the order-free meaning of the first ones. */
  lemma DisplacesMore(target: Gear, slot: Slot, x: GearItem)
    requires slot !in Displaces(target.Keys)
    ensures Displaces(target[slot := x].Keys) == Displaces(target.Keys) + Displaces({slot})
    ensures Displaces({slot}) !! target.Keys
  {
    assert target[slot := x].Keys == target.Keys + {slot};
  }

  lemma GearAfterGrows(before: Gear, target: Gear, slot: Slot, x: GearItem)
    requires slot !in Displaces(target.Keys)
    ensures (GearAfter(before, target) - Displaces({slot}))[slot := x] == GearAfter(before, target[slot := x])
  {
    DisplacesMore(target, slot, x);
  }

  lemma PartsGrow(before: Gear, target: Gear, slot: Slot, x: GearItem)
    requires slot !in Displaces(target.Keys)
    ensures forall s :: At(Part(before, Displaces(target.Keys)), s) +
                        At(Part(GearAfter(before, target), Displaces({slot})), s) ==
                        At(Part(before, Displaces(target[slot := x].Keys)), s)
  {
    DisplacesMore(target, slot, x);
  }

  /** The gear and the unequip bank are what the order-free meaning says. */
  ghost predicate Means(before: Gear, taken: Bank<int>, target: Gear, after: Worn) {
    && after.gear == GearAfter(before, target)
    && after.unequipBank == taken + Contents(Part(before, Displaces(target.Keys)))
  }

  lemma PutOnMeans(before: Gear, taken: Bank<int>, target: Gear, w: Worn, e: Entry)
    requires Means(before, taken, target, w)
    requires e.slot !in Displaces(target.Keys)
    ensures Means(before, taken, target[e.slot := GearItem(e.id, e.quantity)], PutOn(w, e))
  {
    PutOnKeeps(w, e);
    PutOnTakesOff(w, e);
    GearAfterGrows(before, target, e.slot, GearItem(e.id, e.quantity));
    PartsGrow(before, target, e.slot, GearItem(e.id, e.quantity));
    ContentsAdd(Part(before, Displaces(target.Keys)), Part(w.gear, Displaces({e.slot})),
                Part(before, Displaces(target[e.slot := GearItem(e.id, e.quantity)].Keys)));
  }

  lemma PutOnNothing(before: Gear, taken: Bank<int>)
    ensures Means(before, taken, map[], Worn(before, taken))
  {
    var none: Gear := map[];
    assert none.Keys == {} && Displaces({}) == {};
    assert before - {} + none == before;
    assert Part(before, {}) == none;
    ContentsOfOne(none, Ammo);
    assert Contents(none) == multiset{};
    assert taken + multiset{} == taken;
  }

  /** Putting on conflict-free items has the order-free meaning. */
  lemma {:induction false} PutOnAllMeaning(before: Gear, taken: Bank<int>, entries: seq<Entry>)
    requires ConflictFree(entries)
    ensures Means(before, taken, Target(entries), PutOnAll(Worn(before, taken), entries))
  {
    if entries == [] {
      PutOnNothing(before, taken);
    } else {
      var n := |entries| - 1;
      var e, first := entries[n], entries[..n];
      PutOnAllMeaning(before, taken, first);
      TargetHolds(first);
      DisplacesIsConflict(Target(first).Keys, e.slot);
      PutOnMeans(before, taken, Target(first), PutOnAll(Worn(before, taken), first), e);
    }
  }

  lemma TargetWithin(p: seq<Entry>, q: seq<Entry>)
    requires ConflictFree(p) && ConflictFree(q) && multiset(p) == multiset(q)
    ensures forall s :: s in Target(p) ==> s in Target(q) && Target(q)[s] == Target(p)[s]
  {
    forall s | s in Target(p)
      ensures s in Target(q) && Target(q)[s] == Target(p)[s]
    {
      TargetHolds(p);
      TargetHolds(q);
      var e :| e in p && e.slot == s;
      assert e in multiset(q);
    }
  }

  /** Confluence: the order in which the chosen items are put on does not matter. */
  lemma Confluence(before: Gear, taken: Bank<int>, p: seq<Entry>, q: seq<Entry>)
    requires ConflictFree(p) && multiset(p) == multiset(q)
    ensures PutOnAll(Worn(before, taken), p) == PutOnAll(Worn(before, taken), q)
  {
    ConflictFreePermutes(p, q);
    PutOnAllMeaning(before, taken, p);
    PutOnAllMeaning(before, taken, q);
    TargetWithin(p, q);
    TargetWithin(q, p);
    assert Target(p) == Target(q);
  }

  /** A two-hander is never worn beside a weapon or a shield. */
  predicate HandsAgree(g: Gear) {
    TwoHanded in g ==> Weapon !in g && Shield !in g
  }

  lemma TargetHandsAgree(entries: seq<Entry>)
    requires ConflictFree(entries)
    ensures HandsAgree(Target(entries))
  {
    TargetHolds(entries);
    forall d, e | d in entries && e in entries ensures d.slot == TwoHanded ==> !OneHand(e.slot)
    {
      var i :| 0 <= i < |entries| && entries[i] == d;
      var j :| 0 <= j < |entries| && entries[j] == e;
      assert i < j ==> !Conflicts(d.slot, e.slot);
      assert j < i ==> !Conflicts(e.slot, d.slot);
    }
  }

  lemma AfterHandsAgree(before: Gear, target: Gear)
    requires HandsAgree(before) && HandsAgree(target)
    ensures HandsAgree(GearAfter(before, target))
  {
  }

  /** Putting on conflict-free items keeps the hands in order. */
  lemma HandsStayAgreed(before: Gear, taken: Bank<int>, entries: seq<Entry>)
    requires ConflictFree(entries) && HandsAgree(before)
    ensures HandsAgree(PutOnAll(Worn(before, taken), entries).gear)
  {
    PutOnAllMeaning(before, taken, entries);
    TargetHandsAgree(entries);
    AfterHandsAgree(before, Target(entries));
  }

  lemma {:induction false} ConflictFreeOnce(p: seq<Entry>)
    requires ConflictFree(p)
    ensures forall e :: multiset(p)[e] <= 1
  {
    if p != [] {
      var n := |p| - 1;
      ConflictFreeOnce(p[..n]);
      assert p == p[..n] + [p[n]];
      assert p[n] !in p[..n];
    }
  }

  lemma OnceIsApart(q: seq<Entry>, j: nat, k: nat)
    requires j < k < |q| && multiset(q)[q[j]] <= 1
    ensures q[j] != q[k]
  {
    assert multiset(q[..k])[q[j]] >= 1 && q[j] in q[..k];
    assert q[..k + 1] == q[..k] + [q[k]];
    assert q == q[..k + 1] + q[k + 1..];
  }

  /** Conflict-freedom is a property of which items are there, not of their order. */
  lemma ConflictFreePermutes(p: seq<Entry>, q: seq<Entry>)
    requires ConflictFree(p) && multiset(p) == multiset(q)
    ensures ConflictFree(q)
  {
    ConflictFreeOnce(p);
    forall j, k | 0 <= j < k < |q|
      ensures !Conflicts(q[j].slot, q[k].slot)
    {
      OnceIsApart(q, j, k);
      assert q[j] in multiset(p) && q[k] in multiset(p);
      var a :| 0 <= a < |p| && p[a] == q[j];
      var b :| 0 <= b < |p| && p[b] == q[k];
      assert Conflicts(p[a].slot, p[b].slot) <==> Conflicts(p[b].slot, p[a].slot);
    }
  }

  // ---------- The whole request ----------

  datatype Outcome =
    | InvalidSetup
    | Equipped(equipBank: Bank<int>, unequipBank: Bank<int>, skillFailBank: Bank<int>, equippedGear: Gear)

  /** What equipping a choice gives, in whatever order its items are put on. */
  ghost predicate Outfits(worn: Gear, picked: seq<Entry>, gear: Gear, unequipBank: Bank<int>) {
    && Means(worn, multiset{}, Target(picked), Worn(gear, unequipBank))
    && Contents(worn) + Cost(picked) == Contents(gear) + unequipBank
    && (HandsAgree(worn) ==> HandsAgree(gear))
  }

  lemma AnyOrderOutfits(worn: Gear, picked: seq<Entry>, entries: seq<Entry>, after: Worn)
    requires ConflictFree(picked) && multiset(picked) == multiset(entries)
    requires after == PutOnAll(Worn(worn, multiset{}), entries)
    ensures Outfits(worn, picked, after.gear, after.unequipBank)
  {
    Confluence(worn, multiset{}, picked, entries);
    PutOnAllMeaning(worn, multiset{}, picked);
    PutOnAllConserves(Worn(worn, multiset{}), picked);
    assert Contents(worn) + multiset{} == Contents(worn);
    if HandsAgree(worn) {
      HandsStayAgreed(worn, multiset{}, picked);
    }
  }

  // ---------- What the user gets ----------

  /** The quantity asked for: that of a stackable item, when it is given and positive, and else one. */
  ghost predicate AsksFor(l: Listed, n: nat) {
    if l.item.stackable && l.quantity.Some? && l.quantity.value > 0 then n == l.quantity.value else n == 1
  }

  ghost predicate HasEnough(bank: Bank<int>, l: Listed) {
    forall n :: AsksFor(l, n) ==> bank[l.item.id] >= n
  }

  ghost predicate IsUnskilled(meets: Requirements -> bool, l: Listed) {
    match l.item.equipment
    case None => false
    case Some(e) => e.requirements.Some? && !meets(e.requirements.value)
  }

  ghost predicate GoesTo(l: Listed, s: Slot) {
    l.item.equipment.Some? && l.item.equipment.value.slot == s
  }

  /** One slot, or a two-handed weapon and something for one hand. */
  ghost predicate Clash(a: Slot, b: Slot) {
    a == b || (TwoHanded in {a, b} && ({a, b} * {Weapon, Shield} != {}))
  }

  /** Items are chosen in the order listed, each that the user has enough of, is skilled for and can wear, unless an
      earlier one is in its way. */
  ghost predicate ChoosesFairly(meets: Requirements -> bool, bank: Bank<int>, listed: seq<Listed>, chosen: seq<bool>) {
    && |chosen| == |listed|
    && forall k :: 0 <= k < |listed| ==>
                     (chosen[k] <==>
                      && HasEnough(bank, listed[k]) && !IsUnskilled(meets, listed[k])
                      && listed[k].item.equipableByPlayer && listed[k].item.equipment.Some?
                      && !InTheWay(listed, chosen, k))
  }

  /** An earlier chosen item clashes with the k-th. */
  ghost predicate InTheWay(listed: seq<Listed>, chosen: seq<bool>, k: nat)
    requires k < |listed| == |chosen|
  {
    exists j, a, b :: 0 <= j < k && chosen[j] && GoesTo(listed[j], a) && GoesTo(listed[k], b) && Clash(a, b)
  }

  ghost predicate IsPutOn(l: Listed, gear: Gear, equipBank: Bank<int>) {
    forall s, n :: GoesTo(l, s) && AsksFor(l, n) ==>
                     s in gear && gear[s] == GearItem(l.item.id, n) && equipBank[l.item.id] == n
  }

  /** Every chosen item ends up in its slot and in the equip bank, in the quantity asked for. */
  ghost predicate PutsOn(listed: seq<Listed>, chosen: seq<bool>, gear: Gear, equipBank: Bank<int>)
    requires |chosen| == |listed|
  {
    && (forall k :: 0 <= k < |listed| && chosen[k] ==> IsPutOn(listed[k], gear, equipBank))
    && (forall id :: id in equipBank ==> exists k :: 0 <= k < |listed| && chosen[k] && listed[k].item.id == id)
  }

  ghost predicate IsCleared(listed: seq<Listed>, chosen: seq<bool>, s: Slot)
    requires |chosen| == |listed|
  {
    exists k, a :: 0 <= k < |listed| && chosen[k] && GoesTo(listed[k], a) && Clash(a, s)
  }

  /** Slots that clash with no chosen item stay as they were; the others hold chosen items only. */
  ghost predicate KeepsTheRest(listed: seq<Listed>, chosen: seq<bool>, worn: Gear, gear: Gear)
    requires |chosen| == |listed|
  {
    && (forall s :: !IsCleared(listed, chosen, s) ==> (s in gear <==> s in worn) && (s in gear ==> gear[s] == worn[s]))
    && (forall s :: IsCleared(listed, chosen, s) && s in gear ==>
                      exists k :: 0 <= k < |listed| && chosen[k] && GoesTo(listed[k], s))
  }

  /** The bank of skill failures: what the user has enough of and no skill for, in the quantity asked for. */
  ghost predicate ReportsUnskilled(meets: Requirements -> bool, bank: Bank<int>, listed: seq<Listed>,
                                   failed: Bank<int>)
  {
    forall k, n :: 0 <= k < |listed| && IsListedOnce(listed, k) && AsksFor(listed[k], n) ==>
                     failed[listed[k].item.id] ==
                     if bank[listed[k].item.id] >= n && IsUnskilled(meets, listed[k]) then n else 0
  }

  ghost predicate IsListedOnce(listed: seq<Listed>, k: nat)
    requires k < |listed|
  {
    forall j :: 0 <= j < |listed| && listed[j].item.id == listed[k].item.id ==> j == k
  }

  lemma AsksForQuantity(l: Listed, n: nat)
    ensures AsksFor(l, n) <==> n == Quantity(l)
  {
  }

  lemma EnoughIsAffordable(bank: Bank<int>, l: Listed)
    ensures HasEnough(bank, l) <==> Affordable(bank, l)
  {
    AsksForQuantity(l, Quantity(l));
  }

  lemma ClashIsConflict(a: Slot, b: Slot)
    ensures Clash(a, b) <==> Conflicts(a, b)
  {
    assert Clash(a, b) && a != b ==> OneHand(a) || OneHand(b);
    if Conflicts(a, b) && a != b {
      assert (if OneHand(a) then a else b) in {a, b} * {Weapon, Shield};
    }
  }

  lemma InTheWayIsConflict(listed: seq<Listed>, chosen: seq<bool>, k: nat)
    requires k < |listed| == |chosen| && listed[k].item.equipment.Some?
    requires forall j :: 0 <= j < k && chosen[j] ==> listed[j].item.equipment.Some?
    ensures InTheWay(listed, chosen, k) <==>
            exists j :: 0 <= j < k && chosen[j] && Conflicts(EntryOf(listed[j]).slot, EntryOf(listed[k]).slot)
  {
    forall a, b ensures Clash(a, b) <==> Conflicts(a, b)
    {
      ClashIsConflict(a, b);
    }
    if j :| 0 <= j < k && chosen[j] && Conflicts(EntryOf(listed[j]).slot, EntryOf(listed[k]).slot) {
      assert GoesTo(listed[j], EntryOf(listed[j]).slot) && GoesTo(listed[k], EntryOf(listed[k]).slot);
    }
  }

  lemma ChoiceIsFair(meets: Requirements -> bool, bank: Bank<int>, listed: seq<Listed>, chosen: seq<bool>)
    requires IsChoice(meets, bank, listed, chosen)
    ensures ChoosesFairly(meets, bank, listed, chosen)
  {
    forall k | 0 <= k < |listed|
      ensures chosen[k] <==>
              && HasEnough(bank, listed[k]) && !IsUnskilled(meets, listed[k])
              && listed[k].item.equipableByPlayer && listed[k].item.equipment.Some?
              && !InTheWay(listed, chosen, k)
    {
      EnoughIsAffordable(bank, listed[k]);
      if listed[k].item.equipment.Some? {
        InTheWayIsConflict(listed, chosen, k);
      }
    }
  }

  /** A chosen item is among the picked entries, and the only one with its id. */
  lemma {:induction false} PickedHolds(listed: seq<Listed>, chosen: seq<bool>, k: nat)
    requires |chosen| == |listed| && k < |listed| && chosen[k]
    requires forall j :: 0 <= j < |listed| && chosen[j] ==> listed[j].item.equipment.Some?
    requires forall j :: 0 <= j < |listed| && chosen[j] && listed[j].item.id == listed[k].item.id ==> j == k
    ensures EntryOf(listed[k]) in Picked(listed, chosen)
    ensures Cost(Picked(listed, chosen))[listed[k].item.id] == Quantity(listed[k])
  {
    var n := |listed| - 1;
    var before := Picked(listed[..n], chosen[..n]);
    if k == n {
      PickedIds(listed[..n], chosen[..n], listed[k].item.id);
      CostGrows(before, EntryOf(listed[n]));
      assert Picked(listed, chosen)[|before|] == EntryOf(listed[n]);
    } else {
      PickedHolds(listed[..n], chosen[..n], k);
      assert EntryOf(listed[..n][k]) == EntryOf(listed[k]);
      if chosen[n] {
        CostGrows(before, EntryOf(listed[n]));
      } else {
        assert Picked(listed, chosen) == before;
      }
    }
  }

  /** No two chosen items share an id. */
  lemma ChosenOnce(meets: Requirements -> bool, bank: Bank<int>, listed: seq<Listed>, chosen: seq<bool>, k: nat)
    requires IsChoice(meets, bank, listed, chosen) && Consistent(listed) && k < |listed| && chosen[k]
    ensures forall j :: 0 <= j < |listed| && chosen[j] && listed[j].item.id == listed[k].item.id ==> j == k
  {
    forall j | 0 <= j < |listed| && chosen[j] && listed[j].item.id == listed[k].item.id ensures j == k
    {
      assert Conflicts(EntryOf(listed[j]).slot, EntryOf(listed[k]).slot);
      assert Conflicts(EntryOf(listed[k]).slot, EntryOf(listed[j]).slot);
    }
  }

  lemma ChosenIsWorn(meets: Requirements -> bool, bank: Bank<int>, listed: seq<Listed>, chosen: seq<bool>, k: nat)
    requires IsChoice(meets, bank, listed, chosen) && Consistent(listed) && k < |listed| && chosen[k]
    ensures var e, target := EntryOf(listed[k]), Target(Picked(listed, chosen));
            && e.slot in target && target[e.slot] == GearItem(e.id, e.quantity)
            && Cost(Picked(listed, chosen))[e.id] == e.quantity
  {
    PickedConflictFree(meets, bank, listed, chosen);
    TargetHolds(Picked(listed, chosen));
    ChosenOnce(meets, bank, listed, chosen, k);
    PickedHolds(listed, chosen, k);
  }

  lemma ChosenIsPutOn(meets: Requirements -> bool, bank: Bank<int>, worn: Gear, listed: seq<Listed>,
                      chosen: seq<bool>, k: nat)
    requires IsChoice(meets, bank, listed, chosen) && Consistent(listed) && k < |listed| && chosen[k]
    ensures IsPutOn(listed[k], GearAfter(worn, Target(Picked(listed, chosen))), Cost(Picked(listed, chosen)))
  {
    ChosenIsWorn(meets, bank, listed, chosen, k);
    forall n | AsksFor(listed[k], n) ensures n == Quantity(listed[k])
    {
      AsksForQuantity(listed[k], n);
    }
  }

  lemma ChoicePutsOn(meets: Requirements -> bool, bank: Bank<int>, worn: Gear, listed: seq<Listed>, chosen: seq<bool>)
    requires IsChoice(meets, bank, listed, chosen) && Consistent(listed)
    ensures PutsOn(listed, chosen, GearAfter(worn, Target(Picked(listed, chosen))), Cost(Picked(listed, chosen)))
  {
    var gear, cost := GearAfter(worn, Target(Picked(listed, chosen))), Cost(Picked(listed, chosen));
    forall k | 0 <= k < |listed| && chosen[k] ensures IsPutOn(listed[k], gear, cost)
    {
      ChosenIsPutOn(meets, bank, worn, listed, chosen, k);
    }
    forall id | id in cost ensures exists k :: 0 <= k < |listed| && chosen[k] && listed[k].item.id == id
    {
      CostIsChosen(listed, chosen, id);
    }
  }

  lemma CostIsChosen(listed: seq<Listed>, chosen: seq<bool>, id: int)
    requires |chosen| == |listed|
    requires forall k :: 0 <= k < |listed| && chosen[k] ==> listed[k].item.equipment.Some?
    requires id in Cost(Picked(listed, chosen))
    ensures exists k :: 0 <= k < |listed| && chosen[k] && listed[k].item.id == id
  {
    if forall k :: 0 <= k < |listed| && chosen[k] ==> listed[k].item.id != id {
      PickedIds(listed, chosen, id);
    }
  }

  lemma TargetIsChosen(meets: Requirements -> bool, bank: Bank<int>, listed: seq<Listed>, chosen: seq<bool>, s: Slot)
    requires IsChoice(meets, bank, listed, chosen)
    ensures s in Target(Picked(listed, chosen)) ==> exists k :: 0 <= k < |listed| && chosen[k] && GoesTo(listed[k], s)
  {
    PickedConflictFree(meets, bank, listed, chosen);
    TargetHolds(Picked(listed, chosen));
    if s in Target(Picked(listed, chosen)) {
      var e :| e in Picked(listed, chosen) && e.slot == s;
      var k :| 0 <= k < |listed| && chosen[k] && EntryOf(listed[k]) == e;
      assert GoesTo(listed[k], s);
    }
  }

  /** The slots displaced are those that clash with a chosen item. */
  lemma ClearedIsDisplaced(meets: Requirements -> bool, bank: Bank<int>, listed: seq<Listed>, chosen: seq<bool>,
                           s: Slot)
    requires IsChoice(meets, bank, listed, chosen) && Consistent(listed)
    ensures IsCleared(listed, chosen, s) <==> s in Displaces(Target(Picked(listed, chosen)).Keys)
  {
    var slots := Target(Picked(listed, chosen)).Keys;
    DisplacesIsConflict(slots, s);
    if IsCleared(listed, chosen, s) {
      var k, a :| 0 <= k < |listed| && chosen[k] && GoesTo(listed[k], a) && Clash(a, s);
      ClashIsConflict(a, s);
      ChosenIsWorn(meets, bank, listed, chosen, k);
      assert a in slots;
    }
    if t :| t in slots && Conflicts(t, s) {
      ClashIsConflict(t, s);
      TargetIsChosen(meets, bank, listed, chosen, t);
    }
  }

  lemma ChoiceKeepsTheRest(meets: Requirements -> bool, bank: Bank<int>, worn: Gear, listed: seq<Listed>,
                           chosen: seq<bool>, gear: Gear)
    requires IsChoice(meets, bank, listed, chosen) && Consistent(listed)
    requires gear == GearAfter(worn, Target(Picked(listed, chosen)))
    ensures KeepsTheRest(listed, chosen, worn, gear)
  {
    var target := Target(Picked(listed, chosen));
    forall s
      ensures IsCleared(listed, chosen, s) <==> s in Displaces(target.Keys)
      ensures s in target ==> exists k :: 0 <= k < |listed| && chosen[k] && GoesTo(listed[k], s)
    {
      ClearedIsDisplaced(meets, bank, listed, chosen, s);
      TargetIsChosen(meets, bank, listed, chosen, s);
    }
  }

  lemma {:induction false} FailsElsewhere(meets: Requirements -> bool, bank: Bank<int>, listed: seq<Listed>, id: int)
    requires forall j :: 0 <= j < |listed| ==> listed[j].item.id != id
    ensures id !in SkillFails(meets, bank, listed)
  {
    if listed != [] {
      FailsElsewhere(meets, bank, listed[..|listed| - 1], id);
    }
  }

  lemma {:induction false} FailsAt(meets: Requirements -> bool, bank: Bank<int>, listed: seq<Listed>, k: nat, n: nat)
    requires k < |listed| && IsListedOnce(listed, k) && AsksFor(listed[k], n)
    ensures SkillFails(meets, bank, listed)[listed[k].item.id] ==
            if bank[listed[k].item.id] >= n && IsUnskilled(meets, listed[k]) then n else 0
  {
    AsksForQuantity(listed[k], n);
    var last := |listed| - 1;
    if k == last {
      FailsElsewhere(meets, bank, listed[..last], listed[k].item.id);
    } else {
      var first := listed[..last];
      assert forall j :: 0 <= j < last ==> first[j] == listed[j];
      assert listed[last].item.id != listed[k].item.id;
      FailsAt(meets, bank, first, k, n);
    }
  }

  lemma FailsAreReported(meets: Requirements -> bool, bank: Bank<int>, listed: seq<Listed>)
    ensures ReportsUnskilled(meets, bank, listed, SkillFails(meets, bank, listed))
  {
    forall k, n | 0 <= k < |listed| && IsListedOnce(listed, k) && AsksFor(listed[k], n)
      ensures SkillFails(meets, bank, listed)[listed[k].item.id] ==
              if bank[listed[k].item.id] >= n && IsUnskilled(meets, listed[k]) then n else 0
    {
      FailsAt(meets, bank, listed, k, n);
    }
  }

  /** A bank yields its entries in an order of its own. */
  method BankItems(picked: seq<Entry>) returns (entries: seq<Entry>)
    ensures multiset(entries) == multiset(picked)
  {
    entries := picked;
  }

  method GearEquipMulti(validSetup: bool, meets: Requirements -> bool, bank: Bank<int>, worn: Gear,
                        listed: seq<Listed>)
    returns (r: Outcome, ghost chosen: seq<bool>)
    requires Consistent(listed)
    ensures r.InvalidSetup? <==> !validSetup
    ensures r.Equipped? ==>
              && IsChoice(meets, bank, listed, chosen)
              && r.equipBank == Cost(Picked(listed, chosen)) <= bank
              && r.skillFailBank == SkillFails(meets, bank, listed)
              && Outfits(worn, Picked(listed, chosen), r.equippedGear, r.unequipBank)
    ensures r.Equipped? ==> Contents(worn) + r.equipBank == Contents(r.equippedGear) + r.unequipBank
    ensures r.Equipped? && HandsAgree(worn) ==> HandsAgree(r.equippedGear)
    ensures r.Equipped? ==>
              && ChoosesFairly(meets, bank, listed, chosen)
              && PutsOn(listed, chosen, r.equippedGear, r.equipBank)
              && KeepsTheRest(listed, chosen, worn, r.equippedGear)
              && ReportsUnskilled(meets, bank, listed, r.skillFailBank)
  {
    chosen := [];
    if !validSetup {
      return InvalidSetup, chosen;
    }
    var equipBank, failed, choice := Choose(meets, bank, listed);
    var picked := Picked(listed, choice);
    var entries := BankItems(picked);
    var gear, unequipBank := Apply(worn, entries);
    PickedConflictFree(meets, bank, listed, choice);
    PickedFromBank(meets, bank, listed, choice);
    AnyOrderOutfits(worn, picked, entries, Worn(gear, unequipBank));
    ChoiceIsFair(meets, bank, listed, choice);
    ChoicePutsOn(meets, bank, worn, listed, choice);
    ChoiceKeepsTheRest(meets, bank, worn, listed, choice, gear);
    FailsAreReported(meets, bank, listed);
    r, chosen := Equipped(equipBank, unequipBank, failed, gear), choice;
  }
}
