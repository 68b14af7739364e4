/** Re-dealing slayer drops to the least owned set pieces: filterLootReplace in src/lib/slayer/slayerUtil.ts. */
module LootReplace {
  import opened Banks
  import opened Pieces

  datatype Item =
    | BlackMaskCharged | BlackMask
    | HydraEye | HydraFang | HydraHeart
    | TotemBase | TotemMiddle | TotemTop
    | BludgeonClaw | BludgeonSpine | BludgeonAxon
    | Other(id: int)

  type Loot = Bank<Item>

  const RING_PIECES: seq<Item> := [HydraEye, HydraFang, HydraHeart]
  const TOTEM_PIECES: seq<Item> := [TotemBase, TotemMiddle, TotemTop]
  const BLUDGEON_PIECES: seq<Item> := [BludgeonClaw, BludgeonSpine, BludgeonAxon]

  ghost predicate Distinct(pieces: seq<Item>) {
    forall i, j :: 0 <= i < j < |pieces| ==> pieces[i] != pieces[j]
  }

  predicate Replaced(i: Item) {
    i.BlackMaskCharged? || i.HydraEye? || i.HydraFang? || i.HydraHeart? ||
    i.TotemBase? || i.TotemMiddle? || i.TotemTop? || i.BludgeonClaw?
  }

  /** The loot that is kept as it came: the charged masks and the pieces to be re-dealt are filtered out. */
  function Kept(loot: Loot): (r: Loot)
    ensures forall i :: r[i] == if Replaced(i) then 0 else loot[i]
  {
    loot[BlackMaskCharged := 0][HydraEye := 0][HydraFang := 0][HydraHeart := 0]
        [TotemBase := 0][TotemMiddle := 0][TotemTop := 0][BludgeonClaw := 0]
  }

  /** The three running banks of a dealing loop. */
  datatype Piles = Piles(loot: Loot, combined: Loot, clLoot: Loot)

  function Give(b: Piles, piece: Item): Piles {
    Piles(Add(b.loot, piece, 1), Add(b.combined, piece, 1), Add(b.clLoot, piece, 1))
  }

  /** `after` is `before` with the same n pieces of one family added to all three banks, as the greedy rule on the
      combined bank says. */
  ghost predicate Dealt(before: Piles, pieces: seq<Item>, n: nat, given: Loot, after: Piles)
    requires pieces != []
  {
    && after.loot == before.loot + given
    && after.combined == before.combined + given
    && after.clLoot == before.clLoot + given
    && (forall i :: i in given ==> i in pieces)
    && |given| == n
    && Amounts(after.combined, pieces) == Greedy(Amounts(before.combined, pieces), n)
  }

  lemma DealtOneMore(before: Piles, pieces: seq<Item>, n: nat, given: Loot, after: Piles, k: nat)
    requires pieces != [] && Distinct(pieces) && Dealt(before, pieces, n, given, after)
    requires k == FirstLeast(Amounts(after.combined, pieces))
    ensures Dealt(before, pieces, n + 1, Add(given, pieces[k], 1), Give(after, pieces[k]))
  {
    AmountsAfterOne(after.combined, pieces, k);
  }

  lemma AmountsAfterOne(bank: Loot, pieces: seq<Item>, k: nat)
    requires Distinct(pieces) && k < |pieces|
    ensures Amounts(Add(bank, pieces[k], 1), pieces) == Amounts(bank, pieces)[k := bank[pieces[k]] + 1]
  {
  }

  /** One family's loop: `n` pieces, each to the first kind owned least in the combined bank. */
  method DealPieces(pieces: seq<Item>, n: nat, before: Piles) returns (after: Piles)
    requires pieces != [] && Distinct(pieces)
    ensures before.loot <= after.loot
    ensures Dealt(before, pieces, n, after.loot - before.loot, after)
  {
    after := before;
    ghost var given: Loot := multiset{};
    for x := 0 to n
      invariant Dealt(before, pieces, x, given, after)
    {
      var i := FirstMinimal(Amounts(after.combined, pieces));
      DealtOneMore(before, pieces, x, given, after, i);
      given := Add(given, pieces[i], 1);
      after := Give(after, pieces[i]);
    }
    assert before.loot + given - before.loot == given;
  }

  lemma FamiliesDistinct()
    ensures Distinct(RING_PIECES) && Distinct(TOTEM_PIECES) && Distinct(BLUDGEON_PIECES)
  {
  }

  function RingCount(loot: Loot): nat {
    loot[HydraEye] + loot[HydraFang] + loot[HydraHeart]
  }

  /** What one family ends up as in the player's possession. */
  ghost predicate FamilyDealt(myBank: Loot, myLoot: Loot, bankLoot: Loot, pieces: seq<Item>, n: nat)
    requires pieces != []
  {
    Amounts(myBank + bankLoot, pieces) == Greedy(Amounts(myBank + Kept(myLoot), pieces), n)
  }

  method FilterLootReplace(myBank: Loot, myLoot: Loot) returns (bankLoot: Loot, clLoot: Loot)
    ensures FamilyDealt(myBank, myLoot, bankLoot, BLUDGEON_PIECES, myLoot[BludgeonClaw])
    ensures FamilyDealt(myBank, myLoot, bankLoot, TOTEM_PIECES, myLoot[TotemBase])
    ensures FamilyDealt(myBank, myLoot, bankLoot, RING_PIECES, RingCount(myLoot))
    ensures forall id :: bankLoot[Other(id)] == myLoot[Other(id)]
    ensures bankLoot[BlackMaskCharged] == 0 && bankLoot[BlackMask] == myLoot[BlackMask] + myLoot[BlackMaskCharged]
    ensures clLoot == bankLoot[BlackMaskCharged := myLoot[BlackMaskCharged]][BlackMask := myLoot[BlackMask]]
    ensures |bankLoot| + myLoot[TotemMiddle] + myLoot[TotemTop] == |myLoot|
    ensures |bankLoot| == |myLoot| <==> myLoot[TotemMiddle] == 0 && myLoot[TotemTop] == 0
  {
    var numBlackMask := myLoot[BlackMaskCharged];
    var numHydraEyes := RingCount(myLoot);
    var numDarkTotemBases := myLoot[TotemBase];
    var numBludgeonPieces := myLoot[BludgeonClaw];
    var kept := Kept(myLoot);
    var loot, cl := kept, kept;
    for x := 0 to numBlackMask
      invariant loot == kept + Copies(BlackMask, x) && cl == kept + Copies(BlackMaskCharged, x)
    {
      loot := Add(loot, BlackMask, 1);
      cl := Add(cl, BlackMaskCharged, 1);
    }
    FamiliesDistinct();
    var b0 := Piles(loot, myBank + loot, cl);
    var b1 := DealPieces(BLUDGEON_PIECES, numBludgeonPieces, b0);
    var b2 := DealPieces(TOTEM_PIECES, numDarkTotemBases, b1);
    var b3 := DealPieces(RING_PIECES, numHydraEyes, b2);
    ghost var g1, g2, g3 := b1.loot - b0.loot, b2.loot - b1.loot, b3.loot - b2.loot;
    bankLoot, clLoot := b3.loot, b3.clLoot;
    FamiliesMeanwhile(myBank, myLoot, b0, g1, b1, g2, b2, g3, b3);
    FamilyPieces(g1, BLUDGEON_PIECES);
    FamilyPieces(g2, TOTEM_PIECES);
    FamilyPieces(g3, RING_PIECES);
    BanksMeanwhile(myLoot, b0, g1, b1, g2, b2, g3, b3);
    SizesMeanwhile(myLoot, b0, g1, b1, g2, b2, g3, b3);
  }

  ghost predicate Apart(a: seq<Item>, b: seq<Item>) {
    forall i :: i in a ==> i !in b
  }

  lemma FamiliesApart()
    ensures Apart(BLUDGEON_PIECES, TOTEM_PIECES) && Apart(BLUDGEON_PIECES, RING_PIECES)
    ensures Apart(TOTEM_PIECES, BLUDGEON_PIECES) && Apart(TOTEM_PIECES, RING_PIECES)
    ensures Apart(RING_PIECES, BLUDGEON_PIECES) && Apart(RING_PIECES, TOTEM_PIECES)
  {
  }

  /** Dealing one family leaves the counts of another alone. */
  lemma OtherFamily(b: Piles, theirs: seq<Item>, n: nat, given: Loot, c: Piles, mine: seq<Item>)
    requires theirs != [] && Dealt(b, theirs, n, given, c) && Apart(mine, theirs)
    ensures Amounts(c.combined, mine) == Amounts(b.combined, mine)
  {
    AmountsAgree(c.combined, b.combined, mine);
  }

  /** Each family ends up dealt from what the player had and kept. */
  lemma FamiliesMeanwhile(myBank: Loot, myLoot: Loot, b0: Piles, g1: Loot, b1: Piles, g2: Loot, b2: Piles,
                          g3: Loot, b3: Piles)
    requires b0.loot == Kept(myLoot) + Copies(BlackMask, myLoot[BlackMaskCharged])
    requires b0.combined == myBank + b0.loot
    requires Dealt(b0, BLUDGEON_PIECES, myLoot[BludgeonClaw], g1, b1)
    requires Dealt(b1, TOTEM_PIECES, myLoot[TotemBase], g2, b2)
    requires Dealt(b2, RING_PIECES, RingCount(myLoot), g3, b3)
    ensures FamilyDealt(myBank, myLoot, b3.loot, BLUDGEON_PIECES, myLoot[BludgeonClaw])
    ensures FamilyDealt(myBank, myLoot, b3.loot, TOTEM_PIECES, myLoot[TotemBase])
    ensures FamilyDealt(myBank, myLoot, b3.loot, RING_PIECES, RingCount(myLoot))
  {
    FamiliesApart();
    assert myBank + b3.loot == b3.combined by {
      assert b3.loot == b0.loot + g1 + g2 + g3 && b3.combined == myBank + b0.loot + g1 + g2 + g3;
    }
    AmountsAgree(b0.combined, myBank + Kept(myLoot), BLUDGEON_PIECES);
    AmountsAgree(b0.combined, myBank + Kept(myLoot), TOTEM_PIECES);
    AmountsAgree(b0.combined, myBank + Kept(myLoot), RING_PIECES);
    OtherFamily(b1, TOTEM_PIECES, myLoot[TotemBase], g2, b2, BLUDGEON_PIECES);
    OtherFamily(b2, RING_PIECES, RingCount(myLoot), g3, b3, BLUDGEON_PIECES);
    OtherFamily(b0, BLUDGEON_PIECES, myLoot[BludgeonClaw], g1, b1, TOTEM_PIECES);
    OtherFamily(b2, RING_PIECES, RingCount(myLoot), g3, b3, TOTEM_PIECES);
    OtherFamily(b0, BLUDGEON_PIECES, myLoot[BludgeonClaw], g1, b1, RING_PIECES);
    OtherFamily(b1, TOTEM_PIECES, myLoot[TotemBase], g2, b2, RING_PIECES);
  }

  ghost predicate OnlyPieces(given: Loot) {
    forall i :: i in given ==> !i.BlackMask? && !i.BlackMaskCharged? && !i.Other?
  }

  lemma FamilyPieces(given: Loot, pieces: seq<Item>)
    requires pieces == RING_PIECES || pieces == TOTEM_PIECES || pieces == BLUDGEON_PIECES
    requires forall i :: i in given ==> i in pieces
    ensures OnlyPieces(given)
  {
  }

  /** Outside the families only the masks change, and there the bank and the log differ. */
  lemma MasksDiffer(myLoot: Loot, kept: Loot, given: Loot, bankLoot: Loot, clLoot: Loot)
    requires forall i :: kept[i] == if Replaced(i) then 0 else myLoot[i]
    requires OnlyPieces(given)
    requires bankLoot == kept + Copies(BlackMask, myLoot[BlackMaskCharged]) + given
    requires clLoot == kept + Copies(BlackMaskCharged, myLoot[BlackMaskCharged]) + given
    ensures forall id :: bankLoot[Other(id)] == myLoot[Other(id)]
    ensures bankLoot[BlackMaskCharged] == 0 && bankLoot[BlackMask] == myLoot[BlackMask] + myLoot[BlackMaskCharged]
    ensures clLoot == bankLoot[BlackMaskCharged := myLoot[BlackMaskCharged]][BlackMask := myLoot[BlackMask]]
  {
  }

  lemma KeptSize(loot: Loot)
    ensures |Kept(loot)| + loot[BlackMaskCharged] + RingCount(loot) + loot[TotemBase] + loot[TotemMiddle]
            + loot[TotemTop] + loot[BludgeonClaw] == |loot|
  {
  }

  /** What the three dealing loops add up to. */
  lemma BanksMeanwhile(myLoot: Loot, b0: Piles, g1: Loot, b1: Piles, g2: Loot, b2: Piles, g3: Loot, b3: Piles)
    requires b0.loot == Kept(myLoot) + Copies(BlackMask, myLoot[BlackMaskCharged])
    requires b0.clLoot == Kept(myLoot) + Copies(BlackMaskCharged, myLoot[BlackMaskCharged])
    requires b1.loot == b0.loot + g1 && b1.clLoot == b0.clLoot + g1
    requires b2.loot == b1.loot + g2 && b2.clLoot == b1.clLoot + g2
    requires b3.loot == b2.loot + g3 && b3.clLoot == b2.clLoot + g3
    requires OnlyPieces(g1) && OnlyPieces(g2) && OnlyPieces(g3)
    ensures forall id :: b3.loot[Other(id)] == myLoot[Other(id)]
    ensures b3.loot[BlackMaskCharged] == 0 && b3.loot[BlackMask] == myLoot[BlackMask] + myLoot[BlackMaskCharged]
    ensures b3.clLoot == b3.loot[BlackMaskCharged := myLoot[BlackMaskCharged]][BlackMask := myLoot[BlackMask]]
  {
    var given := g1 + g2 + g3;
    assert b3.loot == b0.loot + given;
    assert b3.clLoot == b0.clLoot + given;
    MasksDiffer(myLoot, Kept(myLoot), given, b3.loot, b3.clLoot);
  }

  /** The dealt pieces make up for the ones filtered out, all but the two totem pieces. */
  lemma SizesMeanwhile(myLoot: Loot, b0: Piles, g1: Loot, b1: Piles, g2: Loot, b2: Piles, g3: Loot, b3: Piles)
    requires b0.loot == Kept(myLoot) + Copies(BlackMask, myLoot[BlackMaskCharged])
    requires b1.loot == b0.loot + g1 && |g1| == myLoot[BludgeonClaw]
    requires b2.loot == b1.loot + g2 && |g2| == myLoot[TotemBase]
    requires b3.loot == b2.loot + g3 && |g3| == RingCount(myLoot)
    ensures |b3.loot| + myLoot[TotemMiddle] + myLoot[TotemTop] == |myLoot|
  {
    KeptSize(myLoot);
  }

  lemma AmountsAgree(a: Loot, b: Loot, pieces: seq<Item>)
    requires forall i :: i in pieces ==> a[i] == b[i]
    ensures Amounts(a, pieces) == Amounts(b, pieces)
  {
  }

  /** No other way of replacing a family's pieces would leave the player with more complete sets. */
  lemma SetsAreMaximal(myBank: Loot, myLoot: Loot, bankLoot: Loot, pieces: seq<Item>, n: nat, given: seq<nat>)
    requires pieces != [] && FamilyDealt(myBank, myLoot, bankLoot, pieces, n)
    requires |given| == |pieces| && Sum(given) == n
    ensures Min(Plus(Amounts(myBank + Kept(myLoot), pieces), given)) <= Min(Amounts(myBank + bankLoot, pieces))
  {
    GreedyIsOptimal(Amounts(myBank + Kept(myLoot), pieces), n, given);
  }
}
