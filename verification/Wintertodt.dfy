/** Opening Wintertodt supply crates: rollUnique and open in src/lib/simulation/wintertodt.ts. */
module Wintertodt {
  import opened Banks
  import opened Pieces

  datatype Item =
    | DragonAxe | Phoenix | TomeOfFire | WarmGloves | MagicSeed | BrumaTorch | TorstolSeed
    | Garb | Hood | Robe | Boots
    | Material(id: int)

  type Loot = Bank<Item>

  const PYRO_PIECES: seq<Item> := [Garb, Hood, Robe, Boots]

  /** How the dice of one reward roll fell: the first unique that hit, or the materials rolled instead. */
  datatype Dice =
    | AxeHit | PhoenixHit | TomeHit | GlovesHit | TorchHit | PieceHit
    | NoUnique(material: int, quantity: nat)

  /** How many of each outfit piece a bank holds. */
  function Outfit(bank: Loot): (r: seq<nat>)
    ensures |r| == 4
  {
    Amounts(bank, PYRO_PIECES)
  }

  /** The unique won, or none: gloves and torches turn into seeds from the fourth on. */
  method RollUnique(dice: Dice, itemsOwned: Loot) returns (r: Option<Item>)
    ensures r.None? <==> dice.NoUnique?
    ensures dice.AxeHit? <==> r == Some(DragonAxe)
    ensures dice.PhoenixHit? <==> r == Some(Phoenix)
    ensures dice.TomeHit? <==> r == Some(TomeOfFire)
    ensures dice.GlovesHit? <==> r == Some(WarmGloves) || r == Some(MagicSeed)
    ensures dice.TorchHit? <==> r == Some(BrumaTorch) || r == Some(TorstolSeed)
    ensures r == Some(WarmGloves) ==> itemsOwned[WarmGloves] < 3
    ensures r == Some(MagicSeed) ==> itemsOwned[WarmGloves] >= 3
    ensures r == Some(BrumaTorch) ==> itemsOwned[BrumaTorch] < 3
    ensures r == Some(TorstolSeed) ==> itemsOwned[BrumaTorch] >= 3
    ensures dice.PieceHit? ==> r == Some(PYRO_PIECES[FirstLeast(Outfit(itemsOwned))])
    ensures !dice.PieceHit? && r.Some? ==> r.value !in PYRO_PIECES
  {
    match dice {
      case AxeHit => r := Some(DragonAxe);
      case PhoenixHit => r := Some(Phoenix);
      case TomeHit => r := Some(TomeOfFire);
      case GlovesHit =>
        if itemsOwned[WarmGloves] >= 3 {
          return Some(MagicSeed);
        }
        r := Some(WarmGloves);
      case TorchHit =>
        if itemsOwned[BrumaTorch] >= 3 {
          return Some(TorstolSeed);
        }
        r := Some(BrumaTorch);
      case PieceHit =>
        var i := FirstMinimal(Outfit(itemsOwned));
        assert i == 0 || i == 1 || i == 2 || i == 3;
        r := Some(PYRO_PIECES[i]);
      case NoUnique(_, _) => r := None;
    }
  }

  /** How many rolls came up with this. */
  ghost function Hits(dice: seq<Dice>, d: Dice): nat {
    multiset(dice)[d]
  }

  /** How much of a material was rolled. */
  ghost function Rolled(dice: seq<Dice>, material: int): nat {
    if dice == [] then 0
    else
      var last := dice[|dice| - 1];
      Rolled(dice[..|dice| - 1], material) + if last.NoUnique? && last.material == material then last.quantity else 0
  }

  lemma HitsMore(dice: seq<Dice>, i: nat, d: Dice)
    requires i < |dice|
    ensures Hits(dice[..i + 1], d) == Hits(dice[..i], d) + if dice[i] == d then 1 else 0
  {
    assert dice[..i + 1] == dice[..i] + [dice[i]];
  }

  lemma RolledMore(dice: seq<Dice>, i: nat, material: int)
    requires i < |dice|
    ensures Rolled(dice[..i + 1], material) ==
            Rolled(dice[..i], material) +
            if dice[i].NoUnique? && dice[i].material == material then dice[i].quantity else 0
  {
    assert dice[..i + 1][..i] == dice[..i];
  }

  /** Up to three of the item are won, and seeds from then on. */
  ghost predicate WonUpToThree(itemsOwned: Loot, loot: Loot, item: Item, seed: Item, hits: nat) {
    && loot[item] + loot[seed] == hits
    && (loot[item] > 0 ==> itemsOwned[item] + loot[item] <= 3)
    && (loot[seed] > 0 ==> itemsOwned[item] + loot[item] >= 3)
  }

  /** Each roll is in the loot, under the item it gives. */
  ghost predicate Tallied(itemsOwned: Loot, dice: seq<Dice>, loot: Loot) {
    && loot[DragonAxe] == Hits(dice, AxeHit)
    && loot[Phoenix] == Hits(dice, PhoenixHit)
    && loot[TomeOfFire] == Hits(dice, TomeHit)
    && WonUpToThree(itemsOwned, loot, WarmGloves, MagicSeed, Hits(dice, GlovesHit))
    && WonUpToThree(itemsOwned, loot, BrumaTorch, TorstolSeed, Hits(dice, TorchHit))
    && loot[Garb] + loot[Hood] + loot[Robe] + loot[Boots] == Hits(dice, PieceHit)
    && forall material :: loot[Material(material)] == Rolled(dice, material)
  }

  /** What a roll of these dice may add to the loot. */
  ghost predicate Gives(d: Dice, before: Loot, one: Item, quantity: nat) {
    match d
    case AxeHit => one == DragonAxe && quantity == 1
    case PhoenixHit => one == Phoenix && quantity == 1
    case TomeHit => one == TomeOfFire && quantity == 1
    case GlovesHit => one == (if before[WarmGloves] >= 3 then MagicSeed else WarmGloves) && quantity == 1
    case TorchHit => one == (if before[BrumaTorch] >= 3 then TorstolSeed else BrumaTorch) && quantity == 1
    case PieceHit => one == PYRO_PIECES[FirstLeast(Outfit(before))] && quantity == 1
    case NoUnique(material, n) => one == Material(material) && quantity == n
  }

  /** The greedy counts after these rolls. */
  ghost predicate DealtSoFar(itemsOwned: Loot, dice: seq<Dice>, loot: Loot) {
    Outfit(itemsOwned + loot) == Greedy(Outfit(itemsOwned), Hits(dice, PieceHit))
  }

  /** After a crate the pieces are dealt by the greedy rule, and every roll is in the loot. */
  ghost predicate Opened(itemsOwned: Loot, dice: seq<Dice>, loot: Loot) {
    DealtSoFar(itemsOwned, dice, loot) && Tallied(itemsOwned, dice, loot)
  }

  lemma PieceWon(itemsOwned: Loot, loot: Loot, k: nat)
    requires k < 4
    ensures var before := Outfit(itemsOwned + loot);
            Outfit(itemsOwned + Add(loot, PYRO_PIECES[k], 1)) == before[k := before[k] + 1]
  {
    assert k == 0 || k == 1 || k == 2 || k == 3;
  }

  lemma OtherWon(itemsOwned: Loot, loot: Loot, one: Item, quantity: nat)
    requires one !in PYRO_PIECES
    ensures Outfit(itemsOwned + Add(loot, one, quantity)) == Outfit(itemsOwned + loot)
  {
    assert PYRO_PIECES[0] != one && PYRO_PIECES[1] != one && PYRO_PIECES[2] != one && PYRO_PIECES[3] != one;
  }

  lemma PieceDeals(itemsOwned: Loot, loot: Loot, n: nat, one: Item)
    requires Outfit(itemsOwned + loot) == Greedy(Outfit(itemsOwned), n)
    requires one == PYRO_PIECES[FirstLeast(Outfit(itemsOwned + loot))]
    ensures Outfit(itemsOwned + Add(loot, one, 1)) == Greedy(Outfit(itemsOwned), n + 1)
  {
    PieceWon(itemsOwned, loot, FirstLeast(Outfit(itemsOwned + loot)));
  }

  lemma OnlyPiecesGivePieces(d: Dice, before: Loot, one: Item, quantity: nat)
    requires Gives(d, before, one, quantity) && d != PieceHit
    ensures one !in PYRO_PIECES
  {
    assert one in PYRO_PIECES ==> one == Garb || one == Hood || one == Robe || one == Boots;
  }

  lemma RollDeals(itemsOwned: Loot, dice: seq<Dice>, i: nat, loot: Loot, one: Item, quantity: nat)
    requires i < |dice| && DealtSoFar(itemsOwned, dice[..i], loot)
    requires Gives(dice[i], itemsOwned + loot, one, quantity)
    ensures DealtSoFar(itemsOwned, dice[..i + 1], Add(loot, one, quantity))
  {
    HitsMore(dice, i, PieceHit);
    if dice[i] == PieceHit {
      PieceDeals(itemsOwned, loot, Hits(dice[..i], PieceHit), one);
    } else {
      OnlyPiecesGivePieces(dice[i], itemsOwned + loot, one, quantity);
      OtherWon(itemsOwned, loot, one, quantity);
    }
  }

  /** The tally of one kind of roll. */
  lemma PlainTally(dice: seq<Dice>, i: nat, d: Dice, before: Loot, loot: Loot, one: Item, quantity: nat, item: Item)
    requires i < |dice| && Gives(dice[i], before, one, quantity)
    requires (d, item) in {(AxeHit, DragonAxe), (PhoenixHit, Phoenix), (TomeHit, TomeOfFire)}
    requires loot[item] == Hits(dice[..i], d)
    ensures Add(loot, one, quantity)[item] == Hits(dice[..i + 1], d)
  {
    HitsMore(dice, i, d);
  }

  lemma SeedTally(dice: seq<Dice>, i: nat, d: Dice, itemsOwned: Loot, loot: Loot, one: Item, quantity: nat,
                  item: Item, seed: Item)
    requires i < |dice| && Gives(dice[i], itemsOwned + loot, one, quantity)
    requires (d, item, seed) in {(GlovesHit, WarmGloves, MagicSeed), (TorchHit, BrumaTorch, TorstolSeed)}
    requires WonUpToThree(itemsOwned, loot, item, seed, Hits(dice[..i], d))
    ensures WonUpToThree(itemsOwned, Add(loot, one, quantity), item, seed, Hits(dice[..i + 1], d))
  {
    HitsMore(dice, i, d);
  }

  lemma PieceTally(dice: seq<Dice>, i: nat, before: Loot, loot: Loot, one: Item, quantity: nat)
    requires i < |dice| && Gives(dice[i], before, one, quantity)
    requires loot[Garb] + loot[Hood] + loot[Robe] + loot[Boots] == Hits(dice[..i], PieceHit)
    ensures var r := Add(loot, one, quantity);
            r[Garb] + r[Hood] + r[Robe] + r[Boots] == Hits(dice[..i + 1], PieceHit)
  {
    HitsMore(dice, i, PieceHit);
    if dice[i] == PieceHit {
      var k := FirstLeast(Outfit(before));
      assert k == 0 || k == 1 || k == 2 || k == 3;
    }
  }

  lemma MaterialTally(dice: seq<Dice>, i: nat, before: Loot, loot: Loot, one: Item, quantity: nat, material: int)
    requires i < |dice| && Gives(dice[i], before, one, quantity)
    requires loot[Material(material)] == Rolled(dice[..i], material)
    ensures Add(loot, one, quantity)[Material(material)] == Rolled(dice[..i + 1], material)
  {
    RolledMore(dice, i, material);
    if dice[i] == PieceHit {
      var k := FirstLeast(Outfit(before));
      assert k == 0 || k == 1 || k == 2 || k == 3;
    }
  }

  lemma RollTallies(itemsOwned: Loot, dice: seq<Dice>, i: nat, loot: Loot, one: Item, quantity: nat)
    requires i < |dice| && Tallied(itemsOwned, dice[..i], loot)
    requires Gives(dice[i], itemsOwned + loot, one, quantity)
    ensures Tallied(itemsOwned, dice[..i + 1], Add(loot, one, quantity))
  {
    var before := itemsOwned + loot;
    PlainTally(dice, i, AxeHit, before, loot, one, quantity, DragonAxe);
    PlainTally(dice, i, PhoenixHit, before, loot, one, quantity, Phoenix);
    PlainTally(dice, i, TomeHit, before, loot, one, quantity, TomeOfFire);
    SeedTally(dice, i, GlovesHit, itemsOwned, loot, one, quantity, WarmGloves, MagicSeed);
    SeedTally(dice, i, TorchHit, itemsOwned, loot, one, quantity, BrumaTorch, TorstolSeed);
    PieceTally(dice, i, before, loot, one, quantity);
    forall material ensures Add(loot, one, quantity)[Material(material)] == Rolled(dice[..i + 1], material)
    {
      MaterialTally(dice, i, before, loot, one, quantity, material);
    }
  }

  lemma OpenedOneMore(itemsOwned: Loot, dice: seq<Dice>, i: nat, loot: Loot, one: Item, quantity: nat)
    requires i < |dice| && Opened(itemsOwned, dice[..i], loot)
    requires Gives(dice[i], itemsOwned + loot, one, quantity)
    ensures Opened(itemsOwned, dice[..i + 1], Add(loot, one, quantity))
  {
    RollDeals(itemsOwned, dice, i, loot, one, quantity);
    RollTallies(itemsOwned, dice, i, loot, one, quantity);
  }

  /** Opening one crate, each roll seeing what the earlier ones won. */
  method Open(itemsOwned: Loot, dice: seq<Dice>) returns (loot: Loot)
    ensures Opened(itemsOwned, dice, loot)
  {
    loot := multiset{};
    assert itemsOwned + multiset{} == itemsOwned;
    for i := 0 to |dice|
      invariant Opened(itemsOwned, dice[..i], loot)
    {
      var rolledUnique := RollUnique(dice[i], itemsOwned + loot);
      if rolledUnique.Some? {
        OpenedOneMore(itemsOwned, dice, i, loot, rolledUnique.value, 1);
        loot := Add(loot, rolledUnique.value, 1);
      } else {
        OpenedOneMore(itemsOwned, dice, i, loot, Material(dice[i].material), dice[i].quantity);
        loot := Add(loot, Material(dice[i].material), dice[i].quantity);
      }
    }
    assert dice[..|dice|] == dice;
  }

  ghost predicate CrateOpened(owned: Loot, dice: seq<Dice>, after: Loot) {
    exists loot :: Opened(owned, dice, loot) && after == owned + loot
  }

  ghost predicate CrateAt(owned: seq<Loot>, crates: seq<seq<Dice>>, c: nat)
    requires c < |crates| && |owned| == |crates| + 1
  {
    CrateOpened(owned[c], crates[c], owned[c + 1])
  }

  /** A player's crates in order, each opened on what the earlier ones left. */
  ghost predicate Career(owned: seq<Loot>, crates: seq<seq<Dice>>) {
    && |owned| == |crates| + 1
    && forall c :: 0 <= c < |crates| ==> CrateAt(owned, crates, c)
  }

  ghost function AllHits(crates: seq<seq<Dice>>): nat {
    if crates == [] then 0 else AllHits(crates[..|crates| - 1]) + Hits(crates[|crates| - 1], PieceHit)
  }

  /** n pieces dealt by the greedy rule take one holding to the other. */
  ghost predicate Deals(start: Loot, end: Loot, n: nat) {
    Outfit(end) == Greedy(Outfit(start), n)
  }

  lemma DealsInTwo(start: Loot, mid: Loot, end: Loot, a: nat, b: nat)
    requires Deals(start, mid, a) && Deals(mid, end, b)
    ensures Deals(start, end, a + b)
  {
    GreedyInTwo(Outfit(start), a, b);
  }

  lemma CrateDeals(owned: Loot, dice: seq<Dice>, after: Loot)
    requires CrateOpened(owned, dice, after)
    ensures Deals(owned, after, Hits(dice, PieceHit))
  {
    var loot :| Opened(owned, dice, loot) && after == owned + loot;
  }

  lemma AllHitsMore(crates: seq<seq<Dice>>, k: nat)
    requires k < |crates|
    ensures AllHits(crates[..k + 1]) == AllHits(crates[..k]) + Hits(crates[k], PieceHit)
  {
    assert crates[..k + 1][..k] == crates[..k];
  }

  lemma {:induction false} DealtOverCrates(owned: seq<Loot>, crates: seq<seq<Dice>>, c: nat)
    requires Career(owned, crates) && c <= |crates|
    ensures Deals(owned[0], owned[c], AllHits(crates[..c]))
  {
    if c > 0 {
      var k := c - 1;
      DealtOverCrates(owned, crates, k);
      assert CrateAt(owned, crates, k);
      CrateDeals(owned[k], crates[k], owned[k + 1]);
      AllHitsMore(crates, k);
      DealsInTwo(owned[0], owned[k], owned[k + 1], AllHits(crates[..k]), Hits(crates[k], PieceHit));
    }
  }

  /** A player who starts with no piece of the outfit. */
  ghost predicate StartsBare(owned: seq<Loot>) {
    owned != [] && Outfit(owned[0]) == [0, 0, 0, 0]
  }

  /** The n pieces gone round the outfit in order. */
  ghost predicate GoneRound(o: Loot, n: nat) {
    o[Garb] == (n + 3) / 4 && o[Hood] == (n + 2) / 4 && o[Robe] == (n + 1) / 4 && o[Boots] == n / 4
  }

  lemma DealtFromNothing(start: Loot, end: Loot, n: nat)
    requires Outfit(start) == [0, 0, 0, 0] && Deals(start, end, n)
    ensures GoneRound(end, n)
  {
    GreedyFromFourZeros(n);
    var a := Outfit(end);
    assert a[0] == (n + 3) / 4 && a[1] == (n + 2) / 4 && a[2] == (n + 1) / 4 && a[3] == n / 4;
  }

  /** However the dice fall over however many crates, the pieces go round the outfit in order. */
  lemma OutfitCounts(owned: seq<Loot>, crates: seq<seq<Dice>>)
    requires Career(owned, crates) && StartsBare(owned)
    ensures GoneRound(owned[|crates|], AllHits(crates))
  {
    DealtOverCrates(owned, crates, |crates|);
    assert crates[..|crates|] == crates;
    DealtFromNothing(owned[0], owned[|crates|], AllHits(crates));
  }

  /** The outfit fills up garb first, boots last, and never gets more than one piece out of step. */
  lemma OutfitFillsInOrder(owned: seq<Loot>, crates: seq<seq<Dice>>)
    requires Career(owned, crates) && StartsBare(owned)
    ensures var o := owned[|crates|];
            o[Garb] >= o[Hood] >= o[Robe] >= o[Boots] && o[Boots] + 1 >= o[Garb]
  {
    OutfitCounts(owned, crates);
  }
}
