/** Reading item lists such as "5 Coal, 3 Egg" (src/lib/util/parseStringBank.ts). */
module ItemStrings {
  import opened Banks
  import opened Text

  type ItemId = int

  datatype Item = Item(id: ItemId, name: string)

  /**
   * The item tables and the arithmetic evaluator: every item once, the alias table from cleaned names to ids,
   * lookup by exact name or number, lookup of a numeral's item, and the whole value of an expression if it has one.
   */
  datatype World = World(items: seq<Item>, aliases: map<string, ItemId>, find: string -> Option<ItemId>,
                         byNumber: string -> Option<Item>, eval: string -> Option<int>)

  const MAX_QUANTITY: nat := 100_000_000_000

  // ---------- Names ----------

  predicate IsNameChar(c: char) {
    IsDigit(c) || 'a' <= c <= 'z' || 'A' <= c <= 'Z' || c == '+'
  }

  function Upper(c: char): char {
    if 'a' <= c <= 'z' then (c as int - 32) as char else c
  }

  /** Letters, digits and plus signs only, in upper case. */
  function CleanString(s: string): string {
    if s == "" then ""
    else (if IsNameChar(s[0]) then [Upper(s[0])] else "") + CleanString(s[1..])
  }

  /** Cleaning a character: a small letter becomes its capital, a capital, a digit and '+' stay, and all else goes. */
  lemma CleanOne(c: char)
    ensures 'a' <= c <= 'z' ==> CleanString([c]) == [('A' as int + (c as int - 'a' as int)) as char]
    ensures 'A' <= c <= 'Z' || '0' <= c <= '9' || c == '+' ==> CleanString([c]) == [c]
    ensures CleanString([c]) != "" ==> 'a' <= c <= 'z' || 'A' <= c <= 'Z' || '0' <= c <= '9' || c == '+'
  {
    assert [c][1..] == "";
  }

  lemma CleanHead(c: char, s: string)
    ensures CleanString([c] + s) == CleanString([c]) + CleanString(s)
  {
    assert ([c] + s)[1..] == s && [c][1..] == "";
  }

  /** A text is cleaned character by character. */
  lemma {:induction false} CleanTwo(a: string, b: string)
    ensures CleanString(a + b) == CleanString(a) + CleanString(b)
  {
    if a == "" {
      assert a + b == b;
    } else {
      CleanTwo(a[1..], b);
      CleanHead(a[0], a[1..]);
      CleanHead(a[0], a[1..] + b);
      assert a == [a[0]] + a[1..] && a + b == [a[0]] + (a[1..] + b);
    }
  }

  predicate Names(w: World, name: string, i: Item) {
    (CleanString(name) in w.aliases && w.aliases[CleanString(name)] == i.id) || CleanString(i.name) == CleanString(name)
  }

  /** The items a name stands for, in table order. */
  function Matches(w: World, items: seq<Item>, name: string): (r: seq<Item>)
    ensures forall i :: i in r <==> i in items && Names(w, name, i)
  {
    if items == [] then []
    else
      var n := |items| - 1;
      Matches(w, items[..n], name) + if Names(w, name, items[n]) then [items[n]] else []
  }

  // ---------- One quantity and item ----------

  function ReplaceFirst(s: string, c: char, other: string): string {
    match IndexOf(s, [c])
    case None => s
    case Some(i) => s[..i] + other + s[i + 1..]
  }

  function Clamp(q: Option<int>): (r: nat)
    ensures r <= MAX_QUANTITY
  {
    if q.None? || q.value < 0 then 0 else if q.value > MAX_QUANTITY then MAX_QUANTITY else q.value
  }

  datatype Parsed = Parsed(items: seq<Item>, quantity: nat)

  /** How one entry is read. */
  type Parser = string -> Option<Parsed>

  /** Digits alone are an item id, not a quantity. */
  function WithQuantity(str: string): string {
    if AllDigits(str) then "0 " + str else str
  }

  function WithoutSecond(words: seq<string>): string
    requires |words| > 2
  {
    Join([words[0]] + words[2..], " ")
  }

  lemma DroppingShortens(str: string)
    requires |Split(WithQuantity(str), " ")| > 2
    ensures |WithoutSecond(Split(WithQuantity(str), " "))| < |str|
  {
    if AllDigits(str) {
      assert "0" + " " + str == "0 " + str;
      SplitFirst("0", ' ', str);
      SplitFirst(str, ' ', "");
    } else {
      var words := Split(str, " ");
      JoinSplit(str, " ");
      assert Join(words[1..], " ") == words[1] + " " + Join(words[1..][1..], " ");
      assert words[1..][1..] == words[2..];
      assert ([words[0]] + words[2..])[1..] == words[2..];
    }
  }

  /** A '#' stands for the amount of the item in the input bank. */
  function Quantified(w: World, str: string, potentialQty: string, potentialName: string,
                      inputBank: Option<Bank<ItemId>>): string
  {
    var lazyItemGet := w.find(potentialName);
    if '#' in str && lazyItemGet.Some? && inputBank.Some?
    then ReplaceFirst(potentialQty, '#', Decimal(inputBank.value[lazyItemGet.value]))
    else potentialQty
  }

  /** A name that is a number is an item id. */
  function ItemsOf(w: World, parsedName: string): seq<Item> {
    if IsNumeric(parsedName) then
      var item := w.byNumber(parsedName);
      if item.Some? then [item.value] else []
    else Matches(w, w.items, parsedName)
  }

  /** When the first word has no value it is part of the name. */
  function ParseNamed(w: World, str: string, potentialQty: string, potentialName: string,
                      inputBank: Option<Bank<ItemId>>):
    (r: Option<Parsed>)
    ensures r.Some? ==> r.value.items != [] && r.value.quantity <= MAX_QUANTITY
  {
    var qty := Quantified(w, str, potentialQty, potentialName, inputBank);
    var parsedQty := w.eval(ReplaceFirst(qty, 'x', ""));
    var osItems := ItemsOf(w, if parsedQty.None? then str else potentialName);
    if osItems == [] then None else Some(Parsed(osItems, Clamp(parsedQty)))
  }

  /** The items and quantity of one entry; nothing when no item is named. */
  function ParseQuantityAndItem(w: World, input: string, inputBank: Option<Bank<ItemId>>): (r: Option<Parsed>)
    ensures r.Some? ==> r.value.items != [] && r.value.quantity <= MAX_QUANTITY
    decreases |input|
  {
    var trimmed := Trim(input);
    if trimmed == "" then None
    else
      var str := WithQuantity(trimmed);
      var split := Split(str, " ");
      if |split| > 2 && IsNumeric(split[1]) then
        DroppingShortens(trimmed);
        ParseQuantityAndItem(w, WithoutSecond(split), None)
      else
        var potentialQty, potentialName :=
          if |split| == 1 then "" else split[0], if |split| == 1 then split[0] else Join(split[1..], " ");
        ParseNamed(w, str, potentialQty, potentialName, inputBank)
  }

  lemma DigitsAreNumeric(s: string)
    requires AllDigits(s)
    ensures Trim(s) == s && IsNumeric(s) && s != ""
  {
    assert Trimmed(s);
    TrimOfTrimmed(s);
    AllLeadingDigits(s);
  }

  lemma {:induction false} AllLeadingDigits(s: string)
    requires forall i :: 0 <= i < |s| ==> IsDigit(s[i])
    ensures LeadingDigits(s) == |s|
  {
    if s != "" {
      AllLeadingDigits(s[1..]);
    }
  }

  /** Digits alone name the item with that id, in no stated quantity. */
  lemma BareIdParses(w: World, id: string, inputBank: Option<Bank<ItemId>>)
    requires AllDigits(id) && w.eval("0") == Some(0)
    ensures ParseQuantityAndItem(w, id, inputBank) ==
            match w.byNumber(id) case None => None case Some(i) => Some(Parsed([i], 0))
  {
    DigitsAreNumeric(id);
    var str := "0 " + id;
    assert "0" + " " + id == str;
    SplitFirst("0", ' ', id);
    SplitFirst(id, ' ', "");
    assert '#' !in "0 " && '#' !in str;
    FirstOf("0", 'x', "");
    assert ParseQuantityAndItem(w, id, inputBank) == ParseNamed(w, str, "0", id, inputBank);
  }

  lemma ThreeWords(quantity: string, number: string, rest: string)
    requires ' ' !in quantity && ' ' !in number
    ensures Split(quantity + " " + (number + " " + rest), " ") == [quantity] + ([number] + Split(rest, " "))
  {
    SplitFirst(quantity, ' ', number + " " + rest);
    SplitFirst(number, ' ', rest);
  }

  lemma DropSecond(quantity: string, number: string, tail: seq<string>)
    requires tail != []
    ensures WithoutSecond([quantity] + ([number] + tail)) == quantity + " " + Join(tail, " ")
  {
    var words := [quantity] + ([number] + tail);
    assert words[2..] == tail && words[0] == quantity;
    JoinFirst(quantity, tail, " ");
  }

  lemma NumberWords(quantity: string, number: string, rest: string)
    requires ' ' !in quantity && ' ' !in number
    ensures var words := Split(quantity + " " + (number + " " + rest), " ");
            |words| > 2 && words[1] == number && WithoutSecond(words) == quantity + " " + rest
  {
    ThreeWords(quantity, number, rest);
    DropSecond(quantity, number, Split(rest, " "));
    JoinSplit(rest, " ");
  }

  lemma NumberTrimmed(quantity: string, tail: string)
    requires quantity != "" && !IsWhite(quantity[0]) && tail != "" && !IsWhite(tail[|tail| - 1])
    ensures var str := quantity + " " + tail; Trim(str) == str && WithQuantity(str) == str && str != ""
  {
    var str := quantity + " " + tail;
    assert str[|str| - 1] == tail[|tail| - 1] && str[0] == quantity[0];
    assert !IsDigit(str[|quantity|]);
    TrimOfTrimmed(str);
  }

  /** A number between the quantity and the name is dropped, and with it the input bank. */
  lemma ExtraNumberIgnored(w: World, quantity: string, number: string, rest: string, inputBank: Option<Bank<ItemId>>)
    requires quantity != "" && !IsWhite(quantity[0]) && ' ' !in quantity
    requires IsNumeric(number) && ' ' !in number && Trimmed(rest)
    ensures ParseQuantityAndItem(w, quantity + " " + (number + " " + rest), inputBank) ==
            ParseQuantityAndItem(w, quantity + " " + rest, None)
  {
    var tail := number + " " + rest;
    var str := quantity + " " + tail;
    assert tail[|tail| - 1] == rest[|rest| - 1];
    NumberTrimmed(quantity, tail);
    NumberWords(quantity, number, rest);
    assert ParseQuantityAndItem(w, str, inputBank) ==
           ParseQuantityAndItem(w, WithoutSecond(Split(str, " ")), None);
  }

  /** The whole text is a name: no number, and its first word, when there are more, has no value. */
  predicate IsBareName(w: World, name: string) {
    var words := Split(name, " ");
    && Trimmed(name) && !IsNumeric(name) && '#' !in name
    && w.eval(ReplaceFirst(if |words| == 1 then "" else words[0], 'x', "")) == None
    && (|words| > 2 ==> !IsNumeric(words[1]))
  }

  /** A bare name is read whole, in no stated quantity. */
  lemma BareNameParses(w: World, name: string, inputBank: Option<Bank<ItemId>>)
    ensures var found := Matches(w, w.items, name);
            IsBareName(w, name) ==>
              ParseQuantityAndItem(w, name, inputBank) == if found == [] then None else Some(Parsed(found, 0))
  {
    if IsBareName(w, name) {
      TrimOfTrimmed(name);
      if AllDigits(name) {
        DigitsAreNumeric(name);
      }
      var words := Split(name, " ");
      var potentialQty := if |words| == 1 then "" else words[0];
      var potentialName := if |words| == 1 then words[0] else Join(words[1..], " ");
      assert ParseQuantityAndItem(w, name, inputBank) == ParseNamed(w, name, potentialQty, potentialName, inputBank);
    }
  }

  // ---------- A list ----------

  datatype Entry = Entry(item: Item, quantity: nat)

  function Pieces(str: string): seq<string> {
    NonEmpty(Split(Collapse(Trim(str)), ","))
  }

  function Ids(es: seq<Entry>): set<ItemId> {
    set e | e in es :: e.item.id
  }

  /** Items are added unless one with their id is there already. */
  function AddNew(es: seq<Entry>, items: seq<Item>, quantity: nat): seq<Entry> {
    if items == [] then es
    else
      var n := |items| - 1;
      var before := AddNew(es, items[..n], quantity);
      if items[n].id in Ids(before) then before else before + [Entry(items[n], quantity)]
  }

  function Taken(items: seq<Item>, noDuplicateItems: bool): seq<Item> {
    if noDuplicateItems && |items| > 1 then items[..1] else items
  }

  /** The items a piece names, as far as they are taken. */
  function Mentioned(parse: Parser, piece: string, noDuplicateItems: bool): seq<Item> {
    match parse(piece)
    case None => []
    case Some(p) => Taken(p.items, noDuplicateItems)
  }

  function QuantityOf(parse: Parser, piece: string): nat {
    match parse(piece)
    case None => 0
    case Some(p) => p.quantity
  }

  /** What the first n pieces collect. */
  function Collected(parse: Parser, pieces: seq<string>, n: nat, noDuplicateItems: bool): seq<Entry>
    requires n <= |pieces|
  {
    if n == 0 then []
    else
      AddNew(Collected(parse, pieces, n - 1, noDuplicateItems),
             Mentioned(parse, pieces[n - 1], noDuplicateItems), QuantityOf(parse, pieces[n - 1]))
  }

  /** Reading entries in some world, with an input bank or without. */
  function Reader(w: World, inputBank: Option<Bank<ItemId>>): Parser {
    (s: string) => ParseQuantityAndItem(w, s, inputBank)
  }

  /** What a text parses to. */
  function ParsedBank(w: World, str: string, inputBank: Option<Bank<ItemId>>, noDuplicateItems: bool): seq<Entry> {
    Collected(Reader(w, inputBank), Pieces(str), |Pieces(str)|, noDuplicateItems)
  }

  lemma IdsMore(es: seq<Entry>, e: Entry)
    ensures Ids(es + [e]) == Ids(es) + {e.item.id}
  {
    assert forall x :: x in es + [e] <==> x in es || x == e;
  }

  /** The inner loop: items whose id is new are pushed. */
  method AddItems(es: seq<Entry>, ids: set<ItemId>, found: seq<Item>, quantity: nat)
    returns (items: seq<Entry>, currentIDs: set<ItemId>)
    requires ids == Ids(es)
    ensures items == AddNew(es, found, quantity) && currentIDs == Ids(items)
  {
    items, currentIDs := es, ids;
    for k := 0 to |found|
      invariant items == AddNew(es, found[..k], quantity) && currentIDs == Ids(items)
    {
      assert found[..k + 1][..k] == found[..k];
      if found[k].id !in currentIDs {
        IdsMore(items, Entry(found[k], quantity));
        currentIDs := currentIDs + {found[k].id};
        items := items + [Entry(found[k], quantity)];
      }
    }
    assert found[..|found|] == found;
  }

  /** The outer loop, over the pieces. */
  method CollectPieces(parse: Parser, split: seq<string>, noDuplicateItems: bool)
    returns (items: seq<Entry>)
    ensures items == Collected(parse, split, |split|, noDuplicateItems)
  {
    items := [];
    var currentIDs: set<ItemId> := {};
    for i := 0 to |split|
      invariant items == Collected(parse, split, i, noDuplicateItems)
      invariant currentIDs == Ids(items)
    {
      var res := parse(split[i]);
      if res.Some? {
        items, currentIDs := AddItems(items, currentIDs, Taken(res.value.items, noDuplicateItems), res.value.quantity);
      }
    }
  }

  method ParseStringBank(w: World, str: string, inputBank: Option<Bank<ItemId>>, noDuplicateItems: bool)
    returns (items: seq<Entry>)
    ensures items == ParsedBank(w, str, inputBank, noDuplicateItems)
  {
    var split := Pieces(str);
    if split == [] {
      return [];
    }
    items := CollectPieces(Reader(w, inputBank), split, noDuplicateItems);
  }

  // ---------- First mention wins ----------

  ghost predicate DistinctIds(es: seq<Entry>) {
    forall i, j :: 0 <= i < j < |es| ==> es[i].item.id != es[j].item.id
  }

  lemma {:induction false} AddNewGrows(es: seq<Entry>, items: seq<Item>, quantity: nat)
    ensures var r := AddNew(es, items, quantity);
            && es <= r
            && (DistinctIds(es) ==> DistinctIds(r))
            && (forall x :: x in items ==> x.id in Ids(r))
            && (forall k :: |es| <= k < |r| ==>
                              r[k].item in items && r[k].quantity == quantity && r[k].item.id !in Ids(es))
  {
    if items != [] {
      var n := |items| - 1;
      AddNewGrows(es, items[..n], quantity);
      var before := AddNew(es, items[..n], quantity);
      IdsMore(before, Entry(items[n], quantity));
      IdsOfPrefix(es, before);
      assert items == items[..n] + [items[n]];
      if items[n].id !in Ids(before) {
        forall k | 0 <= k < |before| ensures before[k].item.id != items[n].id
        {
          assert before[k] in before;
        }
      }
    }
  }

  lemma IdsOfPrefix(es: seq<Entry>, more: seq<Entry>)
    requires es <= more
    ensures Ids(es) <= Ids(more)
  {
    forall e | e in es ensures e in more
    {
      var k :| 0 <= k < |es| && es[k] == e;
      assert more[k] == e;
    }
  }

  /** The piece names the item, in this quantity; without duplicate items only the first one it names counts. */
  ghost predicate NamesItem(parse: Parser, piece: string, noDuplicateItems: bool, x: Item, quantity: nat) {
    match parse(piece)
    case None => false
    case Some(p) =>
      && quantity == p.quantity
      && exists k :: 0 <= k < |p.items| && p.items[k] == x && (noDuplicateItems ==> k == 0)
  }

  lemma NamesMentioned(parse: Parser, piece: string, noDuplicateItems: bool, x: Item, quantity: nat)
    ensures NamesItem(parse, piece, noDuplicateItems, x, quantity) <==>
            x in Mentioned(parse, piece, noDuplicateItems) && quantity == QuantityOf(parse, piece)
  {
    if x in Mentioned(parse, piece, noDuplicateItems) {
      var items := parse(piece).value.items;
      var k :| 0 <= k < |Taken(items, noDuplicateItems)| && Taken(items, noDuplicateItems)[k] == x;
      assert items[k] == x && (noDuplicateItems ==> k == 0);
    }
  }

  /** An entry's item and quantity come from this piece. */
  ghost predicate FromPiece(parse: Parser, pieces: seq<string>, noDuplicateItems: bool,
                            e: Entry, k: int)
  {
    0 <= k < |pieces| && NamesItem(parse, pieces[k], noDuplicateItems, e.item, e.quantity)
  }

  ghost predicate NamesId(parse: Parser, piece: string, noDuplicateItems: bool, id: ItemId) {
    exists x, q :: NamesItem(parse, piece, noDuplicateItems, x, q) && x.id == id
  }

  /** What a parse must be: no id twice, every named id listed, each with the quantity of the first piece naming it. */
  ghost predicate FirstMentions(parse: Parser, pieces: seq<string>, noDuplicateItems: bool,
                                es: seq<Entry>)
  {
    && DistinctIds(es)
    && (forall k, id :: 0 <= k < |pieces| && NamesId(parse, pieces[k], noDuplicateItems, id) ==> id in Ids(es))
    && (forall e :: e in es ==> FirstNamed(parse, pieces, noDuplicateItems, e))
  }

  ghost predicate FirstNamed(parse: Parser, pieces: seq<string>, noDuplicateItems: bool, e: Entry) {
    exists k :: FromPiece(parse, pieces, noDuplicateItems, e, k) &&
                forall j :: 0 <= j < k ==> !NamesId(parse, pieces[j], noDuplicateItems, e.item.id)
  }

  lemma FirstNamedMore(parse: Parser, pieces: seq<string>, piece: string, noDuplicateItems: bool, e: Entry)
    requires FirstNamed(parse, pieces, noDuplicateItems, e)
    ensures FirstNamed(parse, pieces + [piece], noDuplicateItems, e)
  {
    var k :| FromPiece(parse, pieces, noDuplicateItems, e, k) &&
             forall j :: 0 <= j < k ==> !NamesId(parse, pieces[j], noDuplicateItems, e.item.id);
    assert FromPiece(parse, pieces + [piece], noDuplicateItems, e, k);
  }

  lemma {:induction false} FirstMentionWins(parse: Parser, pieces: seq<string>, n: nat,
                                            noDuplicateItems: bool)
    requires n <= |pieces|
    ensures FirstMentions(parse, pieces[..n], noDuplicateItems, Collected(parse, pieces, n, noDuplicateItems))
  {
    if n > 0 {
      var k := n - 1;
      var before, es := pieces[..k], Collected(parse, pieces, k, noDuplicateItems);
      FirstMentionWins(parse, pieces, k, noDuplicateItems);
      MentionMore(parse, before, pieces[k], noDuplicateItems, es);
      assert pieces[..n] == before + [pieces[k]];
    }
  }

  lemma MentionMore(parse: Parser, pieces: seq<string>, piece: string, noDuplicateItems: bool,
                    es: seq<Entry>)
    requires FirstMentions(parse, pieces, noDuplicateItems, es)
    ensures FirstMentions(parse, pieces + [piece], noDuplicateItems,
                          AddNew(es, Mentioned(parse, piece, noDuplicateItems), QuantityOf(parse, piece)))
  {
    var items, q := Mentioned(parse, piece, noDuplicateItems), QuantityOf(parse, piece);
    var more, r := pieces + [piece], AddNew(es, items, q);
    AddNewGrows(es, items, q);
    IdsOfPrefix(es, r);
    forall e | e in r ensures FirstNamed(parse, more, noDuplicateItems, e)
    {
      var k :| 0 <= k < |r| && r[k] == e;
      if k < |es| {
        assert es[k] == e;
        FirstNamedMore(parse, pieces, piece, noDuplicateItems, e);
      } else {
        NamesMentioned(parse, piece, noDuplicateItems, e.item, e.quantity);
        assert FromPiece(parse, more, noDuplicateItems, e, |pieces|);
        NotNamedBefore(parse, pieces, noDuplicateItems, es, e.item.id);
      }
    }
    forall k, id | 0 <= k < |more| && NamesId(parse, more[k], noDuplicateItems, id) ensures id in Ids(r)
    {
      if k < |pieces| {
        assert more[k] == pieces[k];
      } else {
        var x, quantity :| NamesItem(parse, piece, noDuplicateItems, x, quantity) && x.id == id;
        NamesMentioned(parse, piece, noDuplicateItems, x, quantity);
      }
    }
  }

  lemma NotNamedBefore(parse: Parser, pieces: seq<string>, noDuplicateItems: bool, es: seq<Entry>, id: ItemId)
    requires FirstMentions(parse, pieces, noDuplicateItems, es) && id !in Ids(es)
    ensures forall k :: 0 <= k < |pieces| ==> !NamesId(parse, pieces[k], noDuplicateItems, id)
  {
  }

  /** A text parses to its first mentions: no item twice, however often it is named. */
  lemma ParsedIsFirstMentions(w: World, str: string, inputBank: Option<Bank<ItemId>>, noDuplicateItems: bool)
    ensures FirstMentions(Reader(w, inputBank), Pieces(str), noDuplicateItems,
                          ParsedBank(w, str, inputBank, noDuplicateItems))
  {
    var pieces := Pieces(str);
    FirstMentionWins(Reader(w, inputBank), pieces, |pieces|, noDuplicateItems);
    assert pieces[..|pieces|] == pieces;
  }

  // ---------- Printing a bank and reading it back ----------

  function PrintEntry(e: Entry): string {
    Decimal(e.quantity) + " " + e.item.name
  }

  function Printed(es: seq<Entry>): (r: seq<string>)
    ensures |r| == |es|
    ensures forall i :: 0 <= i < |es| ==> r[i] == PrintEntry(es[i])
  {
    seq(|es|, i requires 0 <= i < |es| => PrintEntry(es[i]))
  }

  /** "5 Coal, 3 Egg", as the repeat-giveaway button prints a bank. */
  function PrintBank(es: seq<Entry>): string {
    Join(Printed(es), ", ")
  }

  ghost predicate Tidy(s: string) {
    Trimmed(s) && NoDoubleWhite(s)
  }

  /** A name that prints safely: tidy, without commas, its first word not a number. */
  ghost predicate Printable(name: string) {
    Tidy(name) && ',' !in name && !IsNumeric(Split(name, " ")[0])
  }

  ghost predicate PrintableEntries(es: seq<Entry>) {
    forall i :: 0 <= i < |es| ==> Printable(es[i].item.name) && 1 <= es[i].quantity <= MAX_QUANTITY
  }

  /** The evaluator reads plain numerals as the numbers they are. */
  ghost predicate EvaluatesNumerals(w: World) {
    forall n: nat :: n <= MAX_QUANTITY ==> w.eval(Decimal(n)) == Some(n)
  }

  lemma DigitsHaveNone(s: string, c: char)
    requires AllDigits(s) && !IsDigit(c)
    ensures c !in s && ReplaceFirst(s, c, "") == s
  {
    FirstOf(s, c, "");
  }

  lemma NameIsNotNumeric(name: string)
    requires Printable(name)
    ensures !IsNumeric(name)
  {
    if ' ' in name {
      var k :| 0 <= k < |name| && name[k] == ' ';
      WordsAreNotNumeric(name, k);
    } else {
      SplitFirst(name, ' ', "");
    }
  }

  lemma TidySpaced(a: string, b: string)
    requires Tidy(a) && Tidy(b)
    ensures Tidy(a + " " + b)
  {
    var s := a + " " + b;
    forall i | 0 < i < |s| && IsWhite(s[i]) ensures !IsWhite(s[i - 1])
    {
      if i > |a| {
        assert s[i] == b[i - |a| - 1];
      }
    }
  }

  lemma TidyListed(a: string, b: string)
    requires Tidy(a) && Tidy(b)
    ensures Tidy(a + ", " + b)
  {
    assert !IsWhite(',');
    var c := a + ",";
    assert NoDoubleWhite(c) by {
      forall i | 0 < i < |c| && IsWhite(c[i]) ensures !IsWhite(c[i - 1]) { assert c[i] == a[i]; }
    }
    TidySpaced(c, b);
    assert c + " " + b == a + ", " + b;
  }

  lemma DigitsAreTidy(s: string)
    requires AllDigits(s)
    ensures Tidy(s)
  {
    assert forall i :: 0 <= i < |s| ==> !IsWhite(s[i]);
  }

  /** How a printed entry splits into words. */
  lemma EntryWords(e: Entry)
    requires Printable(e.item.name)
    ensures var s := PrintEntry(e);
            && Tidy(s) && ',' !in s && WithQuantity(s) == s
            && Split(s, " ") == [Decimal(e.quantity)] + Split(e.item.name, " ")
            && Join(Split(s, " ")[1..], " ") == e.item.name
  {
    var q, name, s := Decimal(e.quantity), e.item.name, PrintEntry(e);
    DigitsAreTidy(q);
    TidySpaced(q, name);
    DigitsHaveNone(q, ',');
    DigitsHaveNone(q, ' ');
    assert !IsDigit(s[|q|]);
    SplitFirst(q, ' ', name);
    JoinSplit(name, " ");
  }

  lemma NumeralParses(w: World, str: string, quantity: nat, name: string, inputBank: Option<Bank<ItemId>>)
    requires EvaluatesNumerals(w) && 1 <= quantity <= MAX_QUANTITY && !IsNumeric(name)
    ensures var found := Matches(w, w.items, name);
            ParseNamed(w, str, Decimal(quantity), name, inputBank) ==
            if found == [] then None else Some(Parsed(found, quantity))
  {
    var q := Decimal(quantity);
    DigitsHaveNone(q, 'x');
    DigitsHaveNone(q, '#');
    FirstOf(q, '#', "");
    assert Quantified(w, str, q, name, inputBank) == q;
  }

  /** A printed entry, with or without a leading space, parses to the items of its name and its quantity. */
  lemma EntryParses(w: World, e: Entry, s: string, inputBank: Option<Bank<ItemId>>)
    requires EvaluatesNumerals(w) && Printable(e.item.name) && 1 <= e.quantity <= MAX_QUANTITY
    requires s == PrintEntry(e) || s == " " + PrintEntry(e)
    ensures var found := Matches(w, w.items, e.item.name);
            ParseQuantityAndItem(w, s, inputBank) == if found == [] then None else Some(Parsed(found, e.quantity))
  {
    var q, name, str := Decimal(e.quantity), e.item.name, PrintEntry(e);
    EntryWords(e);
    TrimOfTrimmed(str);
    NameIsNotNumeric(name);
    var split := Split(str, " ");
    var rest := Split(name, " ");
    assert split[0] == q && split[1] == rest[0] && |split| >= 2;
    assert ParseQuantityAndItem(w, s, inputBank) == ParseNamed(w, str, q, name, inputBank);
    NumeralParses(w, str, e.quantity, name, inputBank);
  }

  /** Nothing but white space names nothing. */
  lemma BlankNamesNothing(w: World, input: string, inputBank: Option<Bank<ItemId>>)
    requires Trim(input) == ""
    ensures ParseQuantityAndItem(w, input, inputBank) == None
  {
  }

  /** A single word that is no number is a name, in the quantity of the empty expression, if that has one. */
  lemma OneWordIsName(w: World, name: string, inputBank: Option<Bank<ItemId>>)
    requires Trimmed(name) && ' ' !in name && !IsNumeric(name) && '#' !in name
    ensures var found, v := Matches(w, w.items, name), w.eval("");
            ParseQuantityAndItem(w, name, inputBank) ==
            if found == [] then None
            else Some(Parsed(found, if v == None || v.value < 0 then 0
                                    else if v.value > 100_000_000_000 then 100_000_000_000 else v.value))
  {
    TrimOfTrimmed(name);
    if AllDigits(name) {
      DigitsAreNumeric(name);
    }
    SplitFirst(name, ' ', "");
    assert ReplaceFirst("", 'x', "") == "";
    assert ParseQuantityAndItem(w, name, inputBank) == ParseNamed(w, name, "", name, inputBank);
  }

  /** Any first word with a value, "5", "5x" or "2*3", is a quantity: none below zero, and no more than 10^11. */
  lemma WordIsQuantity(w: World, q: string, name: string, v: int, inputBank: Option<Bank<ItemId>>)
    requires q != "" && (forall i :: 0 <= i < |q| ==> !IsWhite(q[i])) && '#' !in q
    requires w.eval(ReplaceFirst(q, 'x', "")) == Some(v) && Printable(name)
    ensures var found := Matches(w, w.items, name);
            ParseQuantityAndItem(w, q + " " + name, inputBank) ==
            if found == [] then None
            else Some(Parsed(found, if v < 0 then 0 else if v > 100_000_000_000 then 100_000_000_000 else v))
  {
    WordThenName(w, q, name, inputBank);
    NameIsNotNumeric(name);
    NoHashCounts(w, q + " " + name, q, name, v, inputBank);
  }

  lemma NoHashCounts(w: World, str: string, q: string, name: string, v: int, inputBank: Option<Bank<ItemId>>)
    requires '#' !in q && w.eval(ReplaceFirst(q, 'x', "")) == Some(v) && !IsNumeric(name)
    ensures var found := Matches(w, w.items, name);
            ParseNamed(w, str, q, name, inputBank) ==
            if found == [] then None
            else Some(Parsed(found, if v < 0 then 0 else if v > 100_000_000_000 then 100_000_000_000 else v))
  {
    FirstOf(q, '#', "");
    assert Quantified(w, str, q, name, inputBank) == q;
  }

  lemma WordSplits(q: string, name: string)
    requires ' ' !in q && name != ""
    ensures var s := q + " " + name;
            Split(s, " ") == [q] + Split(name, " ") && Join(Split(s, " ")[1..], " ") == name
  {
    SplitFirst(q, ' ', name);
    JoinSplit(name, " ");
  }

  /** A word and a printable name are read as a quantity and a name. */
  lemma WordThenName(w: World, q: string, name: string, inputBank: Option<Bank<ItemId>>)
    requires q != "" && (forall i :: 0 <= i < |q| ==> !IsWhite(q[i])) && Printable(name)
    ensures ParseQuantityAndItem(w, q + " " + name, inputBank) ==
            ParseNamed(w, q + " " + name, q, name, inputBank)
  {
    assert ' ' !in q by {
      assert IsWhite(' ');
    }
    NumberTrimmed(q, name);
    WordSplits(q, name);
    var split, rest := Split(q + " " + name, " "), Split(name, " ");
    assert split[0] == q && split[1] == rest[0] && |split| >= 2;
  }

  /** "# Coal" asks for as many as the input bank holds. */
  lemma HashIsBankAmount(w: World, hash: string, name: string, id: ItemId, bank: Bank<ItemId>)
    requires hash == "#"
    requires EvaluatesNumerals(w) && Printable(name) && w.find(name) == Some(id) && bank[id] <= MAX_QUANTITY
    ensures var found := Matches(w, w.items, name);
            ParseQuantityAndItem(w, hash + " " + name, Some(bank)) ==
            if found == [] then None else Some(Parsed(found, bank[id]))
  {
    WordThenName(w, hash, name, Some(bank));
    NameIsNotNumeric(name);
    assert '#' == (hash + " " + name)[0];
    HashCounts(w, hash + " " + name, name, id, bank);
  }

  lemma HashCounts(w: World, str: string, name: string, id: ItemId, bank: Bank<ItemId>)
    requires EvaluatesNumerals(w) && w.find(name) == Some(id) && bank[id] <= MAX_QUANTITY
    requires '#' in str && !IsNumeric(name)
    ensures var found := Matches(w, w.items, name);
            ParseNamed(w, str, "#", name, Some(bank)) ==
            if found == [] then None else Some(Parsed(found, bank[id]))
  {
    var q := Decimal(bank[id]);
    HashReplaced(q);
    assert Quantified(w, str, "#", name, Some(bank)) == q;
    DigitsHaveNone(q, 'x');
  }

  lemma HashReplaced(q: string)
    ensures ReplaceFirst("#", '#', q) == q
  {
    assert IndexOf("#", "#") == Some(0);
    assert "#"[..0] + q + "#"[1..] == q;
  }

  // ---------- The printed list as a whole ----------

  /** The printed entries as the comma leaves them: every one but the first with a leading space. */
  function Led(ps: seq<string>, first: bool): (r: seq<string>)
    ensures |r| == |ps|
    ensures forall i :: 0 <= i < |ps| ==> r[i] == if i == 0 && first then ps[i] else " " + ps[i]
  {
    seq(|ps|, i requires 0 <= i < |ps| => if i == 0 && first then ps[i] else " " + ps[i])
  }

  lemma {:induction false} JoinLed(ps: seq<string>, first: bool)
    requires ps != []
    ensures Join(Led(ps, first), ",") == (if first then "" else " ") + Join(ps, ", ")
  {
    if |ps| > 1 {
      JoinLed(ps[1..], false);
      assert Led(ps, first)[1..] == Led(ps[1..], false);
      assert "," + " " == ", ";
      assert Join(Led(ps, first), ",") == Led(ps, first)[0] + "," + (" " + Join(ps[1..], ", "));
      assert Join(ps, ", ") == ps[0] + ", " + Join(ps[1..], ", ");
    }
  }

  lemma {:induction false} JoinTidy(ps: seq<string>)
    requires ps != [] && forall i :: 0 <= i < |ps| ==> Tidy(ps[i])
    ensures Tidy(Join(ps, ", "))
  {
    if |ps| > 1 {
      JoinTidy(ps[1..]);
      TidyListed(ps[0], Join(ps[1..], ", "));
    }
  }

  lemma {:induction false} NonEmptyOfNonEmpty(chunks: seq<string>)
    requires forall i :: 0 <= i < |chunks| ==> chunks[i] != ""
    ensures NonEmpty(chunks) == chunks
  {
    if chunks != [] {
      NonEmptyOfNonEmpty(chunks[..|chunks| - 1]);
    }
  }

  lemma LedHasNoComma(p: string)
    requires ',' !in p
    ensures ',' !in " " + p
  {
  }

  lemma NoneHasComma(ps: seq<string>)
    requires forall i :: 0 <= i < |ps| ==> ',' !in ps[i] && ps[i] != ""
    ensures forall i :: 0 <= i < |ps| ==> ',' !in Led(ps, true)[i] && Led(ps, true)[i] != ""
  {
    forall i | 0 <= i < |ps| ensures ',' !in Led(ps, true)[i] && Led(ps, true)[i] != ""
    {
      LedHasNoComma(ps[i]);
    }
  }

  lemma PiecesOfJoined(ps: seq<string>)
    requires ps != [] && forall i :: 0 <= i < |ps| ==> Tidy(ps[i]) && ',' !in ps[i]
    ensures Pieces(Join(ps, ", ")) == Led(ps, true)
  {
    var led, joined := Led(ps, true), Join(ps, ", ");
    JoinTidy(ps);
    TrimOfTrimmed(joined);
    CollapseOfSingle(joined);
    JoinLed(ps, true);
    NoneHasComma(ps);
    LedSplits(led, joined);
  }

  lemma LedSplits(led: seq<string>, joined: string)
    requires led != [] && Join(led, ",") == "" + joined
    requires forall i :: 0 <= i < |led| ==> ',' !in led[i] && led[i] != ""
    ensures NonEmpty(Split(joined, ",")) == led
  {
    assert "" + joined == joined;
    SplitJoin(led, ',');
    NonEmptyOfNonEmpty(led);
  }

  lemma PiecesOfNothing()
    ensures Pieces("") == []
  {
    assert Split("", ",") == [""];
    assert NonEmpty([""]) == NonEmpty([]);
  }

  /** Cutting a printed bank gives back its printed entries. */
  lemma PiecesOfPrinted(es: seq<Entry>)
    requires PrintableEntries(es)
    ensures Pieces(PrintBank(es)) == Led(Printed(es), true)
  {
    var ps := Printed(es);
    forall i | 0 <= i < |es| ensures Tidy(ps[i]) && ',' !in ps[i]
    {
      EntryWords(es[i]);
    }
    if es == [] {
      PiecesOfNothing();
    } else {
      PiecesOfJoined(ps);
    }
  }

  /** The items a name stands for. */
  type Lookup = string -> seq<Item>

  function Finder(w: World): Lookup {
    (name: string) => Matches(w, w.items, name)
  }

  /** The first n entries read by their names alone. */
  function Resolved(find: Lookup, es: seq<Entry>, n: nat, noDuplicateItems: bool): seq<Entry>
    requires n <= |es|
  {
    if n == 0 then []
    else
      AddNew(Resolved(find, es, n - 1, noDuplicateItems),
             Taken(find(es[n - 1].item.name), noDuplicateItems), es[n - 1].quantity)
  }

  /** An entry that reads as the items of its name, in its quantity. */
  ghost predicate ReadsByName(parse: Parser, find: Lookup, e: Entry, s: string) {
    parse(s) == if find(e.item.name) == [] then None else Some(Parsed(find(e.item.name), e.quantity))
  }

  lemma {:induction false} LedResolves(parse: Parser, find: Lookup, es: seq<Entry>, led: seq<string>, n: nat,
                                       noDuplicateItems: bool)
    requires n <= |es| == |led|
    requires forall i :: 0 <= i < |es| ==> ReadsByName(parse, find, es[i], led[i])
    ensures Collected(parse, led, n, noDuplicateItems) == Resolved(find, es, n, noDuplicateItems)
  {
    if n > 0 {
      LedResolves(parse, find, es, led, n - 1, noDuplicateItems);
      assert ReadsByName(parse, find, es[n - 1], led[n - 1]);
    }
  }

  /** Whatever the tables, a printed bank reads back as what its names stand for, in the printed quantities. */
  lemma PrintedReadsByName(w: World, es: seq<Entry>, inputBank: Option<Bank<ItemId>>, noDuplicateItems: bool)
    requires EvaluatesNumerals(w) && PrintableEntries(es)
    ensures ParsedBank(w, PrintBank(es), inputBank, noDuplicateItems) == Resolved(Finder(w), es, |es|, noDuplicateItems)
  {
    var led := Led(Printed(es), true);
    PiecesOfPrinted(es);
    forall i | 0 <= i < |es| ensures ReadsByName(Reader(w, inputBank), Finder(w), es[i], led[i])
    {
      EntryParses(w, es[i], led[i], inputBank);
    }
    LedResolves(Reader(w, inputBank), Finder(w), es, led, |es|, noDuplicateItems);
  }

  // ---------- Unambiguous tables ----------

  /** Ids and cleaned names tell the items apart, and no alias points a name elsewhere. */
  ghost predicate Unambiguous(w: World) {
    && (forall i, j :: 0 <= i < j < |w.items| ==> w.items[i] != w.items[j])
    && (forall a, b :: a in w.items && b in w.items && a.id == b.id ==> a == b)
    && (forall a, b :: a in w.items && b in w.items && CleanString(a.name) == CleanString(b.name) ==> a == b)
    && (forall a :: a in w.items && CleanString(a.name) in w.aliases ==> w.aliases[CleanString(a.name)] == a.id)
  }

  lemma NamesOnlyItself(w: World, item: Item, a: Item)
    requires Unambiguous(w) && item in w.items && a in w.items
    ensures Names(w, item.name, a) <==> a == item
  {
  }

  lemma {:induction false} OnlyMatch(w: World, items: seq<Item>, item: Item)
    requires forall a :: a in items ==> (Names(w, item.name, a) <==> a == item)
    requires forall i, j :: 0 <= i < j < |items| ==> items[i] != items[j]
    ensures Matches(w, items, item.name) == if item in items then [item] else []
  {
    if items != [] {
      var n := |items| - 1;
      assert items == items[..n] + [items[n]];
      OnlyMatch(w, items[..n], item);
      assert items[n] !in items[..n];
    }
  }

  lemma AddOne(es: seq<Entry>, e: Entry)
    requires e.item.id !in Ids(es)
    ensures AddNew(es, [e.item], e.quantity) == es + [e]
  {
    assert [e.item][..0] == [];
    assert AddNew(es, [e.item][..0], e.quantity) == es;
  }

  /** The name stands for its own item alone. */
  ghost predicate ReadsItself(find: Lookup, item: Item, noDuplicateItems: bool) {
    Taken(find(item.name), noDuplicateItems) == [item]
  }

  lemma NameReadsItself(w: World, item: Item, noDuplicateItems: bool)
    requires Unambiguous(w) && item in w.items
    ensures ReadsItself(Finder(w), item, noDuplicateItems)
  {
    forall a | a in w.items ensures Names(w, item.name, a) <==> a == item
    {
      NamesOnlyItself(w, item, a);
    }
    OnlyMatch(w, w.items, item);
  }

  lemma NewId(es: seq<Entry>, n: nat)
    requires DistinctIds(es) && n < |es|
    ensures es[n].item.id !in Ids(es[..n])
  {
  }

  lemma {:induction false} ResolvedIsSame(find: Lookup, es: seq<Entry>, n: nat, noDuplicateItems: bool)
    requires DistinctIds(es) && n <= |es|
    requires forall i :: 0 <= i < |es| ==> ReadsItself(find, es[i].item, noDuplicateItems)
    ensures Resolved(find, es, n, noDuplicateItems) == es[..n]
  {
    if n > 0 {
      var k := n - 1;
      ResolvedIsSame(find, es, k, noDuplicateItems);
      NewId(es, k);
      AddOne(es[..k], es[k]);
      assert es[..k + 1] == es[..k] + [es[k]];
      assert ReadsItself(find, es[k].item, noDuplicateItems);
    }
  }

  /** A bank printed and read back is the same bank, for every unambiguous table of items. */
  lemma RoundTrip(w: World, es: seq<Entry>, inputBank: Option<Bank<ItemId>>, noDuplicateItems: bool)
    requires EvaluatesNumerals(w) && Unambiguous(w) && PrintableEntries(es) && DistinctIds(es)
    requires forall i :: 0 <= i < |es| ==> es[i].item in w.items
    ensures ParsedBank(w, PrintBank(es), inputBank, noDuplicateItems) == es
  {
    PrintedReadsByName(w, es, inputBank, noDuplicateItems);
    forall i | 0 <= i < |es| ensures ReadsItself(Finder(w), es[i].item, noDuplicateItems)
    {
      NameReadsItself(w, es[i].item, noDuplicateItems);
    }
    ResolvedIsSame(Finder(w), es, |es|, noDuplicateItems);
    assert es[..|es|] == es;
  }
}
