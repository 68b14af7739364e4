/** Noticing completed collection logs: src/lib/handleNewCLItems.ts and src/lib/util/transactItemsFromBank.ts. */
module CollectionLog {
  import opened Banks
  import LootReplace

  /** One log: its items, and whether it counts. */
  datatype Log<T> = Log(items: set<T>, counts: bool)

  /** Every item of every log. */
  function AllCLItems<T>(logs: seq<Log<T>>): (r: set<T>)
    ensures forall k :: 0 <= k < |logs| ==> logs[k].items <= r
    ensures forall x :: x in r ==> exists k :: 0 <= k < |logs| && x in logs[k].items
  {
    if logs == [] then {}
    else
      var n := |logs| - 1;
      assert forall k :: 0 <= k < n ==> logs[..n][k] == logs[k];
      AllCLItems(logs[..n]) + logs[n].items
  }

  ghost predicate Complete<T>(log: Log<T>, cl: Bank<T>) {
    forall x :: x in log.items ==> x in cl
  }

  ghost predicate NewlyComplete<T>(log: Log<T>, previousCL: Bank<T>, newCL: Bank<T>) {
    log.counts && !Complete(log, previousCL) && Complete(log, newCL)
  }

  /** Some item of the log is new to the collection and among the items reported as added. */
  ghost predicate HasReportedItem<T>(log: Log<T>, itemsAdded: Bank<T>, previousCL: Bank<T>) {
    exists x :: x in log.items && x in itemsAdded && x !in previousCL
  }

  ghost predicate IsAnnounced<T>(logs: seq<Log<T>>, k: nat, n: nat, itemsAdded: Bank<T>,
                                 previousCL: Bank<T>, newCL: Bank<T>)
    requires n <= |logs|
  {
    k < n && NewlyComplete(logs[k], previousCL, newCL) && HasReportedItem(logs[k], itemsAdded, previousCL)
  }

  /** The handler: it answers which logs it announces, in the list's order. */
  method HandleNewCLItems<T(==)>(logs: seq<Log<T>>, itemsAdded: Bank<T>, previousCL: Bank<T>, newCL: Bank<T>)
    returns (announced: seq<nat>)
    ensures forall k :: k in announced <==> IsAnnounced(logs, k, |logs|, itemsAdded, previousCL, newCL)
    ensures forall i, j :: 0 <= i < j < |announced| ==> announced[i] < announced[j]
  {
    var allCLItems := AllCLItems(logs);
    var newCLItems := set x | x in itemsAdded && x !in previousCL && x in newCL && x in allCLItems;
    announced := [];
    if newCLItems == {} {
      forall k | 0 <= k < |logs| && NewlyComplete(logs[k], previousCL, newCL)
        ensures !HasReportedItem(logs[k], itemsAdded, previousCL)
      {
        ReportedIsNew(logs, k, itemsAdded, previousCL, newCL, newCLItems);
      }
      return;
    }
    for i := 0 to |logs|
      invariant forall k :: k in announced <==> IsAnnounced(logs, k, i, itemsAdded, previousCL, newCL)
      invariant forall a :: 0 <= a < |announced| ==> announced[a] < i
      invariant forall a, b :: 0 <= a < b < |announced| ==> announced[a] < announced[b]
    {
      var cl := logs[i];
      if cl.counts && cl.items * newCLItems != {} {
        if (exists x :: x in cl.items && x !in previousCL) && (forall x :: x in cl.items ==> x in newCL) {
          ghost var x :| x in cl.items * newCLItems;
          announced := announced + [i];
        }
      } else if NewlyComplete(cl, previousCL, newCL) {
        ReportedIsNew(logs, i, itemsAdded, previousCL, newCL, newCLItems);
      }
    }
  }

  lemma ReportedIsNew<T>(logs: seq<Log<T>>, k: nat, itemsAdded: Bank<T>, previousCL: Bank<T>, newCL: Bank<T>,
                         newCLItems: set<T>)
    requires k < |logs| && NewlyComplete(logs[k], previousCL, newCL)
    requires newCLItems == set x | x in itemsAdded && x !in previousCL && x in newCL && x in AllCLItems(logs)
    ensures HasReportedItem(logs[k], itemsAdded, previousCL) <==> logs[k].items * newCLItems != {}
  {
    if HasReportedItem(logs[k], itemsAdded, previousCL) {
      var x :| x in logs[k].items && x in itemsAdded && x !in previousCL;
      assert x in logs[k].items * newCLItems;
    }
  }

  // ---------- What is missed ----------

  /** A log just completed goes unannounced exactly when none of its newly logged items was reported as added. */
  lemma MissedExactlyWhen<T>(log: Log<T>, itemsAdded: Bank<T>, previousCL: Bank<T>, logged: Bank<T>)
    requires NewlyComplete(log, previousCL, previousCL + logged)
    ensures !HasReportedItem(log, itemsAdded, previousCL) <==>
            forall x :: x in log.items && x in logged && x !in previousCL ==> x !in itemsAdded
  {
    if HasReportedItem(log, itemsAdded, previousCL) {
      var x :| x in log.items && x in itemsAdded && x !in previousCL;
      assert x in previousCL + logged;
    }
  }

  /** Reporting everything that was logged misses nothing. */
  lemma NothingMissed<T>(log: Log<T>, itemsAdded: Bank<T>, previousCL: Bank<T>, logged: Bank<T>)
    requires forall x :: x in logged ==> x in itemsAdded
    requires NewlyComplete(log, previousCL, previousCL + logged)
    ensures HasReportedItem(log, itemsAdded, previousCL)
  {
    var x :| x in log.items && x !in previousCL;
    assert x in previousCL + logged;
  }

  /**
   * What a transaction logs and what it reports differ in the masks the loot filter swaps. A log it completes
   * goes unannounced exactly when charged black masks were all it still lacked.
   */
  lemma FilteredLootMisses(log: Log<LootReplace.Item>, bankLoot: LootReplace.Loot, clLoot: LootReplace.Loot,
                           charged: nat, plain: nat, previousCL: LootReplace.Loot)
    requires clLoot == bankLoot[LootReplace.BlackMaskCharged := charged][LootReplace.BlackMask := plain]
    requires bankLoot[LootReplace.BlackMaskCharged] == 0 && bankLoot[LootReplace.BlackMask] == plain + charged
    requires NewlyComplete(log, previousCL, previousCL + clLoot)
    ensures !HasReportedItem(log, bankLoot, previousCL) <==>
            forall x :: x in log.items && x !in previousCL ==> x == LootReplace.BlackMaskCharged
  {
    MissedExactlyWhen(log, bankLoot, previousCL, clLoot);
    if x: LootReplace.Item :| x in log.items && x !in previousCL && x != LootReplace.BlackMaskCharged {
      assert x in previousCL + clLoot && x in bankLoot;
    }
  }

  /** A charged mask that completes a log does so unseen. */
  lemma MaskCompletesUnseen(log: Log<LootReplace.Item>, previousCL: LootReplace.Loot)
    requires log.counts && LootReplace.BlackMaskCharged in log.items && LootReplace.BlackMaskCharged !in previousCL
    requires forall x :: x in log.items && x != LootReplace.BlackMaskCharged ==> x in previousCL
    ensures NewlyComplete(log, previousCL, previousCL + multiset{LootReplace.BlackMaskCharged})
    ensures !HasReportedItem(log, multiset{LootReplace.BlackMask}, previousCL)
  {
    assert forall x :: x in log.items ==> x in previousCL + multiset{LootReplace.BlackMaskCharged};
  }

  // ---------- Whole runs ----------

  function LogAfter<T(==)>(cl: Bank<T>, adds: seq<Bank<T>>): Bank<T> {
    if adds == [] then cl else LogAfter(cl, adds[..|adds| - 1]) + adds[|adds| - 1]
  }

  /** How often a log is announced when every addition goes through the handler and is reported in full. */
  ghost function TimesAnnounced<T>(log: Log<T>, cl: Bank<T>, adds: seq<Bank<T>>): nat {
    if adds == [] then 0
    else
      var n := |adds| - 1;
      var before := LogAfter(cl, adds[..n]);
      TimesAnnounced(log, cl, adds[..n])
      + if NewlyComplete(log, before, before + adds[n]) && HasReportedItem(log, adds[n], before) then 1 else 0
  }

  lemma {:induction false} LogsOnlyGrow<T>(cl: Bank<T>, adds: seq<Bank<T>>)
    ensures cl <= LogAfter(cl, adds)
  {
    if adds != [] {
      LogsOnlyGrow(cl, adds[..|adds| - 1]);
    }
  }

  /** Each counted log is announced once, in the step that completes it; one complete from the start never is. */
  lemma {:induction false} AnnouncedOnce<T>(log: Log<T>, cl: Bank<T>, adds: seq<Bank<T>>)
    requires log.counts
    ensures TimesAnnounced(log, cl, adds) ==
            if !Complete(log, cl) && Complete(log, LogAfter(cl, adds)) then 1 else 0
  {
    if adds != [] {
      var n := |adds| - 1;
      var before := LogAfter(cl, adds[..n]);
      AnnouncedOnce(log, cl, adds[..n]);
      LogsOnlyGrow(cl, adds[..n]);
      if NewlyComplete(log, before, before + adds[n]) {
        NothingMissed(log, adds[n], before, adds[n]);
      }
    }
  }
}
