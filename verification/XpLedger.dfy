/** Experience in one skill: the capped total, the ledger of gains and the announcements (src/lib/addXP.ts). */
module XpLedger {
  import Levels

  const MAX_XP := 200_000_000

  const MILESTONES := [50_000_000, 100_000_000, 150_000_000, MAX_XP]

  /** A ledger row; what the cap kept out is marked. */
  datatype Row = Row(xp: int, postMax: bool)

  datatype Event = Milestone(xp: int) | Level99

  datatype Ledger = Ledger(xp: int, rows: seq<Row>, events: seq<Event>)

  ghost predicate Valid(s: Ledger) {
    0 <= s.xp <= MAX_XP
  }

  function NewXP(xp: int, amount: real): real {
    var sum := xp as real + amount;
    if sum < MAX_XP as real then sum else MAX_XP as real
  }

  // ---------- One gain ----------

  /** The rows a gain writes. */
  function RowsOf(xp: int, amount: real): seq<Row> {
    var added := NewXP(xp, amount) - xp as real;
    (if added > 0.0 then [Row(added.Floor, false)] else [])
    + (if amount - added > 0.0 then [Row((amount - added).Floor, true)] else [])
  }

  /** The lowest milestone above some experience. */
  function NextMilestone(xp: int): int
    requires xp < MAX_XP
  {
    if xp < 50_000_000 then 50_000_000
    else if xp < 100_000_000 then 100_000_000
    else if xp < 150_000_000 then 150_000_000
    else MAX_XP
  }

  /** A gain announces the lowest milestone it crosses and no other. */
  function MilestonesOf(xp: int, xp2: int): seq<Event> {
    if xp < MAX_XP && NextMilestone(xp) <= xp2 then [Milestone(NextMilestone(xp))] else []
  }

  function Level99Of(xp: int, xp2: int): seq<Event> {
    if xp < Levels.LEVEL_99_XP <= xp2 then [Level99] else []
  }

  /** A gain reads the total before its awaits, and writes what it makes of it after them. */
  function LateGain(s: Ledger, read: int, amount: real): Ledger {
    var xp := NewXP(read, amount).Floor;
    Ledger(xp, s.rows + RowsOf(read, amount), s.events + MilestonesOf(read, xp) + Level99Of(read, xp))
  }

  /** A gain with nothing in between. */
  function Gain(s: Ledger, amount: real): Ledger {
    LateGain(s, s.xp, amount)
  }

  class SkillXP {
    var xp: int
    var rows: seq<Row>
    var events: seq<Event>

    constructor (s: Ledger)
      ensures Abs() == s
    {
      xp, rows, events := s.xp, s.rows, s.events;
    }

    ghost function Abs(): Ledger
      reads this
    {
      Ledger(xp, rows, events)
    }

    /** The loop over the milestones stops at the first one not reached, or just announced. */
    method AnnounceMilestone(currentXP: int, newXP: real)
      requires newXP <= MAX_XP as real
      modifies this`events
      ensures events == old(events) + MilestonesOf(currentXP, newXP.Floor)
    {
      for i := 0 to |MILESTONES|
        invariant events == old(events)
        invariant i > 0 ==> currentXP >= MILESTONES[i - 1]
      {
        assert i == 0 || i == 1 || i == 2 || i == 3;
        if newXP < MILESTONES[i] as real {
          return;
        }
        if currentXP < MILESTONES[i] && newXP >= MILESTONES[i] as real {
          events := events + [Milestone(MILESTONES[i])];
          return;
        }
      }
    }

    /** Adding experience to a total that may have changed since it was read; increment is the level table's
        floating-point term, taken to be exact. */
    method AddXP(increment: nat -> nat, currentXP: int, amount: real)
      requires Levels.ExactTable(increment)
      modifies this
      ensures Abs() == LateGain(old(Abs()), currentXP, amount)
    {
      var currentLevel := Levels.ConvertXPtoLVL(increment, currentXP, 99);
      var newXP := NewXP(currentXP, amount);
      var totalXPAdded := newXP - currentXP as real;
      var newLevel := Levels.ConvertXPtoLVL(increment, newXP.Floor, 99);
      Levels.Level99Threshold(increment, currentXP, 99, currentLevel);
      Levels.Level99Threshold(increment, newXP.Floor, 99, newLevel);

      var preMax := -1.0;
      if totalXPAdded > 0.0 {
        preMax := totalXPAdded;
        rows := rows + [Row(totalXPAdded.Floor, false)];
      }
      if amount - totalXPAdded > 0.0 {
        rows := rows + [Row((amount - totalXPAdded).Floor, true)];
      }
      assert rows == old(rows) + RowsOf(currentXP, amount);

      if preMax != -1.0 {
        AnnounceMilestone(currentXP, newXP);
      }
      if currentLevel < 99 && newLevel >= 99 {
        events := events + [Level99];
      }
      xp := newXP.Floor;
    }
  }

  // ---------- Whole runs ----------

  ghost predicate NonNegative(gains: seq<real>) {
    forall i :: 0 <= i < |gains| ==> gains[i] >= 0.0
  }

  function Run(s: Ledger, gains: seq<real>): Ledger {
    if gains == [] then s else Gain(Run(s, gains[..|gains| - 1]), gains[|gains| - 1])
  }

  /** The experience the rows before, or past, the cap add up to. */
  function Total(rows: seq<Row>, postMax: bool): int {
    if rows == [] then 0
    else
      var last := rows[|rows| - 1];
      Total(rows[..|rows| - 1], postMax) + if last.postMax == postMax then last.xp else 0
  }

  function FloorSum(gains: seq<real>): int {
    if gains == [] then 0 else FloorSum(gains[..|gains| - 1]) + gains[|gains| - 1].Floor
  }

  lemma {:induction false} TotalOfMore(rows: seq<Row>, more: seq<Row>, postMax: bool)
    ensures Total(rows + more, postMax) == Total(rows, postMax) + Total(more, postMax)
  {
    if more == [] {
      assert rows + more == rows;
    } else {
      var n := |more| - 1;
      TotalOfMore(rows, more[..n], postMax);
      assert (rows + more)[..|rows + more| - 1] == rows + more[..n];
    }
  }

  lemma FloorOfSum(k: int, a: real)
    ensures (k as real + a).Floor == k + a.Floor
  {
  }

  /** The rows of one gain: below the cap the change in stored experience, and in all the gain's whole part. */
  lemma RowsBalance(xp: int, amount: real)
    requires 0 <= xp <= MAX_XP && amount >= 0.0
    ensures var xp2 := NewXP(xp, amount).Floor;
            && xp <= xp2 <= MAX_XP
            && Total(RowsOf(xp, amount), false) == xp2 - xp
            && Total(RowsOf(xp, amount), true) == amount.Floor - (xp2 - xp)
  {
    var added := NewXP(xp, amount) - xp as real;
    FloorOfSum(xp, added);
    assert added < amount ==> added == (MAX_XP - xp) as real;
    FloorOfSum(xp - MAX_XP, amount);
    var pre := if added > 0.0 then [Row(added.Floor, false)] else [];
    var post := if amount - added > 0.0 then [Row((amount - added).Floor, true)] else [];
    TotalOfMore(pre, post, false);
    TotalOfMore(pre, post, true);
    OneRow(Row(added.Floor, false));
    OneRow(Row((amount - added).Floor, true));
  }

  /** The rows of one gain: one below the cap, one for what the cap keeps out, none for nothing. */
  lemma RowsWritten(xp: int, amount: real)
    requires 0 <= xp <= MAX_XP && amount >= 0.0
    ensures amount == 0.0 ==> RowsOf(xp, amount) == []
    ensures amount > 0.0 && xp == MAX_XP ==> RowsOf(xp, amount) == [Row(amount.Floor, true)]
    ensures amount > 0.0 && xp as real + amount <= MAX_XP as real ==> RowsOf(xp, amount) == [Row(amount.Floor, false)]
    ensures xp < MAX_XP && xp as real + amount > MAX_XP as real ==>
              RowsOf(xp, amount) == [Row(MAX_XP - xp, false), Row(amount.Floor - (MAX_XP - xp), true)]
  {
    FloorOfSum(xp - MAX_XP, amount);
    FloorOfSum(MAX_XP - xp, 0.0);
  }

  /** A gain adds its whole part up to the cap, where it stops. */
  lemma GainIsCapped(s: Ledger, amount: real)
    requires Valid(s) && amount >= 0.0
    ensures s.xp + amount.Floor < MAX_XP ==> Gain(s, amount).xp == s.xp + amount.Floor
    ensures s.xp + amount.Floor >= MAX_XP ==> Gain(s, amount).xp == MAX_XP
  {
    FloorOfSum(s.xp, amount);
  }

  lemma {:induction false} FloorSumNonNegative(gains: seq<real>)
    requires NonNegative(gains)
    ensures FloorSum(gains) >= 0
  {
    if gains != [] {
      FloorSumNonNegative(gains[..|gains| - 1]);
    }
  }

  /** Over any run the total is what the whole parts add up to, up to the cap. */
  lemma {:induction false} RunIsCapped(s: Ledger, gains: seq<real>)
    requires Valid(s) && NonNegative(gains)
    ensures Run(s, gains).xp == if s.xp + FloorSum(gains) < MAX_XP then s.xp + FloorSum(gains) else MAX_XP
  {
    if gains != [] {
      var n := |gains| - 1;
      RunIsCapped(s, gains[..n]);
      FloorSumNonNegative(gains[..n]);
      LedgerBalances(s, gains[..n]);
      GainIsCapped(Run(s, gains[..n]), gains[n]);
    }
  }

  lemma OneRow(r: Row)
    ensures Total([r], r.postMax) == r.xp && Total([r], !r.postMax) == 0
  {
    assert [r][..0] == [];
  }

  /** Over any run: the total never falls or passes the cap, and the rows account for every whole point. */
  lemma {:induction false} LedgerBalances(s: Ledger, gains: seq<real>)
    requires Valid(s) && NonNegative(gains)
    ensures var r := Run(s, gains);
            && s.xp <= r.xp <= MAX_XP
            && s.rows <= r.rows
            && Total(r.rows, false) == Total(s.rows, false) + (r.xp - s.xp)
            && Total(r.rows, true) == Total(s.rows, true) + FloorSum(gains) - (r.xp - s.xp)
  {
    if gains != [] {
      var n := |gains| - 1;
      LedgerBalances(s, gains[..n]);
      var before := Run(s, gains[..n]);
      RowsBalance(before.xp, gains[n]);
      TotalOfMore(before.rows, RowsOf(before.xp, gains[n]), false);
      TotalOfMore(before.rows, RowsOf(before.xp, gains[n]), true);
    }
  }

  // ---------- Announcements ----------

  function Times(s: Ledger, e: Event): nat {
    multiset(s.events)[e]
  }

  /** Where the experience stood before the gain that brought it to the goal. */
  function LastBelow(s: Ledger, gains: seq<real>, goal: int): int {
    if gains == [] then s.xp
    else
      var n := |gains| - 1;
      var before := Run(s, gains[..n]).xp;
      if before < goal then before else LastBelow(s, gains[..n], goal)
  }

  ghost predicate IsMilestone(m: int) {
    m in MILESTONES
  }

  lemma TimesOfMore(s: seq<Event>, a: seq<Event>, b: seq<Event>, e: Event)
    ensures multiset(s + a + b)[e] == multiset(s)[e] + multiset(a)[e] + multiset(b)[e]
  {
  }

  lemma MilestoneTimes(xp: int, xp2: int, m: int)
    requires 0 <= xp <= xp2 <= MAX_XP && IsMilestone(m)
    ensures multiset(MilestonesOf(xp, xp2))[Milestone(m)] == if m - 50_000_000 <= xp < m <= xp2 then 1 else 0
    ensures multiset(MilestonesOf(xp, xp2))[Level99] == 0
  {
    assert m == 50_000_000 || m == 100_000_000 || m == 150_000_000 || m == 200_000_000;
  }

  lemma Level99Times(xp: int, xp2: int, m: int)
    ensures multiset(Level99Of(xp, xp2))[Milestone(m)] == 0
    ensures multiset(Level99Of(xp, xp2))[Level99] == if xp < Levels.LEVEL_99_XP <= xp2 then 1 else 0
  {
  }

  lemma GainAnnounces(s: Ledger, amount: real, m: int)
    requires Valid(s) && amount >= 0.0 && IsMilestone(m)
    ensures var r := Gain(s, amount);
            && Times(r, Milestone(m)) == Times(s, Milestone(m)) + (if m - 50_000_000 <= s.xp < m <= r.xp then 1 else 0)
            && Times(r, Level99) == Times(s, Level99) + (if s.xp < Levels.LEVEL_99_XP <= r.xp then 1 else 0)
  {
    RowsBalance(s.xp, amount);
    var xp := NewXP(s.xp, amount).Floor;
    TimesOfMore(s.events, MilestonesOf(s.xp, xp), Level99Of(s.xp, xp), Milestone(m));
    TimesOfMore(s.events, MilestonesOf(s.xp, xp), Level99Of(s.xp, xp), Level99);
    MilestoneTimes(s.xp, xp, m);
    Level99Times(s.xp, xp, m);
  }

  /**
   * Over any run a milestone is announced at most once: exactly when it is reached by a gain that started
   * past the milestone before it. Level 99 is announced exactly once, when it is reached.
   */
  lemma {:induction false} AnnouncedOnce(s: Ledger, gains: seq<real>, m: int)
    requires Valid(s) && NonNegative(gains) && IsMilestone(m)
    ensures var r := Run(s, gains);
            && Times(r, Milestone(m)) == Times(s, Milestone(m)) +
               (if s.xp < m <= r.xp && LastBelow(s, gains, m) >= m - 50_000_000 then 1 else 0)
            && Times(r, Level99) == Times(s, Level99) + (if s.xp < Levels.LEVEL_99_XP <= r.xp then 1 else 0)
  {
    if gains != [] {
      var n := |gains| - 1;
      AnnouncedOnce(s, gains[..n], m);
      LedgerBalances(s, gains[..n]);
      GainAnnounces(Run(s, gains[..n]), gains[n], m);
      LedgerBalances(s, gains);
    }
  }

  /** A gain that passes two milestones at once leaves the higher one unannounced for good. */
  lemma SkippedForever(s: Ledger, m: int, gains: seq<real>)
    requires Valid(s) && IsMilestone(m) && s.xp < m - 50_000_000 && NonNegative(gains)
    ensures var r := Gain(s, (m - s.xp) as real);
            r.xp == m && Times(Run(r, gains), Milestone(m)) == Times(s, Milestone(m))
  {
    var r := Gain(s, (m - s.xp) as real);
    GainAnnounces(s, (m - s.xp) as real, m);
    AnnouncedOnce(r, gains, m);
  }

  // ---------- Overlapping gains ----------

  /** A gain, and the total it read before its awaits. */
  datatype Late = Late(read: int, amount: real)

  function LateRun(s: Ledger, gains: seq<Late>): Ledger {
    if gains == [] then s
    else
      var n := |gains| - 1;
      LateGain(LateRun(s, gains[..n]), gains[n].read, gains[n].amount)
  }

  /** How much of the total the gains overwrote: at each write, what stood there less what had been read. */
  function Overwritten(s: Ledger, gains: seq<Late>): int {
    if gains == [] then 0
    else
      var n := |gains| - 1;
      Overwritten(s, gains[..n]) + LateRun(s, gains[..n]).xp - gains[n].read
  }

  ghost predicate ReadTotals(gains: seq<Late>) {
    forall i :: 0 <= i < |gains| ==> 0 <= gains[i].read <= MAX_XP && gains[i].amount >= 0.0
  }

  /** However gains overlap, the rows exceed the change in the total by exactly what was overwritten. */
  lemma {:induction false} OverlapDrifts(s: Ledger, gains: seq<Late>)
    requires ReadTotals(gains)
    ensures var r := LateRun(s, gains);
            Total(r.rows, false) == Total(s.rows, false) + (r.xp - s.xp) + Overwritten(s, gains)
  {
    if gains != [] {
      var n := |gains| - 1;
      OverlapDrifts(s, gains[..n]);
      RowsBalance(gains[n].read, gains[n].amount);
      TotalOfMore(LateRun(s, gains[..n]).rows, RowsOf(gains[n].read, gains[n].amount), false);
    }
  }

  /** One gain's rows account for the change in the total if and only if nothing else changed it in between. */
  lemma LateGainBalancesIff(s: Ledger, read: int, amount: real)
    requires 0 <= read <= MAX_XP && amount >= 0.0
    ensures var r := LateGain(s, read, amount);
            Total(r.rows, false) == Total(s.rows, false) + (r.xp - s.xp) <==> read == s.xp
  {
    RowsBalance(read, amount);
    TotalOfMore(s.rows, RowsOf(read, amount), false);
  }

  /** Of two gains that read the same total, the one written first is lost, though its row stays. */
  lemma FirstGainLost(s: Ledger, a: nat, b: nat)
    requires 0 <= s.xp && s.xp + a <= MAX_XP && s.xp + b <= MAX_XP
    ensures var r := LateRun(s, [Late(s.xp, a as real), Late(s.xp, b as real)]);
            r.xp == s.xp + b && Total(r.rows, false) == Total(s.rows, false) + a + b
  {
    var gains := [Late(s.xp, a as real), Late(s.xp, b as real)];
    assert gains[..1] == [gains[0]] && gains[..1][..0] == [];
    assert LateRun(s, gains[..1]) == LateGain(s, s.xp, a as real);
    assert Overwritten(s, gains[..1]) == 0;
    OverlapDrifts(s, gains);
  }
}
