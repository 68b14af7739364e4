/**
 The life of a minion's trip: started (src/lib/util/addSubTaskToActivityTask.ts), found due and completed by a ticker
 (src/lib/tickers.ts, src/lib/Task.ts), or cancelled (src/lib/settings/settings.ts). Each step below is what happens
 between two awaits, so steps of different commands and of the ticker interleave freely.
 */
module MinionActivities {
  import opened Banks

  type User = string

  /** A trip as it is stored and cached; it never changes. A group trip lists its users. */
  datatype Activity = Activity(id: nat, owner: User, group: Option<seq<User>>)

  function Users(a: Activity): seq<User> {
    if a.group.Some? then a.group.value else [a.owner]
  }

  datatype Row = Row(activity: Activity, finishDate: int, completed: bool)

  /** A trip about to be stored, whose owner was found idle. */
  datatype Request = Request(owner: User, group: Option<seq<User>>, finishDate: int)

  /** Where the ticker's callback is: waiting for its timer, or holding a batch it selected, has marked, or is
      running. The next callback is only scheduled when this one ends. */
  datatype Tick = Idle | Selected(batch: set<Activity>) | Marked(batch: set<Activity>) | Running(batch: set<Activity>)

  /** The activity table, the in-memory caches, the starts waiting for their row (`asked`) or stored and not yet in the
      cache (`created`), the cancels waiting for the database, the ticker, and a log of the trips that were run. */
  datatype State = State(
    table: map<nat, Row>,
    cache: map<User, Activity>,
    asked: multiset<Request>,
    created: set<Activity>,
    cancelling: multiset<User>,
    busy: map<User, int>,
    tick: Tick,
    nextId: nat,
    ran: multiset<nat>)

  const INITIAL := State(map[], map[], multiset{}, {}, multiset{}, map[], Idle, 0, multiset{})

  datatype Event =
    | Ask(owner: User, group: Option<seq<User>>, duration: real, now: int)
    | Create(request: Request)
    | Enter(activity: Activity)
    | EntryFails(activity: Activity)
    | CancelRows(user: User)
    | CancelEntry(user: User)
    | CancelFails(user: User)
    | Wipe(user: User)
    | Select(time: int, production: bool)
    | Mark
    | MarkFails(written: bool)
    | Run
    | Finish(activity: Activity)
    | Restart(order: seq<nat>)

  // ---------- The steps ----------

  function Held(t: Tick): set<Activity> {
    if t.Idle? then {} else t.batch
  }

  predicate IsOpen(s: State, id: nat) {
    id in s.table && !s.table[id].completed
  }

  function Sync(cache: map<User, Activity>, a: Activity): map<User, Activity> {
    cache + map u | u in Users(a) :: a
  }

  function CacheDelete(cache: map<User, Activity>, user: User): map<User, Activity> {
    if user in cache then cache - set u | u in Users(cache[user]) else cache
  }

  /** The unique index: a user owns at most one uncompleted row. */
  predicate OwnsOpenRow(s: State, user: User) {
    exists id | id in s.table :: s.table[id].activity.owner == user && !s.table[id].completed
  }

  /** A start is refused at once when its owner is busy; */
  predicate CanAsk(s: State, e: Event)
    requires e.Ask?
  {
    e.owner !in s.cache && e.duration.Floor >= 0
  }

  function RequestOf(e: Event): Request
    requires e.Ask?
  {
    Request(e.owner, e.group, e.now + e.duration.Floor)
  }

  /** by the database when its owner has an open row by then; */
  predicate CanCreate(s: State, q: Request) {
    q in s.asked && !OwnsOpenRow(s, q.owner)
  }

  function NewTrip(s: State, q: Request): Activity {
    Activity(s.nextId, q.owner, q.group)
  }

  function Created(s: State, q: Request): State {
    s.(table := s.table[s.nextId := Row(NewTrip(s, q), q.finishDate, false)],
       asked := s.asked - multiset{q},
       created := s.created + {NewTrip(s, q)},
       nextId := s.nextId + 1)
  }

  /** and once the database has answered, the trip enters the cache. */
  function Entered(s: State, a: Activity): State {
    s.(cache := Sync(s.cache, a), created := s.created - {a})
  }

  /** A cancel deletes the user's open rows, */
  function RowsCancelled(s: State, user: User): State {
    s.(table := map id | id in s.table && !(s.table[id].activity.owner == user && !s.table[id].completed)
                    :: s.table[id],
       cancelling := s.cancelling + multiset{user})
  }

  /** and, once the database has answered, the user's cache entry. */
  function EntryCancelled(s: State, user: User): State {
    s.(cache := s.cache - {user}, cancelling := s.cancelling - multiset{user})
  }

  /** A start or a cancel that was written, but reported as failed, leaves the cache alone. */
  function EntryFailed(s: State, a: Activity): State {
    s.(created := s.created - {a})
  }

  function CancelFailed(s: State, user: User): State {
    s.(cancelling := s.cancelling - multiset{user})
  }

  /** Starting over deletes all of a user's rows and leaves the cache alone. */
  function Wiped(s: State, user: User): State {
    s.(table := map id | id in s.table && s.table[id].activity.owner != user :: s.table[id])
  }

  predicate IsDue(row: Row, time: int, production: bool) {
    !row.completed && (production ==> row.finishDate < time)
  }

  function Due(s: State, time: int, production: bool): set<Activity> {
    set id | id in s.table && IsDue(s.table[id], time, production) :: s.table[id].activity
  }

  function Ids(batch: set<Activity>): set<nat> {
    set a | a in batch :: a.id
  }

  function Owners(batch: set<Activity>): set<User> {
    set a | a in batch :: a.owner
  }

  function MarkRows(table: map<nat, Row>, ids: set<nat>): map<nat, Row> {
    map id | id in table :: if id in ids then table[id].(completed := true) else table[id]
  }

  function Counter(busy: map<User, int>, user: User): int {
    if user in busy then busy[user] else 0
  }

  function Bump(busy: map<User, int>, users: set<User>): map<User, int> {
    map u | u in busy.Keys + users :: Counter(busy, u) + if u in users then 1 else 0
  }

  function WhileRunning(batch: set<Activity>): Tick {
    if batch == {} then Idle else Running(batch)
  }

  function Finished(s: State, a: Activity): State
    requires s.tick.Running?
  {
    s.(busy := s.busy[a.owner := Counter(s.busy, a.owner) - 1],
       cache := CacheDelete(s.cache, a.owner),
       tick := WhileRunning(s.tick.batch - {a}))
  }

  /** Refilling the cache from the uncompleted rows, in the order the database returned them. */
  function Refill(table: map<nat, Row>, order: seq<nat>): map<User, Activity>
    requires forall id :: id in order ==> id in table
  {
    if order == [] then map[]
    else Sync(Refill(table, order[..|order| - 1]), table[order[|order| - 1]].activity)
  }

  predicate ListsOpenRows(s: State, order: seq<nat>) {
    && (forall id | id in order :: IsOpen(s, id))
    && (forall id | id in s.table :: !s.table[id].completed ==> id in order)
  }

  /** One step; an event that cannot happen here changes nothing. */
  function Step(s: State, e: Event): State {
    match e
    case Ask(_, _, _, _) => if CanAsk(s, e) then s.(asked := s.asked + multiset{RequestOf(e)}) else s
    case Create(q) =>
      if q !in s.asked then s
      else if OwnsOpenRow(s, q.owner) then s.(asked := s.asked - multiset{q})
      else Created(s, q)
    case Enter(a) => if a in s.created then Entered(s, a) else s
    case EntryFails(a) => EntryFailed(s, a)
    case CancelRows(user) => RowsCancelled(s, user)
    case CancelEntry(user) => if user in s.cancelling then EntryCancelled(s, user) else s
    case CancelFails(user) => CancelFailed(s, user)
    case Wipe(user) => Wiped(s, user)
    case Select(time, production) => if s.tick.Idle? then s.(tick := Selected(Due(s, time, production))) else s
    case Mark =>
      if s.tick.Selected? then s.(table := MarkRows(s.table, Ids(s.tick.batch)), tick := Marked(s.tick.batch)) else s
    case MarkFails(written) =>
      if s.tick.Selected? then
        s.(table := if written then MarkRows(s.table, Ids(s.tick.batch)) else s.table, tick := Idle)
      else s
    case Run =>
      if s.tick.Marked? then
        s.(busy := Bump(s.busy, Owners(s.tick.batch)),
           ran := s.ran + multiset(Ids(s.tick.batch)),
           tick := WhileRunning(s.tick.batch))
      else s
    case Finish(a) => if s.tick.Running? && a in s.tick.batch then Finished(s, a) else s
    case Restart(order) =>
      if ListsOpenRows(s, order) then
        s.(cache := Refill(s.table, order), asked := multiset{}, created := {}, cancelling := multiset{},
           busy := map[], tick := Idle)
      else s
  }

  /** The state after the first n events. */
  function Steps(s: State, events: seq<Event>, n: nat): State
    requires n <= |events|
  {
    if n == 0 then s else Step(Steps(s, events, n - 1), events[n - 1])
  }

  // ---------- At most once ----------

  /** Rows are stored under their own ids. */
  ghost predicate Keyed(s: State) {
    forall id :: id in s.table ==> id < s.nextId && s.table[id].activity.id == id
  }

  /** A trip that was run was run once, and is not open. */
  ghost predicate RanRight(s: State) {
    forall id :: id in s.ran ==> id < s.nextId && s.ran[id] == 1 && !IsOpen(s, id)
  }

  /** The busy counter stands at one for the owners of the batch being run. */
  ghost predicate CountersRight(s: State) {
    forall u :: Counter(s.busy, u) == if s.tick.Running? && u in Owners(s.tick.batch) then 1 else 0
  }

  /** The trips a tick holds are the table's, and no two share an id or an owner. */
  ghost predicate HeldRight(s: State) {
    && (forall a :: a in Held(s.tick) ==> a.id < s.nextId)
    && (forall a :: a in Held(s.tick) && a.id in s.table ==> s.table[a.id].activity == a)
    && (forall a, b :: a in Held(s.tick) && b in Held(s.tick) && (a.id == b.id || a.owner == b.owner) ==> a == b)
  }

  /** A selected or marked batch is yet to be run; a marked or running one is closed. */
  ghost predicate BatchRight(s: State) {
    && (s.tick.Selected? || s.tick.Marked? ==> forall a :: a in s.tick.batch ==> a.id !in s.ran)
    && (s.tick.Marked? || s.tick.Running? ==> forall a :: a in s.tick.batch ==> !IsOpen(s, a.id))
  }

  ghost predicate OneOpenEach(s: State) {
    forall i, j :: IsOpen(s, i) && IsOpen(s, j) && s.table[i].activity.owner == s.table[j].activity.owner ==> i == j
  }

  /** What holds in every run. */
  ghost predicate Sound(s: State) {
    Keyed(s) && HeldRight(s) && BatchRight(s) && OneOpenEach(s) && RanRight(s) && CountersRight(s)
  }

  lemma CreateSound(s: State, q: Request)
    requires Sound(s) && CanCreate(s, q)
    ensures Sound(Created(s, q))
  {
    var t := Created(s, q);
    forall i, j | IsOpen(t, i) && IsOpen(t, j) && t.table[i].activity.owner == t.table[j].activity.owner
      ensures i == j
    {
    }
  }

  /** What is under way outside the table and the ticker does not matter. */
  lemma PendingSound(s: State, t: State)
    requires Sound(s) && t == s.(cache := t.cache, asked := t.asked, created := t.created, cancelling := t.cancelling)
    ensures Sound(t)
  {
  }

  lemma CancelSound(s: State, user: User)
    requires Sound(s)
    ensures Sound(RowsCancelled(s, user))
  {
  }

  lemma WipeSound(s: State, user: User)
    requires Sound(s)
    ensures Sound(Wiped(s, user))
  {
  }

  lemma SelectSound(s: State, time: int, production: bool)
    requires Sound(s) && s.tick.Idle?
    ensures Sound(Step(s, Select(time, production)))
  {
    DueIsHeldRight(s, time, production);
  }

  lemma DueIsHeldRight(s: State, time: int, production: bool)
    requires Keyed(s) && OneOpenEach(s)
    ensures HeldRight(s.(tick := Selected(Due(s, time, production))))
    ensures forall a :: a in Due(s, time, production) ==> IsOpen(s, a.id)
  {
  }

  lemma MarkCloses(table: map<nat, Row>, ids: set<nat>, id: nat)
    ensures id in MarkRows(table, ids) <==> id in table
    ensures id in table ==> MarkRows(table, ids)[id].activity == table[id].activity
    ensures id in table ==> (MarkRows(table, ids)[id].completed <==> table[id].completed || id in ids)
  {
  }

  lemma MarkedSound(s: State, tick: Tick)
    requires Sound(s) && s.tick.Selected? && (tick == Marked(s.tick.batch) || tick == Idle)
    ensures Sound(s.(table := MarkRows(s.table, Ids(s.tick.batch)), tick := tick))
  {
    var ids := Ids(s.tick.batch);
    var t := s.(table := MarkRows(s.table, ids), tick := tick);
    forall id ensures IsOpen(t, id) <==> IsOpen(s, id) && id !in ids
    {
      MarkCloses(s.table, ids, id);
    }
    assert forall a :: a in s.tick.batch ==> a.id in ids;
  }

  lemma MarkSound(s: State)
    requires Sound(s) && s.tick.Selected?
    ensures Sound(Step(s, Mark))
  {
    MarkedSound(s, Marked(s.tick.batch));
  }

  lemma MarkFailsSound(s: State, written: bool)
    requires Sound(s) && s.tick.Selected?
    ensures Sound(Step(s, MarkFails(written)))
  {
    MarkedSound(s, Idle);
  }

  lemma RanOnce(s: State, id: nat)
    requires Sound(s) && s.tick.Marked?
    ensures var t := Step(s, Run);
            id in t.ran ==> id < t.nextId && t.ran[id] == 1 && !IsOpen(t, id)
  {
    if id in Ids(s.tick.batch) {
      var a :| a in s.tick.batch && a.id == id;
    }
  }

  lemma RunCounts(s: State, u: User)
    requires Sound(s) && s.tick.Marked?
    ensures var t := Step(s, Run);
            Counter(t.busy, u) == if t.tick.Running? && u in Owners(t.tick.batch) then 1 else 0
  {
    assert Counter(s.busy, u) == 0;
  }

  lemma RunRanRight(s: State)
    requires Sound(s) && s.tick.Marked?
    ensures RanRight(Step(s, Run))
  {
    var t := Step(s, Run);
    forall id | id in t.ran ensures id < t.nextId && t.ran[id] == 1 && !IsOpen(t, id)
    {
      RanOnce(s, id);
    }
  }

  lemma RunCountersRight(s: State)
    requires Sound(s) && s.tick.Marked?
    ensures CountersRight(Step(s, Run))
  {
    var t := Step(s, Run);
    forall u ensures Counter(t.busy, u) == if t.tick.Running? && u in Owners(t.tick.batch) then 1 else 0
    {
      RunCounts(s, u);
    }
  }

  lemma RunHeldRight(s: State)
    requires Sound(s) && s.tick.Marked?
    ensures HeldRight(Step(s, Run)) && BatchRight(Step(s, Run))
  {
  }

  lemma RunSound(s: State)
    requires Sound(s) && s.tick.Marked?
    ensures Sound(Step(s, Run))
  {
    RunHeldRight(s);
    RunRanRight(s);
    RunCountersRight(s);
  }

  lemma FinishSound(s: State, a: Activity)
    requires Sound(s) && s.tick.Running? && a in s.tick.batch
    ensures Sound(Finished(s, a))
  {
    var t := Finished(s, a);
    var left := s.tick.batch - {a};
    forall u ensures Counter(t.busy, u) == if t.tick.Running? && u in Owners(t.tick.batch) then 1 else 0
    {
      if u == a.owner {
        assert forall b :: b in left ==> b.owner != u;
        assert a.owner in Owners(s.tick.batch);
      } else if u in Owners(s.tick.batch) {
        var b :| b in s.tick.batch && b.owner == u;
        assert b in left;
      } else {
        assert forall b :: b in left ==> b in s.tick.batch && b.owner in Owners(s.tick.batch);
      }
    }
  }

  lemma RestartSound(s: State, order: seq<nat>)
    requires Sound(s)
    ensures Sound(Step(s, Restart(order)))
  {
  }

  lemma TickSound(s: State, e: Event)
    requires Sound(s) && (e.Select? || e.Mark? || e.MarkFails? || e.Run?)
    ensures Sound(Step(s, e))
  {
    match e {
      case Select(time, production) =>
        if s.tick.Idle? {
          SelectSound(s, time, production);
        }
      case Mark =>
        if s.tick.Selected? {
          MarkSound(s);
        }
      case MarkFails(written) =>
        if s.tick.Selected? {
          MarkFailsSound(s, written);
        }
      case Run =>
        if s.tick.Marked? {
          RunSound(s);
        }
    }
  }

  lemma StepSound(s: State, e: Event)
    requires Sound(s)
    ensures Sound(Step(s, e))
  {
    match e {
      case Create(q) =>
        if CanCreate(s, q) {
          CreateSound(s, q);
        } else {
          PendingSound(s, Step(s, e));
        }
      case CancelRows(user) => CancelSound(s, user);
      case Wipe(user) => WipeSound(s, user);
      case Finish(a) =>
        if s.tick.Running? && a in s.tick.batch {
          FinishSound(s, a);
        }
      case Restart(order) => RestartSound(s, order);
      case _ =>
        if e.Select? || e.Mark? || e.MarkFails? || e.Run? {
          TickSound(s, e);
        } else {
          PendingSound(s, Step(s, e));
        }
    }
  }

  /** What every step keeps, every run keeps. */
  lemma {:induction false} StepsKeep(keeps: State -> bool, s: State, events: seq<Event>, n: nat)
    requires keeps(s) && n <= |events|
    requires forall t, e :: keeps(t) ==> keeps(Step(t, e))
    ensures keeps(Steps(s, events, n))
  {
    if n > 0 {
      StepsKeep(keeps, s, events, n - 1);
    }
  }

  lemma StepsSound(s: State, events: seq<Event>, n: nat)
    requires Sound(s) && n <= |events|
    ensures Sound(Steps(s, events, n))
  {
    var keeps := (t: State) => Sound(t);
    forall t, e | keeps(t) ensures keeps(Step(t, e))
    {
      StepSound(t, e);
    }
    StepsKeep(keeps, s, events, n);
  }

  lemma AlwaysSound(events: seq<Event>, n: nat)
    requires n <= |events|
    ensures Sound(Steps(INITIAL, events, n))
  {
    assert Sound(INITIAL);
    StepsSound(INITIAL, events, n);
  }

  /** Whatever is started, cancelled and restarted, and however the steps interleave: no trip is run twice, and at
      most one trip of a user is being completed at a time. */
  lemma AtMostOnce(events: seq<Event>, n: nat, id: nat, user: User)
    requires n <= |events|
    ensures Steps(INITIAL, events, n).ran[id] <= 1
    ensures 0 <= Counter(Steps(INITIAL, events, n).busy, user) <= 1
  {
    AlwaysSound(events, n);
  }

  // ---------- Exactly once ----------

  predicate IsSafe(s: State, id: nat) {
    id in s.table && s.table[id].completed ==> id in s.ran || (s.tick.Marked? && id in Ids(s.tick.batch))
  }

  /** Every completed trip was run, or is about to be by the batch just marked. */
  ghost predicate NothingLost(s: State) {
    forall id :: IsSafe(s, id)
  }

  predicate HoldsRows(s: State) {
    !s.tick.Idle? && exists a | a in s.tick.batch :: a.id in s.table
  }

  /** The process died between marking a batch and running it, or the marking was written and reported as failed. */
  predicate DropsBatch(s: State, e: Event) {
    && HoldsRows(s)
    && ((e.Restart? && ListsOpenRows(s, e.order) && s.tick.Marked?) || (e.MarkFails? && e.written && s.tick.Selected?))
  }

  lemma DroppingLoses(s: State, e: Event)
    requires Sound(s) && DropsBatch(s, e)
    ensures !NothingLost(Step(s, e))
  {
    var a :| a in s.tick.batch && a.id in s.table;
    assert a.id in Ids(s.tick.batch);
    assert !IsSafe(Step(s, e), a.id);
  }

  /** Marking a batch leaves its trips to be run, and one that fails unwritten leaves them open. */
  lemma MarkIsSafe(s: State, id: nat)
    requires IsSafe(s, id) && s.tick.Selected?
    ensures IsSafe(Step(s, Mark), id)
  {
    MarkCloses(s.table, Ids(s.tick.batch), id);
  }

  lemma FailureIsSafe(s: State, written: bool, id: nat)
    requires IsSafe(s, id) && s.tick.Selected? && !DropsBatch(s, MarkFails(written))
    ensures IsSafe(Step(s, MarkFails(written)), id)
  {
    MarkCloses(s.table, Ids(s.tick.batch), id);
    if written && id in Ids(s.tick.batch) {
      var a :| a in s.tick.batch && a.id == id;
      assert a.id !in s.table;
    }
  }

  lemma RunIsSafe(s: State, id: nat)
    requires IsSafe(s, id) && s.tick.Marked?
    ensures IsSafe(Step(s, Run), id)
  {
  }

  lemma RestartIsSafe(s: State, order: seq<nat>, id: nat)
    requires Sound(s) && IsSafe(s, id) && !DropsBatch(s, Restart(order))
    ensures IsSafe(Step(s, Restart(order)), id)
  {
    if ListsOpenRows(s, order) && s.tick.Marked? && id in Ids(s.tick.batch) {
      var a :| a in s.tick.batch && a.id == id;
      assert HoldsRows(s) <== a.id in s.table;
    }
  }

  lemma OthersLoseNothing(s: State, e: Event, id: nat)
    requires Sound(s) && IsSafe(s, id) && !DropsBatch(s, e)
    ensures IsSafe(Step(s, e), id)
  {
    match e {
      case Mark =>
        if s.tick.Selected? {
          MarkIsSafe(s, id);
        }
      case MarkFails(written) =>
        if s.tick.Selected? {
          FailureIsSafe(s, written, id);
        }
      case Run =>
        if s.tick.Marked? {
          RunIsSafe(s, id);
        }
      case Restart(order) => RestartIsSafe(s, order, id);
      case _ =>
    }
  }

  /** After a step every completed trip was run or is about to be, if and only if the step drops no batch. */
  lemma StepLosesNothing(s: State, e: Event)
    requires Sound(s) && NothingLost(s)
    ensures NothingLost(Step(s, e)) <==> !DropsBatch(s, e)
  {
    if DropsBatch(s, e) {
      DroppingLoses(s, e);
    } else {
      forall id ensures IsSafe(Step(s, e), id)
      {
        OthersLoseNothing(s, e, id);
      }
    }
  }

  predicate DropsBatchAt(s: State, events: seq<Event>, k: nat)
    requires k < |events|
  {
    DropsBatch(Steps(s, events, k), events[k])
  }

  lemma {:induction false} StepsLoseNothing(s: State, events: seq<Event>, n: nat)
    requires Sound(s) && NothingLost(s) && n <= |events|
    requires forall k :: 0 <= k < n ==> !DropsBatchAt(s, events, k)
    ensures NothingLost(Steps(s, events, n))
  {
    if n > 0 {
      var before := Steps(s, events, n - 1);
      StepsLoseNothing(s, events, n - 1);
      StepsSound(s, events, n - 1);
      assert !DropsBatchAt(s, events, n - 1);
      StepLosesNothing(before, events[n - 1]);
    }
  }

  /** A row is completed exactly when its trip was run once or is in the batch just marked. */
  ghost predicate CompletedMeansRun(s: State) {
    forall id :: id in s.table ==>
                   (s.table[id].completed <==> s.ran[id] == 1 || (s.tick.Marked? && id in Ids(s.tick.batch)))
  }

  /** In every run that drops no batch, the completed rows are exactly those of the trips run once or about to be. */
  lemma ExactlyOnce(events: seq<Event>, n: nat)
    requires n <= |events|
    requires forall k :: 0 <= k < n ==> !DropsBatchAt(INITIAL, events, k)
    ensures CompletedMeansRun(Steps(INITIAL, events, n))
  {
    InitialIsGood();
    StepsSound(INITIAL, events, n);
    StepsLoseNothing(INITIAL, events, n);
    SoundMeansRun(Steps(INITIAL, events, n));
  }

  lemma SoundMeansRun(s: State)
    requires Sound(s) && NothingLost(s)
    ensures CompletedMeansRun(s)
  {
    forall id | id in s.table && s.tick.Marked? && id in Ids(s.tick.batch) ensures s.table[id].completed
    {
      var a :| a in s.tick.batch && a.id == id;
      assert !IsOpen(s, a.id);
    }
    forall id | id in s.table
      ensures s.table[id].completed <==> s.ran[id] == 1 || (s.tick.Marked? && id in Ids(s.tick.batch))
    {
      assert IsSafe(s, id);
      assert id in s.ran ==> !IsOpen(s, id);
    }
  }

  /** A trip not yet run that is not open and that no tick holds. */
  ghost predicate OutOfReach(s: State, id: nat) {
    id < s.nextId && !IsOpen(s, id) && id !in s.ran && id !in Ids(Held(s.tick))
  }

  /** Only a selection gives a tick new trips, */
  lemma HeldShrinks(s: State, e: Event)
    requires !e.Select?
    ensures Held(Step(s, e).tick) <= Held(s.tick)
  {
  }

  /** only a creation opens a row, */
  lemma RowsStayClosed(s: State, e: Event, id: nat)
    requires id < s.nextId && !IsOpen(s, id)
    ensures id < Step(s, e).nextId && !IsOpen(Step(s, e), id)
  {
  }

  /** and only trips that a tick holds are run. */
  lemma OnlyHeldRun(s: State, e: Event, id: nat)
    requires id !in s.ran && id !in Ids(Held(s.tick))
    ensures id !in Step(s, e).ran
  {
  }

  lemma StepStaysOut(s: State, e: Event, id: nat)
    requires Keyed(s) && OutOfReach(s, id)
    ensures OutOfReach(Step(s, e), id)
  {
    RowsStayClosed(s, e, id);
    OnlyHeldRun(s, e, id);
    if e.Select? {
      SelectStaysOut(s, e.time, e.production, id);
    } else {
      HeldShrinks(s, e);
      assert forall a :: a in Held(s.tick) ==> a.id in Ids(Held(s.tick));
    }
  }

  lemma SelectStaysOut(s: State, time: int, production: bool, id: nat)
    requires Keyed(s) && OutOfReach(s, id)
    ensures id !in Ids(Held(Step(s, Select(time, production)).tick))
  {
    if s.tick.Idle? {
      forall a | a in Due(s, time, production) ensures a.id != id
      {
        var i :| i in s.table && IsDue(s.table[i], time, production) && s.table[i].activity == a;
      }
    }
  }

  /** Such a trip is never run. */
  lemma OutForever(s: State, events: seq<Event>, n: nat, id: nat)
    requires Sound(s) && OutOfReach(s, id) && n <= |events|
    ensures OutOfReach(Steps(s, events, n), id)
  {
    var keeps := (t: State) => Sound(t) && OutOfReach(t, id);
    forall t, e | keeps(t) ensures keeps(Step(t, e))
    {
      StepSound(t, e);
      StepStaysOut(t, e, id);
    }
    StepsKeep(keeps, s, events, n);
  }

  /** A completed trip that was not run and that no tick holds. */
  ghost predicate Lost(s: State, id: nat) {
    id in s.table && s.table[id].completed && OutOfReach(s, id)
  }

  /** The trips of a dropped batch are lost, */
  lemma DroppedIsLost(s: State, e: Event, a: Activity)
    requires Sound(s) && DropsBatch(s, e) && a in s.tick.batch && a.id in s.table
    ensures Lost(Step(s, e), a.id)
  {
    assert a.id in Ids(s.tick.batch);
  }

  lemma StepKeepsCompleted(s: State, e: Event, id: nat)
    requires Keyed(s) && id in s.table && s.table[id].completed && e != Wipe(s.table[id].activity.owner)
    ensures id in Step(s, e).table && Step(s, e).table[id].completed
    ensures Step(s, e).table[id].activity == s.table[id].activity
  {
    match e {
      case Create(q) => CreateKeepsRows(s, q, id);
      case CancelRows(user) => DeletingKeepsRows(s, user, id);
      case Wipe(user) => DeletingKeepsRows(s, user, id);
      case Mark => MarkCloses(s.table, Ids(Held(s.tick)), id);
      case MarkFails(_) => MarkCloses(s.table, Ids(Held(s.tick)), id);
      case _ =>
    }
  }

  lemma CreateKeepsRows(s: State, q: Request, id: nat)
    requires Keyed(s) && id in s.table
    ensures id in Created(s, q).table && Created(s, q).table[id] == s.table[id]
  {
  }

  lemma DeletingKeepsRows(s: State, user: User, id: nat)
    requires id in s.table
    ensures s.table[id].completed ==>
              id in RowsCancelled(s, user).table && RowsCancelled(s, user).table[id] == s.table[id]
    ensures s.table[id].activity.owner != user ==>
              id in Wiped(s, user).table && Wiped(s, user).table[id] == s.table[id]
  {
  }

  lemma StepKeepsGone(s: State, e: Event, id: nat)
    requires id < s.nextId && id !in s.table
    ensures id < Step(s, e).nextId && id !in Step(s, e).table
  {
  }

  predicate IsWiped(events: seq<Event>, n: nat, user: User)
    requires n <= |events|
  {
    n > 0 && (events[n - 1] == Wipe(user) || IsWiped(events, n - 1, user))
  }

  /** The trip's completed row is still there, or it was deleted for good. */
  ghost predicate IsKept(t: State, a: Activity, wiped: bool) {
    && Keyed(t) && a.id < t.nextId
    && (a.id in t.table <==> !wiped)
    && (a.id in t.table ==> t.table[a.id].completed && t.table[a.id].activity == a)
  }

  lemma StepIsKept(t: State, e: Event, a: Activity, wiped: bool)
    requires IsKept(t, a, wiped) && Keyed(Step(t, e))
    ensures IsKept(Step(t, e), a, wiped || e == Wipe(a.owner))
  {
    if wiped {
      StepKeepsGone(t, e, a.id);
    } else if e != Wipe(a.owner) {
      StepKeepsCompleted(t, e, a.id);
    }
  }

  /** What every step keeps, told whether the user has started over. */
  lemma {:induction false} StepsKeepUntil(keeps: (State, bool) -> bool, user: User, s: State, events: seq<Event>,
                                          n: nat)
    requires keeps(s, false) && n <= |events|
    requires forall t, e, wiped :: keeps(t, wiped) ==> keeps(Step(t, e), wiped || e == Wipe(user))
    ensures keeps(Steps(s, events, n), IsWiped(events, n, user))
  {
    if n > 0 {
      StepsKeepUntil(keeps, user, s, events, n - 1);
    }
  }

  /** A completed row stays as it is until its owner starts over. */
  lemma CompletedStays(s: State, events: seq<Event>, n: nat, a: Activity)
    requires Sound(s) && IsKept(s, a, false) && n <= |events|
    ensures IsKept(Steps(s, events, n), a, IsWiped(events, n, a.owner))
  {
    var keeps := (t: State, wiped: bool) => Sound(t) && IsKept(t, a, wiped);
    forall t, e, wiped | keeps(t, wiped) ensures keeps(Step(t, e), wiped || e == Wipe(a.owner))
    {
      StepSound(t, e);
      StepIsKept(t, e, a, wiped);
    }
    StepsKeepUntil(keeps, a.owner, s, events, n);
  }

  /** and are not recovered: they are never run, and stay completed until their owner starts over. */
  lemma LostForever(s: State, events: seq<Event>, n: nat, id: nat)
    requires Sound(s) && Lost(s, id) && n <= |events|
    ensures OutOfReach(Steps(s, events, n), id)
    ensures Lost(Steps(s, events, n), id) <==> !IsWiped(events, n, s.table[id].activity.owner)
  {
    OutForever(s, events, n, id);
    CompletedStays(s, events, n, s.table[id].activity);
  }

  /** The trip is run in some continuation. */
  ghost predicate MayRun(s: State, id: nat) {
    exists events :: RunsAfter(s, events, id)
  }

  ghost predicate RunsAfter(s: State, events: seq<Event>, id: nat) {
    id in Steps(s, events, |events|).ran
  }

  /** A trip whose row a cancel deletes can still be run exactly when a tick has already selected it. */
  lemma CancelledRunsIff(s: State, a: Activity)
    requires Sound(s) && IsOpen(s, a.id) && s.table[a.id].activity == a
    ensures a.id !in RowsCancelled(s, a.owner).table
    ensures MayRun(RowsCancelled(s, a.owner), a.id) <==> a in Held(s.tick)
  {
    var t := RowsCancelled(s, a.owner);
    CancelSound(s, a.owner);
    if a in Held(s.tick) {
      SelectedThenRuns(t, a);
    } else {
      assert OutOfReach(t, a.id) by {
        assert forall b :: b in Held(s.tick) && b.id == a.id ==> b == a;
      }
      forall events ensures !RunsAfter(t, events, a.id)
      {
        OutForever(t, events, |events|, a.id);
      }
    }
  }

  lemma SelectedThenRuns(s: State, a: Activity)
    requires s.tick.Selected? && a in s.tick.batch
    ensures MayRun(s, a.id)
  {
    var events := [Mark, Run];
    assert Steps(s, events, 1) == Step(s, Mark);
    assert a.id in Ids(s.tick.batch);
    assert RunsAfter(s, events, a.id);
  }

  // ---------- Who is busy ----------

  /** The trips that are open or still held by the ticker. */
  ghost predicate IsLive(s: State, a: Activity) {
    (IsOpen(s, a.id) && s.table[a.id].activity == a) || a in Held(s.tick)
  }

  /** The user is on a trip that is stored and not yet in the cache. */
  predicate IsEntering(s: State, user: User) {
    exists a | a in s.created :: user in Users(a)
  }

  /** Whoever the cache lists is on that trip, or being cancelled. */
  ghost predicate CacheIsLive(s: State) {
    forall u :: u in s.cache ==>
                  u in s.cancelling || (IsLive(s, s.cache[u]) && s.cache[u] !in s.created && u in Users(s.cache[u]))
  }

  /** The cache lists everybody on a live trip, once it has entered; nobody on one is being cancelled. */
  ghost predicate LiveIsCached(s: State) {
    && (forall u, a :: IsLive(s, a) && u in Users(a) ==>
                         u !in s.cancelling && (a in s.created || (u in s.cache && s.cache[u] == a)))
    && (forall a :: IsLive(s, a) ==> a.owner in Users(a))
  }

  /** Trips yet to enter the cache are live, and their users are on no other trip. */
  ghost predicate CreatedApart(s: State) {
    && (forall a :: a in s.created ==> IsLive(s, a))
    && (forall a, u :: a in s.created && u in Users(a) ==> u !in s.cache)
    && (forall a, b, u :: a in s.created && b in s.created && u in Users(a) && u in Users(b) ==> a == b)
  }

  /** The busy cache says of every user exactly the live trip they are on, but for those being cancelled and those
      whose trip is yet to enter it. */
  ghost predicate CacheAgrees(s: State) {
    CacheIsLive(s) && LiveIsCached(s) && CreatedApart(s)
  }

  /** A selected trip that a cancel deleted would be run all the same. */
  ghost predicate SelectionIsOpen(s: State) {
    s.tick.Selected? ==> forall a :: a in s.tick.batch ==> IsOpen(s, a.id)
  }

  ghost predicate Good(s: State) {
    Sound(s) && CacheAgrees(s) && SelectionIsOpen(s)
  }

  /** Storing a trip: its owner is among the users, and none of them is busy, about to be, or being cancelled.
      Cancelling: the user is idle, already being cancelled, or on a trip of their own that no tick holds and that has
      entered the cache. Starting over: the user owns no open trip. Finishing: the trip has entered the cache. Nothing
      that was written is reported as failed. */
  predicate IsClean(s: State, e: Event) {
    match e
    case Create(q) =>
      CanCreate(s, q) ==>
        var users := Users(NewTrip(s, q));
        q.owner in users && forall u | u in users :: u !in s.cache && u !in s.cancelling && !IsEntering(s, u)
    case CancelRows(user) =>
      && !IsEntering(s, user)
      && (user in s.cache && user !in s.cancelling ==>
            s.cache[user] !in Held(s.tick) && forall u | u in Users(s.cache[user]) :: u == user)
    case EntryFails(a) => a !in s.created
    case CancelFails(user) => user in s.cache ==> s.cancelling[user] != 1
    case Wipe(user) => !OwnsOpenRow(s, user)
    case Finish(a) => s.tick.Running? && a in s.tick.batch ==> a !in s.created
    case MarkFails(_) => !DropsBatch(s, e)
    case _ => true
  }

  ghost predicate LiveIsOld(s: State) {
    forall a :: IsLive(s, a) ==> a.id < s.nextId
  }

  lemma SoundLive(s: State)
    requires Sound(s)
    ensures LiveIsOld(s) && Keyed(s)
  {
  }

  lemma CreateLive(s: State, q: Request, b: Activity)
    requires Keyed(s) && LiveIsOld(s) && CanCreate(s, q)
    ensures IsLive(Created(s, q), b) <==> b == NewTrip(s, q) || IsLive(s, b)
  {
  }

  /** The live trips of `t` are those of `s` and a new one. */
  ghost predicate AddsTrip(s: State, t: State, a: Activity) {
    && t.cache == s.cache && t.cancelling == s.cancelling && t.created == s.created + {a}
    && !IsLive(s, a) && forall b :: IsLive(t, b) <==> b == a || IsLive(s, b)
  }

  lemma CreateCached(s: State, t: State, a: Activity)
    requires CacheIsLive(s) && LiveIsCached(s) && AddsTrip(s, t, a)
    requires a.owner in Users(a) && forall u | u in Users(a) :: u !in s.cancelling
    ensures CacheIsLive(t) && LiveIsCached(t)
  {
  }

  lemma CreateApart(s: State, t: State, a: Activity)
    requires CreatedApart(s) && AddsTrip(s, t, a)
    requires forall u | u in Users(a) :: u !in s.cache && !IsEntering(s, u)
    ensures CreatedApart(t)
  {
    forall b, u | b in t.created && u in Users(b) && u in Users(a) ensures b == a
    {
      assert b in s.created ==> IsEntering(s, u);
    }
  }

  /** A clean creation keeps the agreement. */
  lemma CreateKeeps(s: State, q: Request)
    requires Keyed(s) && LiveIsOld(s) && CacheAgrees(s) && CanCreate(s, q) && IsClean(s, Create(q))
    ensures CacheAgrees(Created(s, q))
  {
    var t, a := Created(s, q), NewTrip(s, q);
    forall b ensures IsLive(t, b) <==> b == a || IsLive(s, b)
    {
      CreateLive(s, q, b);
    }
    CreateCached(s, t, a);
    CreateApart(s, t, a);
  }

  /** Storing a trip with a busy member, or without the owner, breaks it. */
  lemma CreateBreaks(s: State, q: Request)
    requires Keyed(s) && LiveIsOld(s) && CacheAgrees(s) && CanCreate(s, q) && !IsClean(s, Create(q))
    ensures !CacheAgrees(Created(s, q))
  {
    var t, a := Created(s, q), NewTrip(s, q);
    assert IsLive(t, a) && a in t.created && !IsLive(s, a);
    if q.owner in Users(a) {
      var u :| u in Users(a) && (u in s.cache || u in s.cancelling || IsEntering(s, u));
      if IsEntering(s, u) {
        var b :| b in s.created && u in Users(b);
        assert b in t.created && b != a;
      }
    }
  }

  lemma CreateAgrees(s: State, q: Request)
    requires Good(s) && CanCreate(s, q)
    ensures Good(Created(s, q)) <==> IsClean(s, Create(q))
  {
    SoundLive(s);
    CreateSound(s, q);
    if IsClean(s, Create(q)) {
      CreateKeeps(s, q);
    } else {
      CreateBreaks(s, q);
    }
    assert SelectionIsOpen(Created(s, q));
  }

  lemma EnterKeeps(s: State, a: Activity)
    requires CacheAgrees(s) && a in s.created
    ensures CacheAgrees(Entered(s, a))
  {
    var t := Entered(s, a);
    forall b ensures IsLive(t, b) <==> IsLive(s, b)
    {
    }
    assert IsLive(s, a);
    forall u, b | IsLive(t, b) && u in Users(b) && b !in t.created ensures u in t.cache && t.cache[u] == b
    {
      if b != a {
        assert u in s.cache && u !in Users(a);
      }
    }
  }

  /** Entering the cache makes exactly the trip's users busy. */
  lemma EnterAgrees(s: State, a: Activity)
    requires Good(s) && a in s.created
    ensures Good(Entered(s, a))
  {
    PendingSound(s, Entered(s, a));
    EnterKeeps(s, a);
  }

  lemma CancelLive(s: State, user: User, a: Activity)
    requires CacheAgrees(s) && IsClean(s, CancelRows(user))
    ensures IsLive(RowsCancelled(s, user), a) <==>
            IsLive(s, a) && !(user in s.cache && user !in s.cancelling && a == s.cache[user])
  {
    var t := RowsCancelled(s, user);
    if IsLive(s, a) {
      assert a.owner in Users(a);
      assert a.owner == user ==> a !in s.created;
    }
    assert IsOpen(t, a.id) ==> IsOpen(s, a.id);
  }

  /** Cancelling a trip of one's own that no tick holds keeps the agreement. */
  lemma CancelKeeps(s: State, user: User)
    requires CacheAgrees(s) && IsClean(s, CancelRows(user))
    ensures CacheAgrees(RowsCancelled(s, user))
  {
    var t := RowsCancelled(s, user);
    forall a ensures IsLive(t, a) <==>
                     IsLive(s, a) && !(user in s.cache && user !in s.cancelling && a == s.cache[user])
    {
      CancelLive(s, user, a);
    }
    forall u, a | IsLive(t, a) && u in Users(a)
      ensures u !in t.cancelling && (a in t.created || (u in t.cache && t.cache[u] == a))
    {
      assert IsLive(s, a);
      assert u == user ==> a !in s.created;
    }
    forall a | a in t.created ensures IsLive(t, a)
    {
      assert user in s.cache && a == s.cache[user] ==> user !in Users(a);
    }
  }

  lemma CancelKeepsSelection(s: State, user: User)
    requires Sound(s) && CacheAgrees(s) && SelectionIsOpen(s) && IsClean(s, CancelRows(user))
    ensures SelectionIsOpen(RowsCancelled(s, user))
  {
    forall a | s.tick.Selected? && a in s.tick.batch
      ensures IsOpen(RowsCancelled(s, user), a.id)
    {
      assert IsLive(s, a) && s.table[a.id].activity == a && a.owner in Users(a);
    }
  }

  /** Cancelling a shared trip, or one a tick holds, breaks it. */
  lemma CancelBreaks(s: State, user: User)
    requires CacheAgrees(s) && !IsClean(s, CancelRows(user))
    ensures !CacheAgrees(RowsCancelled(s, user))
  {
    var t := RowsCancelled(s, user);
    if IsEntering(s, user) {
      var a :| a in s.created && user in Users(a);
      assert IsLive(t, a) ==> user in t.cancelling;
      return;
    }
    var a := s.cache[user];
    if a in Held(s.tick) || a.owner != user {
      assert IsLive(t, a) && user in Users(a) && user in t.cancelling;
    } else {
      assert !IsLive(t, a);
      var u :| u in Users(a) && u != user;
      assert u in t.cache && t.cache[u] == a && u !in t.cancelling;
    }
  }

  lemma CancelAgrees(s: State, user: User)
    requires Good(s)
    ensures Good(RowsCancelled(s, user)) <==> IsClean(s, CancelRows(user))
  {
    CancelSound(s, user);
    if IsClean(s, CancelRows(user)) {
      CancelKeeps(s, user);
      CancelKeepsSelection(s, user);
    } else {
      CancelBreaks(s, user);
    }
  }

  lemma CancelEndCached(s: State, t: State, user: User)
    requires CacheAgrees(s) && user in s.cancelling && forall a :: IsLive(t, a) <==> IsLive(s, a)
    requires t.cache == s.cache - {user} && t.cancelling == s.cancelling - multiset{user} && t.created == s.created
    ensures CacheAgrees(t)
  {
  }

  lemma CancelEndKeeps(s: State, user: User)
    requires CacheAgrees(s) && user in s.cancelling
    ensures CacheAgrees(EntryCancelled(s, user))
  {
    var t := EntryCancelled(s, user);
    forall a ensures IsLive(t, a) <==> IsLive(s, a)
    {
    }
    CancelEndCached(s, t, user);
  }

  /** Ending a clean cancel frees its user and nobody else. */
  lemma CancelEnds(s: State, user: User)
    requires Good(s) && user in s.cancelling
    ensures Good(EntryCancelled(s, user))
  {
    PendingSound(s, EntryCancelled(s, user));
    CancelEndKeeps(s, user);
  }

  /** A start reported as failed breaks it if the trip was stored, */
  lemma EntryFailsAgrees(s: State, a: Activity)
    requires Good(s)
    ensures Good(EntryFailed(s, a)) <==> IsClean(s, EntryFails(a))
  {
    var t := EntryFailed(s, a);
    PendingSound(s, t);
    if a in s.created {
      assert IsLive(s, a) && IsLive(t, a) && a.owner in Users(a) && a.owner !in s.cache;
      assert a !in t.created && a.owner !in t.cache;
    } else {
      assert t.created == s.created;
      SameLive(s, t);
    }
  }

  lemma CancelFailsKeeps(s: State, t: State, user: User)
    requires CacheAgrees(s) && (user in s.cache ==> s.cancelling[user] != 1)
    requires t.cache == s.cache && t.created == s.created && t.cancelling == s.cancelling - multiset{user}
    requires forall a :: IsLive(t, a) <==> IsLive(s, a)
    ensures CacheAgrees(t)
  {
  }

  /** and a cancel reported as failed unless the user was idle or has another one under way. */
  lemma CancelFailsAgrees(s: State, user: User)
    requires Good(s)
    ensures Good(CancelFailed(s, user)) <==> IsClean(s, CancelFails(user))
  {
    var t := CancelFailed(s, user);
    PendingSound(s, t);
    forall a ensures IsLive(t, a) <==> IsLive(s, a)
    {
    }
    if IsClean(s, CancelFails(user)) {
      CancelFailsKeeps(s, t, user);
    } else {
      assert user in s.cancelling && user !in t.cancelling;
      assert !(IsLive(s, s.cache[user]) && user in Users(s.cache[user]));
    }
  }

  /** Starting over breaks it if the user owns an open trip. */
  lemma WipeAgrees(s: State, user: User)
    requires Good(s)
    ensures Good(Wiped(s, user)) <==> IsClean(s, Wipe(user))
  {
    WipeSound(s, user);
    if OwnsOpenRow(s, user) {
      WipeBreaks(s, user);
    } else {
      WipeKeeps(s, user);
    }
  }

  lemma WipeKeeps(s: State, user: User)
    requires Good(s) && !OwnsOpenRow(s, user)
    ensures CacheAgrees(Wiped(s, user)) && SelectionIsOpen(Wiped(s, user))
  {
    var t := Wiped(s, user);
    forall id ensures IsOpen(t, id) <==> IsOpen(s, id)
    {
    }
    forall a ensures IsLive(t, a) <==> IsLive(s, a)
    {
      assert IsOpen(s, a.id) ==> t.table[a.id] == s.table[a.id];
    }
    SameLive(s, t);
  }

  lemma WipeBreaks(s: State, user: User)
    requires Good(s) && OwnsOpenRow(s, user)
    ensures !(CacheAgrees(Wiped(s, user)) && SelectionIsOpen(Wiped(s, user)))
  {
    var t := Wiped(s, user);
    var id :| id in s.table && s.table[id].activity.owner == user && !s.table[id].completed;
    var a := s.table[id].activity;
    assert IsLive(s, a) && user in Users(a) && user !in s.cancelling && !IsOpen(t, id);
    if a !in Held(s.tick) {
      assert !IsLive(t, a);
      assert a in s.created || s.cache[user] == a;
    } else {
      assert s.tick.Selected?;
    }
  }

  /** The live trips of `t` are those of `s` but one, whose users are freed. */
  ghost predicate DropsTrip(s: State, t: State, a: Activity) {
    && t.cache == s.cache - (set u | u in Users(a)) && t.cancelling == s.cancelling && t.created == s.created
    && forall b :: IsLive(t, b) <==> IsLive(s, b) && b != a
  }

  lemma DropKeeps(s: State, t: State, a: Activity)
    requires CacheAgrees(s) && DropsTrip(s, t, a) && a !in s.created && IsLive(s, a)
    ensures CacheAgrees(t)
  {
    forall u, b | IsLive(t, b) && u in Users(b) && b !in t.created
      ensures u in t.cache && t.cache[u] == b
    {
      assert s.cache[u] == b;
    }
  }

  /** Completion frees exactly the users of the trip. */
  lemma FinishKeeps(s: State, a: Activity)
    requires CacheAgrees(s) && s.tick.Running? && a in s.tick.batch && !IsOpen(s, a.id) && a !in s.created
    ensures CacheAgrees(Finished(s, a))
  {
    var t := Finished(s, a);
    assert IsLive(s, a) && s.cache[a.owner] == a;
    assert t.cache == s.cache - set u | u in Users(a);
    forall b ensures IsLive(t, b) <==> IsLive(s, b) && b != a
    {
      assert IsOpen(t, b.id) <==> IsOpen(s, b.id);
    }
    DropKeeps(s, t, a);
  }

  /** A trip that finishes before it entered the cache leaves its users busy for nothing once it does. */
  lemma FinishAgrees(s: State, a: Activity)
    requires Good(s) && s.tick.Running? && a in s.tick.batch
    ensures Good(Finished(s, a)) <==> IsClean(s, Finish(a))
  {
    FinishSound(s, a);
    if a !in s.created {
      FinishKeeps(s, a);
    } else {
      assert !IsLive(Finished(s, a), a);
    }
  }

  lemma OnlyAskedDiffers(s: State, t: State)
    requires Good(s) && t == s.(asked := t.asked)
    ensures Good(t)
  {
    SameLive(s, t);
  }

  lemma SameLive(s: State, t: State)
    requires CacheAgrees(s) && t.cache == s.cache && t.created == s.created && t.cancelling == s.cancelling
    requires forall a :: IsLive(t, a) <==> IsLive(s, a)
    ensures CacheAgrees(t)
  {
  }

  /** A tick selects a trip exactly when its row is uncompleted and, in production, past its finish date. */
  lemma SelectedIsDue(s: State, time: int, production: bool, a: Activity)
    requires Sound(s) && s.tick.Idle?
    ensures a in Held(Step(s, Select(time, production)).tick) <==>
            a.id in s.table && s.table[a.id].activity == a && !s.table[a.id].completed &&
            (production ==> s.table[a.id].finishDate < time)
  {
    if a in Due(s, time, production) {
      var id :| id in s.table && IsDue(s.table[id], time, production) && s.table[id].activity == a;
      assert id == a.id;
    }
  }

  /** The ticker's own steps, no marking lost. */
  predicate IsTick(s: State, e: Event) {
    e.Select? || e.Mark? || e.Run? || (e.MarkFails? && !DropsBatch(s, e))
  }

  /** The ticker's other steps move trips between open and held; the live trips stay the same. */
  lemma TickAgrees(s: State, e: Event)
    requires Good(s) && IsTick(s, e)
    ensures Good(Step(s, e))
  {
    StepSound(s, e);
    forall a ensures IsLive(Step(s, e), a) <==> IsLive(s, a)
    {
      TickLive(s, e, a);
    }
    SameLive(s, Step(s, e));
    TickSelection(s, e);
  }

  lemma TickSelection(s: State, e: Event)
    requires Keyed(s) && SelectionIsOpen(s) && IsTick(s, e)
    ensures SelectionIsOpen(Step(s, e))
  {
  }

  /** Selecting only points at open rows. */
  lemma SelectLive(s: State, time: int, production: bool, a: Activity)
    requires Keyed(s) && s.tick.Idle?
    ensures IsLive(Step(s, Select(time, production)), a) <==> IsLive(s, a)
  {
    if a in Due(s, time, production) {
      var id :| id in s.table && IsDue(s.table[id], time, production) && s.table[id].activity == a;
      assert id == a.id;
    }
  }

  /** Marking closes rows whose trips the ticker holds. */
  lemma MarkLive(s: State, a: Activity)
    requires Good(s) && s.tick.Selected?
    ensures IsLive(Step(s, Mark), a) <==> IsLive(s, a)
  {
    if a.id in Ids(s.tick.batch) {
      var b :| b in s.tick.batch && b.id == a.id;
      assert IsOpen(s, b.id) && s.table[b.id].activity == b;
    }
  }

  lemma TickLive(s: State, e: Event, a: Activity)
    requires Good(s) && IsTick(s, e)
    ensures IsLive(Step(s, e), a) <==> IsLive(s, a)
  {
    match e {
      case Select(time, production) =>
        if s.tick.Idle? {
          SelectLive(s, time, production, a);
        }
      case Mark =>
        if s.tick.Selected? {
          MarkLive(s, a);
        }
      case MarkFails(_) =>
        if s.tick.Selected? && a in s.tick.batch {
          assert IsOpen(s, a.id);
        }
      case _ =>
    }
  }

  /** A marking written and reported as failed leaves its trips' users busy for nothing. */
  lemma DroppingBreaks(s: State, e: Event)
    requires Good(s) && e.MarkFails? && DropsBatch(s, e)
    ensures !CacheAgrees(Step(s, e))
  {
    var a :| a in s.tick.batch && a.id in s.table;
    assert a.id in Ids(s.tick.batch);
    assert IsLive(s, a) && a.owner in Users(a) && a.owner !in s.cancelling;
    assert a in s.created || s.cache[a.owner] == a;
    assert !IsLive(Step(s, e), a);
  }

  predicate Share(table: map<nat, Row>, i: nat, j: nat, u: User)
    requires i in table && j in table
  {
    u in Users(table[i].activity) && u in Users(table[j].activity)
  }

  /** Distinct open trips share no user, and every owner is among the users. */
  ghost predicate OpenTripsApart(s: State) {
    && (forall i, j, u :: IsOpen(s, i) && IsOpen(s, j) && Share(s.table, i, j, u) ==> i == j)
    && (forall i :: IsOpen(s, i) ==> s.table[i].activity.owner in Users(s.table[i].activity))
  }

  /** With no user shared, the order of refilling does not matter: everyone maps to their own trip. */
  lemma {:induction false} RefillHolds(table: map<nat, Row>, order: seq<nat>, u: User)
    requires forall id :: id in order ==> id in table
    requires forall i, j :: i in order && j in order && Share(table, i, j, u) ==> i == j
    ensures u in Refill(table, order) ==>
              exists i :: i in order && u in Users(table[i].activity) && Refill(table, order)[u] == table[i].activity
    ensures forall i :: i in order && u in Users(table[i].activity) ==>
                          u in Refill(table, order) && Refill(table, order)[u] == table[i].activity
  {
    if order != [] {
      var n := |order| - 1;
      var last := order[n];
      assert forall i :: i in order <==> i in order[..n] || i == last;
      RefillHolds(table, order[..n], u);
      forall i | i in order && u in Users(table[i].activity)
        ensures u in Refill(table, order) && Refill(table, order)[u] == table[i].activity
      {
        if u in Users(table[last].activity) {
          assert Share(table, i, last, u);
        } else {
          assert i in order[..n];
        }
      }
    }
  }

  lemma RestartKeeps(s: State, order: seq<nat>)
    requires Keyed(s) && ListsOpenRows(s, order) && OpenTripsApart(s)
    ensures CacheAgrees(Step(s, Restart(order)))
  {
    var t := Step(s, Restart(order));
    forall a ensures IsLive(t, a) <==> a.id in order && s.table[a.id].activity == a
    {
      assert IsOpen(t, a.id) <==> IsOpen(s, a.id);
    }
    forall u, a | IsLive(t, a) && u in Users(a)
      ensures u in t.cache && t.cache[u] == a
    {
      RefillHolds(s.table, order, u);
    }
    forall u | u in t.cache && u !in t.cancelling
      ensures IsLive(t, t.cache[u]) && u in Users(t.cache[u])
    {
      RefillHolds(s.table, order, u);
    }
  }

  /** While the cache is right, nobody is on two trips. */
  lemma NobodyOnTwoTrips(s: State, a: Activity, b: Activity, user: User)
    requires CacheAgrees(s) && IsLive(s, a) && IsLive(s, b) && user in Users(a) && user in Users(b)
    ensures a == b
  {
    assert a in s.created || (user in s.cache && s.cache[user] == a);
    assert b in s.created || (user in s.cache && s.cache[user] == b);
    assert a in s.created || b in s.created ==> user !in s.cache;
  }

  lemma AgreementApart(s: State, i: nat, j: nat, u: User)
    requires Keyed(s) && CacheAgrees(s) && IsOpen(s, i) && IsOpen(s, j)
    requires Share(s.table, i, j, u)
    ensures i == j
  {
    var a, b := s.table[i].activity, s.table[j].activity;
    NobodyOnTwoTrips(s, a, b, u);
  }

  /** While the cache is right, open trips share no user. */
  lemma AgreementMeansApart(s: State)
    requires Keyed(s) && CacheAgrees(s)
    ensures OpenTripsApart(s)
  {
    forall i, j, u | IsOpen(s, i) && IsOpen(s, j) && Share(s.table, i, j, u)
      ensures i == j
    {
      AgreementApart(s, i, j, u);
    }
    forall i | IsOpen(s, i)
      ensures s.table[i].activity.owner in Users(s.table[i].activity)
    {
      assert IsLive(s, s.table[i].activity);
    }
  }

  /** A restart restores the agreement whatever state the cache was in, exactly when the open trips share no user. */
  lemma RestartAgrees(s: State, order: seq<nat>)
    requires Sound(s) && ListsOpenRows(s, order)
    ensures Good(Step(s, Restart(order))) <==> OpenTripsApart(s)
  {
    var t := Step(s, Restart(order));
    RestartSound(s, order);
    assert t.table == s.table;
    assert OpenTripsApart(t) <==> OpenTripsApart(s);
    if OpenTripsApart(s) {
      RestartKeeps(s, order);
    }
    if CacheAgrees(t) {
      AgreementMeansApart(t);
    }
  }

  /** A step keeps the busy cache right exactly when it is clean. */
  lemma StepAgrees(s: State, e: Event)
    requires Good(s)
    ensures Good(Step(s, e)) <==> IsClean(s, e)
  {
    match e {
      case Ask(_, _, _, _) => OnlyAskedDiffers(s, Step(s, e));
      case Create(q) =>
        if CanCreate(s, q) {
          CreateAgrees(s, q);
        } else {
          OnlyAskedDiffers(s, Step(s, e));
        }
      case Enter(a) =>
        if a in s.created {
          EnterAgrees(s, a);
        }
      case EntryFails(a) => EntryFailsAgrees(s, a);
      case CancelRows(user) => CancelAgrees(s, user);
      case CancelFails(user) => CancelFailsAgrees(s, user);
      case Wipe(user) => WipeAgrees(s, user);
      case CancelEntry(user) =>
        if user in s.cancelling {
          CancelEnds(s, user);
        }
      case MarkFails(_) =>
        if DropsBatch(s, e) {
          DroppingBreaks(s, e);
        } else {
          TickAgrees(s, e);
        }
      case Finish(a) =>
        if s.tick.Running? && a in s.tick.batch {
          FinishAgrees(s, a);
        }
      case Restart(order) =>
        if ListsOpenRows(s, order) {
          AgreementMeansApart(s);
          RestartAgrees(s, order);
        }
      case _ => TickAgrees(s, e);
    }
  }

  predicate IsCleanAt(s: State, events: seq<Event>, k: nat)
    requires k < |events|
  {
    IsClean(Steps(s, events, k), events[k])
  }

  lemma {:induction false} StepsAgree(s: State, events: seq<Event>, n: nat)
    requires Good(s) && n <= |events|
    requires forall k :: 0 <= k < n ==> IsCleanAt(s, events, k)
    ensures Good(Steps(s, events, n))
  {
    if n > 0 {
      StepsAgree(s, events, n - 1);
      assert IsCleanAt(s, events, n - 1);
      StepAgrees(Steps(s, events, n - 1), events[n - 1]);
    }
  }

  lemma InitialIsGood()
    ensures Good(INITIAL) && NothingLost(INITIAL)
  {
  }

  lemma UserIsRight(s: State, user: User, a: Activity)
    requires CacheAgrees(s) && user !in s.cancelling && !IsEntering(s, user)
    ensures user in s.cache && s.cache[user] == a <==> IsLive(s, a) && user in Users(a)
  {
    assert user in Users(a) ==> a !in s.created;
  }

  /** In every run of clean steps the cache is right throughout: a user maps to a trip exactly when the trip is open or
      held and lists the user, unless their cancel or their start is under way. */
  lemma BusyCacheIsRight(events: seq<Event>, n: nat, user: User, a: Activity)
    requires n <= |events|
    requires forall k :: 0 <= k < n ==> IsCleanAt(INITIAL, events, k)
    ensures var s := Steps(INITIAL, events, n);
            && Good(s)
            && (user !in s.cancelling && !IsEntering(s, user) ==>
                  (user in s.cache && s.cache[user] == a <==> IsLive(s, a) && user in Users(a)))
  {
    InitialIsGood();
    StepsAgree(INITIAL, events, n);
    var s := Steps(INITIAL, events, n);
    if user !in s.cancelling && !IsEntering(s, user) {
      UserIsRight(s, user, a);
    }
  }

  lemma IdleUsersOwnNoOpenRow(s: State, user: User)
    requires Good(s) && user !in s.cache && !IsEntering(s, user)
    ensures !OwnsOpenRow(s, user)
  {
    forall id | IsOpen(s, id) ensures s.table[id].activity.owner != user
    {
      assert IsLive(s, s.table[id].activity);
    }
  }

  /** The user's trip by the caches: the one they map to, or one yet to enter. */
  predicate IsTripOf(s: State, user: User, a: Activity) {
    (user in s.cache && s.cache[user] == a) || (a in s.created && user in Users(a))
  }

  /** The trip's row is stored and not completed. */
  predicate IsOpenTrip(s: State, a: Activity) {
    IsOpen(s, a.id) && s.table[a.id].activity == a
  }

  /** A start that was asked for is refused by the unique index if and only if its owner has meanwhile got an open trip
      of their own. */
  lemma AskedIsRefusedIff(s: State, q: Request)
    requires Good(s) && q in s.asked
    ensures !CanCreate(s, q) <==> exists a :: IsTripOf(s, q.owner, a) && a.owner == q.owner && IsOpenTrip(s, a)
    ensures q.owner !in s.cache && !IsEntering(s, q.owner) ==> CanCreate(s, q)
  {
    if OwnsOpenRow(s, q.owner) {
      var id :| id in s.table && s.table[id].activity.owner == q.owner && !s.table[id].completed;
      var a := s.table[id].activity;
      assert IsLive(s, a) && q.owner in Users(a);
      assert IsTripOf(s, q.owner, a) && IsOpenTrip(s, a);
    }
  }

  // ---------- The life of a trip ----------

  /** A start asked for by an idle user with no open row is stored as asked for, and nothing else changes in the
      table. */
  lemma AskedIsStored(s: State, owner: User, group: Option<seq<User>>, duration: real, now: int)
    requires Sound(s) && owner !in s.cache && !OwnsOpenRow(s, owner) && duration.Floor >= 0
    ensures var q := Request(owner, group, now + duration.Floor);
            var t := Step(Step(s, Ask(owner, group, duration, now)), Create(q));
            && s.nextId !in s.table && t.nextId == s.nextId + 1
            && t.table == s.table[s.nextId := Row(Activity(s.nextId, owner, group), now + duration.Floor, false)]
            && t.asked == s.asked && t.cache == s.cache
            && t.created == s.created + {Activity(s.nextId, owner, group)}
  {
    var q := Request(owner, group, now + duration.Floor);
    assert Step(s, Ask(owner, group, duration, now)) == s.(asked := s.asked + multiset{q});
    RequestIsStored(s, q);
  }

  lemma RequestIsStored(s: State, q: Request)
    requires Keyed(s) && !OwnsOpenRow(s, q.owner)
    ensures var t := Step(s.(asked := s.asked + multiset{q}), Create(q));
            && s.nextId !in s.table && t.nextId == s.nextId + 1
            && t.table == s.table[s.nextId := Row(Activity(s.nextId, q.owner, q.group), q.finishDate, false)]
            && t.asked == s.asked && t.cache == s.cache
            && t.created == s.created + {Activity(s.nextId, q.owner, q.group)}
  {
    assert !OwnsOpenRow(s.(asked := s.asked + multiset{q}), q.owner);
    assert s.asked + multiset{q} - multiset{q} == s.asked;
  }

  /** A busy user's start, and one of negative duration, changes nothing. */
  lemma RefusedChangesNothing(s: State, owner: User, group: Option<seq<User>>, duration: real, now: int)
    requires owner in s.cache || duration < 0.0
    ensures Step(s, Ask(owner, group, duration, now)) == s
  {
  }

  /** A start the index refuses is over, and changes nothing else. */
  lemma RefusedIsOver(s: State, q: Request)
    requires q in s.asked && OwnsOpenRow(s, q.owner)
    ensures Step(s, Create(q)) == s.(asked := s.asked[q := s.asked[q] - 1])
  {
    assert s.asked - multiset{q} == s.asked[q := s.asked[q] - 1];
  }

  /** A process that restarts has forgotten everything but the table: no start, cancel or tick is under way, and nobody
      is counted as busy. */
  lemma RestartForgets(s: State, order: seq<nat>, user: User)
    requires ListsOpenRows(s, order)
    ensures var t := Step(s, Restart(order));
            && t.asked == multiset{} && t.created == {} && t.cancelling == multiset{} && t.tick == Idle
            && Counter(t.busy, user) == 0 && t.table == s.table && t.ran == s.ran
  {
  }

  /** In production a stored trip is selected exactly at times past its start and whole duration; elsewhere at once. */
  lemma StoredIsSelectedIff(s: State, a: Activity, finishDate: int, time: int, production: bool)
    requires Sound(s) && s.tick.Idle? && a.id in s.table && s.table[a.id] == Row(a, finishDate, false)
    ensures a in Held(Step(s, Select(time, production)).tick) <==> time > finishDate || !production
  {
    SelectedIsDue(s, time, production, a);
  }

  lemma SelectedIsMarked(s: State, a: Activity)
    requires Sound(s) && s.tick.Selected? && a in s.tick.batch && IsOpen(s, a.id)
    ensures var m := Step(s, Mark);
            && m.tick == Marked(s.tick.batch) && m.cache == s.cache
            && a.id in m.table && m.table[a.id] == s.table[a.id].(completed := true)
  {
    MarkCloses(s.table, Ids(s.tick.batch), a.id);
    assert a.id in Ids(s.tick.batch);
  }

  lemma MarkedIsRun(m: State, a: Activity)
    requires Sound(m) && m.tick.Marked? && a in m.tick.batch
    ensures var t := Step(m, Run);
            && t.ran[a.id] == 1 && t.tick == Running(m.tick.batch) && t.cache == m.cache && t.table == m.table
            && Counter(t.busy, a.owner) == 1
  {
    RanOnce(m, a.id);
    RunCounts(m, a.owner);
    assert a.id in Ids(m.tick.batch) && a.owner in Owners(m.tick.batch);
  }

  /** Finishing a trip its owner maps to frees its users and nobody else. */
  lemma FinishFrees(t: State, a: Activity, user: User)
    requires t.tick.Running? && a in t.tick.batch && a.owner in t.cache && t.cache[a.owner] == a
    ensures var after := Step(t, Finish(a)).cache;
            user in after <==> user in t.cache && user !in Users(a)
    ensures user in Step(t, Finish(a)).cache ==> Step(t, Finish(a)).cache[user] == t.cache[user]
    ensures Counter(Step(t, Finish(a)).busy, a.owner) == Counter(t.busy, a.owner) - 1
  {
  }

  lemma SelectedIsCached(s: State, a: Activity)
    requires Good(s) && s.tick.Selected? && a in s.tick.batch && a !in s.created
    ensures IsOpen(s, a.id) && a.owner in Users(a)
    ensures forall user :: user in Users(a) ==> user in s.cache && s.cache[user] == a
  {
    assert IsLive(s, a);
  }

  /** A trip selected while the cache is right is, once marked, run and finished, run once, its row completed, its users
      freed and nobody else. */
  lemma SelectedIsRun(s: State, m: State, t: State, a: Activity, user: User)
    requires Good(s) && s.tick.Selected? && a in s.tick.batch && a !in s.created
    requires m == Step(s, Mark) && t == Step(m, Run)
    ensures t.ran[a.id] == 1 && a.id in t.table && t.table[a.id] == s.table[a.id].(completed := true)
    ensures user in Users(a) ==> user in t.cache && t.cache[user] == a
    ensures user in Step(t, Finish(a)).cache <==> user in s.cache && user !in Users(a)
    ensures Counter(t.busy, a.owner) == 1 && Counter(Step(t, Finish(a)).busy, a.owner) == 0
  {
    SelectedIsCached(s, a);
    SelectedIsMarked(s, a);
    MarkSound(s);
    MarkedIsRun(m, a);
    FinishFrees(t, a, user);
  }

  // ---------- Runs that go wrong ----------

  const SOLO: Option<seq<User>> := None

  /** A whole start, with nothing in between. */
  function Starting(id: nat, owner: User, group: Option<seq<User>>): seq<Event> {
    [Ask(owner, group, 0.0, 0), Create(Request(owner, group, 0)), Enter(Activity(id, owner, group))]
  }

  function Started(s: State, owner: User, group: Option<seq<User>>): State {
    var a := Activity(s.nextId, owner, group);
    s.(table := s.table[s.nextId := Row(a, 0, false)], cache := Sync(s.cache, a), nextId := s.nextId + 1)
  }

  lemma AskNext(events: seq<Event>, n: nat, s: State, owner: User, group: Option<seq<User>>)
    requires n < |events| && Steps(INITIAL, events, n) == s
    requires events[n] == Ask(owner, group, 0.0, 0) && owner !in s.cache
    ensures Steps(INITIAL, events, n + 1) == s.(asked := s.asked + multiset{Request(owner, group, 0)})
  {
    assert 0.0.Floor == 0;
  }

  lemma CreateNext(events: seq<Event>, n: nat, s: State, q: Request)
    requires n < |events| && Steps(INITIAL, events, n) == s
    requires events[n] == Create(q) && CanCreate(s, q)
    ensures Steps(INITIAL, events, n + 1) == Created(s, q)
  {
  }

  lemma EnterNext(events: seq<Event>, n: nat, s: State, a: Activity)
    requires n < |events| && Steps(INITIAL, events, n) == s
    requires events[n] == Enter(a) && a in s.created
    ensures Steps(INITIAL, events, n + 1) == Entered(s, a)
  {
  }

  lemma CancelNext(events: seq<Event>, n: nat, s: State, user: User)
    requires n < |events| && Steps(INITIAL, events, n) == s
    requires events[n] == CancelRows(user)
    ensures Steps(INITIAL, events, n + 1) == RowsCancelled(s, user)
  {
  }

  lemma CancelEndNext(events: seq<Event>, n: nat, s: State, user: User)
    requires n < |events| && Steps(INITIAL, events, n) == s
    requires events[n] == CancelEntry(user) && user in s.cancelling
    ensures Steps(INITIAL, events, n + 1) == EntryCancelled(s, user)
  {
  }

  /** Any other step of a run. */
  lemma Next(events: seq<Event>, n: nat, s: State, e: Event)
    requires n < |events| && Steps(INITIAL, events, n) == s && events[n] == e
    ensures Steps(INITIAL, events, n + 1) == Step(s, e)
  {
  }

  lemma StartSteps(events: seq<Event>, n: nat, s: State, q: Request, a: Activity)
    requires n + 3 <= |events| && Steps(INITIAL, events, n) == s
    requires events[n] == Ask(q.owner, q.group, 0.0, 0) && events[n + 1] == Create(q) && events[n + 2] == Enter(a)
    requires q.owner !in s.cache && !OwnsOpenRow(s, q.owner) && q.finishDate == 0 && a == NewTrip(s, q)
    ensures Steps(INITIAL, events, n + 3) == Entered(Created(s.(asked := s.asked + multiset{q}), q), a)
  {
    AskNext(events, n, s, q.owner, q.group);
    var s1 := s.(asked := s.asked + multiset{q});
    assert CanCreate(s1, q);
    CreateNext(events, n + 1, s1, q);
    EnterNext(events, n + 2, Created(s1, q), a);
  }

  /** A whole start in a run. */
  lemma StartsAt(events: seq<Event>, n: nat, s: State, owner: User, group: Option<seq<User>>)
    requires n + 3 <= |events| && Steps(INITIAL, events, n) == s
    requires owner !in s.cache && !OwnsOpenRow(s, owner) && s.asked == multiset{} && s.created == {}
    requires events[n..n + 3] == Starting(s.nextId, owner, group)
    ensures Steps(INITIAL, events, n + 3) == Started(s, owner, group)
  {
    var es, q := events[n..n + 3], Request(owner, group, 0);
    assert events[n] == es[0] && events[n + 1] == es[1] && events[n + 2] == es[2];
    StartSteps(events, n, s, q, NewTrip(s, q));
    StartedIs(s, owner, group);
  }

  lemma StartedIs(s: State, owner: User, group: Option<seq<User>>)
    requires s.asked == multiset{} && s.created == {}
    ensures var q := Request(owner, group, 0);
            Entered(Created(s.(asked := multiset{q}), q), NewTrip(s, q)) == Started(s, owner, group)
  {
    var q := Request(owner, group, 0);
    assert multiset{q} - multiset{q} == multiset{};
    assert {} + {NewTrip(s, q)} - {NewTrip(s, q)} == {};
  }

  /** The first start of a run. */
  lemma FirstStart(events: seq<Event>, owner: User, group: Option<seq<User>>)
    requires |events| >= 3 && events[..3] == Starting(0, owner, group)
    ensures Steps(INITIAL, events, 3) == Started(INITIAL, owner, group)
  {
    assert events[0] == events[..3][0] && events[1] == events[..3][1] && events[2] == events[..3][2];
    StartSteps(events, 0, INITIAL, Request(owner, group, 0), Activity(0, owner, group));
    StartedIs(INITIAL, owner, group);
    assert INITIAL.asked + multiset{Request(owner, group, 0)} == multiset{Request(owner, group, 0)};
  }

  /** A start that gets in between the two halves of a cancel ends with its owner idle in the cache, on an open trip,
      and refused every further start. */
  lemma CancelRace(user: User)
    ensures var s := Steps(INITIAL, [CancelRows(user)] + Starting(0, user, SOLO) + [CancelEntry(user)], 5);
            && user !in s.cache && user !in s.cancelling && OwnsOpenRow(s, user) && !CacheAgrees(s)
            && forall q: Request :: q.owner == user ==> !CanCreate(s, q)
  {
    var events := [CancelRows(user)] + Starting(0, user, SOLO) + [CancelEntry(user)];
    var a, s1 := Activity(0, user, SOLO), INITIAL.(cancelling := multiset{user});
    CancelNext(events, 0, INITIAL, user);
    assert RowsCancelled(INITIAL, user) == s1;
    StartsAt(events, 1, s1, user, SOLO);
    var s4 := Started(s1, user, SOLO);
    CancelEndNext(events, 4, s4, user);
    var s5 := EntryCancelled(s4, user);
    assert 0 in s5.table && IsLive(s5, a) && user in Users(a);
  }

  lemma MarkedAlone(user: User)
    ensures var a := Activity(0, user, SOLO);
            && MarkRows(map[0 := Row(a, 0, false)], Ids({a})) == map[0 := Row(a, 0, true)]
            && Ids({a}) == {0}
  {
    assert Ids({Activity(0, user, SOLO)}) == {0};
  }

  /** A process that dies after marking loses the trip. */
  lemma DroppedByRestart(user: User)
    ensures Lost(Steps(INITIAL, Starting(0, user, SOLO) + [Select(1, true), Mark, Restart([])], 6), 0)
  {
    var events := Starting(0, user, SOLO) + [Select(1, true), Mark, Restart([])];
    var s5 := Started(INITIAL, user, SOLO).(table := map[0 := Row(Activity(0, user, SOLO), 0, true)],
                                            tick := Marked({Activity(0, user, SOLO)}));
    FirstStart(events, user, SOLO);
    StoredIsDue(Started(INITIAL, user, SOLO), Activity(0, user, SOLO));
    Next(events, 3, Started(INITIAL, user, SOLO), Select(1, true));
    Next(events, 4, Started(INITIAL, user, SOLO).(tick := Selected({Activity(0, user, SOLO)})), Mark);
    MarkedAlone(user);
    Next(events, 5, s5, Restart([]));
    RestartLoses(s5, Activity(0, user, SOLO));
  }

  lemma RestartLoses(s: State, a: Activity)
    requires s.table == map[a.id := Row(a, 0, true)] && a.id < s.nextId && s.ran == multiset{}
    ensures Lost(Step(s, Restart([])), a.id)
  {
  }

  /** So does a marking that is written but reported as failed. */
  lemma DroppedByFailure(user: User)
    ensures Lost(Steps(INITIAL, Starting(0, user, SOLO) + [Select(1, true), MarkFails(true)], 5), 0)
  {
    var events := Starting(0, user, SOLO) + [Select(1, true), MarkFails(true)];
    FirstStart(events, user, SOLO);
    StoredIsDue(Started(INITIAL, user, SOLO), Activity(0, user, SOLO));
    Next(events, 3, Started(INITIAL, user, SOLO), Select(1, true));
    MarkedAlone(user);
    Next(events, 4, Started(INITIAL, user, SOLO).(tick := Selected({Activity(0, user, SOLO)})), MarkFails(true));
  }

  /** A cancel of a shared trip leaves its other members busy with a trip that is gone. */
  lemma SharedCancelStrands(owner: User, guest: User)
    requires owner != guest
    ensures var events := Starting(0, owner, Some([owner, guest])) + [CancelRows(owner), CancelEntry(owner)];
            var s := Steps(INITIAL, events, 5);
            s.created == {} && s.cancelling == multiset{} && s.table == map[] && s.tick == Idle && guest in s.cache
  {
    var events := Starting(0, owner, Some([owner, guest])) + [CancelRows(owner), CancelEntry(owner)];
    FirstStart(events, owner, Some([owner, guest]));
    assert Users(Activity(0, owner, Some([owner, guest])))[1] == guest;
    var s3 := Started(INITIAL, owner, Some([owner, guest]));
    CancelNext(events, 3, s3, owner);
    CancelEndNext(events, 4, RowsCancelled(s3, owner), owner);
  }

  /** A trip cancelled before it enters the cache makes its owner busy with a trip that is gone. */
  lemma CancelledBeforeEntry(user: User)
    ensures var es := Starting(0, user, SOLO);
            var s := Steps(INITIAL, [es[0], es[1], CancelRows(user), CancelEntry(user), es[2]], 5);
            s.created == {} && s.cancelling == multiset{} && s.table == map[] && s.tick == Idle && user in s.cache
  {
    var es, a := Starting(0, user, SOLO), Activity(0, user, SOLO);
    var events := [es[0], es[1], CancelRows(user), CancelEntry(user), es[2]];
    var q := Request(user, SOLO, 0);
    AskNext(events, 0, INITIAL, user, SOLO);
    var s1 := INITIAL.(asked := multiset{q});
    assert s1 == INITIAL.(asked := INITIAL.asked + multiset{q});
    CreateNext(events, 1, s1, q);
    var s2 := Created(s1, q);
    CancelNext(events, 2, s2, user);
    var s3 := RowsCancelled(s2, user);
    assert s3.table == map[] && s3.created == {a};
    CancelEndNext(events, 3, s3, user);
    EnterNext(events, 4, EntryCancelled(s3, user), a);
    assert Users(a)[0] == user;
  }

  /** So does a trip that finishes before it enters the cache. */
  lemma FinishedBeforeEntry(user: User)
    ensures var es, a := Starting(0, user, SOLO), Activity(0, user, SOLO);
            var s := Steps(INITIAL, [es[0], es[1], Select(1, true), Mark, Run, Finish(a), es[2]], 7);
            s.created == {} && !IsOpen(s, 0) && s.tick == Idle && user in s.cache
  {
    var es, a := Starting(0, user, SOLO), Activity(0, user, SOLO);
    var events := [es[0], es[1], Select(1, true), Mark, Run, Finish(a), es[2]];
    var q := Request(user, SOLO, 0);
    AskNext(events, 0, INITIAL, user, SOLO);
    var s1 := INITIAL.(asked := multiset{q});
    assert s1 == INITIAL.(asked := INITIAL.asked + multiset{q});
    CreateNext(events, 1, s1, q);
    var s2 := Created(s1, q);
    Next(events, 2, s2, Select(1, true));
    StoredIsDue(s2, a);
    var s3 := s2.(tick := Selected({a}));
    MarkedAlone(user);
    Next(events, 3, s3, Mark);
    var s4 := Step(s3, Mark);
    Next(events, 4, s4, Run);
    var s5 := Step(s4, Run);
    Next(events, 5, s5, Finish(a));
    FinishedAlone(s5, a);
    EnterNext(events, 6, Finished(s5, a), a);
    assert Users(a)[0] == user;
  }

  lemma StoredIsDue(s: State, a: Activity)
    requires s.table == map[0 := Row(a, 0, false)]
    ensures Due(s, 1, true) == {a}
  {
    assert 0 in s.table && IsDue(s.table[0], 1, true);
  }

  lemma FinishedAlone(s: State, a: Activity)
    requires s.tick == Running({a})
    ensures Finished(s, a).tick == Idle && Finished(s, a).created == s.created && Finished(s, a).table == s.table
  {
  }

  /** Starts asked for while everybody was idle put a guest on two trips. */
  lemma StartsOverlap(owner: User, guest: User)
    requires owner != guest
    ensures var ours, theirs := Starting(1, owner, Some([owner, guest])), Starting(0, guest, SOLO);
            var s := Steps(INITIAL, [ours[0], theirs[0], theirs[1], ours[1]], 4);
            IsLive(s, Activity(0, guest, SOLO)) && IsLive(s, Activity(1, owner, Some([owner, guest])))
  {
    var ours, theirs := Starting(1, owner, Some([owner, guest])), Starting(0, guest, SOLO);
    var events := [ours[0], theirs[0], theirs[1], ours[1]];
    var p, q := Request(owner, Some([owner, guest]), 0), Request(guest, SOLO, 0);
    AskNext(events, 0, INITIAL, owner, Some([owner, guest]));
    AskNext(events, 1, INITIAL.(asked := multiset{p}), guest, SOLO);
    var s2 := INITIAL.(asked := multiset{p, q});
    CreateNext(events, 2, s2, q);
    BothStored(s2, p, q);
    CreateNext(events, 3, Created(s2, q), p);
  }

  lemma BothStored(s: State, p: Request, q: Request)
    requires s.table == map[] && p in s.asked && p != q && p.owner != q.owner
    ensures var t := Created(s, q);
            && CanCreate(t, p)
            && IsLive(Created(t, p), NewTrip(s, q)) && IsLive(Created(t, p), NewTrip(t, p))
  {
  }

  /** Of two starts that one user asked for while idle the index refuses the second, though every step is clean. */
  lemma SecondAskRefused(user: User)
    ensures var q := Request(user, SOLO, 0);
            var events := [Ask(user, SOLO, 0.0, 0), Ask(user, SOLO, 0.0, 0), Create(q), Create(q)];
            && (forall k :: 0 <= k < 4 ==> IsCleanAt(INITIAL, events, k))
            && q in Steps(INITIAL, events, 3).asked && !CanCreate(Steps(INITIAL, events, 3), q)
  {
    var q := Request(user, SOLO, 0);
    var events := [Ask(user, SOLO, 0.0, 0), Ask(user, SOLO, 0.0, 0), Create(q), Create(q)];
    AskNext(events, 0, INITIAL, user, SOLO);
    AskNext(events, 1, INITIAL.(asked := multiset{q}), user, SOLO);
    var s2 := INITIAL.(asked := multiset{q, q});
    CreateNext(events, 2, s2, q);
    CleanFirst(s2, q);
    assert IsCleanAt(INITIAL, events, 0) && IsCleanAt(INITIAL, events, 1);
    assert IsCleanAt(INITIAL, events, 2) && IsCleanAt(INITIAL, events, 3);
  }

  lemma CleanFirst(s: State, q: Request)
    requires s.table == map[] && s.cache == map[] && s.created == {} && s.cancelling == multiset{}
    requires q.group == SOLO && s.asked == multiset{q, q}
    ensures IsClean(s, Create(q)) && q in Created(s, q).asked && !CanCreate(Created(s, q), q)
    ensures IsClean(Created(s, q), Create(q))
  {
    assert s.nextId in Created(s, q).table;
  }

  /** A user who starts over after a trip of theirs began stays busy with a trip that is gone. */
  lemma WipedWhileBusy(user: User)
    ensures var s := Steps(INITIAL, Starting(0, user, SOLO) + [Wipe(user)], 4);
            s.created == {} && s.cancelling == multiset{} && s.table == map[] && s.tick == Idle && user in s.cache
  {
    var events := Starting(0, user, SOLO) + [Wipe(user)];
    FirstStart(events, user, SOLO);
    var s3 := Started(INITIAL, user, SOLO);
    Next(events, 3, s3, Wipe(user));
    assert Users(Activity(0, user, SOLO))[0] == user && user in s3.cache;
    assert Wiped(s3, user).table == map[];
  }

  /** A start that lists somebody busy puts them on two open trips. */
  lemma BusyMemberTaken(owner: User, guest: User)
    requires owner != guest
    ensures var s := Steps(INITIAL, Starting(0, guest, SOLO) + Starting(1, owner, Some([owner, guest])), 6);
            IsLive(s, Activity(0, guest, SOLO)) && IsLive(s, Activity(1, owner, Some([owner, guest])))
  {
    var events := Starting(0, guest, SOLO) + Starting(1, owner, Some([owner, guest]));
    FirstStart(events, guest, SOLO);
    StartsAt(events, 3, Started(INITIAL, guest, SOLO), owner, Some([owner, guest]));
  }

  /** A trip cancelled after a tick selected it is run, though its row is gone. */
  lemma CancelledIsRun(user: User)
    ensures var s := Steps(INITIAL, Starting(0, user, SOLO) + [Select(1, true), CancelRows(user), Mark, Run], 7);
            s.ran[0] == 1 && 0 !in s.table
  {
    var events := Starting(0, user, SOLO) + [Select(1, true), CancelRows(user), Mark, Run];
    FirstStart(events, user, SOLO);
    StoredIsDue(Started(INITIAL, user, SOLO), Activity(0, user, SOLO));
    var s3 := Started(INITIAL, user, SOLO);
    Next(events, 3, s3, Select(1, true));
    var s4 := s3.(tick := Selected({Activity(0, user, SOLO)}));
    CancelNext(events, 4, s4, user);
    var s5 := RowsCancelled(s4, user);
    assert s5.table == map[];
    Next(events, 5, s5, Mark);
    MarkedNothing(s5);
    var s6 := s5.(tick := Marked(s4.tick.batch));
    Next(events, 6, s6, Run);
    MarkedAlone(user);
    RunAlone(s6, Activity(0, user, SOLO));
  }

  lemma MarkedNothing(s: State)
    requires s.table == map[] && s.tick.Selected?
    ensures Step(s, Mark) == s.(tick := Marked(s.tick.batch))
  {
  }

  lemma RunAlone(s: State, a: Activity)
    requires s.tick == Marked({a}) && s.ran == multiset{} && Ids({a}) == {a.id}
    ensures Step(s, Run).ran[a.id] == 1 && Step(s, Run).table == s.table
  {
  }
}
