/**
 The bot's own form of the trip life cycle: the activity table, the caches and the ticker as fields that the
 commands and the ticker's callback update in place. Every method is tied to the step it performs.
 */
module ActivityStore {
  import opened Banks
  import opened MinionActivities

  datatype StartResult = Accepted(request: Request) | UserIsBusy | NegativeDuration

  lemma BumpOne(busy: map<User, int>, users: set<User>, user: User)
    requires user !in users
    ensures Bump(busy, users)[user := Counter(Bump(busy, users), user) + 1] == Bump(busy, users + {user})
  {
  }

  /** The trips of a batch differ in owner and in id, as they do in every sound state. */
  ghost predicate AllDiffer(batch: set<Activity>) {
    forall a, b :: a in batch && b in batch && (a.id == b.id || a.owner == b.owner) ==> a == b
  }

  lemma HeldTripsDiffer(s: State)
    requires Sound(s)
    ensures AllDiffer(Held(s.tick))
  {
  }

  /** Taking one more trip of a batch whose trips differ in owner and in id. */
  lemma BatchOneMore(batch: set<Activity>, left: set<Activity>, a: Activity)
    requires left <= batch && a in left
    requires AllDiffer(batch)
    ensures a.owner !in Owners(batch - left) && a.id !in Ids(batch - left)
    ensures Owners(batch - (left - {a})) == Owners(batch - left) + {a.owner}
    ensures multiset(Ids(batch - (left - {a}))) == multiset(Ids(batch - left)) + multiset{a.id}
  {
    assert batch - (left - {a}) == (batch - left) + {a};
    assert Ids((batch - left) + {a}) == Ids(batch - left) + {a.id};
  }

  /** What one more run adds to the counters and the log. */
  lemma RunOneMore(busy: map<User, int>, ran: multiset<nat>, batch: set<Activity>, left: set<Activity>, a: Activity)
    requires left <= batch && a in left && AllDiffer(batch)
    ensures var before, after := Owners(batch - left), Owners(batch - (left - {a}));
            Bump(busy, before)[a.owner := Counter(Bump(busy, before), a.owner) + 1] == Bump(busy, after)
    ensures ran + multiset(Ids(batch - left)) + multiset{a.id} == ran + multiset(Ids(batch - (left - {a})))
  {
    BatchOneMore(batch, left, a);
    BumpOne(busy, Owners(batch - left), a.owner);
  }

  class Store {
    var table: map<nat, Row>
    var minionActivityCache: map<User, Activity>
    var asked: multiset<Request>
    var created: set<Activity>
    var cancelling: multiset<User>
    var busyCounterCache: map<User, int>
    var tick: Tick
    var nextId: nat
    ghost var ran: multiset<nat>

    ghost function Abs(): State
      reads this
    {
      State(table, minionActivityCache, asked, created, cancelling, busyCounterCache, tick, nextId, ran)
    }

    constructor ()
      ensures Abs() == INITIAL
    {
      table, minionActivityCache, busyCounterCache := map[], map[], map[];
      asked, created, cancelling := multiset{}, {}, multiset{};
      tick, nextId, ran := Idle, 0, multiset{};
    }

    method ActivitySync(activity: Activity)
      modifies this`minionActivityCache
      ensures minionActivityCache == Sync(old(minionActivityCache), activity)
    {
      var users := Users(activity);
      for i := 0 to |users|
        invariant minionActivityCache == old(minionActivityCache) + map u | u in users[..i] :: activity
      {
        assert users[..i + 1] == users[..i] + [users[i]];
        minionActivityCache := minionActivityCache[users[i] := activity];
      }
      assert users[..|users|] == users;
    }

    method MinionActivityCacheDelete(userID: User)
      modifies this`minionActivityCache
      ensures minionActivityCache == CacheDelete(old(minionActivityCache), userID)
    {
      if userID !in minionActivityCache {
        return;
      }
      var users := Users(minionActivityCache[userID]);
      for i := 0 to |users|
        invariant minionActivityCache == old(minionActivityCache) - set u | u in users[..i]
      {
        assert users[..i + 1] == users[..i] + [users[i]];
        minionActivityCache := minionActivityCache - {users[i]};
      }
      assert users[..|users|] == users;
    }

    /** Starting a trip, up to its await: refused when its owner is busy. */
    method AddSubTask(owner: User, group: Option<seq<User>>, duration: real, now: int) returns (r: StartResult)
      modifies this
      ensures Abs() == old(Step(Abs(), Ask(owner, group, duration, now)))
      ensures r.UserIsBusy? <==> owner in old(minionActivityCache)
      ensures r.NegativeDuration? <==> owner !in old(minionActivityCache) && duration.Floor < 0
      ensures r.Accepted? ==>
                r.request == Request(owner, group, now + duration.Floor) && asked == old(asked) + multiset{r.request}
      ensures !r.Accepted? ==> Abs() == old(Abs())
    {
      if owner in minionActivityCache {
        return UserIsBusy;
      }
      if duration.Floor < 0 {
        return NegativeDuration;
      }
      var request := Request(owner, group, now + duration.Floor);
      asked := asked + multiset{request};
      return Accepted(request);
    }

    /** The database stores the row, unless its unique index refuses it. */
    method CreateActivity(request: Request) returns (r: Option<Activity>)
      requires request in asked
      modifies this
      ensures Abs() == old(Step(Abs(), Create(request)))
      ensures r.Some? <==> old(CanCreate(Abs(), request))
      ensures r.Some? ==> r.value == old(NewTrip(Abs(), request)) && r.value in created
    {
      if exists id | id in table :: table[id].activity.owner == request.owner && !table[id].completed {
        asked := asked - multiset{request};
        return None;
      }
      var activity := Activity(nextId, request.owner, request.group);
      StoreRow(request, activity);
      return Some(activity);
    }

    method StoreRow(request: Request, activity: Activity)
      modifies this`table, this`asked, this`created, this`nextId
      ensures table == old(table)[old(nextId) := Row(activity, request.finishDate, false)]
      ensures asked == old(asked) - multiset{request} && created == old(created) + {activity}
      ensures nextId == old(nextId) + 1
    {
      table := table[nextId := Row(activity, request.finishDate, false)];
      asked := asked - multiset{request};
      created := created + {activity};
      nextId := nextId + 1;
    }

    /** Starting a trip, after its await. */
    method EnterActivity(activity: Activity)
      requires activity in created
      modifies this
      ensures Abs() == old(Step(Abs(), Enter(activity)))
    {
      created := created - {activity};
      ActivitySync(activity);
    }

    /** A cancel up to its await: the user's open rows are deleted. */
    method DeleteOpenRows(userID: User)
      modifies this
      ensures Abs() == old(Step(Abs(), CancelRows(userID)))
    {
      table := map id | id in table && !(table[id].activity.owner == userID && !table[id].completed) :: table[id];
      cancelling := cancelling + multiset{userID};
    }

    /** A cancel after its await: whatever the user's cache entry now is, it goes. */
    method DeleteCacheEntry(userID: User)
      requires userID in cancelling
      modifies this`minionActivityCache, this`cancelling
      ensures Abs() == old(Step(Abs(), CancelEntry(userID)))
    {
      minionActivityCache := minionActivityCache - {userID};
      cancelling := cancelling - multiset{userID};
      assert Abs() == old(EntryCancelled(Abs(), userID));
    }

    /** Every row read is entered, in the order read. */
    method RefillCache(tasks: seq<nat>)
      requires forall id :: id in tasks ==> id in table
      modifies this`minionActivityCache
      ensures minionActivityCache == Refill(table, tasks)
    {
      minionActivityCache := map[];
      for i := 0 to |tasks|
        invariant minionActivityCache == Refill(table, tasks[..i])
      {
        assert tasks[..i + 1][..i] == tasks[..i];
        ActivitySync(table[tasks[i]].activity);
      }
      assert tasks[..|tasks|] == tasks;
    }

    /** After a restart: empty the caches and refill the busy cache from the uncompleted rows. */
    method SyncActivityCache(tasks: seq<nat>)
      requires ListsOpenRows(Abs(), tasks)
      modifies this`minionActivityCache, this`asked, this`created, this`cancelling, this`busyCounterCache, this`tick
      ensures Abs() == old(Step(Abs(), Restart(tasks)))
    {
      assert forall id :: id in tasks ==> IsOpen(Abs(), id);
      ForgetPending();
      RefillCache(tasks);
    }

    /** What a process that dies forgets. */
    method ForgetPending()
      modifies this`asked, this`created, this`cancelling, this`busyCounterCache, this`tick
      ensures asked == multiset{} && created == {} && cancelling == multiset{}
      ensures busyCounterCache == map[] && tick == Idle
    {
      asked, created, cancelling := multiset{}, {}, multiset{};
      busyCounterCache, tick := map[], Idle;
    }

    /** The callback's query for due trips. */
    method FindDue(now: int, production: bool)
      requires tick == Idle
      modifies this`tick
      ensures Abs() == old(Step(Abs(), Select(now, production)))
    {
      var activities := set id | id in table && IsDue(table[id], now, production) :: table[id].activity;
      assert activities == Due(Abs(), now, production);
      tick := Selected(activities);
    }

    /** The callback's update of the rows it found, when the database confirms it. */
    method MarkCompleted()
      requires tick.Selected?
      modifies this
      ensures Abs() == old(Step(Abs(), Mark))
    {
      var ids := Ids(tick.batch);
      var left := ids;
      while left != {}
        invariant left <= ids
        invariant minionActivityCache == old(minionActivityCache) && busyCounterCache == old(busyCounterCache)
        invariant asked == old(asked) && created == old(created) && cancelling == old(cancelling)
        invariant tick == old(tick) && nextId == old(nextId) && ran == old(ran)
        invariant table == MarkRows(old(table), ids - left)
        decreases left
      {
        var id :| id in left;
        if id in table {
          table := table[id := table[id].(completed := true)];
        }
        assert ids - (left - {id}) == (ids - left) + {id};
        left := left - {id};
      }
      assert ids - left == ids;
      tick := Marked(tick.batch);
    }

    method ModifyBusyCounter(userID: User, amount: int)
      modifies this`busyCounterCache
      ensures busyCounterCache == old(busyCounterCache)[userID := Counter(old(busyCounterCache), userID) + amount]
    {
      if userID !in busyCounterCache || busyCounterCache[userID] == 0 {
        busyCounterCache := busyCounterCache[userID := amount];
        return;
      }
      busyCounterCache := busyCounterCache[userID := busyCounterCache[userID] + amount];
    }

    /** Starting the runs of a batch: each raises its owner's counter and enters its task. */
    method StartRuns(batch: set<Activity>)
      modifies this`busyCounterCache, this`ran
      ensures AllDiffer(batch) ==>
                busyCounterCache == Bump(old(busyCounterCache), Owners(batch)) && ran == old(ran) + multiset(Ids(batch))
    {
      var left := batch;
      while left != {}
        invariant left <= batch
        invariant AllDiffer(batch) ==>
                    && busyCounterCache == Bump(old(busyCounterCache), Owners(batch - left))
                    && ran == old(ran) + multiset(Ids(batch - left))
        decreases left
      {
        var activity :| activity in left;
        if AllDiffer(batch) {
          RunOneMore(old(busyCounterCache), old(ran), batch, left, activity);
        }
        ModifyBusyCounter(activity.owner, 1);
        ran := ran + multiset{activity.id};
        left := left - {activity};
      }
      assert batch - left == batch;
    }

    /** The callback starts completing every trip of the batch it marked. */
    method CompleteActivities()
      requires tick.Marked?
      modifies this
      ensures old(Sound(Abs())) ==> Abs() == old(Step(Abs(), Run))
    {
      if Sound(Abs()) {
        HeldTripsDiffer(Abs());
      }
      StartRuns(tick.batch);
      tick := if tick.batch == {} then Idle else Running(tick.batch);
    }

    /** One trip of the batch has run, or thrown: either way it is released. */
    method ReleaseActivity(activity: Activity)
      requires tick.Running? && activity in tick.batch
      modifies this
      ensures Abs() == old(Step(Abs(), Finish(activity)))
    {
      ModifyBusyCounter(activity.owner, -1);
      MinionActivityCacheDelete(activity.owner);
      var left := tick.batch - {activity};
      tick := if left == {} then Idle else Running(left);
    }
  }
}
