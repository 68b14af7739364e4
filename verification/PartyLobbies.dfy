/**
 Party lobbies (src/lib/party.ts). Many lobbies are open at once and share one set of locked users; their button
 presses, time-outs and delayed continuations interleave freely. Each step below is what happens between two awaits.
 */
module PartyLobbies {
  import opened Banks

  type User = string

  datatype Options = Options(leader: User, minSize: int, maxSize: int, usersAllowed: Option<set<User>>)

  datatype Outcome = Pending | Resolved(users: seq<User>) | Rejected

  /** `timer`: the delayed start is scheduled; `deciding`: the start awaits the deletion of its message;
      `resolving`: the users were read and are being fetched; `fetchFailed`: the fetch was refused. */
  datatype Lobby = Lobby(
    options: Options,
    joined: seq<User>,
    ended: bool,
    cancelled: bool,
    massStarted: bool,
    timer: bool,
    deciding: bool,
    resolving: Option<seq<User>>,
    fetchFailed: bool,
    outcome: Outcome)

  datatype State = State(lobbies: map<nat, Lobby>, locks: set<User>)

  const INITIAL := State(map[], {})

  datatype Event =
    | Open(id: nat, options: Options)
    | Join(id: nat, user: User)
    | Leave(id: nat, user: User)
    | PressCancel(id: nat, user: User)
    | PressStart(id: nat, user: User)
    | End(id: nat)
    | Timer(id: nat)
    | Decide(id: nat)
    | Settle(id: nat)
    | FetchFails(id: nat)
    | ClearLocks

  // ---------- The steps ----------

  function Fresh(options: Options): Lobby {
    Lobby(options, [options.leader], false, false, false, false, false, None, false, Pending)
  }

  /** A promise settles once; later calls do nothing. */
  function Settled(l: Lobby, outcome: Outcome): Lobby {
    if l.outcome == Pending then l.(outcome := outcome) else l
  }

  function StartTrip(l: Lobby): Lobby {
    if l.massStarted then l else l.(massStarted := true, deciding := true)
  }

  function Remove(users: seq<User>, user: User): seq<User> {
    if users == [] then []
    else if users[0] == user then users[1..]
    else [users[0]] + Remove(users[1..], user)
  }

  function Members(users: seq<User>): set<User> {
    set u | u in users
  }

  predicate CanPress(s: State, id: nat) {
    id in s.lobbies && !s.lobbies[id].ended
  }

  predicate CanJoin(s: State, id: nat, user: User)
    requires id in s.lobbies
  {
    var l := s.lobbies[id];
    && user !in l.joined
    && user !in s.locks
    && (l.options.usersAllowed.Some? ==> user in l.options.usersAllowed.value)
  }

  predicate CanLeave(l: Lobby, user: User) {
    user in l.joined && user != l.options.leader
  }

  /** The collector stops: everybody in the lobby is unlocked and the delayed start is scheduled. */
  function Ended(s: State, id: nat, l: Lobby): State {
    State(s.lobbies[id := l.(ended := true, timer := true)], s.locks - Members(l.joined))
  }

  /** One step; an event that cannot happen here changes nothing. */
  function Step(s: State, e: Event): State {
    match e
    case Open(id, options) => if id in s.lobbies then s else s.(lobbies := s.lobbies[id := Fresh(options)])
    case Join(id, user) =>
      if CanPress(s, id) && CanJoin(s, id, user) then
        var l := s.lobbies[id].(joined := s.lobbies[id].joined + [user]);
        var t := State(s.lobbies[id := l], s.locks + {user});
        if |l.joined| >= l.options.maxSize then Ended(t, id, l) else t
      else s
    case Leave(id, user) =>
      if CanPress(s, id) && CanLeave(s.lobbies[id], user) then
        State(s.lobbies[id := s.lobbies[id].(joined := Remove(s.lobbies[id].joined, user))], s.locks - {user})
      else s
    case PressCancel(id, user) =>
      if CanPress(s, id) && user == s.lobbies[id].options.leader then
        Ended(s, id, Settled(s.lobbies[id].(cancelled := true), Rejected))
      else s
    case PressStart(id, user) =>
      if CanPress(s, id) && user == s.lobbies[id].options.leader then
        Ended(s, id, StartTrip(s.lobbies[id]))
      else s
    case End(id) => if CanPress(s, id) then Ended(s, id, s.lobbies[id]) else s
    case Timer(id) =>
      if id in s.lobbies && s.lobbies[id].timer then
        s.(lobbies := s.lobbies[id := StartTrip(s.lobbies[id].(timer := false))])
      else s
    case Decide(id) =>
      if id in s.lobbies && s.lobbies[id].deciding then
        var l := s.lobbies[id].(deciding := false);
        s.(lobbies := s.lobbies[id := if !l.cancelled && |l.joined| < l.options.minSize then Settled(l, Rejected)
                                      else l.(resolving := Some(l.joined))])
      else s
    case Settle(id) =>
      if id in s.lobbies && s.lobbies[id].resolving.Some? then
        var l := s.lobbies[id];
        s.(lobbies := s.lobbies[id := Settled(l.(resolving := None), Resolved(l.resolving.value))])
      else s
    case FetchFails(id) =>
      if id in s.lobbies && s.lobbies[id].resolving.Some? then
        s.(lobbies := s.lobbies[id := s.lobbies[id].(resolving := None, fetchFailed := true)])
      else s
    case ClearLocks => s.(locks := {})
  }

  /** The state after the first n events. */
  function Steps(s: State, events: seq<Event>, n: nat): State
    requires n <= |events|
  {
    if n == 0 then s else Step(Steps(s, events, n - 1), events[n - 1])
  }

  // ---------- One lobby ----------

  ghost predicate NoDuplicates(users: seq<User>) {
    forall i, j :: 0 <= i < j < |users| ==> users[i] != users[j]
  }

  lemma {:induction false} RemoveKeeps(users: seq<User>, user: User)
    requires NoDuplicates(users) && user in users
    ensures NoDuplicates(Remove(users, user)) && |Remove(users, user)| == |users| - 1
    ensures forall u :: u in Remove(users, user) <==> u in users && u != user
    ensures users[0] != user ==> Remove(users, user) != [] && Remove(users, user)[0] == users[0]
  {
    if users[0] != user {
      RemoveKeeps(users[1..], user);
      var r := Remove(users, user);
      assert users == [users[0]] + users[1..];
      assert forall i :: 1 <= i < |r| ==> r[i] == Remove(users[1..], user)[i - 1];
      assert users[0] !in users[1..];
    } else {
      assert users == [users[0]] + users[1..];
    }
  }

  function Capacity(options: Options): int {
    if options.maxSize < 2 then 2 else options.maxSize
  }

  /** What holds of every lobby in every run. */
  ghost predicate LobbySound(l: Lobby) {
    && NoDuplicates(l.joined)
    && l.joined != [] && l.joined[0] == l.options.leader
    && |l.joined| <= Capacity(l.options) && (!l.ended ==> |l.joined| < Capacity(l.options))
    && (l.options.usersAllowed.Some? ==>
          forall u :: u in l.joined ==> u == l.options.leader || u in l.options.usersAllowed.value)
    && (l.massStarted || l.timer || l.cancelled || l.outcome != Pending ==> l.ended)
    && (l.deciding || l.resolving.Some? ==> l.massStarted)
    && !(l.deciding && l.resolving.Some?)
    && (l.resolving.Some? ==> l.resolving.value == l.joined && (l.cancelled || |l.joined| >= l.options.minSize))
    && (l.cancelled ==> l.outcome == Rejected)
    && (l.outcome == Rejected && !l.cancelled ==> |l.joined| < l.options.minSize)
    && (l.outcome.Resolved? ==> l.outcome.users == l.joined && |l.joined| >= l.options.minSize)
    && (l.outcome != Pending && !l.cancelled ==> l.massStarted && !l.deciding && l.resolving.None?)
    && (l.ended ==> l.timer || l.massStarted)
    && (l.massStarted && !l.deciding && l.resolving.None? && !l.fetchFailed ==> l.outcome != Pending)
    && (l.fetchFailed ==> l.cancelled || |l.joined| >= l.options.minSize)
    && (l.fetchFailed ==> l.massStarted && !l.deciding && l.resolving.None? && (l.outcome == Pending <==> !l.cancelled))
  }

  ghost predicate Sound(s: State) {
    forall id :: id in s.lobbies ==> LobbySound(s.lobbies[id])
  }

  lemma LeaveSound(l: Lobby, user: User)
    requires LobbySound(l) && !l.ended && CanLeave(l, user)
    ensures LobbySound(l.(joined := Remove(l.joined, user)))
  {
    RemoveKeeps(l.joined, user);
  }

  lemma JoinSound(l: Lobby, user: User, m: Lobby)
    requires LobbySound(l) && !l.ended && user !in l.joined
    requires l.options.usersAllowed.Some? ==> user in l.options.usersAllowed.value
    requires m == l.(joined := l.joined + [user])
    ensures LobbySound(if |m.joined| >= m.options.maxSize then m.(ended := true, timer := true) else m)
  {
  }

  lemma StepSound(s: State, e: Event)
    requires Sound(s)
    ensures Sound(Step(s, e))
  {
    if e.Leave? && CanPress(s, e.id) && CanLeave(s.lobbies[e.id], e.user) {
      LeaveSound(s.lobbies[e.id], e.user);
    } else if e.Join? && CanPress(s, e.id) && CanJoin(s, e.id, e.user) {
      var l := s.lobbies[e.id];
      JoinSound(l, e.user, l.(joined := l.joined + [e.user]));
    }
  }

  lemma {:induction false} StepsSound(s: State, events: seq<Event>, n: nat)
    requires Sound(s) && n <= |events|
    ensures Sound(Steps(s, events, n))
  {
    if n > 0 {
      StepsSound(s, events, n - 1);
      StepSound(Steps(s, events, n - 1), events[n - 1]);
    }
  }

  /** A settled promise keeps its outcome, and a lobby its options. */
  ghost predicate Continues(l: Lobby, m: Lobby) {
    && m.options == l.options
    && (l.outcome != Pending ==> m.outcome == l.outcome)
    && (l.cancelled ==> m.cancelled)
  }

  lemma StepContinues(s: State, e: Event, id: nat)
    requires id in s.lobbies
    ensures id in Step(s, e).lobbies && Continues(s.lobbies[id], Step(s, e).lobbies[id])
  {
  }

  lemma {:induction false} OutcomeIsFinal(s: State, events: seq<Event>, n: nat, id: nat)
    requires id in s.lobbies && n <= |events|
    ensures id in Steps(s, events, n).lobbies && Continues(s.lobbies[id], Steps(s, events, n).lobbies[id])
  {
    if n > 0 {
      OutcomeIsFinal(s, events, n - 1, id);
      StepContinues(Steps(s, events, n - 1), events[n - 1], id);
    }
  }

  /** In every interleaving, a party resolves only with enough members, never more than the capacity, each once and
      the leader first, and never after a cancel. */
  lemma PartyIsSound(events: seq<Event>, n: nat, id: nat)
    requires n <= |events| && id in Steps(INITIAL, events, n).lobbies
    ensures var l := Steps(INITIAL, events, n).lobbies[id];
            l.outcome.Resolved? ==>
              var us := l.outcome.users;
              !l.cancelled && l.options.minSize <= |us| <= Capacity(l.options) &&
              NoDuplicates(us) && us != [] && us[0] == l.options.leader
    ensures var l := Steps(INITIAL, events, n).lobbies[id];
            l.cancelled ==> l.outcome == Rejected
  {
    StepsSound(INITIAL, events, n);
  }

  /** The lobby has ended and nothing more of it is under way. */
  predicate IsDone(l: Lobby) {
    l.ended && !l.timer && !l.deciding && l.resolving.None?
  }

  /** A lobby that is done has settled its promise, unless the members could not be fetched and nobody had cancelled. */
  lemma DoneLobbySettlesIff(events: seq<Event>, n: nat, id: nat)
    requires n <= |events| && id in Steps(INITIAL, events, n).lobbies
    requires IsDone(Steps(INITIAL, events, n).lobbies[id])
    ensures var l := Steps(INITIAL, events, n).lobbies[id];
            l.outcome != Pending <==> !l.fetchFailed || l.cancelled
  {
    StepsSound(INITIAL, events, n);
  }

  /** What a lobby that is done came to, by what happened in it. */
  lemma DoneOutcome(events: seq<Event>, n: nat, id: nat)
    requires n <= |events| && id in Steps(INITIAL, events, n).lobbies
    requires IsDone(Steps(INITIAL, events, n).lobbies[id])
    ensures var l := Steps(INITIAL, events, n).lobbies[id];
            && (l.outcome == Rejected <==> l.cancelled || |l.joined| < l.options.minSize)
            && (l.outcome == Resolved(l.joined) <==>
                !l.cancelled && |l.joined| >= l.options.minSize && !l.fetchFailed)
            && (l.outcome == Pending <==> !l.cancelled && |l.joined| >= l.options.minSize && l.fetchFailed)
  {
    StepsSound(INITIAL, events, n);
  }

  /** A lobby for two or more that somebody joined and its leader started resolves with the two. */
  lemma PartyResolves(o: Options, user: User)
    requires o.minSize <= 2 < o.maxSize && user != o.leader
    requires o.usersAllowed.Some? ==> user in o.usersAllowed.value
    ensures var events := [Open(0, o), Join(0, user), PressStart(0, o.leader), Decide(0), Settle(0), Timer(0)];
            var lobbies := Steps(INITIAL, events, 6).lobbies;
            0 in lobbies && IsDone(lobbies[0]) && lobbies[0].outcome == Resolved([o.leader, user])
  {
    var events := [Open(0, o), Join(0, user), PressStart(0, o.leader), Decide(0), Settle(0), Timer(0)];
    assert Steps(INITIAL, events, 1) == Step(INITIAL, Open(0, o));
    assert Steps(INITIAL, events, 2).lobbies[0].joined == [o.leader] + [user];
    assert Steps(INITIAL, events, 3).lobbies[0].deciding;
    assert Steps(INITIAL, events, 4).lobbies[0].resolving == Some([o.leader] + [user]);
    assert Steps(INITIAL, events, 5).lobbies[0].outcome.Resolved?;
  }

  ghost predicate IsStuck(s: State, id: nat) {
    && id in s.lobbies && s.lobbies[id].fetchFailed && s.lobbies[id].ended && s.lobbies[id].massStarted
    && !s.lobbies[id].deciding && s.lobbies[id].resolving.None? && s.lobbies[id].outcome == Pending
  }

  lemma StepStaysStuck(s: State, e: Event, id: nat)
    requires IsStuck(s, id)
    ensures IsStuck(Step(s, e), id)
  {
  }

  /** And then it never settles. */
  lemma {:induction false} StuckForever(s: State, events: seq<Event>, n: nat, id: nat)
    requires IsStuck(s, id) && n <= |events|
    ensures IsStuck(Steps(s, events, n), id)
  {
    if n > 0 {
      StuckForever(s, events, n - 1, id);
      StepStaysStuck(Steps(s, events, n - 1), events[n - 1], id);
    }
  }

  /** A lobby for two or more that somebody joined and its leader started, whose members cannot be fetched. */
  lemma FetchFailureSticks(o: Options, user: User)
    requires o.minSize <= 2 < o.maxSize && user != o.leader
    requires o.usersAllowed.Some? ==> user in o.usersAllowed.value
    ensures var events := [Open(0, o), Join(0, user), PressStart(0, o.leader), Decide(0), FetchFails(0)];
            IsStuck(Steps(INITIAL, events, 5), 0)
  {
    var events := [Open(0, o), Join(0, user), PressStart(0, o.leader), Decide(0), FetchFails(0)];
    assert Steps(INITIAL, events, 1) == Step(INITIAL, Open(0, o));
    assert Steps(INITIAL, events, 2).lobbies[0].joined == [o.leader] + [user];
    assert Steps(INITIAL, events, 3).lobbies[0].deciding;
    assert Steps(INITIAL, events, 4).lobbies[0].resolving.Some?;
  }

  // ---------- How full a lobby gets ----------

  /** In every run a lobby with these options holds at most maxSize members. */
  ghost predicate NeverOverfull(options: Options) {
    forall events, id :: OpenedAs(events, id, options) ==> |Last(events).lobbies[id].joined| <= options.maxSize
  }

  ghost function Last(events: seq<Event>): State {
    Steps(INITIAL, events, |events|)
  }

  ghost predicate OpenedAs(events: seq<Event>, id: nat, options: Options) {
    id in Last(events).lobbies && Last(events).lobbies[id].options == options
  }

  lemma SecondMemberJoins(options: Options, user: User)
    requires user != options.leader && (options.usersAllowed.Some? ==> user in options.usersAllowed.value)
    ensures var events := [Open(0, options), Join(0, user)];
            OpenedAs(events, 0, options) && |Last(events).lobbies[0].joined| == 2
  {
    var events := [Open(0, options), Join(0, user)];
    assert Steps(INITIAL, events, 1) == Step(INITIAL, Open(0, options));
  }

  /** The limit is the one asked for if and only if it is at least two: a smaller lobby still admits a second member. */
  lemma NeverOverfullIff(options: Options)
    requires options.usersAllowed.None?
    ensures NeverOverfull(options) <==> options.maxSize >= 2
  {
    if options.maxSize >= 2 {
      forall events, id | OpenedAs(events, id, options)
        ensures |Last(events).lobbies[id].joined| <= options.maxSize
      {
        StepsSound(INITIAL, events, |events|);
      }
    } else {
      SecondMemberJoins(options, options.leader + "2");
      assert OpenedAs([Open(0, options), Join(0, options.leader + "2")], 0, options);
    }
  }

  // ---------- The shared locks ----------

  /** The user has joined this open lobby as somebody else's guest. */
  predicate IsGuest(s: State, id: nat, user: User) {
    id in s.lobbies && !s.lobbies[id].ended && user in s.lobbies[id].joined && user != s.lobbies[id].options.leader
  }

  /** A user is locked exactly when a guest of an open lobby, and is a guest of at most one. */
  ghost predicate LocksAgree(s: State) {
    && (forall id, user :: IsGuest(s, id, user) ==> user in s.locks)
    && (forall user :: user in s.locks ==> exists id :: IsGuest(s, id, user))
    && (forall i, j, user :: IsGuest(s, i, user) && IsGuest(s, j, user) ==> i == j)
  }

  /** The event stops an open lobby's collector: the last place is taken, its leader presses cancel or start, or its
      time is up. */
  predicate Stops(s: State, e: Event) {
    match e
    case Join(id, user) =>
      CanPress(s, id) && CanJoin(s, id, user) && |s.lobbies[id].joined| + 1 >= s.lobbies[id].options.maxSize
    case PressCancel(id, user) => CanPress(s, id) && user == s.lobbies[id].options.leader
    case PressStart(id, user) => CanPress(s, id) && user == s.lobbies[id].options.leader
    case End(id) => CanPress(s, id)
    case _ => false
  }

  /** Stopping a lobby while its leader is a guest elsewhere, and the periodic clearing of all locks while anybody is a
      guest, are the steps that unlock too much. */
  predicate IsClean(s: State, e: Event) {
    if e.ClearLocks? then s.locks == {} else Stops(s, e) ==> s.lobbies[e.id].options.leader !in s.locks
  }

  /** The lobby's collector stopping. */
  lemma EndAgrees(s: State, id: nat, l: Lobby)
    requires LocksAgree(s) && CanPress(s, id)
    requires l.joined == s.lobbies[id].joined && l.joined != [] && l.joined[0] == s.lobbies[id].options.leader
    ensures LocksAgree(Ended(s, id, l)) <==> s.lobbies[id].options.leader !in s.locks
  {
    var t, leader := Ended(s, id, l), s.lobbies[id].options.leader;
    forall j, u ensures IsGuest(t, j, u) <==> IsGuest(s, j, u) && j != id
    {
    }
    if leader in s.locks {
      var j :| IsGuest(s, j, leader);
      assert IsGuest(t, j, leader) && leader !in t.locks;
    } else {
      forall j, u | IsGuest(t, j, u) ensures u in t.locks
      {
        assert IsGuest(s, j, u) && j != id && u in s.locks;
        assert u in l.joined ==> u == leader || IsGuest(s, id, u);
      }
      forall u | u in t.locks ensures exists j :: IsGuest(t, j, u)
      {
        var j :| IsGuest(s, j, u);
        assert IsGuest(t, j, u);
      }
    }
  }

  /** Somebody joining. */
  lemma JoinAgrees(s: State, id: nat, user: User, l: Lobby)
    requires LocksAgree(s) && CanPress(s, id) && CanJoin(s, id, user)
    requires s.lobbies[id].options.leader in s.lobbies[id].joined
    requires l == s.lobbies[id].(joined := s.lobbies[id].joined + [user])
    ensures LocksAgree(State(s.lobbies[id := l], s.locks + {user}))
  {
    var t := State(s.lobbies[id := l], s.locks + {user});
    forall j, u ensures IsGuest(t, j, u) <==> IsGuest(s, j, u) || (j == id && u == user)
    {
    }
    assert IsGuest(t, id, user);
    forall u | u in t.locks ensures exists j :: IsGuest(t, j, u)
    {
      if u != user {
        var j :| IsGuest(s, j, u);
        assert IsGuest(t, j, u);
      }
    }
  }

  /** Somebody leaving. */
  lemma LeaveAgrees(s: State, id: nat, user: User)
    requires LocksAgree(s) && CanPress(s, id) && CanLeave(s.lobbies[id], user) && NoDuplicates(s.lobbies[id].joined)
    ensures LocksAgree(Step(s, Leave(id, user)))
  {
    var t := Step(s, Leave(id, user));
    RemoveKeeps(s.lobbies[id].joined, user);
    assert IsGuest(s, id, user);
    forall j, u ensures IsGuest(t, j, u) <==> IsGuest(s, j, u) && u != user
    {
      assert u == user && IsGuest(s, j, u) ==> j == id;
    }
    forall u | u in t.locks ensures exists j :: IsGuest(t, j, u)
    {
      var j :| IsGuest(s, j, u);
      assert IsGuest(t, j, u);
    }
  }

  /** Steps that change nobody's membership. */
  lemma SameGuests(s: State, t: State)
    requires LocksAgree(s) && t.locks == s.locks && forall j, u :: IsGuest(t, j, u) <==> IsGuest(s, j, u)
    ensures LocksAgree(t)
  {
    forall u | u in t.locks ensures exists j :: IsGuest(t, j, u)
    {
      var j :| IsGuest(s, j, u);
      assert IsGuest(t, j, u);
    }
  }

  lemma ClearAgrees(s: State)
    requires LocksAgree(s)
    ensures LocksAgree(Step(s, ClearLocks)) <==> s.locks == {}
  {
    var t := Step(s, ClearLocks);
    assert forall j, u :: IsGuest(t, j, u) <==> IsGuest(s, j, u);
    if u :| u in s.locks {
      var j :| IsGuest(s, j, u);
      assert IsGuest(t, j, u);
    }
  }

  lemma JoinStepAgrees(s: State, id: nat, user: User)
    requires LocksAgree(s) && CanPress(s, id) && CanJoin(s, id, user)
    requires s.lobbies[id].joined != [] && s.lobbies[id].joined[0] == s.lobbies[id].options.leader
    ensures LocksAgree(Step(s, Join(id, user))) <==> IsClean(s, Join(id, user))
  {
    var l := s.lobbies[id].(joined := s.lobbies[id].joined + [user]);
    var t := State(s.lobbies[id := l], s.locks + {user});
    assert l.joined[0] == l.options.leader && user != l.options.leader;
    JoinAgrees(s, id, user, l);
    if |l.joined| >= l.options.maxSize {
      EndAgrees(t, id, l);
    }
  }

  /** A step keeps the locks right exactly when it is clean. */
  lemma StepAgrees(s: State, e: Event)
    requires Sound(s) && LocksAgree(s)
    ensures LocksAgree(Step(s, e)) <==> IsClean(s, e)
  {
    match e {
      case Join(id, user) =>
        if CanPress(s, id) && CanJoin(s, id, user) {
          JoinStepAgrees(s, id, user);
        }
      case Leave(id, user) =>
        if CanPress(s, id) && CanLeave(s.lobbies[id], user) {
          LeaveAgrees(s, id, user);
        }
      case PressCancel(id, user) =>
        if CanPress(s, id) && user == s.lobbies[id].options.leader {
          EndAgrees(s, id, Settled(s.lobbies[id].(cancelled := true), Rejected));
        }
      case PressStart(id, user) =>
        if CanPress(s, id) && user == s.lobbies[id].options.leader {
          EndAgrees(s, id, StartTrip(s.lobbies[id]));
        }
      case End(id) =>
        if CanPress(s, id) {
          EndAgrees(s, id, s.lobbies[id]);
        }
      case ClearLocks => ClearAgrees(s);
      case _ =>
        SameGuests(s, Step(s, e));
    }
  }

  predicate IsCleanAt(s: State, events: seq<Event>, k: nat)
    requires k < |events|
  {
    IsClean(Steps(s, events, k), events[k])
  }

  lemma {:induction false} StepsAgree(s: State, events: seq<Event>, n: nat)
    requires Sound(s) && LocksAgree(s) && n <= |events|
    requires forall k :: 0 <= k < n ==> IsCleanAt(s, events, k)
    ensures LocksAgree(Steps(s, events, n))
  {
    if n > 0 {
      StepsAgree(s, events, n - 1);
      StepsSound(s, events, n - 1);
      assert IsCleanAt(s, events, n - 1);
      StepAgrees(Steps(s, events, n - 1), events[n - 1]);
    }
  }

  /** No open lobby's leader is a guest anywhere. */
  ghost predicate LeadersAreFree(s: State) {
    forall id :: CanPress(s, id) ==> s.lobbies[id].options.leader !in s.locks
  }

  /** Leaders join no other lobby, guests open none, and the locks are not cleared. */
  predicate IsDisciplined(s: State, e: Event) {
    match e
    case Open(_, options) => options.leader !in s.locks
    case Join(_, user) => forall id | id in s.lobbies :: !s.lobbies[id].ended ==> s.lobbies[id].options.leader != user
    case ClearLocks => false
    case _ => true
  }

  predicate IsDisciplinedAt(s: State, events: seq<Event>, k: nat)
    requires k < |events|
  {
    IsDisciplined(Steps(s, events, k), events[k])
  }

  lemma {:induction false} StepsDisciplined(s: State, events: seq<Event>, n: nat)
    requires Sound(s) && LocksAgree(s) && LeadersAreFree(s) && n <= |events|
    requires forall k :: 0 <= k < n ==> IsDisciplinedAt(s, events, k)
    ensures LocksAgree(Steps(s, events, n)) && LeadersAreFree(Steps(s, events, n))
  {
    if n > 0 {
      var before, e := Steps(s, events, n - 1), events[n - 1];
      StepsDisciplined(s, events, n - 1);
      StepsSound(s, events, n - 1);
      assert IsDisciplinedAt(s, events, n - 1);
      StepAgrees(before, e);
      StepFree(before, e);
    }
  }

  lemma InitialAgrees()
    ensures Sound(INITIAL) && LocksAgree(INITIAL) && LeadersAreFree(INITIAL)
  {
  }

  /** In every run of clean steps a user is locked exactly while a guest of one open lobby. */
  lemma LocksAreRight(events: seq<Event>, n: nat, user: User)
    requires n <= |events|
    requires forall k :: 0 <= k < n ==> IsCleanAt(INITIAL, events, k)
    ensures var s := Steps(INITIAL, events, n);
            && (user in s.locks <==> exists id :: IsGuest(s, id, user))
            && forall i, j :: IsGuest(s, i, user) && IsGuest(s, j, user) ==> i == j
  {
    InitialAgrees();
    StepsAgree(INITIAL, events, n);
  }

  /** So it is in every run in which leaders join no other lobby, guests open none, and the locks are not cleared. */
  lemma DisciplinedRunsAreRight(events: seq<Event>, n: nat)
    requires n <= |events|
    requires forall k :: 0 <= k < n ==> IsDisciplinedAt(INITIAL, events, k)
    ensures LocksAgree(Steps(INITIAL, events, n)) && LeadersAreFree(Steps(INITIAL, events, n))
  {
    InitialAgrees();
    StepsDisciplined(INITIAL, events, n);
  }

  lemma StepFree(s: State, e: Event)
    requires LeadersAreFree(s) && IsDisciplined(s, e)
    ensures LeadersAreFree(Step(s, e))
  {
  }

  // ---------- Runs that go wrong ----------

  /** Clearing the locks lets a guest into a second lobby. */
  lemma ClearedGuestJoinsTwice(a: Options, b: Options, user: User)
    requires user != a.leader && user != b.leader && a.maxSize > 2 && b.maxSize > 2
    requires a.usersAllowed.None? && b.usersAllowed.None?
    ensures var s := Steps(INITIAL, [Open(0, a), Open(1, b), Join(0, user), ClearLocks, Join(1, user)], 5);
            IsGuest(s, 0, user) && IsGuest(s, 1, user)
  {
    var events := [Open(0, a), Open(1, b), Join(0, user), ClearLocks, Join(1, user)];
    assert Steps(INITIAL, events, 1) == Step(INITIAL, Open(0, a));
    assert Steps(INITIAL, events, 2) == State(map[0 := Fresh(a), 1 := Fresh(b)], {});
    var joined := Fresh(a).(joined := [a.leader] + [user]);
    assert Steps(INITIAL, events, 3) == State(map[0 := joined, 1 := Fresh(b)], {user});
    assert Steps(INITIAL, events, 4) == State(map[0 := joined, 1 := Fresh(b)], {});
  }

  /** A leader who is a guest elsewhere loses that lock when their own lobby ends. */
  lemma LeaderUnlocked(a: Options, b: Options)
    requires a.leader != b.leader && a.maxSize > 2 && a.usersAllowed.None?
    ensures var s := Steps(INITIAL, [Open(0, a), Open(1, b), Join(0, b.leader), End(1)], 4);
            IsGuest(s, 0, b.leader) && b.leader !in s.locks
  {
    var events := [Open(0, a), Open(1, b), Join(0, b.leader), End(1)];
    assert Steps(INITIAL, events, 1) == Step(INITIAL, Open(0, a));
    assert Steps(INITIAL, events, 2) == State(map[0 := Fresh(a), 1 := Fresh(b)], {});
    var joined := Fresh(a).(joined := [a.leader] + [b.leader]);
    assert Steps(INITIAL, events, 3) == State(map[0 := joined, 1 := Fresh(b)], {b.leader});
  }
}
