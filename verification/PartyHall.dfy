/**
 The bot's own form of the lobbies: the shared lock set and each lobby's variables, updated in place by the button
 handlers, the end handler and the delayed start.
 */
module PartyHall {
  import opened Banks
  import opened PartyLobbies

  class Hall {
    var lobbies: map<nat, Lobby>
    var partyLockCache: set<User>

    ghost function Abs(): State
      reads this
    {
      State(lobbies, partyLockCache)
    }

    constructor ()
      ensures Abs() == INITIAL
    {
      lobbies, partyLockCache := map[], {};
    }

    method SetupParty(id: nat, options: Options)
      requires id !in lobbies
      modifies this
      ensures Abs() == old(Step(Abs(), Open(id, options)))
    {
      lobbies := lobbies[id := Fresh(options)];
    }

    /** Finding the user in the list and splicing them out. */
    method RemoveUser(users: seq<User>, user: User) returns (r: seq<User>)
      ensures r == Remove(users, user)
    {
      var index := 0;
      while index < |users| && users[index] != user
        invariant index <= |users|
        invariant Remove(users, user) == users[..index] + Remove(users[index..], user)
      {
        assert users[index..][1..] == users[index + 1..];
        index := index + 1;
      }
      if index == |users| {
        return users;
      }
      assert users[index..][1..] == users[index + 1..];
      r := users[..index] + users[index + 1..];
    }

    /** The end handler: every member is unlocked and the delayed start scheduled. */
    method OnEnd(id: nat)
      requires CanPress(Abs(), id)
      modifies this
      ensures Abs() == old(Ended(Abs(), id, lobbies[id]))
    {
      var lobby := lobbies[id];
      lobbies := lobbies[id := lobby.(ended := true, timer := true)];
      for i := 0 to |lobby.joined|
        invariant lobbies == old(lobbies)[id := lobby.(ended := true, timer := true)]
        invariant partyLockCache == old(partyLockCache) - Members(lobby.joined[..i])
      {
        assert lobby.joined[..i + 1] == lobby.joined[..i] + [lobby.joined[i]];
        partyLockCache := partyLockCache - {lobby.joined[i]};
      }
      assert lobby.joined[..|lobby.joined|] == lobby.joined;
    }

    method OnJoin(id: nat, user: User) returns (joined: bool)
      requires CanPress(Abs(), id)
      modifies this
      ensures Abs() == old(Step(Abs(), Join(id, user)))
      ensures joined <==> old(CanJoin(Abs(), id, user))
    {
      var lobby := lobbies[id];
      if user in lobby.joined {
        return false;
      }
      if user in partyLockCache
         || (lobby.options.usersAllowed.Some? && user !in lobby.options.usersAllowed.value) {
        return false;
      }
      lobby := lobby.(joined := lobby.joined + [user]);
      lobbies := lobbies[id := lobby];
      partyLockCache := partyLockCache + {user};
      if |lobby.joined| >= lobby.options.maxSize {
        assert old(lobbies)[id := lobby][id := lobby.(ended := true, timer := true)] ==
               old(lobbies)[id := lobby.(ended := true, timer := true)];
        OnEnd(id);
      }
      return true;
    }

    method OnLeave(id: nat, user: User) returns (left: bool)
      requires CanPress(Abs(), id)
      modifies this
      ensures Abs() == old(Step(Abs(), Leave(id, user)))
      ensures left <==> old(CanLeave(lobbies[id], user))
    {
      var lobby := lobbies[id];
      if user !in lobby.joined || user == lobby.options.leader {
        return false;
      }
      partyLockCache := partyLockCache - {user};
      var rest := RemoveUser(lobby.joined, user);
      lobbies := lobbies[id := lobby.(joined := rest)];
      return true;
    }

    method OnCancel(id: nat, user: User)
      requires CanPress(Abs(), id)
      modifies this
      ensures Abs() == old(Step(Abs(), PressCancel(id, user)))
    {
      if user == lobbies[id].options.leader {
        var lobby := lobbies[id].(cancelled := true);
        if lobby.outcome == Pending {
          lobby := lobby.(outcome := Rejected);
        }
        lobbies := lobbies[id := lobby];
        OnEnd(id);
      }
    }

    method OnStart(id: nat, user: User)
      requires CanPress(Abs(), id)
      modifies this
      ensures Abs() == old(Step(Abs(), PressStart(id, user)))
    {
      if user == lobbies[id].options.leader {
        BeginTrip(id);
        OnEnd(id);
      }
    }

    /** The part of the start before it waits for its message to be deleted. */
    method BeginTrip(id: nat)
      requires id in lobbies
      modifies this`lobbies
      ensures lobbies == old(lobbies)[id := StartTrip(old(lobbies)[id])]
    {
      if lobbies[id].massStarted {
        return;
      }
      lobbies := lobbies[id := lobbies[id].(massStarted := true, deciding := true)];
    }

    method OnTimer(id: nat)
      requires id in lobbies && lobbies[id].timer
      modifies this
      ensures Abs() == old(Step(Abs(), Timer(id)))
    {
      lobbies := lobbies[id := lobbies[id].(timer := false)];
      BeginTrip(id);
    }

    /** The part of the start after its message is deleted. */
    method ContinueTrip(id: nat)
      requires id in lobbies && lobbies[id].deciding
      modifies this
      ensures Abs() == old(Step(Abs(), Decide(id)))
    {
      var lobby := lobbies[id].(deciding := false);
      if !lobby.cancelled && |lobby.joined| < lobby.options.minSize {
        if lobby.outcome == Pending {
          lobby := lobby.(outcome := Rejected);
        }
        lobbies := lobbies[id := lobby];
        return;
      }
      lobbies := lobbies[id := lobby.(resolving := Some(lobby.joined))];
    }

    /** Every member was fetched: the promise resolves, unless it has settled before. */
    method OnFetched(id: nat)
      requires id in lobbies && lobbies[id].resolving.Some?
      modifies this
      ensures Abs() == old(Step(Abs(), Settle(id)))
    {
      var lobby := lobbies[id];
      var users := lobby.resolving.value;
      lobby := lobby.(resolving := None);
      if lobby.outcome == Pending {
        lobby := lobby.(outcome := Resolved(users));
      }
      lobbies := lobbies[id := lobby];
    }

    /** Some member could not be fetched: the start throws, and nothing settles the promise. */
    method OnFetchFailed(id: nat)
      requires id in lobbies && lobbies[id].resolving.Some?
      modifies this
      ensures Abs() == old(Step(Abs(), FetchFails(id)))
    {
      lobbies := lobbies[id := lobbies[id].(resolving := None, fetchFailed := true)];
    }
  }
}
