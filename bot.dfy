/**
 * The command handlers of the bot as an object whose fields are the
 * shared `game_state` record, updated in place. Each handler runs its
 * guard cascade and field updates; its contract ties the result code and
 * the new record to the handler function of module Session, where the
 * properties of the state machine are proved.
 */
module Bot {
  import opened Wrappers
  import opened Naming
  import Session

  class GameState {
    var active: bool
    var channelId: Option<Session.ChannelId>
    var initiatorId: Option<UserId>
    var optedIn: set<UserId>
    var optedOut: set<UserId>
    var confirmedTime: Option<string>
    var gameId: Option<string>
    var continent: Option<string>
    var codename: Option<string>

    /** The record the fields hold. */
    function Snapshot(): Session.State
      reads this
    {
      Session.State(active, channelId, initiatorId, optedIn, optedOut, confirmedTime, gameId, continent, codename)
    }

    /** The object invariant: the opted-in set within capacity. */
    predicate Valid()
      reads this
    {
      Session.WithinCapacity(Snapshot())
    }

    /** The record at module load: idle, no initiator, everything empty. */
    constructor ()
      ensures Valid()
      ensures Snapshot() == Session.Initial()
    {
      active := false;
      channelId := None;
      initiatorId := None;
      optedIn := {};
      optedOut := {};
      confirmedTime := None;
      gameId := None;
      continent := None;
      codename := None;
    }

    method StartGame(caller: UserId, channel: Session.ChannelId) returns (code: Session.Code)
      requires Valid()
      modifies this
      ensures Valid()
      ensures code == Session.OnStartGame(old(Snapshot()), caller, channel).code
      ensures Snapshot() == Session.OnStartGame(old(Snapshot()), caller, channel).next
    {
      if active {
        return Session.AlreadyActive;
      }
      active := true;
      channelId := Some(channel);
      initiatorId := Some(caller);
      optedIn := {};
      optedOut := {};
      confirmedTime := None;
      gameId := None;
      continent := None;
      codename := None;
      code := Session.Ok;
    }

    method OptIn(caller: UserId) returns (code: Session.Code)
      requires Valid()
      modifies this
      ensures Valid()
      ensures code == Session.OnOptIn(old(Snapshot()), caller).code
      ensures Snapshot() == Session.OnOptIn(old(Snapshot()), caller).next
    {
      if !active {
        return Session.NotActive;
      }
      if caller in optedIn {
        return Session.AlreadyOptedIn;
      }
      if |optedIn| >= Session.MaxPlayers {
        return Session.Full;
      }
      optedIn := optedIn + {caller};
      code := Session.Ok;
    }

    method OptOut(caller: UserId) returns (code: Session.Code)
      requires Valid()
      modifies this
      ensures Valid()
      ensures code == Session.OnOptOut(old(Snapshot()), caller).code
      ensures Snapshot() == Session.OnOptOut(old(Snapshot()), caller).next
    {
      if !active {
        return Session.NotActive;
      }
      if caller in optedIn {
        optedIn := optedIn - {caller};
      }
      optedOut := optedOut + {caller};
      code := Session.Ok;
    }

    /** Only reads the record: the acknowledgement changes nothing. */
    method FinishOptIn(caller: UserId) returns (code: Session.Code)
      requires Valid()
      ensures code == Session.OnFinishOptIn(Snapshot(), caller).code
      ensures code == Session.Ok <==> initiatorId == Some(caller)
    {
      if initiatorId != Some(caller) {
        return Session.NotAuthorized;
      }
      code := Session.Ok;
    }

    /** Also returns the channel to create and the users to mention in the summary. */
    method SetGameId(caller: UserId, newGameId: string, newContinent: string, newCodename: string)
      returns (code: Session.Code, channel: Option<Session.ChannelPlan>)
      requires Valid()
      modifies this
      ensures Valid()
      ensures var o := Session.OnSetGameId(old(Snapshot()), caller, newGameId, newContinent, newCodename);
        code == o.code && Snapshot() == o.next && channel == o.channel
    {
      if initiatorId != Some(caller) {
        return Session.NotAuthorized, None;
      }
      ghost var before := Snapshot();
      gameId := Some(newGameId);
      continent := Some(newContinent);
      codename := Some(newCodename);
      var overwrites := Overwrites(optedIn);
      var name := ChannelName(newGameId, newContinent, newCodename);
      channel := Some(Session.ChannelPlan(name, overwrites, optedIn));
      active := false;
      code := Session.Ok;
      assert Snapshot() == before.(active := false, gameId := Some(newGameId), continent := Some(newContinent), codename := Some(newCodename));
    }

    method CancelGame(caller: UserId) returns (code: Session.Code)
      requires Valid()
      modifies this
      ensures Valid()
      ensures code == Session.OnCancelGame(old(Snapshot()), caller).code
      ensures Snapshot() == Session.OnCancelGame(old(Snapshot()), caller).next
    {
      if initiatorId != Some(caller) {
        return Session.NotAuthorized;
      }
      active := false;
      code := Session.Ok;
    }
  }

  /**
   * A client of the handlers: a session started by u1, two opt-ins and the
   * finalization of "2053", "Europe", "Eagle", as the callers see it.
   */
  method FinalizeWalkthrough(u1: UserId, u2: UserId, u3: UserId, c1: Session.ChannelId)
    returns (codes: seq<Session.Code>, channel: Option<Session.ChannelPlan>)
    requires u2 != u3
    ensures codes == [Session.Ok, Session.Ok, Session.Ok, Session.Ok, Session.NotActive]
    ensures channel.Some? && channel.value.name == "gm53-europe-eagle"
    ensures GrantedAccess(channel.value.overwrites) == {u2, u3}
  {
    var game := new GameState();
    var a := game.StartGame(u1, c1);
    assert game.active && game.initiatorId == Some(u1) && game.optedIn == {};
    var b := game.OptIn(u2);
    assert game.active && game.initiatorId == Some(u1) && game.optedIn == {u2};
    var c := game.OptIn(u3);
    assert game.initiatorId == Some(u1) && game.optedIn == {u2, u3};
    var d;
    d, channel := game.SetGameId(u1, "2053", "Europe", "Eagle");
    assert !game.active;
    ChannelNameExample();
    var e := game.OptIn(u2);
    codes := [a, b, c, d, e];
  }
}
