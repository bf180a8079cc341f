/**
 * The game-coordination session as a state machine over one record.
 * Each handler is a function from the record before a command to the
 * result code, the record after it and, for a successful finalization,
 * the channel the bot asks the chat server to create.
 */
module Session {
  import opened Wrappers
  import opened Naming

  /** A chat channel identifier. */
  type ChannelId = int

  /** The opt-in capacity. */
  const MaxPlayers: nat := 5

  /** The outcome of one command, in place of the text replied to the caller. */
  datatype Code = Ok | AlreadyActive | NotActive | AlreadyOptedIn | Full | NotAuthorized

  /** The shared `game_state` record. */
  datatype State = State(
    active: bool,
    channelId: Option<ChannelId>,
    initiatorId: Option<UserId>,
    optedIn: set<UserId>,
    optedOut: set<UserId>,
    confirmedTime: Option<string>,
    gameId: Option<string>,
    continent: Option<string>,
    codename: Option<string>)

  /** What a finalization asks the chat server for: a channel with this name and these overwrites, and a summary mentioning these users. */
  datatype ChannelPlan = ChannelPlan(name: string, overwrites: map<Principal, Overwrite>, mentioned: set<UserId>)

  datatype Outcome = Outcome(code: Code, next: State, channel: Option<ChannelPlan>)

  /** The six slash commands, each with its caller. */
  datatype Command =
    | StartGame(caller: UserId, channel: ChannelId)
    | OptIn(caller: UserId)
    | OptOut(caller: UserId)
    | FinishOptIn(caller: UserId)
    | SetGameId(caller: UserId, gameId: string, continent: string, codename: string)
    | CancelGame(caller: UserId)

  /** The record when the process starts: idle, nobody is initiator. */
  function Initial(): (s: State)
    ensures !s.active && s.initiatorId == None && s.channelId == None
    ensures s.optedIn == {} && s.optedOut == {}
    ensures s.confirmedTime == None && s.gameId == None && s.continent == None && s.codename == None
  {
    State(false, None, None, {}, {}, None, None, None, None)
  }

  /** The invariant every command keeps: at most MaxPlayers opted in. */
  predicate WithinCapacity(s: State) {
    |s.optedIn| <= MaxPlayers
  }

  /** The privileged-command guard; no user is the initiator while it is None. */
  predicate IsInitiator(s: State, caller: UserId) {
    s.initiatorId == Some(caller)
  }

  /** `start_game`: refused while a session is active, otherwise a fresh session owned by the caller. */
  function OnStartGame(s: State, caller: UserId, channel: ChannelId): (o: Outcome)
    ensures o.channel == None
    ensures s.active ==> o.code == AlreadyActive && o.next == s
    ensures !s.active ==> o.code == Ok
    ensures !s.active ==>
      && o.next.active
      && o.next.initiatorId == Some(caller)
      && o.next.channelId == Some(channel)
      && o.next.optedIn == {} && o.next.optedOut == {}
      && o.next.confirmedTime == None
      && o.next.gameId == None && o.next.continent == None && o.next.codename == None
  {
    if s.active then Outcome(AlreadyActive, s, None)
    else Outcome(Ok, State(true, Some(channel), Some(caller), {}, {}, None, None, None, None), None)
  }

  /** `opt_in`: the guards in the order of the source, then the caller joins. */
  function OnOptIn(s: State, caller: UserId): (o: Outcome)
    ensures o.channel == None
    ensures o.code == NotActive <==> !s.active
    ensures o.code == AlreadyOptedIn <==> s.active && caller in s.optedIn
    ensures o.code == Full <==> s.active && caller !in s.optedIn && |s.optedIn| >= MaxPlayers
    ensures o.code == Ok <==> s.active && caller !in s.optedIn && |s.optedIn| < MaxPlayers
    ensures o.code != Ok ==> o.next == s
    ensures o.code == Ok ==>
      && o.next == s.(optedIn := o.next.optedIn)
      && o.next.optedIn == s.optedIn + {caller}
      && |o.next.optedIn| == |s.optedIn| + 1 <= MaxPlayers
  {
    if !s.active then Outcome(NotActive, s, None)
    else if caller in s.optedIn then Outcome(AlreadyOptedIn, s, None)
    else if |s.optedIn| >= MaxPlayers then Outcome(Full, s, None)
    else Outcome(Ok, s.(optedIn := s.optedIn + {caller}), None)
  }

  /** `opt_out`: always accepted while active; the caller leaves opted-in and is recorded as opted out. */
  function OnOptOut(s: State, caller: UserId): (o: Outcome)
    ensures o.channel == None
    ensures o.code == if s.active then Ok else NotActive
    ensures !s.active ==> o.next == s
    ensures s.active ==>
      && o.next == s.(optedIn := o.next.optedIn, optedOut := o.next.optedOut)
      && caller !in o.next.optedIn && caller in o.next.optedOut
      && o.next.optedIn - {caller} == s.optedIn - {caller}
      && o.next.optedOut - {caller} == s.optedOut - {caller}
      && (caller !in s.optedIn ==> o.next.optedIn == s.optedIn)
      && |o.next.optedIn| <= |s.optedIn|
  {
    if !s.active then Outcome(NotActive, s, None)
    else
      var optedIn := if caller in s.optedIn then s.optedIn - {caller} else s.optedIn;
      Outcome(Ok, s.(optedIn := optedIn, optedOut := s.optedOut + {caller}), None)
  }

  /** `finish_optin`: advisory only; never changes the record. */
  function OnFinishOptIn(s: State, caller: UserId): (o: Outcome)
    ensures o.next == s && o.channel == None
    ensures o.code == if IsInitiator(s, caller) then Ok else NotAuthorized
  {
    if !IsInitiator(s, caller) then Outcome(NotAuthorized, s, None)
    else Outcome(Ok, s, None)
  }

  /**
   * `set_game_id`: for the initiator, whether or not a session is active,
   * stores the three strings, plans the private channel for the opted-in
   * users and ends the session.
   */
  function OnSetGameId(s: State, caller: UserId, gameId: string, continent: string, codename: string): (o: Outcome)
    ensures !IsInitiator(s, caller) ==> o == Outcome(NotAuthorized, s, None)
    ensures IsInitiator(s, caller) ==>
      && o.code == Ok
      && !o.next.active
      && o.next.gameId == Some(gameId) && o.next.continent == Some(continent) && o.next.codename == Some(codename)
      && o.next == s.(active := false, gameId := o.next.gameId, continent := o.next.continent, codename := o.next.codename)
      && o.channel.Some?
      && o.channel.value.name == ChannelName(gameId, continent, codename)
      && GrantedAccess(o.channel.value.overwrites) == s.optedIn
      && o.channel.value.overwrites == Overwrites(s.optedIn)
      && o.channel.value.mentioned == s.optedIn
  {
    if !IsInitiator(s, caller) then Outcome(NotAuthorized, s, None)
    else
      var stored := s.(gameId := Some(gameId), continent := Some(continent), codename := Some(codename));
      var plan := ChannelPlan(ChannelName(gameId, continent, codename), Overwrites(stored.optedIn), stored.optedIn);
      Outcome(Ok, stored.(active := false), Some(plan))
  }

  /** `cancel_game`: for the initiator, ends the session and leaves every other field as it was. */
  function OnCancelGame(s: State, caller: UserId): (o: Outcome)
    ensures o.channel == None
    ensures !IsInitiator(s, caller) ==> o.code == NotAuthorized && o.next == s
    ensures IsInitiator(s, caller) ==> o.code == Ok && o.next == s.(active := false) && !o.next.active
  {
    if !IsInitiator(s, caller) then Outcome(NotAuthorized, s, None)
    else Outcome(Ok, s.(active := false), None)
  }

  /** One command run to completion. */
  function Step(s: State, cmd: Command): (o: Outcome)
    ensures WithinCapacity(s) ==> WithinCapacity(o.next)
    ensures s.active && o.next.active ==> o.next.initiatorId == s.initiatorId && o.next.channelId == s.channelId
    ensures o.channel.Some? <==> cmd.SetGameId? && o.code == Ok
    ensures o.next != s && !cmd.StartGame? && !cmd.OptIn? && !cmd.OptOut? ==> IsInitiator(s, cmd.caller)
  {
    match cmd
    case StartGame(u, ch) => OnStartGame(s, u, ch)
    case OptIn(u) => OnOptIn(s, u)
    case OptOut(u) => OnOptOut(s, u)
    case FinishOptIn(u) => OnFinishOptIn(s, u)
    case SetGameId(u, g, c, k) => OnSetGameId(s, u, g, c, k)
    case CancelGame(u) => OnCancelGame(s, u)
  }

  /** The record after running the commands one after another. */
  function Final(s: State, cmds: seq<Command>): State
    decreases |cmds|
  {
    if cmds == [] then s else Final(Step(s, cmds[0]).next, cmds[1..])
  }

  /** The result codes of running the commands one after another. */
  function Codes(s: State, cmds: seq<Command>): (r: seq<Code>)
    ensures |r| == |cmds|
    decreases |cmds|
  {
    if cmds == [] then [] else [Step(s, cmds[0]).code] + Codes(Step(s, cmds[0]).next, cmds[1..])
  }

  /** No sequence of commands takes the opted-in set past capacity. */
  lemma {:induction false} CapacityAlwaysHolds(s: State, cmds: seq<Command>)
    requires WithinCapacity(s)
    ensures WithinCapacity(Final(s, cmds))
    decreases |cmds|
  {
    if cmds != [] {
      CapacityAlwaysHolds(Step(s, cmds[0]).next, cmds[1..]);
    }
  }

  /** In particular from the record the process starts with. */
  lemma ReachableWithinCapacity(cmds: seq<Command>)
    ensures |Final(Initial(), cmds).optedIn| <= MaxPlayers
  {
    CapacityAlwaysHolds(Initial(), cmds);
  }

  /**
   * Once no session is active, nothing but a start reactivates one: every
   * opt-in and opt-out is refused with NotActive, and the opted-in and
   * opted-out sets stay as they are.
   */
  lemma {:induction false} InactiveUntilStart(s: State, cmds: seq<Command>)
    requires !s.active
    requires forall i :: 0 <= i < |cmds| ==> !cmds[i].StartGame?
    ensures !Final(s, cmds).active
    ensures Final(s, cmds).optedIn == s.optedIn && Final(s, cmds).optedOut == s.optedOut
    ensures forall i :: 0 <= i < |cmds| && (cmds[i].OptIn? || cmds[i].OptOut?) ==> Codes(s, cmds)[i] == NotActive
    decreases |cmds|
  {
    if cmds != [] {
      var t := Step(s, cmds[0]).next;
      InactiveUntilStart(t, cmds[1..]);
      forall i | 0 <= i < |cmds| && (cmds[i].OptIn? || cmds[i].OptOut?)
        ensures Codes(s, cmds)[i] == NotActive
      {
        if i > 0 {
          assert cmds[1..][i - 1] == cmds[i];
        }
      }
    }
  }

  /** After a successful cancel, opt-in and opt-out are refused until the next start. */
  lemma CancelThenRefused(s: State, u: UserId, cmds: seq<Command>)
    requires IsInitiator(s, u)
    requires forall i :: 0 <= i < |cmds| ==> !cmds[i].StartGame?
    ensures forall i :: 0 <= i < |cmds| && (cmds[i].OptIn? || cmds[i].OptOut?) ==>
      Codes(OnCancelGame(s, u).next, cmds)[i] == NotActive
  {
    InactiveUntilStart(OnCancelGame(s, u).next, cmds);
  }

  /** After a successful finalization, opt-in and opt-out are refused until the next start. */
  lemma FinalizeThenRefused(s: State, u: UserId, gameId: string, continent: string, codename: string, cmds: seq<Command>)
    requires IsInitiator(s, u)
    requires forall i :: 0 <= i < |cmds| ==> !cmds[i].StartGame?
    ensures forall i :: 0 <= i < |cmds| && (cmds[i].OptIn? || cmds[i].OptOut?) ==>
      Codes(OnSetGameId(s, u, gameId, continent, codename).next, cmds)[i] == NotActive
  {
    InactiveUntilStart(OnSetGameId(s, u, gameId, continent, codename).next, cmds);
  }

  /** A run of opt-ins, one per user. */
  function OptIns(users: seq<UserId>): (r: seq<Command>)
    ensures |r| == |users|
    ensures forall i :: 0 <= i < |users| ==> r[i] == OptIn(users[i])
  {
    if users == [] then [] else [OptIn(users[0])] + OptIns(users[1..])
  }

  predicate Distinct(users: seq<UserId>) {
    forall i, j :: 0 <= i < j < |users| ==> users[i] != users[j]
  }

  function Min(a: int, b: int): int {
    if a <= b then a else b
  }

  /** Running a non-empty sequence is running its first command, then the rest. */
  lemma RunCons(s: State, cmds: seq<Command>)
    requires cmds != []
    ensures Final(s, cmds) == Final(Step(s, cmds[0]).next, cmds[1..])
    ensures Codes(s, cmds) == [Step(s, cmds[0]).code] + Codes(Step(s, cmds[0]).next, cmds[1..])
  {
  }

  /** The opt-ins of a non-empty run of users are the first user's, then the rest's. */
  lemma OptInsCons(users: seq<UserId>)
    requires users != []
    ensures OptIns(users)[0] == OptIn(users[0])
    ensures OptIns(users)[1..] == OptIns(users[1..])
  {
  }

  /** The users of a sequence, as a set. */
  function Elems(users: seq<UserId>): set<UserId> {
    set u | u in users
  }

  /**
   * Distinct newcomers opting in to an active session: the first ones
   * join until the session reaches capacity and every later one is
   * refused with Full.
   */
  lemma {:induction false} DistinctOptInsCodes(s: State, users: seq<UserId>)
    requires s.active && WithinCapacity(s)
    requires Distinct(users)
    requires forall i :: 0 <= i < |users| ==> users[i] !in s.optedIn
    ensures forall i :: 0 <= i < |users| ==>
      Codes(s, OptIns(users))[i] == if i < MaxPlayers - |s.optedIn| then Ok else Full
    decreases |users|
  {
    if users != [] {
      FirstOptInRun(s, users);
      RestFresh(s.optedIn, users);
      var o := OnOptIn(s, users[0]);
      if |s.optedIn| < MaxPlayers {
        DistinctOptInsCodes(o.next, users[1..]);
      } else {
        DistinctOptInsCodes(s, users[1..]);
      }
    }
  }

  /**
   * The same run leaves the session active with exactly the accepted
   * users added, the first ones up to capacity, and nothing else changed.
   */
  lemma {:induction false} DistinctOptInsFinal(s: State, users: seq<UserId>)
    requires s.active && WithinCapacity(s)
    requires Distinct(users)
    requires forall i :: 0 <= i < |users| ==> users[i] !in s.optedIn
    ensures var k := Min(|users|, MaxPlayers - |s.optedIn|);
      && Final(s, OptIns(users)) == s.(optedIn := s.optedIn + Elems(users[..k]))
      && |Final(s, OptIns(users)).optedIn| == |s.optedIn| + k
    decreases |users|, 1
  {
    if users == [] {
      assert Elems(users[..0]) == {};
    } else if |s.optedIn| < MaxPlayers {
      FirstJoins(s, users);
    } else {
      AllRefused(s, users);
    }
  }

  /** The inductive step of DistinctOptInsFinal when there is room: the first user joins. */
  lemma {:induction false} FirstJoins(s: State, users: seq<UserId>)
    requires s.active && |s.optedIn| < MaxPlayers
    requires users != [] && Distinct(users)
    requires forall i :: 0 <= i < |users| ==> users[i] !in s.optedIn
    ensures var k := Min(|users|, MaxPlayers - |s.optedIn|);
      && Final(s, OptIns(users)) == s.(optedIn := s.optedIn + Elems(users[..k]))
      && |Final(s, OptIns(users)).optedIn| == |s.optedIn| + k
    decreases |users|, 0
  {
    var k := Min(|users|, MaxPlayers - |s.optedIn|);
    RestFresh(s.optedIn, users);
    var t := s.(optedIn := s.optedIn + {users[0]});
    FirstOptInRun(s, users);
    DistinctOptInsFinal(t, users[1..]);
    ElemsPrefix(users, k);
  }

  /** The inductive step of DistinctOptInsFinal when the session is full: nobody joins. */
  lemma {:induction false} AllRefused(s: State, users: seq<UserId>)
    requires s.active && |s.optedIn| == MaxPlayers
    requires users != [] && Distinct(users)
    requires forall i :: 0 <= i < |users| ==> users[i] !in s.optedIn
    ensures Final(s, OptIns(users)) == s
    ensures Elems(users[..0]) == {}
    decreases |users|, 0
  {
    RestFresh(s.optedIn, users);
    FirstOptInRun(s, users);
    DistinctOptInsFinal(s, users[1..]);
    assert Elems(users[1..][..0]) == {};
  }

  /** Running the opt-ins of a non-empty run of users: the first user's opt-in, then the rest's. */
  lemma FirstOptInRun(s: State, users: seq<UserId>)
    requires users != []
    ensures Final(s, OptIns(users)) == Final(OnOptIn(s, users[0]).next, OptIns(users[1..]))
    ensures Codes(s, OptIns(users)) == [OnOptIn(s, users[0]).code] + Codes(OnOptIn(s, users[0]).next, OptIns(users[1..]))
  {
    OptInsCons(users);
    RunCons(s, OptIns(users));
  }

  /** The first k users are the first one and the first k - 1 of the rest. */
  lemma ElemsPrefix(users: seq<UserId>, k: nat)
    requires 1 <= k <= |users|
    ensures Elems(users[..k]) == {users[0]} + Elems(users[1..][..k - 1])
  {
    assert users[..k] == [users[0]] + users[1..][..k - 1];
  }

  /** The users after the first are distinct and new to the set with the first added. */
  lemma RestFresh(optedIn: set<UserId>, users: seq<UserId>)
    requires users != [] && Distinct(users)
    requires forall i :: 0 <= i < |users| ==> users[i] !in optedIn
    ensures Distinct(users[1..])
    ensures forall i :: 0 <= i < |users| - 1 ==> users[1..][i] !in optedIn + {users[0]}
    ensures users[0] !in optedIn
    ensures |optedIn + {users[0]}| == |optedIn| + 1
  {
    var rest := users[1..];
    assert forall i :: 0 <= i < |rest| ==> rest[i] == users[i + 1];
  }

  /** A fresh session fills up after five distinct users; the sixth is refused with Full. */
  lemma SixthDistinctOptInIsFull(s: State, initiator: UserId, channel: ChannelId, users: seq<UserId>)
    requires !s.active
    requires |users| == 6 && Distinct(users)
    ensures Codes(OnStartGame(s, initiator, channel).next, OptIns(users))
         == [Ok, Ok, Ok, Ok, Ok, Full]
    ensures |Final(OnStartGame(s, initiator, channel).next, OptIns(users)).optedIn| == MaxPlayers
  {
    var t := OnStartGame(s, initiator, channel).next;
    DistinctOptInsCodes(t, users);
    DistinctOptInsFinal(t, users);
  }

  /** Start, two opt-ins and the finalization of "2053", "Europe", "Eagle". */
  lemma FinalizeScenario(u1: UserId, u2: UserId, u3: UserId, c1: ChannelId)
    requires u2 != u3
    ensures var s1 := OnStartGame(Initial(), u1, c1).next;
      var s2 := OnOptIn(s1, u2).next;
      var s3 := OnOptIn(s2, u3).next;
      var o := OnSetGameId(s3, u1, "2053", "Europe", "Eagle");
      && o.code == Ok
      && !o.next.active
      && o.channel.Some?
      && o.channel.value.name == "gm53-europe-eagle"
      && GrantedAccess(o.channel.value.overwrites) == {u2, u3}
  {
    ChannelNameExample();
  }

  /** Start, a cancel by someone else (refused), then the initiator's cancel. */
  lemma CancelScenario(u1: UserId, u2: UserId, c1: ChannelId)
    requires u1 != u2
    ensures var s1 := OnStartGame(Initial(), u1, c1).next;
      && OnCancelGame(s1, u2) == Outcome(NotAuthorized, s1, None)
      && OnCancelGame(s1, u1).code == Ok
      && !OnCancelGame(s1, u1).next.active
  {
  }

  /** Before anyone starts a session, every privileged command is refused and changes nothing. */
  lemma PrivilegedRefusedBeforeFirstStart(cmd: Command)
    requires cmd.FinishOptIn? || cmd.SetGameId? || cmd.CancelGame?
    ensures Step(Initial(), cmd).code == NotAuthorized
    ensures Step(Initial(), cmd).next == Initial()
  {
  }
}
