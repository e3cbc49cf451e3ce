/**
 * game.js: the lifecycle every scripted game shares — a signups/started
 * state and an ordered, duplicate-free list of players changed by join,
 * leave and start.
 */
module Games {
  import opened Wrappers
  import opened Utils
  import opened OrderedMaps

  datatype GameState = Signups | Started

  /** How userJoin ends: a refusal notice, an "already a player" notice, or a join (which may start the game). */
  datatype JoinOutcome = Refused | AlreadyPlaying | Joined(startedNow: bool)

  /** How userLeave ends. */
  datatype LeaveOutcome = FreeJoinNotice | NotPlaying | Left

  /** Array.prototype.findIndex for equality. */
  function IndexOf<T(==)>(s: seq<T>, x: T): (i: int)
    ensures -1 <= i < |s|
    ensures i >= 0 ==> s[i] == x && forall j :: 0 <= j < i ==> s[j] != x
    ensures i < 0 <==> x !in s
  {
    if s == [] then -1
    else if s[0] == x then 0
    else
      var j := IndexOf(s[1..], x);
      if j < 0 then -1 else j + 1
  }

  /** splice(i, 1) */
  function RemoveAt<T>(s: seq<T>, i: nat): seq<T>
    requires i < |s|
  {
    s[..i] + s[i + 1..]
  }

  /** The players after userLeave as written: the guard `playerIndex <= 0` also turns away the first player. */
  function LeaveAsWritten(players: seq<string>, userid: string): Option<seq<string>> {
    var i := IndexOf(players, userid);
    if i <= 0 then None else Some(RemoveAt(players, i))
  }

  /** The players after userLeave with the guard meant: only a user who is not playing is turned away. */
  function Leave(players: seq<string>, userid: string): Option<seq<string>> {
    var i := IndexOf(players, userid);
    if i < 0 then None else Some(RemoveAt(players, i))
  }

  /** `options.host || toId(config.username)`: an absent or empty host falls back to the bot. */
  function HostOf(optionsHost: Option<string>, username: string): (host: string)
    ensures ToId(username) != "" ==> host != ""
  {
    if optionsHost.Some? && optionsHost.value != "" then optionsHost.value else ToId(username)
  }

  /** An empty host option counts as none: the bot hosts. */
  lemma HostFallsBackToBot(username: string)
    ensures HostOf(Some(""), username) == HostOf(None, username) == ToId(username)
  {
  }

  class GameBase {
    const room: string
    var players: seq<string>
    var roundNumber: nat
    var freeJoin: bool
    var currentState: GameState
    var host: string
    /** `maxPlayers`, which a game may set; 0 stands for unset. */
    var maxPlayers: nat

    ghost predicate Valid()
      reads this
    {
      Distinct(players)
    }

    constructor (room: string, optionsHost: Option<string>, username: string)
      ensures Valid()
      ensures this.room == room && players == [] && roundNumber == 0
      ensures freeJoin && currentState == Signups && maxPlayers == 0
      ensures host == HostOf(optionsHost, username)
    {
      this.room := room;
      players := [];
      roundNumber := 0;
      freeJoin := true;
      currentState := Signups;
      host := HostOf(optionsHost, username);
      maxPlayers := 0;
    }

    /** The `started` getter. */
    predicate HasStarted()
      reads this
    {
      currentState == Started
    }

    /** signups: a free-join game starts at once; any other stays in signups. */
    method OpenSignups()
      modifies this
      ensures currentState == if old(freeJoin) then Started else old(currentState)
      ensures players == old(players) && freeJoin == old(freeJoin) && host == old(host)
      ensures roundNumber == old(roundNumber) && maxPlayers == old(maxPlayers)
    {
      if freeJoin {
        currentState := Started;
      }
    }

    /** start: a no-op once started; reports whether it started the game now. */
    method Start() returns (startedNow: bool)
      modifies this
      ensures startedNow == (old(currentState) != Started)
      ensures currentState == Started
      ensures players == old(players) && freeJoin == old(freeJoin) && host == old(host)
      ensures roundNumber == old(roundNumber) && maxPlayers == old(maxPlayers)
    {
      if currentState == Started {
        return false;
      }
      currentState := Started;
      startedNow := true;
    }

    /**
     * userJoin: refused once a closed game has started, or for a current
     * player; otherwise the user goes last, and a game that reaches a set
     * maxPlayers starts.
     */
    method UserJoin(userid: string) returns (outcome: JoinOutcome)
      requires Valid()
      modifies this
      ensures Valid()
      ensures !old(freeJoin) && old(currentState) == Started ==> outcome == Refused
      ensures !(!old(freeJoin) && old(currentState) == Started) && userid in old(players) ==> outcome == AlreadyPlaying
      ensures !outcome.Joined? ==> players == old(players) && currentState == old(currentState)
      ensures outcome.Joined? <==> (old(freeJoin) || old(currentState) != Started) && userid !in old(players)
      ensures outcome.Joined? ==> players == old(players) + [userid]
      ensures outcome.Joined? ==>
        var reached := maxPlayers > 0 && |players| >= maxPlayers;
        && currentState == (if reached then Started else old(currentState))
        && outcome.startedNow == (reached && old(currentState) != Started)
      ensures freeJoin == old(freeJoin) && host == old(host)
      ensures roundNumber == old(roundNumber) && maxPlayers == old(maxPlayers)
    {
      if !freeJoin && currentState == Started {
        return Refused;
      }
      if userid in players {
        return AlreadyPlaying;
      }
      players := players + [userid];
      var startedNow := false;
      if maxPlayers > 0 && |players| >= maxPlayers {
        startedNow := Start();
      }
      outcome := Joined(startedNow);
    }

    /** userLeave, with the guard meant (see LeaveAsWritten): a closed game drops exactly that player. */
    method UserLeave(userid: string) returns (outcome: LeaveOutcome)
      requires Valid()
      modifies this
      ensures Valid()
      ensures old(freeJoin) ==> outcome == FreeJoinNotice && players == old(players)
      ensures !old(freeJoin) ==>
        var r := Leave(old(players), userid);
        && (r.None? ==> outcome == NotPlaying && players == old(players))
        && (r.Some? ==> outcome == Left && players == r.value)
      ensures currentState == old(currentState) && freeJoin == old(freeJoin) && host == old(host)
      ensures roundNumber == old(roundNumber) && maxPlayers == old(maxPlayers)
    {
      if freeJoin {
        return FreeJoinNotice;
      }
      var playerIndex := IndexOf(players, userid);
      if playerIndex < 0 {
        return NotPlaying;
      }
      LeaveRemovesExactly(players, userid);
      players := players[..playerIndex] + players[playerIndex + 1..];
      outcome := Left;
    }

    /** end: announces a forced end; the state and the players stay as they are. */
    method End(forced: bool) returns (announced: bool)
      ensures announced == forced
    {
      announced := forced;
    }
  }

  /**
   * The guard as written turns the first player away: they can never leave,
   * while with the guard meant they leave and the rest stay in order.
   */
  lemma {:induction false} FirstPlayerCannotLeaveAsWritten(players: seq<string>)
    requires players != []
    ensures LeaveAsWritten(players, players[0]) == None
    ensures Leave(players, players[0]) == Some(players[1..])
  {
    assert IndexOf(players, players[0]) == 0;
    assert players[..0] + players[1..] == players[1..];
  }

  /** Below the first position the two guards agree. */
  lemma {:induction false} LeaveAgreesPastFirst(players: seq<string>, userid: string)
    requires players == [] || players[0] != userid
    ensures LeaveAsWritten(players, userid) == Leave(players, userid)
  {
    if players != [] {
      assert IndexOf(players, userid) != 0;
    }
  }

  /**
   * A successful leave removes exactly the leaving user: the others stay,
   * in their order, and the list stays duplicate-free.
   */
  lemma {:induction false} LeaveRemovesExactly(players: seq<string>, userid: string)
    requires Distinct(players)
    ensures Leave(players, userid).Some? <==> userid in players
    ensures Leave(players, userid).Some? ==>
      var r := Leave(players, userid).value;
      && |r| == |players| - 1
      && userid !in r
      && Distinct(r)
      && (forall x :: x != userid ==> (x in r <==> x in players))
      && r == players[..IndexOf(players, userid)] + players[IndexOf(players, userid) + 1..]
  {
    var i := IndexOf(players, userid);
    if i >= 0 {
      var r := RemoveAt(players, i);
      assert forall j :: 0 <= j < |r| ==> r[j] == if j < i then players[j] else players[j + 1];
      forall x | x != userid && x in players
        ensures x in r
      {
        var j :| 0 <= j < |players| && players[j] == x;
        assert r[if j < i then j else j - 1] == x;
      }
    }
  }

  /** Joining keeps the players duplicate-free and puts the newcomer last. */
  lemma {:induction false} JoinAppends(players: seq<string>, userid: string)
    requires Distinct(players) && userid !in players
    ensures Distinct(players + [userid])
    ensures (players + [userid])[..|players|] == players && (players + [userid])[|players|] == userid
  {
  }
}
