/**
 * plugins/hemingway.js: the Ernest Hemingway round machine. A round opens
 * submissions of three to six words, closes them when every active player
 * is accounted for (or the topic timer fires), numbers the entries, takes
 * votes and pays the most-voted entries in quills.
 *
 * The class keeps the source's fields; `Snapshot` gathers the ones a round
 * changes into a `Round` value, and each method is proved against a
 * transition function on `Round`, about which the lemmas below speak.
 */
module HemingwayGame {
  import opened Wrappers
  import opened JsText
  import opened OrderedMaps
  import opened Games
  import Q = QuillLedger

  const RoundPrize := 10
  const MinWords := 3
  const MaxWords := 6

  /** The reply a command gets; `Recorded` is the success message. */
  datatype Reply =
    | CannotJoin          // a closed game turns a newcomer away
    | SubmissionsClosed
    | VotingClosed
    | HasPassed
    | WrongLength
    | InvalidNumber
    | InactiveTarget
    | NoEntry
    | SelfVote
    | Recorded

  /** The part of the game's state a round changes, players included. */
  datatype Round = Round(
    players: seq<string>,
    freeJoin: bool,
    submissionsOpen: bool,
    votingOpen: bool,
    submissions: seq<(string, string)>,
    votableUsers: map<int, string>,
    votes: seq<(string, int)>,
    accountability: set<string>,
    passed: set<string>)

  /** What the round keeps true: no duplicate player, entry or tally, and only players accounted for or passed. */
  ghost predicate RoundInv(r: Round) {
    && Distinct(r.players)
    && KeysDistinct(r.submissions)
    && KeysDistinct(r.votes)
    && (forall u :: u in r.accountability ==> u in r.players)
    && (forall u :: u in r.passed ==> u in r.players)
  }

  // ---------------------------------------------------------------------
  // Text handling of submit and vote
  // ---------------------------------------------------------------------

  /** The number of leading copies of `c`. */
  function LeadingRun(s: string, c: char): (n: nat)
    ensures n <= |s|
    ensures forall i :: 0 <= i < n ==> s[i] == c
    ensures n < |s| ==> s[n] != c
  {
    if s != [] && s[0] == c then 1 + LeadingRun(s[1..], c) else 0
  }

  /** The number of trailing copies of `c`. */
  function TrailingRun(s: string, c: char): (n: nat)
    ensures n <= |s|
    ensures forall i :: |s| - n <= i < |s| ==> s[i] == c
    ensures n < |s| ==> s[|s| - 1 - n] != c
  {
    if s != [] && s[|s| - 1] == c then 1 + TrailingRun(s[..|s| - 1], c) else 0
  }

  /**
   * message.replace(/^\[*([^\]]+)\]*$/, '$1'): brackets around an entry are
   * dropped. A text of brackets only keeps one '[' (the group must take a
   * character), and a text with a ']' before its end does not match.
   */
  function StripSubmission(s: string): string {
    var a := LeadingRun(s, '[');
    var rest := s[a..];
    var b := TrailingRun(rest, ']');
    var mid := rest[..|rest| - b];
    if mid != [] && ']' !in mid then mid
    else if mid == [] && a > 0 then "["
    else s
  }

  /** message.replace(/^\[([^\]]+)\]$/, '$1'): one pair of brackets around a vote is dropped. */
  function StripVote(s: string): string {
    if |s| >= 3 && s[0] == '[' && s[|s| - 1] == ']' && ']' !in s[1..|s| - 1] then s[1..|s| - 1] else s
  }

  /** message.split(' ').length */
  function WordCount(s: string): nat {
    |Split(s, ' ')|
  }

  // ---------------------------------------------------------------------
  // The round as values
  // ---------------------------------------------------------------------

  /** canParticipate meant for the acting user: a free-join game lets a newcomer in at the end. */
  function Participate(r: Round, userid: string): (bool, Round) {
    if userid in r.players then (true, r)
    else if !r.freeJoin then (false, r)
    else (true, r.(players := r.players + [userid]))
  }

  /**
   * canParticipate as called: the one argument lands in `type`, so `userid`
   * is undefined (None). The acting user is never checked or added, and a
   * free-join game gains one undefined player instead.
   */
  function ParticipateAsWritten(players: seq<Option<string>>, freeJoin: bool): (bool, seq<Option<string>>) {
    if None in players then (true, players)
    else if !freeJoin then (false, players)
    else (true, players + [None])
  }

  /** The players the allHaveSubmitted getter counts: those who have not passed. */
  function Pending(players: seq<string>, passed: set<string>): seq<string> {
    if players == [] then []
    else
      var last := players[|players| - 1];
      Pending(players[..|players| - 1], passed) + (if last in passed then [] else [last])
  }

  /** The allHaveSubmitted getter. */
  predicate AllHave(r: Round) {
    |r.accountability| == |Pending(r.players, r.passed)|
  }

  /** Submission i (from 1) goes to the i-th submitter in insertion order. */
  function Numbering(submissions: seq<(string, string)>): map<int, string> {
    if submissions == [] then map[]
    else Numbering(submissions[..|submissions| - 1])[|submissions| := submissions[|submissions| - 1].0]
  }

  /** setupRound */
  function SetupRoundSpec(r: Round): Round {
    r.(submissionsOpen := true, votingOpen := false, submissions := [], accountability := {},
       votes := [], passed := {}, votableUsers := map[])
  }

  /** openVoting(): number the entries, clear accountability, close submissions, open voting. */
  function OpenVotingSpec(r: Round): Round {
    r.(votableUsers := r.votableUsers + Numbering(r.submissions), accountability := {},
       submissionsOpen := false, votingOpen := true)
  }

  /** Once a round step has recorded something, voting opens if everyone is accounted for. */
  function Settle(r: Round): Round {
    if AllHave(r) then OpenVotingSpec(r) else r
  }

  /** submit, from the point where the user takes part. */
  function SubmitEntry(r: Round, userid: string, message: string): (Reply, Round) {
    if !r.submissionsOpen then (SubmissionsClosed, r)
    else if userid in r.passed then (HasPassed, r)
    else
      var text := Trim(message);
      if WordCount(text) < MinWords || WordCount(text) > MaxWords then (WrongLength, r)
      else (Recorded, Settle(SubmitRecord(r, userid, StripSubmission(text))))
  }

  /** The entry stored under the submitter, who is then accounted for. */
  function SubmitRecord(r: Round, userid: string, entry: string): Round {
    r.(submissions := Put(r.submissions, userid, entry), accountability := r.accountability + {userid})
  }

  function SubmitSpec(r: Round, userid: string, message: string): (Reply, Round) {
    var (ok, r1) := Participate(r, userid);
    if !ok then (CannotJoin, r1) else SubmitEntry(r1, userid, message)
  }

  /** pass, from the point where the user takes part: the user sits the round out and loses any entry; accountability is left as it is. */
  function PassEntry(r: Round, userid: string): (Reply, Round) {
    if !r.submissionsOpen then (SubmissionsClosed, r)
    else (Recorded, Settle(PassRecord(r, userid)))
  }

  /** The user marked as passed, their entry dropped. */
  function PassRecord(r: Round, userid: string): Round {
    r.(passed := r.passed + {userid}, submissions := Remove(r.submissions, userid))
  }

  function PassSpec(r: Round, userid: string): (Reply, Round) {
    var (ok, r1) := Participate(r, userid);
    if !ok then (CannotJoin, r1) else PassEntry(r1, userid)
  }

  /** The target a vote names, or the reply that refuses it. */
  function VoteTarget(r: Round, userid: string, message: string): Result<string, Reply> {
    if !r.votingOpen then Failure(VotingClosed)
    else if userid in r.passed then Failure(HasPassed)
    else
      var n := ParseInt(StripVote(message));
      if n.None? || n.value !in r.votableUsers then Failure(InvalidNumber)
      else
        var target := r.votableUsers[n.value];
        if target !in r.players then Failure(InactiveTarget)
        else if !HasKey(r.submissions, target) then Failure(NoEntry)
        else if target == userid then Failure(SelfVote)
        else Success(target)
  }

  /** The tally of a user so far: `votes.get(target) || 0`. */
  function TallyOf(votes: seq<(string, int)>, userid: string): int {
    var t := Get(votes, userid);
    if t.Some? && t.value != 0 then t.value else 0
  }

  /** vote, from the point where the user takes part; the bool says the votes are then tallied. */
  function VoteEntry(r: Round, userid: string, message: string): (Reply, Round, bool) {
    var t := VoteTarget(r, userid, message);
    if t.Failure? then (t.error, r, false)
    else
      var r2 := CountVote(r, userid, t.value);
      (Recorded, r2, AllHave(r2))
  }

  /** One more vote for `target`, and the voter accounted for. */
  function CountVote(r: Round, userid: string, target: string): Round {
    r.(votes := Put(r.votes, target, TallyOf(r.votes, target) + 1), accountability := r.accountability + {userid})
  }

  /** vote: one more vote for the target and the voter accounted for. */
  function VoteSpec(r: Round, userid: string, message: string): (Reply, Round, bool) {
    var (ok, r1) := Participate(r, userid);
    if !ok then (CannotJoin, r1, false) else VoteEntry(r1, userid, message)
  }

  /** The players who never got accounted for. */
  function Inactive(r: Round): set<string> {
    set p | p in r.players && p !in r.accountability
  }

  /** The topic timer: while submissions are open, the inactive players pass and voting opens. */
  function TopicTimeoutSpec(r: Round): Round {
    if r.submissionsOpen then OpenVotingSpec(r.(passed := r.passed + Inactive(r))) else r
  }

  // ---------------------------------------------------------------------
  // Tallying
  // ---------------------------------------------------------------------

  function MaxTally(votes: seq<(string, int)>): (m: int)
    requires votes != []
    ensures forall i :: 0 <= i < |votes| ==> votes[i].1 <= m
    ensures exists i :: 0 <= i < |votes| && votes[i].1 == m
  {
    if |votes| == 1 then votes[0].1
    else
      var m := MaxTally(votes[..|votes| - 1]);
      var last := votes[|votes| - 1].1;
      assert forall i :: 0 <= i < |votes| - 1 ==> votes[i] == votes[..|votes| - 1][i];
      if last > m then last else m
  }

  /** The users whose tally is `m`, in insertion order. */
  function WithTally(votes: seq<(string, int)>, m: int): seq<string> {
    if votes == [] then []
    else
      var last := votes[|votes| - 1];
      WithTally(votes[..|votes| - 1], m) + (if last.1 == m then [last.0] else [])
  }

  /**
   * The entries the stable descending sort puts first and the filter keeps:
   * the most-voted users, in insertion order. The first of them is votes[0].
   */
  function Tied(votes: seq<(string, int)>): seq<string>
    requires votes != []
  {
    WithTally(votes, MaxTally(votes))
  }

  /** Who parseVotes pays as written: each tied player, then the first of them again as the winner. */
  function PayoutsAsWritten(tied: seq<string>): seq<string>
    requires tied != []
  {
    if |tied| > 1 then tied + [tied[0]] else [tied[0]]
  }

  /** Who parseVotes is meant to pay: each most-voted player once. */
  function Payouts(tied: seq<string>): seq<string> {
    tied
  }

  datatype TallyError = NoVotes  // votes[0] is undefined: a TypeError

  class Hemingway {
    const game: GameBase
    var submissionsOpen: bool
    var votingOpen: bool
    /** Set by the constructor and read only by `check`; the round logic uses `votingOpen`. */
    var votesOpen: bool
    var submissions: seq<(string, string)>
    var votableUsers: map<int, string>
    var votes: seq<(string, int)>
    var accountability: set<string>
    var passed: set<string>
    var roundTopic: Option<string>

    ghost predicate Valid()
      reads this, game
    {
      game.Valid() && game.maxPlayers == 0 && !votesOpen && RoundInv(Snapshot())
    }

    function Snapshot(): Round
      reads this, game
    {
      Round(game.players, game.freeJoin, submissionsOpen, votingOpen, submissions, votableUsers,
            votes, accountability, passed)
    }

    /** What no round command changes. */
    twostate predicate Kept()
      reads this, game
    {
      && game.currentState == old(game.currentState) && game.host == old(game.host)
      && game.roundNumber == old(game.roundNumber) && game.maxPlayers == old(game.maxPlayers)
      && roundTopic == old(roundTopic) && votesOpen == old(votesOpen)
    }

    constructor (game: GameBase)
      requires game.Valid() && game.maxPlayers == 0
      ensures this.game == game && Valid()
      ensures Snapshot() == Round(game.players, game.freeJoin, false, false, [], map[], [], {}, {})
      ensures roundTopic == None && !votesOpen
    {
      this.game := game;
      submissionsOpen := false;
      votingOpen := false;
      votesOpen := false;
      submissions := [];
      votableUsers := map[];
      votes := [];
      accountability := {};
      passed := {};
      roundTopic := None;
    }

    /** canParticipate for the acting user (see ParticipateAsWritten for the call as written). */
    method CanParticipate(userid: string) returns (ok: bool)
      requires Valid()
      modifies game
      ensures Valid() && Kept()
      ensures (ok, Snapshot()) == Participate(old(Snapshot()), userid)
    {
      ok := true;
      if userid !in game.players {
        if !game.freeJoin {
          return false;
        }
        var _ := game.UserJoin(userid);
      }
    }

    /** The allHaveSubmitted getter. */
    function AllHaveSubmitted(): bool
      reads this, game
    {
      |accountability| == |Pending(game.players, passed)|
    }

    method SetupRound()
      requires Valid()
      modifies this
      ensures Valid() && Kept()
      ensures Snapshot() == SetupRoundSpec(old(Snapshot()))
    {
      submissionsOpen := true;
      votingOpen := false;
      submissions := [];
      accountability := {};
      votes := [];
      passed := {};
      votableUsers := map[];
    }

    /** openVoting(fromCommand): only the plain call changes the round. */
    method OpenVoting(fromCommand: bool)
      requires Valid()
      modifies this
      ensures Valid() && Kept()
      ensures Snapshot() == if fromCommand then old(Snapshot()) else OpenVotingSpec(old(Snapshot()))
    {
      var numbered := votableUsers;
      for i := 0 to |submissions|
        invariant numbered == votableUsers + Numbering(submissions[..i])
      {
        assert submissions[..i + 1][..i] == submissions[..i];
        numbered := numbered[i + 1 := submissions[i].0];
      }
      assert submissions[..|submissions|] == submissions;
      if fromCommand {
        return;
      }
      votableUsers := numbered;
      accountability := {};
      submissionsOpen := false;
      votingOpen := true;
    }

    method Submit(userid: string, message: string) returns (reply: Reply)
      requires Valid()
      modifies this, game
      ensures Valid() && Kept()
      ensures (reply, Snapshot()) == SubmitSpec(old(Snapshot()), userid, message)
    {
      var ok := CanParticipate(userid);
      if !ok {
        return CannotJoin;
      }
      ghost var r1 := Snapshot();
      assert SubmitSpec(old(Snapshot()), userid, message) == SubmitEntry(r1, userid, message);
      if !submissionsOpen {
        return SubmissionsClosed;
      }
      if userid in passed {
        return HasPassed;
      }
      var text := Trim(message);
      var words := WordCount(text);
      if words < MinWords || words > MaxWords {
        return WrongLength;
      }
      var entry := StripSubmission(text);
      RecordingKeepsInvariant(r1, userid, entry);
      submissions := Put(submissions, userid, entry);
      accountability := accountability + {userid};
      assert Snapshot() == SubmitRecord(r1, userid, entry);
      reply := Recorded;
      if AllHaveSubmitted() {
        OpenVoting(false);
      }
    }

    method Pass(userid: string) returns (reply: Reply)
      requires Valid()
      modifies this, game
      ensures Valid() && Kept()
      ensures (reply, Snapshot()) == PassSpec(old(Snapshot()), userid)
    {
      var ok := CanParticipate(userid);
      if !ok {
        return CannotJoin;
      }
      ghost var r1 := Snapshot();
      assert PassSpec(old(Snapshot()), userid) == PassEntry(r1, userid);
      if !submissionsOpen {
        return SubmissionsClosed;
      }
      RecordPass(userid);
      reply := Recorded;
      if AllHaveSubmitted() {
        OpenVoting(false);
      }
    }

    /** The recording half of pass. */
    method RecordPass(userid: string)
      requires Valid() && userid in game.players
      modifies this
      ensures Valid() && Kept()
      ensures Snapshot() == PassRecord(old(Snapshot()), userid)
    {
      ghost var r2 := PassRecord(Snapshot(), userid);
      RecordingKeepsInvariant(Snapshot(), userid, "");
      var remaining := submissions;
      if HasKey(submissions, userid) {
        remaining := Remove(submissions, userid);
      }
      assert remaining == r2.submissions;
      passed := passed + {userid};
      submissions := remaining;
      assert Snapshot() == r2;
    }

    /** vote; when everyone is accounted for afterwards the votes are tallied into the ledger. */
    method Vote(userid: string, message: string, ledger: Q.Quills) returns (reply: Reply, paid: seq<string>)
      requires Valid() && ledger.Valid()
      modifies this, game, ledger
      ensures Valid() && Kept() && ledger.Valid() && ledger.shop == old(ledger.shop)
      ensures reply == VoteSpec(old(Snapshot()), userid, message).0
      ensures Snapshot() == VoteSpec(old(Snapshot()), userid, message).1
      ensures paid == if VoteSpec(old(Snapshot()), userid, message).2 then Payouts(Tied(votes)) else []
      ensures ledger.accounts == Q.CreditedAll(old(ledger.accounts), paid, RoundPrize)
    {
      paid := [];
      var ok := CanParticipate(userid);
      if !ok {
        return CannotJoin, [];
      }
      ghost var r1 := Snapshot();
      assert VoteSpec(old(Snapshot()), userid, message) == VoteEntry(r1, userid, message);
      var checked := CheckVote(userid, message);
      if checked.Failure? {
        return checked.error, [];
      }
      var target := checked.value;
      assert VoteEntry(r1, userid, message) == (Recorded, CountVote(r1, userid, target), AllHave(CountVote(r1, userid, target)));
      reply := Recorded;
      paid := Count(userid, target, ledger);
    }

    /** The end of vote: count the vote, account for the voter and, once everyone is accounted for, tally. */
    method Count(userid: string, target: string, ledger: Q.Quills) returns (paid: seq<string>)
      requires Valid() && ledger.Valid() && userid in game.players
      modifies this, ledger
      ensures Valid() && Kept() && ledger.Valid() && ledger.shop == old(ledger.shop)
      ensures Snapshot() == CountVote(old(Snapshot()), userid, target)
      ensures paid == if AllHave(Snapshot()) then Payouts(Tied(votes)) else []
      ensures ledger.accounts == Q.CreditedAll(old(ledger.accounts), paid, RoundPrize)
    {
      VoteKeepsInvariant(Snapshot(), userid, target);
      var tally := TallyOf(votes, target);
      votes := Put(votes, target, tally + 1);
      accountability := accountability + {userid};
      assert Snapshot() == CountVote(old(Snapshot()), userid, target);
      paid := [];
      if AllHaveSubmitted() {
        var result := ParseVotes(ledger);
        paid := result.value;
      }
    }

    /** The checks vote makes before it counts anything: the target, or the reply that refuses the vote. */
    method CheckVote(userid: string, message: string) returns (checked: Result<string, Reply>)
      ensures checked == VoteTarget(Snapshot(), userid, message)
      ensures checked.Success? ==> checked.value != userid && checked.value in game.players && HasKey(submissions, checked.value)
    {
      if !votingOpen {
        return Failure(VotingClosed);
      }
      if userid in passed {
        return Failure(HasPassed);
      }
      var n := ParseInt(StripVote(message));
      if n.None? || n.value !in votableUsers {
        return Failure(InvalidNumber);
      }
      var target := votableUsers[n.value];
      if target !in game.players {
        return Failure(InactiveTarget);
      }
      if !HasKey(submissions, target) {
        return Failure(NoEntry);
      }
      if target == userid {
        return Failure(SelfVote);
      }
      checked := Success(target);
    }

    /** parseVotes: pay the most-voted players; with no votes at all it fails on votes[0]. */
    method ParseVotes(ledger: Q.Quills) returns (result: Result<seq<string>, TallyError>)
      requires ledger.Valid()
      modifies ledger
      ensures ledger.Valid() && ledger.shop == old(ledger.shop)
      ensures votes == [] ==> result == Failure(NoVotes) && ledger.accounts == old(ledger.accounts)
      ensures votes != [] ==> result == Success(Payouts(Tied(votes)))
      ensures result.Success? ==> ledger.accounts == Q.CreditedAll(old(ledger.accounts), result.value, RoundPrize)
    {
      if votes == [] {
        return Failure(NoVotes);
      }
      var tied := Tally();
      var payouts := Payouts(tied);
      for i := 0 to |payouts|
        invariant ledger.Valid() && ledger.shop == old(ledger.shop)
        invariant ledger.accounts == Q.CreditedAll(old(ledger.accounts), payouts[..i], RoundPrize)
      {
        assert payouts[..i + 1][..i] == payouts[..i];
        var _ := ledger.AddQuills(payouts[i], RoundPrize);
      }
      assert payouts[..|payouts|] == payouts;
      result := Success(payouts);
    }

    /** The sort and filter of parseVotes: the users sharing the highest tally, in insertion order. */
    method Tally() returns (tied: seq<string>)
      requires votes != []
      ensures tied == Tied(votes)
    {
      var best := votes[0].1;
      for i := 1 to |votes|
        invariant best == MaxTally(votes[..i])
      {
        assert votes[..i + 1][..i] == votes[..i];
        if votes[i].1 > best {
          best := votes[i].1;
        }
      }
      assert votes[..|votes|] == votes;
      tied := [];
      for i := 0 to |votes|
        invariant tied == WithTally(votes[..i], best)
      {
        assert votes[..i + 1][..i] == votes[..i];
        if votes[i].1 == best {
          tied := tied + [votes[i].0];
        }
      }
      assert votes[..|votes|] == votes;
    }

    /** The body of the topic timer. */
    method TopicTimeout()
      requires Valid()
      modifies this
      ensures Valid() && Kept()
      ensures Snapshot() == TopicTimeoutSpec(old(Snapshot()))
    {
      if submissionsOpen {
        var inactive: set<string> := {};
        for i := 0 to |game.players|
          invariant inactive == set p | p in game.players[..i] && p !in accountability
        {
          assert forall p :: p in game.players[..i + 1] <==> p in game.players[..i] || p == game.players[i];
          if game.players[i] !in accountability {
            inactive := inactive + {game.players[i]};
          }
        }
        assert game.players[..|game.players|] == game.players;
        passed := passed + inactive;
        OpenVoting(false);
      }
    }

    /** The `topic` command once its guard has passed: the topic is set and a round begins. */
    method Topic(message: string)
      requires Valid()
      modifies this
      ensures Valid()
      ensures roundTopic == Some(message)
      ensures Snapshot() == SetupRoundSpec(old(Snapshot()))
    {
      roundTopic := Some(message);
      SetupRound();
    }
  }

  // ---------------------------------------------------------------------
  // Command guards
  // ---------------------------------------------------------------------

  datatype Route = NotDispatched | NoGame | PmOnly | Denied | Dispatch(command: string)

  /** ehcommand: reached only through its aliases; submit and vote must come by PM. */
  function EhCommand(command: string, gameExists: bool, roomid: string): (route: Route)
    ensures route.Dispatch? <==> command != "ehcommand" && gameExists && (roomid == "" || command !in ["submit", "vote"])
    ensures route.Dispatch? ==> route.command == command
  {
    if command == "ehcommand" then NotDispatched
    else if !gameExists then NoGame
    else if command in ["submit", "vote"] && roomid != "" then PmOnly
    else Dispatch(command)
  }

  /** topic: the host or room staff ('%'). */
  function TopicGuard(gameExists: bool, userid: string, host: string, hasPerms: char -> bool): (route: Route)
    ensures route.Dispatch? <==> gameExists && (userid == host || hasPerms('%'))
  {
    if !gameExists then NoGame
    else if userid != host && !hasPerms('%') then Denied
    else Dispatch("topic")
  }

  /** submitted: the host or a room voice ('+'); the report lists the players accounted for. */
  function SubmittedGuard(gameExists: bool, userid: string, host: string, hasPerms: char -> bool): (route: Route)
    ensures route.Dispatch? <==> gameExists && (userid == host || hasPerms('+'))
  {
    if !gameExists then NoGame
    else if userid != host && !hasPerms('+') then Denied
    else Dispatch("submitted")
  }

  /** The players the `submitted` report names, in player order. */
  function Submitted(r: Round): (s: seq<string>)
    ensures forall p :: p in s <==> p in r.players && p in r.accountability
    decreases |r.players|
  {
    if r.players == [] then []
    else
      var init := Submitted(r.(players := r.players[..|r.players| - 1]));
      var last := r.players[|r.players| - 1];
      assert forall p :: p in r.players <==> p in r.players[..|r.players| - 1] || p == last;
      init + (if last in r.accountability then [last] else [])
  }

  // ---------------------------------------------------------------------
  // Properties
  // ---------------------------------------------------------------------

  /** The arity slip: as called, canParticipate never adds the acting user, and a free-join game gains an undefined player. */
  lemma {:induction false} ParticipateAsWrittenIgnoresUser(players: seq<Option<string>>, freeJoin: bool, userid: string)
    ensures var (ok, after) := ParticipateAsWritten(players, freeJoin);
      && (Some(userid) in after <==> Some(userid) in players)
      && (freeJoin ==> ok && None in after)
  {
    var (ok, after) := ParticipateAsWritten(players, freeJoin);
    if freeJoin && None !in players {
      assert after[|players|] == None;
    }
  }

  /** Meant: a newcomer to a free-join game is added at the end, and only a closed game turns anyone away. */
  lemma {:induction false} ParticipateJoins(r: Round, userid: string)
    requires RoundInv(r)
    ensures var (ok, r1) := Participate(r, userid);
      && (ok <==> userid in r.players || r.freeJoin)
      && (ok ==> userid in r1.players)
      && RoundInv(r1)
      && r1 == r.(players := r1.players)
      && r.players <= r1.players
  {
    if userid !in r.players && r.freeJoin {
      JoinAppends(r.players, userid);
    }
  }

  lemma {:induction false} PendingMembers(players: seq<string>, passed: set<string>)
    ensures forall p :: p in Pending(players, passed) <==> p in players && p !in passed
  {
    if players != [] {
      PendingMembers(players[..|players| - 1], passed);
      assert players == players[..|players| - 1] + [players[|players| - 1]];
    }
  }

  /** Without duplicates, the count the getter compares with is the number of players who have not passed. */
  lemma {:induction false} PendingCount(players: seq<string>, passed: set<string>)
    requires Distinct(players)
    ensures |Pending(players, passed)| == |set p | p in players && p !in passed|
  {
    if players != [] {
      var init := players[..|players| - 1];
      var last := players[|players| - 1];
      PendingCount(init, passed);
      var a := set p | p in init && p !in passed;
      var b := set p | p in players && p !in passed;
      assert players == init + [last];
      assert last !in init;
      if last in passed {
        assert b == a;
      } else {
        assert b == a + {last};
      }
    }
  }

  lemma SubsetSameSize<T>(a: set<T>, b: set<T>)
    requires a <= b && |a| == |b|
    ensures a == b
  {
    assert b == a + (b - a);
    assert |b - a| == 0;
  }

  /**
   * While only active players are accounted for, allHaveSubmitted holds
   * exactly when every player who has not passed is accounted for.
   */
  lemma {:induction false} AllHaveMeansEveryone(r: Round)
    requires Distinct(r.players)
    requires forall u :: u in r.accountability ==> u in r.players && u !in r.passed
    ensures AllHave(r) <==> forall p :: p in r.players && p !in r.passed ==> p in r.accountability
  {
    PendingCount(r.players, r.passed);
    var active := set p | p in r.players && p !in r.passed;
    if AllHave(r) {
      SubsetSameSize(r.accountability, active);
    }
    if forall p :: p in r.players && p !in r.passed ==> p in r.accountability {
      assert r.accountability == active;
    }
  }

  /** A recorded submission or pass by a player keeps the round invariant. */
  lemma {:induction false} RecordingKeepsInvariant(r: Round, userid: string, entry: string)
    requires RoundInv(r) && userid in r.players
    ensures RoundInv(SubmitRecord(r, userid, entry))
    ensures RoundInv(PassRecord(r, userid))
  {
    PutGet(r.submissions, userid, entry, userid);
    RemoveGet(r.submissions, userid, userid);
  }

  /** A recorded vote by a player keeps the round invariant. */
  lemma {:induction false} VoteKeepsInvariant(r: Round, userid: string, target: string)
    requires RoundInv(r) && userid in r.players
    ensures RoundInv(CountVote(r, userid, target))
  {
    PutGet(r.votes, target, TallyOf(r.votes, target) + 1, target);
  }

  /**
   * pass keeps the passer's accountability, so a player who submits and then
   * passes still counts: with two players, voting opens although the other
   * one has neither submitted nor passed.
   */
  lemma {:induction false} PassAfterSubmitOpensVotingEarly(r: Round, a: string, b: string, message: string)
    requires r.players == [a, b] && a != b && r.submissionsOpen
    requires r.submissions == [] && r.accountability == {} && r.passed == {}
    requires MinWords <= WordCount(Trim(message)) <= MaxWords
    ensures var (_, r1) := SubmitSpec(r, a, message);
      var (reply, r2) := PassSpec(r1, a);
      && r1.submissionsOpen && reply == Recorded
      && !r2.submissionsOpen && r2.votingOpen
      && b !in r2.passed && !HasKey(r2.submissions, b)
  {
    assert [a, b][..1] == [a];
    assert [a][..0] == [];
    assert Pending([a], {}) == [a];
    assert Pending([a, b], {}) == [a, b];
    var (_, r1) := SubmitSpec(r, a, message);
    assert r1.accountability == {a};
    assert Pending([a], {a}) == [];
    assert Pending([a, b], {a}) == [b];
    RemoveGet(r1.submissions, a, b);
  }

  /** A recorded submission stores the trimmed, bracket-stripped text under the submitter, and only a player's. */
  lemma {:induction false} SubmitRecords(r: Round, userid: string, message: string)
    requires RoundInv(r) && userid in r.players
    ensures var (reply, r2) := SubmitEntry(r, userid, message);
      && RoundInv(r2)
      && (reply == Recorded <==>
            r.submissionsOpen && userid !in r.passed && MinWords <= WordCount(Trim(message)) <= MaxWords)
      && (reply == Recorded ==> Get(r2.submissions, userid) == Some(StripSubmission(Trim(message))))
      && (reply == Recorded ==> r2.votingOpen == (r.votingOpen || !r2.submissionsOpen))
      && (reply != Recorded ==> r2 == r)
  {
    var e := StripSubmission(Trim(message));
    RecordingKeepsInvariant(r, userid, e);
    PutGet(r.submissions, userid, e, userid);
  }

  /** pass records the user as passed and drops their entry, whether or not voting then opens. */
  lemma {:induction false} PassDropsEntry(r: Round, userid: string)
    requires RoundInv(r) && userid in r.players
    ensures var (reply, r2) := PassEntry(r, userid);
      && RoundInv(r2)
      && (reply == Recorded <==> r.submissionsOpen)
      && (reply == Recorded ==> userid in r2.passed && Get(r2.submissions, userid) == None)
      && (reply == Recorded ==> r2.accountability == r.accountability || r2.accountability == {})
      && (reply != Recorded ==> r2 == r)
  {
    RecordingKeepsInvariant(r, userid, "");
    RemoveGet(r.submissions, userid, userid);
  }

  /** The numbers run from 1 to the number of entries, in insertion order. */
  lemma {:induction false} NumberingIsOrder(submissions: seq<(string, string)>)
    ensures forall i :: i in Numbering(submissions) <==> 1 <= i <= |submissions|
    ensures forall i :: 1 <= i <= |submissions| ==> Numbering(submissions)[i] == submissions[i - 1].0
  {
    if submissions != [] {
      var init := submissions[..|submissions| - 1];
      NumberingIsOrder(init);
      assert forall k :: 0 <= k < |init| ==> init[k] == submissions[k];
    }
  }

  /** With distinct submitters, each submitter gets exactly one number. */
  lemma {:induction false} NumberingOnePerSubmitter(submissions: seq<(string, string)>)
    requires KeysDistinct(submissions)
    ensures forall i, j :: i in Numbering(submissions) && j in Numbering(submissions) && i != j ==>
      Numbering(submissions)[i] != Numbering(submissions)[j]
    ensures forall k :: 0 <= k < |submissions| ==> submissions[k].0 in Numbering(submissions).Values
  {
    NumberingIsOrder(submissions);
    forall k | 0 <= k < |submissions|
      ensures submissions[k].0 in Numbering(submissions).Values
    {
      assert Numbering(submissions)[k + 1] == submissions[k].0;
    }
  }

  /** A counted vote adds exactly one to the target's tally, accounts for the voter, and changes no other tally. */
  lemma {:induction false} CountVoteAddsOne(r: Round, userid: string, target: string, other: string)
    requires RoundInv(r) && userid in r.players
    ensures var r2 := CountVote(r, userid, target);
      && RoundInv(r2)
      && TallyOf(r2.votes, target) == TallyOf(r.votes, target) + 1
      && (other != target ==> Get(r2.votes, other) == Get(r.votes, other))
      && r2.accountability == r.accountability + {userid}
  {
    VoteKeepsInvariant(r, userid, target);
    PutGet(r.votes, target, TallyOf(r.votes, target) + 1, other);
  }

  /** A vote is counted only for another player who is still in the game and has an entry, found by its number. */
  lemma {:induction false} VoteCountsOnlyLiveEntries(r: Round, userid: string, message: string, target: string)
    requires VoteTarget(r, userid, message) == Success(target)
    ensures VoteEntry(r, userid, message).0 == Recorded
    ensures VoteEntry(r, userid, message).1 == CountVote(r, userid, target)
    ensures r.votingOpen && userid !in r.passed
    ensures target != userid && target in r.players && HasKey(r.submissions, target)
    ensures target in r.votableUsers.Values
  {
    var n := ParseInt(StripVote(message)).value;
    assert r.votableUsers[n] == target;
  }

  /**
   * Voting stays open after a tally and nothing stops a second vote: once
   * everyone is accounted for, every further recorded vote tallies and pays again.
   */
  lemma {:induction false} EveryLaterVoteRetallies(r: Round, userid: string, message: string)
    requires AllHave(r) && userid in r.accountability && userid in r.players
    requires VoteTarget(r, userid, message).Success?
    ensures VoteSpec(r, userid, message) == (Recorded, CountVote(r, userid, VoteTarget(r, userid, message).value), true)
  {
    var target := VoteTarget(r, userid, message).value;
    var r2 := CountVote(r, userid, target);
    assert VoteSpec(r, userid, message) == VoteEntry(r, userid, message) by {
      assert Participate(r, userid) == (true, r);
    }
    assert AllHave(r2) by {
      assert r2.accountability == r.accountability;
      assert r2.players == r.players && r2.passed == r.passed;
    }
  }

  lemma {:induction false} WithTallyMembers(votes: seq<(string, int)>, m: int)
    ensures forall u :: u in WithTally(votes, m) <==> exists i :: 0 <= i < |votes| && votes[i] == (u, m)
  {
    if votes != [] {
      var init := votes[..|votes| - 1];
      WithTallyMembers(init, m);
      assert votes == init + [votes[|votes| - 1]];
      forall u | u in WithTally(votes, m)
        ensures exists i :: 0 <= i < |votes| && votes[i] == (u, m)
      {
        if u in WithTally(init, m) {
          var i :| 0 <= i < |init| && init[i] == (u, m);
          assert votes[i] == (u, m);
        }
      }
      forall u | exists i :: 0 <= i < |votes| && votes[i] == (u, m)
        ensures u in WithTally(votes, m)
      {
        var i :| 0 <= i < |votes| && votes[i] == (u, m);
        if i < |init| {
          assert init[i] == (u, m);
        }
      }
    }
  }

  /** The tied list is never empty and holds exactly the users with the highest tally. */
  lemma {:induction false} TiedAreTheMaxima(votes: seq<(string, int)>)
    requires votes != []
    ensures Tied(votes) != []
    ensures forall u :: u in Tied(votes) <==> exists i :: 0 <= i < |votes| && votes[i].0 == u && votes[i].1 == MaxTally(votes)
    ensures forall u, i :: u in Tied(votes) && 0 <= i < |votes| ==> votes[i].1 <= MaxTally(votes)
  {
    var m := MaxTally(votes);
    WithTallyMembers(votes, m);
    var i :| 0 <= i < |votes| && votes[i].1 == m;
    assert votes[i] == (votes[i].0, m);
    assert votes[i].0 in Tied(votes);
  }

  /**
   * As written, a tie pays the first tied player twice (once as tied, once
   * as the winner); as meant, each tied player is paid once.
   */
  lemma {:induction false} TieDoublePaysFirst(tied: seq<string>)
    requires |tied| > 1 && Distinct(tied)
    ensures Q.Count(PayoutsAsWritten(tied), tied[0]) == 2
    ensures forall u :: u in tied ==> Q.Count(Payouts(tied), u) == 1
  {
    CountDistinct(tied);
    var w := tied + [tied[0]];
    assert w[..|w| - 1] == tied;
  }

  lemma {:induction false} CountDistinct(s: seq<string>)
    requires Distinct(s)
    ensures forall u :: u in s ==> Q.Count(s, u) == 1
    ensures forall u :: u !in s ==> Q.Count(s, u) == 0
  {
    if s != [] {
      var init := s[..|s| - 1];
      CountDistinct(init);
      assert s == init + [s[|s| - 1]];
      assert s[|s| - 1] !in init;
    }
  }

  /** The topic timer marks every player who has not submitted as passed, then opens voting. */
  lemma {:induction false} TimeoutPassesInactive(r: Round)
    requires RoundInv(r) && r.submissionsOpen
    ensures var r2 := TopicTimeoutSpec(r);
      && RoundInv(r2)
      && (forall p :: p in r.players && p !in r.accountability ==> p in r2.passed)
      && r2.votingOpen && !r2.submissionsOpen && r2.accountability == {}
  {
  }

  /** Every transition keeps the round invariant. */
  lemma {:induction false} TransitionsKeepInvariant(r: Round, userid: string, message: string)
    requires RoundInv(r)
    ensures RoundInv(SetupRoundSpec(r))
    ensures RoundInv(SubmitSpec(r, userid, message).1)
    ensures RoundInv(PassSpec(r, userid).1)
    ensures RoundInv(VoteSpec(r, userid, message).1)
    ensures RoundInv(TopicTimeoutSpec(r))
  {
    ParticipateJoins(r, userid);
    var (ok, r1) := Participate(r, userid);
    if ok {
      SubmitRecords(r1, userid, message);
      PassDropsEntry(r1, userid);
      var t := VoteTarget(r1, userid, message);
      if t.Success? {
        VoteCountsOnlyLiveEntries(r1, userid, message, t.value);
        CountVoteAddsOne(r1, userid, t.value, userid);
      }
    }
  }

  /** Brackets around an entry are dropped, however many there are on each side. */
  lemma {:induction false} StripSubmissionBrackets(a: nat, inner: string, b: nat)
    requires inner != [] && inner[0] != '[' && ']' !in inner
    ensures StripSubmission(Repeat('[', a) + inner + Repeat(']', b)) == inner
  {
    var s := Repeat('[', a) + inner + Repeat(']', b);
    LeadingRunIs(s, '[', a);
    var rest := s[a..];
    assert rest == inner + Repeat(']', b);
    TrailingRunIs(rest, ']', b);
    assert rest[..|rest| - b] == inner;
  }

  /** One pair of brackets around a vote is dropped: the bracketed vote names the same target as the bare one. */
  lemma BracketedVoteIsBare(r: Round, userid: string, t: string)
    requires t != [] && ']' !in t
    ensures StripVote("[" + t + "]") == t && StripVote(t) == t
    ensures VoteTarget(r, userid, "[" + t + "]") == VoteTarget(r, userid, t)
  {
    var s := "[" + t + "]";
    assert s[1..|s| - 1] == t;
  }

  function Repeat(c: char, n: nat): (s: string)
    ensures |s| == n && forall i :: 0 <= i < n ==> s[i] == c
  {
    if n == 0 then [] else [c] + Repeat(c, n - 1)
  }

  lemma LeadingRunIs(s: string, c: char, n: nat)
    requires n <= |s| && (forall i :: 0 <= i < n ==> s[i] == c) && (n < |s| ==> s[n] != c)
    ensures LeadingRun(s, c) == n
  {
  }

  lemma TrailingRunIs(s: string, c: char, n: nat)
    requires n <= |s| && (forall i :: |s| - n <= i < |s| ==> s[i] == c) && (n < |s| ==> s[|s| - 1 - n] != c)
    ensures TrailingRun(s, c) == n
  {
  }
}
