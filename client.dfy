/**
 * client.js: the connection to the chat server as far as it keeps state —
 * the per-room presence table that `parse` updates from protocol lines, the
 * reconnect counter behind the exponential back-off, and the command table
 * that `init` fills from the core and plugin command maps.
 */
module ShowdownClient {
  import opened Wrappers
  import opened JsText
  import opened Utils

  /** BASE_RECONNECT_TIME */
  const BaseReconnectTime: nat := 2

  /** A presence entry: the rank symbol (undefined for an empty name) and the rest of the name. */
  datatype Entry = Entry(rank: Option<char>, name: string)

  type RoomList = map<string, Entry>
  type UserLists = map<string, RoomList>

  /** What a call of `parse` amounts to, once the presence table has been updated. */
  datatype Outcome =
    | Ignored        // an empty line, or a tag no case handles
    | Handled        // a case ran to its end
    | ReturnedFalse  // the self-check returned false
    | LoginChallenge(challstr: string)  // the login exchange starts with this challenge
    | Crashed        // a field the case reads is missing: a TypeError

  datatype Step = Step(lists: UserLists, outcome: Outcome)

  /** Stands for a command function: which module defines it, under which name. */
  datatype Handler = Handler(origin: string, command: string)

  /** A loaded plugin module; `commands` is None when it exports no command map. */
  datatype Plugin = Plugin(commands: Option<seq<(string, Handler)>>)

  /** `[user[0], user.slice(1)]` */
  function EntryOf(user: string): (e: Entry)
    ensures e.rank.Some? <==> user != []
    ensures user != [] ==> user == [e.rank.value] + e.name
  {
    if user == [] then Entry(None, []) else Entry(Some(user[0]), user[1..])
  }

  /** The list the `init` case builds from its comma tokens, later tokens overwriting earlier ones. */
  function Roster(tokens: seq<string>): RoomList {
    if tokens == [] then map[]
    else
      var last := tokens[|tokens| - 1];
      Roster(tokens[..|tokens| - 1])[ToId(last) := EntryOf(last)]
  }

  /** The room's map, or the empty map the failsafe creates. */
  function RoomOf(lists: UserLists, roomid: string): RoomList {
    if roomid in lists then lists[roomid] else map[]
  }

  /** The `J`/`j` case: the failsafe creates the room's map, then the user is entered. */
  function JoinCase(lists: UserLists, roomid: string, fields: seq<string>): Step {
    var room := RoomOf(lists, roomid);
    if |fields| < 3 then Step(lists[roomid := room], Crashed)
    else Step(lists[roomid := room[ToId(fields[2]) := EntryOf(fields[2])]], Handled)
  }

  /** The `L`/`l` case: no failsafe, so an unknown room is a TypeError. */
  function LeaveCase(lists: UserLists, roomid: string, fields: seq<string>): Step {
    if |fields| < 3 || roomid !in lists then Step(lists, Crashed)
    else Step(lists[roomid := lists[roomid] - {ToId(fields[2])}], Handled)
  }

  /** The `N`/`n` case: drop the old id (or create the room), then enter the new name. */
  function RenameCase(lists: UserLists, roomid: string, fields: seq<string>): Step {
    if roomid in lists && |fields| < 4 then Step(lists, Crashed)
    else
      var room := if roomid in lists then lists[roomid] - {ToId(fields[3])} else map[];
      if |fields| < 3 then Step(lists[roomid := room], Crashed)
      else Step(lists[roomid := room[ToId(fields[2]) := EntryOf(fields[2])]], Handled)
  }

  /** The tokens of an `init` line's user list: field 6, trimmed, split on commas, the count dropped. */
  function InitTokens(field: string): seq<string> {
    Split(Trim(field), ',')[1..]
  }

  /** The `init` case: the room's whole map is replaced. */
  function InitCase(lists: UserLists, roomid: string, fields: seq<string>): Step {
    if |fields| < 7 then Step(lists, Crashed)
    else Step(lists[roomid := Roster(InitTokens(fields[6]))], Handled)
  }

  /** `parse` as a value: the presence table after one line, and how the call ended. */
  function ApplyLine(lists: UserLists, message: string, self: string): Step {
    if message == [] then Step(lists, Ignored)
    else
      var fields := Split(message, '|');
      var roomid := ToId(fields[0]);
      if |fields| < 2 then Step(lists, Ignored)
      else
        var tag := fields[1];
        if tag == "challstr" then
          Step(lists, LoginChallenge(Join(fields[2..], '|')))
        else if tag == "updateuser" then
          Step(lists, if |fields| > 2 && fields[2] == self then Handled else ReturnedFalse)
        else if tag == "J" || tag == "j" then JoinCase(lists, roomid, fields)
        else if tag == "L" || tag == "l" then LeaveCase(lists, roomid, fields)
        else if tag == "N" || tag == "n" then RenameCase(lists, roomid, fields)
        else if tag == "noinit" || tag == "deinit" then Step(lists, Handled)
        else if tag == "init" then InitCase(lists, roomid, fields)
        else if tag == "pm" || tag == "c" then
          Step(lists, if |fields| > 2 && fields[2] == self then ReturnedFalse else Handled)
        else if tag == "c:" then
          Step(lists, if |fields| > 3 && fields[3] == self then ReturnedFalse else Handled)
        else
          Step(lists, Ignored)
  }

  /** 2 ** n */
  function Pow(base: nat, n: nat): nat {
    if n == 0 then 1 else base * Pow(base, n - 1)
  }

  /** The delay before the next attempt, in milliseconds, after `reconnects` failures. */
  function BackoffMs(reconnects: nat): nat {
    Pow(BaseReconnectTime, reconnects) * 1000
  }

  /** The command entries of the plugins, in load order; a plugin without commands adds none. */
  function PluginCommands(plugins: seq<Plugin>): seq<(string, Handler)> {
    if plugins == [] then []
    else
      var last := plugins[|plugins| - 1];
      PluginCommands(plugins[..|plugins| - 1]) + (if last.commands.Some? then last.commands.value else [])
  }

  /** Map.prototype.set for each entry in turn. */
  function Register(m: map<string, Handler>, entries: seq<(string, Handler)>): map<string, Handler> {
    if entries == [] then m
    else
      var last := entries[|entries| - 1];
      Register(m, entries[..|entries| - 1])[last.0 := last.1]
  }

  /** The position of the last entry named `k`, or -1. */
  function LastIndexOf(entries: seq<(string, Handler)>, k: string): (i: int)
    ensures -1 <= i < |entries|
    ensures i >= 0 ==> entries[i].0 == k
    ensures forall j :: i < j < |entries| ==> entries[j].0 != k
  {
    if entries == [] then -1
    else if entries[|entries| - 1].0 == k then |entries| - 1
    else LastIndexOf(entries[..|entries| - 1], k)
  }

  class Client {
    const username: string
    var reconnects: nat
    var userlists: UserLists
    var commands: map<string, Handler>

    constructor (username: string)
      ensures this.username == username
      ensures reconnects == 0 && userlists == map[] && commands == map[]
    {
      this.username := username;
      reconnects := 0;
      userlists := map[];
      commands := map[];
    }

    /** The 'connectFailed' handler: one more failure, and the delay before the next attempt. */
    method OnConnectFailed() returns (delayMs: nat)
      modifies this
      ensures reconnects == old(reconnects) + 1
      ensures delayMs == BackoffMs(reconnects)
      ensures userlists == old(userlists) && commands == old(commands)
    {
      reconnects := reconnects + 1;
      delayMs := Pow(BaseReconnectTime, reconnects) * 1000;
    }

    /** The 'connect' handler: a connection resets the counter. */
    method OnConnect()
      modifies this
      ensures reconnects == 0
      ensures userlists == old(userlists) && commands == old(commands)
    {
      reconnects := 0;
    }

    /** The connection's 'close' handler, which counts like a failed attempt. */
    method OnClose() returns (delayMs: nat)
      modifies this
      ensures reconnects == old(reconnects) + 1
      ensures delayMs == BackoffMs(reconnects)
      ensures userlists == old(userlists) && commands == old(commands)
    {
      reconnects := reconnects + 1;
      delayMs := Pow(BaseReconnectTime, reconnects) * 1000;
    }

    /** `parse`: one protocol line. */
    method Parse(message: string) returns (outcome: Outcome)
      modifies this
      ensures Step(userlists, outcome) == ApplyLine(old(userlists), message, username)
      ensures reconnects == old(reconnects) && commands == old(commands)
    {
      if message == [] {
        return Ignored;
      }
      var split := Split(message, '|');
      var roomid := ToId(split[0]);
      if |split| < 2 {
        return Ignored;
      }
      var tag := split[1];
      if tag == "challstr" {
        outcome := LoginChallenge(Join(split[2..], '|'));
      } else if tag == "updateuser" {
        outcome := if |split| > 2 && split[2] == username then Handled else ReturnedFalse;
      } else if tag == "J" || tag == "j" {
        outcome := ParseJoin(roomid, split);
      } else if tag == "L" || tag == "l" {
        outcome := ParseLeave(roomid, split);
      } else if tag == "N" || tag == "n" {
        outcome := ParseRename(roomid, split);
      } else if tag == "noinit" || tag == "deinit" {
        outcome := Handled;
      } else if tag == "init" {
        outcome := ParseInit(roomid, split);
      } else if tag == "pm" || tag == "c" {
        outcome := if |split| > 2 && split[2] == username then ReturnedFalse else Handled;
      } else if tag == "c:" {
        outcome := if |split| > 3 && split[3] == username then ReturnedFalse else Handled;
      } else {
        outcome := Ignored;
      }
    }

    method ParseJoin(roomid: string, split: seq<string>) returns (outcome: Outcome)
      modifies this
      ensures Step(userlists, outcome) == JoinCase(old(userlists), roomid, split)
      ensures reconnects == old(reconnects) && commands == old(commands)
    {
      if roomid !in userlists {
        userlists := userlists[roomid := map[]];
      }
      if |split| < 3 {
        return Crashed;
      }
      userlists := userlists[roomid := userlists[roomid][ToId(split[2]) := EntryOf(split[2])]];
      outcome := Handled;
    }

    method ParseLeave(roomid: string, split: seq<string>) returns (outcome: Outcome)
      modifies this
      ensures Step(userlists, outcome) == LeaveCase(old(userlists), roomid, split)
      ensures reconnects == old(reconnects) && commands == old(commands)
    {
      if |split| < 3 || roomid !in userlists {
        return Crashed;
      }
      userlists := userlists[roomid := userlists[roomid] - {ToId(split[2])}];
      outcome := Handled;
    }

    method ParseRename(roomid: string, split: seq<string>) returns (outcome: Outcome)
      modifies this
      ensures Step(userlists, outcome) == RenameCase(old(userlists), roomid, split)
      ensures reconnects == old(reconnects) && commands == old(commands)
    {
      if roomid in userlists {
        if |split| < 4 {
          return Crashed;
        }
        userlists := userlists[roomid := userlists[roomid] - {ToId(split[3])}];
      } else {
        userlists := userlists[roomid := map[]];
      }
      if |split| < 3 {
        return Crashed;
      }
      userlists := userlists[roomid := userlists[roomid][ToId(split[2]) := EntryOf(split[2])]];
      outcome := Handled;
    }

    method ParseInit(roomid: string, split: seq<string>) returns (outcome: Outcome)
      modifies this
      ensures Step(userlists, outcome) == InitCase(old(userlists), roomid, split)
      ensures reconnects == old(reconnects) && commands == old(commands)
    {
      if |split| < 7 {
        return Crashed;
      }
      var tokens := Split(Trim(split[6]), ',')[1..];
      var list: RoomList := map[];
      for i := 0 to |tokens|
        invariant list == Roster(tokens[..i])
      {
        assert tokens[..i + 1][..i] == tokens[..i];
        list := list[ToId(tokens[i]) := EntryOf(tokens[i])];
      }
      assert tokens[..|tokens|] == tokens;
      userlists := userlists[roomid := list];
      outcome := Handled;
    }

    /**
     * `init` as meant: the two lines sent to the server, then the core
     * commands and each plugin's commands registered in load order (see
     * InitAsWritten for where the code as written stops).
     */
    method Init(avatar: string, rooms: seq<string>, core: seq<(string, Handler)>, plugins: seq<Plugin>)
      returns (sent: seq<string>)
      modifies this
      ensures sent == ["|/avatar " + avatar, "|/autojoin " + Join(rooms, ',')]
      ensures commands == Register(old(commands), core + PluginCommands(plugins))
      ensures userlists == old(userlists) && reconnects == old(reconnects)
    {
      // send('', m) puts the empty room name before the '|'
      sent := ["|/avatar " + avatar, "|/autojoin " + Join(rooms, ',')];
      RegisterEntries(core);
      assert core + PluginCommands(plugins[..0]) == core;
      for p := 0 to |plugins|
        invariant commands == Register(old(commands), core + PluginCommands(plugins[..p]))
        invariant userlists == old(userlists) && reconnects == old(reconnects)
      {
        assert plugins[..p + 1][..p] == plugins[..p];
        ghost var before := core + PluginCommands(plugins[..p]);
        if plugins[p].commands.Some? {
          var cmds := plugins[p].commands.value;
          RegisterEntries(cmds);
          RegisterAppend(old(commands), before, cmds);
          assert PluginCommands(plugins[..p + 1]) == PluginCommands(plugins[..p]) + cmds;
          assert before + cmds == core + PluginCommands(plugins[..p + 1]);
        } else {
          assert PluginCommands(plugins[..p + 1]) == PluginCommands(plugins[..p]) + [];
          assert core + PluginCommands(plugins[..p + 1]) == before;
        }
      }
      assert plugins[..|plugins|] == plugins;
    }

    /** `this.commands.set(c, ...)` for each entry in order. */
    method RegisterEntries(entries: seq<(string, Handler)>)
      modifies this
      ensures commands == Register(old(commands), entries)
      ensures userlists == old(userlists) && reconnects == old(reconnects)
    {
      for i := 0 to |entries|
        invariant commands == Register(old(commands), entries[..i])
        invariant userlists == old(userlists) && reconnects == old(reconnects)
      {
        assert entries[..i + 1][..i] == entries[..i];
        commands := commands[entries[i].0 := entries[i].1];
      }
      assert entries[..|entries|] == entries;
    }
  }

  /** Registering a + b is registering a, then b. */
  lemma {:induction false} RegisterAppend(m: map<string, Handler>, a: seq<(string, Handler)>, b: seq<(string, Handler)>)
    ensures Register(m, a + b) == Register(Register(m, a), b)
    decreases |b|
  {
    if b == [] {
      assert a + b == a;
    } else {
      assert (a + b)[..|a + b| - 1] == a + b[..|b| - 1];
      RegisterAppend(m, a, b[..|b| - 1]);
    }
  }

  /**
   * The command table `init` leaves as written: client.js never requires
   * `fs`, so `fs.readdirSync` throws a ReferenceError once the core
   * commands are set, and no plugin is loaded.
   */
  function InitAsWritten(m: map<string, Handler>, core: seq<(string, Handler)>): map<string, Handler> {
    Register(m, core)
  }

  /**
   * As written, a command that only a plugin defines is never registered,
   * though the table `Init` builds has it.
   */
  lemma {:induction false} PluginOnlyCommandMissingAsWritten(m: map<string, Handler>, core: seq<(string, Handler)>,
                                                             plugins: seq<Plugin>, k: string)
    requires k !in m && LastIndexOf(core, k) < 0 && LastIndexOf(PluginCommands(plugins), k) >= 0
    ensures k !in InitAsWritten(m, core)
    ensures k in Register(m, core + PluginCommands(plugins))
  {
    RegisterLookup(m, core, k);
    PluginCommandWins(m, core, plugins, k);
  }

  /** Each failure doubles the delay, so it never shrinks as failures accumulate. */
  lemma {:induction false} BackoffMonotone(m: nat, n: nat)
    requires m <= n
    ensures 1000 <= BackoffMs(m) <= BackoffMs(n)
    decreases n
  {
    if m < n {
      BackoffMonotone(m, n - 1);
    } else if n > 0 {
      BackoffMonotone(0, n - 1);
    }
  }

  /** A later `set` of the same name wins; a name no entry sets keeps its old handler. */
  lemma {:induction false} RegisterLookup(m: map<string, Handler>, entries: seq<(string, Handler)>, k: string)
    ensures k in Register(m, entries) <==> (k in m || LastIndexOf(entries, k) >= 0)
    ensures LastIndexOf(entries, k) >= 0 ==> Register(m, entries)[k] == entries[LastIndexOf(entries, k)].1
    ensures LastIndexOf(entries, k) < 0 && k in m ==> Register(m, entries)[k] == m[k]
  {
    if entries != [] {
      RegisterLookup(m, entries[..|entries| - 1], k);
    }
  }

  /** A plugin command replaces a core command of the same name; the last plugin to define it wins. */
  lemma {:induction false} PluginCommandWins(m: map<string, Handler>, core: seq<(string, Handler)>, plugins: seq<Plugin>, k: string)
    requires LastIndexOf(PluginCommands(plugins), k) >= 0
    ensures var cmds := PluginCommands(plugins);
      k in Register(m, core + cmds) && Register(m, core + cmds)[k] == cmds[LastIndexOf(cmds, k)].1
  {
    var cmds := PluginCommands(plugins);
    LastIndexOfAppend(core, cmds, k);
    RegisterLookup(m, core + cmds, k);
  }

  lemma {:induction false} LastIndexOfAppend(a: seq<(string, Handler)>, b: seq<(string, Handler)>, k: string)
    requires LastIndexOf(b, k) >= 0
    ensures LastIndexOf(a + b, k) == |a| + LastIndexOf(b, k)
    decreases |b|
  {
    if b[|b| - 1].0 != k {
      assert (a + b)[..|a + b| - 1] == a + b[..|b| - 1];
      LastIndexOfAppend(a, b[..|b| - 1], k);
    }
  }

  /** A user is in an `init` list exactly when some token names them. */
  lemma {:induction false} RosterKeys(tokens: seq<string>, uid: string)
    ensures uid in Roster(tokens) <==> exists i :: 0 <= i < |tokens| && ToId(tokens[i]) == uid
  {
    if tokens != [] {
      var init := tokens[..|tokens| - 1];
      RosterKeys(init, uid);
      if exists i :: 0 <= i < |init| && ToId(init[i]) == uid {
        var i :| 0 <= i < |init| && ToId(init[i]) == uid;
        assert tokens[i] == init[i];
      }
      if exists i :: 0 <= i < |tokens| && ToId(tokens[i]) == uid {
        var i :| 0 <= i < |tokens| && ToId(tokens[i]) == uid;
        if i < |init| {
          assert init[i] == tokens[i];
        }
      }
    }
  }

  /** Of two tokens with the same id, the later one's entry is kept. */
  lemma {:induction false} RosterLastWins(tokens: seq<string>, i: int)
    requires 0 <= i < |tokens|
    requires forall j :: i < j < |tokens| ==> ToId(tokens[j]) != ToId(tokens[i])
    ensures ToId(tokens[i]) in Roster(tokens)
    ensures Roster(tokens)[ToId(tokens[i])] == EntryOf(tokens[i])
  {
    var last := |tokens| - 1;
    if i < last {
      var init := tokens[..last];
      forall j | i < j < |init|
        ensures ToId(init[j]) != ToId(init[i])
      {
        assert init[j] == tokens[j];
      }
      RosterLastWins(init, i);
    }
  }

  /** The pieces of a text with three separator-free parts. */
  lemma {:induction false} Split3(a: string, b: string, c: string, sep: char)
    requires sep !in a && sep !in b && sep !in c
    ensures Split(a + [sep] + b + [sep] + c, sep) == [a, b, c]
  {
    SplitNoSeparator(c, sep);
    SplitAtFirst(b, sep, c);
    assert a + [sep] + b + [sep] + c == a + [sep] + (b + [sep] + c);
    SplitAtFirst(a, sep, b + [sep] + c);
  }

  /** The fields of a line with three `|`-free parts. */
  lemma {:induction false} Fields3(a: string, b: string, c: string)
    requires '|' !in a && '|' !in b && '|' !in c
    ensures Split(a + "|" + b + "|" + c, '|') == [a, b, c]
  {
    Split3(a, b, c, '|');
  }

  /** The fields of a line with four `|`-free parts. */
  lemma {:induction false} Fields4(a: string, b: string, c: string, d: string)
    requires '|' !in a && '|' !in b && '|' !in c && '|' !in d
    ensures Split(a + "|" + b + "|" + c + "|" + d, '|') == [a, b, c, d]
  {
    Fields3(b, c, d);
    assert a + "|" + b + "|" + c + "|" + d == a + "|" + (b + "|" + c + "|" + d);
    SplitAtFirst(a, '|', b + "|" + c + "|" + d);
  }

  /** `room|J|user`: the room's map is created if missing and the user entered under their id. */
  lemma {:induction false} JoinLine(lists: UserLists, room: string, user: string, self: string)
    requires '|' !in room && '|' !in user
    ensures ApplyLine(lists, room + "|J|" + user, self)
      == Step(lists[ToId(room) := RoomOf(lists, ToId(room))[ToId(user) := EntryOf(user)]], Handled)
  {
    assert room + "|J|" + user == room + "|" + "J" + "|" + user;
    Fields3(room, "J", user);
  }

  /** `room|L|user` removes exactly that user's id from a known room, and crashes on an unknown one. */
  lemma {:induction false} LeaveLine(lists: UserLists, room: string, user: string, self: string)
    requires '|' !in room && '|' !in user
    ensures var r := ApplyLine(lists, room + "|L|" + user, self);
      var rid := ToId(room);
      && (rid !in lists ==> r == Step(lists, Crashed))
      && (rid in lists ==> r == Step(lists[rid := lists[rid] - {ToId(user)}], Handled))
  {
    assert room + "|L|" + user == room + "|" + "L" + "|" + user;
    Fields3(room, "L", user);
  }

  /** A join followed by a leave of the same user leaves the room without them and its other entries as before. */
  lemma {:induction false} JoinThenLeave(lists: UserLists, room: string, user: string, self: string)
    requires '|' !in room && '|' !in user
    ensures var joined := ApplyLine(lists, room + "|J|" + user, self).lists;
      var r := ApplyLine(joined, room + "|L|" + user, self);
      var rid := ToId(room);
      && r.outcome == Handled
      && rid in r.lists
      && r.lists[rid] == RoomOf(lists, rid) - {ToId(user)}
  {
    JoinLine(lists, room, user, self);
    var joined := ApplyLine(lists, room + "|J|" + user, self).lists;
    LeaveLine(joined, room, user, self);
    var rid := ToId(room);
    var uid := ToId(user);
    assert joined[rid] - {uid} == RoomOf(lists, rid) - {uid} by {
      assert joined[rid] == RoomOf(lists, rid)[uid := EntryOf(user)];
      assert forall u :: u in joined[rid] - {uid} <==> u in RoomOf(lists, rid) - {uid};
    }
  }

  /** `room|N|newname|oldid`: the old id is dropped (or the room created) and the new name entered. */
  lemma {:induction false} RenameLine(lists: UserLists, room: string, user: string, oldid: string, self: string)
    requires '|' !in room && '|' !in user && '|' !in oldid
    ensures var r := ApplyLine(lists, room + "|N|" + user + "|" + oldid, self);
      var rid := ToId(room);
      && r.outcome == Handled
      && r.lists == lists[rid := (RoomOf(lists, rid) - {ToId(oldid)})[ToId(user) := EntryOf(user)]]
  {
    var line := room + "|N|" + user + "|" + oldid;
    assert line == room + "|" + "N" + "|" + user + "|" + oldid;
    Fields4(room, "N", user, oldid);
    assert line != [];
    assert ApplyLine(lists, line, self) == RenameCase(lists, ToId(room), [room, "N", user, oldid]);
    if ToId(room) !in lists {
      assert RoomOf(lists, ToId(room)) - {ToId(oldid)} == map[];
    }
  }

  /** The bot's own `updateuser`, `pm` and `c` lines leave the presence table as it was. */
  lemma {:induction false} OwnLinesChangeNothing(lists: UserLists, room: string, tag: string, self: string)
    requires tag == "updateuser" || tag == "pm" || tag == "c"
    requires '|' !in room && '|' !in self
    ensures ApplyLine(lists, room + "|" + tag + "|" + self, self)
      == Step(lists, if tag == "updateuser" then Handled else ReturnedFalse)
  {
    assert '|' !in tag;
    Fields3(room, tag, self);
  }

  /** Only the join, leave, rename and init cases touch the table, and only the line's own room. */
  lemma {:induction false} ApplyLineFrame(lists: UserLists, message: string, self: string)
    ensures var r := ApplyLine(lists, message, self);
      && (r.lists != lists ==>
            (message != [] && |Split(message, '|')| >= 2
             && Split(message, '|')[1] in {"J", "j", "L", "l", "N", "n", "init"}))
      && (forall q :: message != [] && q != ToId(Split(message, '|')[0]) ==>
            (q in r.lists <==> q in lists) && (q in lists ==> r.lists[q] == lists[q]))
  {
  }

  /**
   * The user field of an `init` line: the leading count is dropped and the
   * other comma-separated tokens are kept in order.
   */
  lemma {:induction false} InitTokensDropCount(count: string, a: string, b: string)
    requires ',' !in count && ',' !in a && ',' !in b
    requires count != [] && !IsSpace(count[0]) && b != [] && !IsSpace(b[|b| - 1])
    ensures InitTokens(count + "," + a + "," + b) == [a, b]
  {
    var text := count + "," + a + "," + b;
    assert text[|text| - 1] == b[|b| - 1];
    TrimOfTrimmed(text);
    Split3(count, a, b, ',');
  }

  /**
   * Two ranked users on an `init` line are both recorded, keyed by the id of
   * the name, with their rank symbol kept apart.
   */
  lemma {:induction false} InitRecordsRankedUsers(r1: char, n1: string, r2: char, n2: string)
    requires !IsIdChar(LowerChar(r1)) && !IsIdChar(LowerChar(r2))
    requires ToId(n1) != ToId(n2)
    ensures Roster([[r1] + n1, [r2] + n2])
      == map[ToId(n1) := Entry(Some(r1), n1), ToId(n2) := Entry(Some(r2), n2)]
  {
    RankIsNotPartOfId(r1, n1);
    RankIsNotPartOfId(r2, n2);
    var t := [[r1] + n1, [r2] + n2];
    assert t[..1] == [[r1] + n1] && t[..1][..0] == [];
    assert EntryOf([r1] + n1) == Entry(Some(r1), n1);
    assert EntryOf([r2] + n2) == Entry(Some(r2), n2);
    assert Roster(t[..1]) == map[ToId(n1) := Entry(Some(r1), n1)];
    assert Roster(t) == Roster(t[..1])[ToId(n2) := Entry(Some(r2), n2)];
  }
}
