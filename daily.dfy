/**
 * plugins/daily.js: the "of the day" entries of the writing room. Staff get
 * a token link to a form; a POST of that form is ingested into the stored
 * entries field by field; each daily's name is an alias of the `daily`
 * command, which shows the entry or hands out the form link. Rendering is
 * not modelled.
 */
module Dailies {
  import opened Wrappers
  import opened JsText
  import opened OrderedMaps
  import WebServer

  const Room: string := "thelibrary"

  /** The daily ids, in the order the `dailies` object declares them. */
  const DailyIds: seq<string> := ["totw", "wotd", "hotd"]

  /** The form fields of each daily, or None for an unknown id. */
  function ParamsOf(daily: string): (params: Option<seq<string>>)
    ensures params.Some? <==> daily in DailyIds
  {
    if daily == "totw" then Some(["title", "image", "description"])
    else if daily == "wotd" then Some(["word", "pronunciation", "class", "definition", "etymology"])
    else if daily == "hotd" then Some(["title", "date", "location", "description"])
    else None
  }

  /** `key.split('|')` gives [daily, param]; the key counts only for a known daily and one of its fields. */
  function FormKey(key: string): (field: Option<(string, string)>)
    ensures field.Some? ==> ParamsOf(field.value.0).Some? && field.value.1 in ParamsOf(field.value.0).value
  {
    var parts := Split(key, '|');
    if |parts| < 2 || parts[0] == "" || parts[1] == "" then None
    else if ParamsOf(parts[0]).None? || parts[1] !in ParamsOf(parts[0]).value then None
    else Some((parts[0], parts[1]))
  }

  /** `/^https?:\/\//` */
  predicate IsWebUrl(s: string) {
    (|s| >= 7 && s[..7] == "http://") || (|s| >= 8 && s[..8] == "https://")
  }

  /** The trimmed value, with `http://` put in front of an image that lacks a scheme. */
  function FieldValue(param: string, value: string): string {
    var val := Trim(value);
    if param == "image" && !IsWebUrl(val) then "http://" + val else val
  }

  /** The entry stored for a daily, `{}` when there is none. */
  function Stored(store: map<string, map<string, string>>, daily: string): map<string, string> {
    if daily in store then store[daily] else map[]
  }

  /** One form field: a valid key has its value recorded; any other key changes nothing. */
  function IngestStep(store: map<string, map<string, string>>, changes: seq<string>, key: string, value: string)
    : (map<string, map<string, string>>, seq<string>)
  {
    var field := FormKey(key);
    if field.None? then (store, changes)
    else Record(store, changes, field.value.0, field.value.1, FieldValue(field.value.1, value))
  }

  /** The entry is created, and the value stored (noting the daily as changed) when it is new and not empty. */
  function Record(store: map<string, map<string, string>>, changes: seq<string>, daily: string, param: string, val: string)
    : (map<string, map<string, string>>, seq<string>)
  {
    var entry := Stored(store, daily);
    if val == "" || (param in entry && entry[param] == val) then (store[daily := entry], changes)
    else (store[daily := entry[param := val]], if daily in changes then changes else changes + [daily])
  }

  /** The onPost loop over the form fields, in order. */
  function IngestAll(store: map<string, map<string, string>>, changes: seq<string>, body: seq<(string, string)>)
    : (map<string, map<string, string>>, seq<string>)
  {
    if body == [] then (store, changes)
    else
      var (s, c) := IngestAll(store, changes, body[..|body| - 1]);
      IngestStep(s, c, body[|body| - 1].0, body[|body| - 1].1)
  }

  /**
   * A field of the parsed body: a key sent once keeps its text, a key sent
   * again becomes an array of every text sent under it.
   */
  datatype Posted = Single(value: string) | Repeated(values: seq<string>)

  function AddValue(p: Option<Posted>, v: string): Posted {
    if p.None? then Single(v)
    else if p.value.Single? then Repeated([p.value.value, v])
    else Repeated(p.value.values + [v])
  }

  /**
   * bodyParser.urlencoded: one property per key, in the order keys first
   * appear in the form. (An object lists integer-like keys first, but such a
   * key has no `|` and is skipped by onPost.)
   */
  function ParseForm(fields: seq<(string, string)>): (body: seq<(string, Posted)>)
    ensures KeysDistinct(body)
  {
    if fields == [] then []
    else
      var b := ParseForm(fields[..|fields| - 1]);
      var k := fields[|fields| - 1].0;
      PutGet(b, k, AddValue(Get(b, k), fields[|fields| - 1].1), k);
      Put(b, k, AddValue(Get(b, k), fields[|fields| - 1].1))
  }

  /**
   * The onPost loop over the parsed body; the bool says it threw. A valid
   * key sent more than once holds an array, whose missing `trim` throws a
   * TypeError: the loop stops there, with the fields before it already
   * stored.
   */
  function IngestBody(store: map<string, map<string, string>>, changes: seq<string>, body: seq<(string, Posted)>)
    : (map<string, map<string, string>>, seq<string>, bool)
  {
    if body == [] then (store, changes, false)
    else
      var (s, c, thrown) := IngestBody(store, changes, body[..|body| - 1]);
      var (key, posted) := body[|body| - 1];
      if thrown then (s, c, true)
      else if posted.Single? then
        var (s', c') := IngestStep(s, c, key, posted.value);
        (s', c', false)
      else if FormKey(key).None? then (s, c, false)
      else (s, c, true)
  }

  /** Once the loop has thrown, the fields after are never read. */
  lemma {:induction false} ThrownStays(store: map<string, map<string, string>>, changes: seq<string>,
                                       body: seq<(string, Posted)>, n: nat)
    requires n <= |body| && IngestBody(store, changes, body[..n]).2
    ensures IngestBody(store, changes, body) == IngestBody(store, changes, body[..n])
    decreases |body| - n
  {
    if n < |body| {
      assert body[..n + 1][..n] == body[..n];
      ThrownStays(store, changes, body, n + 1);
    } else {
      assert body[..n] == body;
    }
  }

  /** Each field sent once, as bodyParser gives it. */
  function Singles(fields: seq<(string, string)>): (body: seq<(string, Posted)>)
    ensures |body| == |fields|
    ensures forall i :: 0 <= i < |fields| ==> body[i] == (fields[i].0, Single(fields[i].1))
  {
    seq(|fields|, i requires 0 <= i < |fields| => (fields[i].0, Single(fields[i].1)))
  }

  /** A form whose keys are distinct parses to one plain field per key, in form order. */
  lemma {:induction false} ParseDistinctForm(fields: seq<(string, string)>)
    requires KeysDistinct(fields)
    ensures ParseForm(fields) == Singles(fields)
  {
    if fields != [] {
      var init := fields[..|fields| - 1];
      var (k, v) := fields[|fields| - 1];
      ParseDistinctForm(init);
      var b := ParseForm(init);
      assert IndexOfKey(b, k) < 0;
      assert Put(b, k, AddValue(Get(b, k), v)) == b + [(k, Single(v))];
    }
  }

  /** On plain fields the loop never throws and ingests field by field. */
  lemma {:induction false} IngestSingles(store: map<string, map<string, string>>, changes: seq<string>,
                                         fields: seq<(string, string)>)
    ensures var r := IngestAll(store, changes, fields);
      IngestBody(store, changes, Singles(fields)) == (r.0, r.1, false)
  {
    if fields != [] {
      var init := fields[..|fields| - 1];
      IngestSingles(store, changes, init);
      assert Singles(fields)[..|fields| - 1] == Singles(init);
    }
  }

  /**
   * A form that sends each key once (as the rendered form does) never
   * throws: onPost ingests it field by field.
   */
  lemma DistinctFormIngestsAll(store: map<string, map<string, string>>, fields: seq<(string, string)>)
    requires KeysDistinct(fields)
    ensures var r := IngestAll(store, [], fields);
      IngestBody(store, [], ParseForm(fields)) == (r.0, r.1, false)
  {
    ParseDistinctForm(fields);
    IngestSingles(store, [], fields);
  }

  /** Every key the form sends is a property of the parsed body. */
  lemma {:induction false} ParsedHasKey(fields: seq<(string, string)>, i: nat)
    requires i < |fields|
    ensures Get(ParseForm(fields), fields[i].0).Some?
  {
    var init := fields[..|fields| - 1];
    var (k, v) := fields[|fields| - 1];
    var b := ParseForm(init);
    PutGet(b, k, AddValue(Get(b, k), v), fields[i].0);
    if i < |fields| - 1 {
      ParsedHasKey(init, i);
    }
  }

  /** A key the form sends twice is an array in the parsed body. */
  lemma {:induction false} ParsedRepeats(fields: seq<(string, string)>, i: nat, j: nat)
    requires i < j < |fields| && fields[i].0 == fields[j].0
    ensures Get(ParseForm(fields), fields[i].0).Some? && Get(ParseForm(fields), fields[i].0).value.Repeated?
  {
    var init := fields[..|fields| - 1];
    var (k, v) := fields[|fields| - 1];
    var b := ParseForm(init);
    PutGet(b, k, AddValue(Get(b, k), v), fields[i].0);
    if j == |fields| - 1 {
      ParsedHasKey(init, i);
    } else {
      ParsedRepeats(init, i, j);
    }
  }

  /** The loop throws once it reaches a valid key that holds an array. */
  lemma {:induction false} IngestThrowsAt(store: map<string, map<string, string>>, changes: seq<string>,
                                          body: seq<(string, Posted)>, x: nat)
    requires x < |body| && body[x].1.Repeated? && FormKey(body[x].0).Some?
    ensures IngestBody(store, changes, body).2
  {
    if x < |body| - 1 {
      IngestThrowsAt(store, changes, body[..|body| - 1], x);
    }
  }

  /**
   * A valid key sent twice makes onPost throw: no mod note goes out, and
   * the fields before it are stored all the same.
   */
  lemma RepeatedFieldThrows(store: map<string, map<string, string>>, fields: seq<(string, string)>, i: nat, j: nat)
    requires i < j < |fields| && fields[i].0 == fields[j].0 && FormKey(fields[i].0).Some?
    ensures IngestBody(store, [], ParseForm(fields)).2
  {
    var body := ParseForm(fields);
    ParsedRepeats(fields, i, j);
    IngestThrowsAt(store, [], body, IndexOfKey(body, fields[i].0));
  }

  /** Every stored value is non-empty, and every stored image is a web URL. */
  predicate WellFormed(store: map<string, map<string, string>>) {
    forall d, p :: d in store && p in store[d] ==> store[d][p] != "" && (p == "image" ==> IsWebUrl(store[d][p]))
  }

  /** How the `daily` command ends. */
  datatype DailyReply =
    | Silent
    | Infobox(daily: string, pm: bool, room: string)
    | Denied
    | FormLink(permission: string, room: string)

  /**
   * The `daily` command, reached as `command` (the alias used): a daily's
   * own name shows its entry, by private infobox unless used in a room by
   * a voiced user; `daily` itself hands staff the form link.
   */
  function DailyCommand(command: string, roomid: string, hasPerms: char -> bool): DailyReply {
    if command != "daily" then
      if ParamsOf(command).None? then Silent
      else
        var pm := !(roomid != "" && hasPerms('+'));
        Infobox(command, pm, if pm then Room else roomid)
    else
      var room := if roomid == "" then Room else roomid;
      if !hasPerms('%') then Denied else FormLink("daily", room)
  }

  /** getHTML: a placeholder for a daily never stored, otherwise the entry to render (possibly empty). */
  datatype Html = NotSet(text: string) | Entry(fields: map<string, string>)

  function GetHtml(store: map<string, map<string, string>>, key: string): (h: Html)
    ensures h.NotSet? <==> key !in store
    ensures h.NotSet? ==> h.text == "<b>No " + key + " has been set yet.</b>"
  {
    if key !in store then NotSet("<b>No " + key + " has been set yet.</b>") else Entry(store[key])
  }

  /** `storage.getJSON('dailies')`. */
  class DailyStore {
    var store: map<string, map<string, string>>

    constructor (stored: map<string, map<string, string>>)
      ensures store == stored
    {
      store := stored;
    }

    /**
     * onPost: ingests the parsed form and reports the dailies changed; the
     * mod note goes out iff there are any and nothing threw.
     */
    method OnPost(fields: seq<(string, string)>) returns (changes: seq<string>, notify: bool, thrown: bool)
      modifies this
      ensures (store, changes, thrown) == IngestBody(old(store), [], ParseForm(fields))
      ensures notify <==> !thrown && changes != []
    {
      var body := ParseForm(fields);
      changes, thrown := [], false;
      var i := 0;
      while i < |body|
        invariant 0 <= i <= |body|
        invariant !thrown && (store, changes, false) == IngestBody(old(store), [], body[..i])
      {
        assert body[..i + 1][..i] == body[..i];
        var (key, posted) := body[i];
        if posted.Repeated? {
          if FormKey(key).Some? {
            thrown := true;
            ThrownStays(old(store), [], body, i + 1);
            assert body[..i + 1][..i] == body[..i];
            notify := false;
            return;
          }
        } else {
          changes := Ingest(changes, key, posted.value);
        }
        i := i + 1;
      }
      assert body[..i] == body;
      notify := |changes| > 0;
    }

    /** One pass of the onPost loop. */
    method Ingest(changes: seq<string>, key: string, value: string) returns (changes': seq<string>)
      modifies this
      ensures (store, changes') == IngestStep(old(store), changes, key, value)
    {
      changes' := changes;
      var field := FormKey(key);
      if field.None? {
        return;
      }
      changes' := Put(changes, field.value.0, field.value.1, FieldValue(field.value.1, value));
    }

    /** The body of the loop for a valid field. */
    method Put(changes: seq<string>, daily: string, param: string, val: string) returns (changes': seq<string>)
      modifies this
      ensures (store, changes') == Record(old(store), changes, daily, param, val)
    {
      changes' := changes;
      if daily !in store {
        store := store[daily := map[]];
      }
      assert store == old(store)[daily := Stored(old(store), daily)];
      if val == "" || (param in store[daily] && store[daily][param] == val) {
        return;
      }
      if daily !in changes {
        changes' := changes + [daily];
      }
      store := store[daily := store[daily][param := val]];
      assert store == old(store)[daily := Stored(old(store), daily)[param := val]];
    }
  }

  /** The alias table: every daily id names the `daily` command. */
  method BuildAliases() returns (aliases: map<string, string>)
    ensures aliases.Keys == set d | d in DailyIds
    ensures forall d :: d in aliases ==> aliases[d] == "daily"
  {
    aliases := map[];
    var i := 0;
    while i < |DailyIds|
      invariant 0 <= i <= |DailyIds|
      invariant aliases.Keys == set d | d in DailyIds[..i]
      invariant forall d :: d in aliases ==> aliases[d] == "daily"
    {
      assert DailyIds[..i + 1] == DailyIds[..i] + [DailyIds[i]];
      aliases := aliases[DailyIds[i] := "daily"];
      i := i + 1;
    }
    assert DailyIds[..i] == DailyIds;
  }

  /**
   * One valid field: the entry is created, the daily is noted as changed
   * exactly when its stored value is replaced, and other dailies stay.
   */
  lemma {:induction false} RecordChanges(store: map<string, map<string, string>>, changes: seq<string>,
                                         daily: string, param: string, val: string, other: string)
    ensures var r := Record(store, changes, daily, param, val);
      && daily in r.0 && r.0.Keys == store.Keys + {daily}
      && (other != daily ==> Stored(r.0, other) == Stored(store, other))
      && (r.0[daily] == Stored(store, daily) ==> r.1 == changes)
      && (r.0[daily] != Stored(store, daily) ==>
            && r.0[daily] == Stored(store, daily)[param := val]
            && r.1 == if daily in changes then changes else changes + [daily])
  {
  }

  /** A daily not noted as changed keeps its stored values, whatever the form held. */
  lemma {:induction false} UnnotedDailiesKeepValues(store: map<string, map<string, string>>, changes: seq<string>,
                                                    body: seq<(string, string)>, d: string)
    ensures var r := IngestAll(store, changes, body);
      && |r.1| >= |changes| && r.1[..|changes|] == changes
      && store.Keys <= r.0.Keys
      && (d !in r.1 ==> Stored(r.0, d) == Stored(store, d))
  {
    if body != [] {
      var r0 := IngestAll(store, changes, body[..|body| - 1]);
      UnnotedDailiesKeepValues(store, changes, body[..|body| - 1], d);
      var field := FormKey(body[|body| - 1].0);
      if field.Some? {
        RecordChanges(r0.0, r0.1, field.value.0, field.value.1, FieldValue(field.value.1, body[|body| - 1].1), d);
      }
    }
  }

  /** The changes name each daily at most once, and only known dailies. */
  lemma {:induction false} ChangesAreDistinctDailies(store: map<string, map<string, string>>, body: seq<(string, string)>)
    ensures Distinct(IngestAll(store, [], body).1)
    ensures forall i :: 0 <= i < |IngestAll(store, [], body).1| ==> IngestAll(store, [], body).1[i] in DailyIds
  {
    if body != [] {
      ChangesAreDistinctDailies(store, body[..|body| - 1]);
      var r0 := IngestAll(store, [], body[..|body| - 1]);
      var field := FormKey(body[|body| - 1].0);
      if field.Some? {
        var daily := field.value.0;
        assert daily in DailyIds;
        var c := Record(r0.0, r0.1, daily, field.value.1, FieldValue(field.value.1, body[|body| - 1].1)).1;
        assert c == r0.1 || (daily !in r0.1 && c == r0.1 + [daily]);
      }
    }
  }

  /** Ingesting keeps every stored value non-empty and every stored image a web URL. */
  lemma {:induction false} IngestKeepsWellFormed(store: map<string, map<string, string>>, changes: seq<string>,
                                                 body: seq<(string, string)>)
    requires WellFormed(store)
    ensures WellFormed(IngestAll(store, changes, body).0)
  {
    if body != [] {
      IngestKeepsWellFormed(store, changes, body[..|body| - 1]);
      var field := FormKey(body[|body| - 1].0);
      if field.Some? {
        ImageGetsScheme(body[|body| - 1].1);
        RecordKeepsWellFormed(IngestAll(store, changes, body[..|body| - 1]), field.value.1,
                              field.value.0, FieldValue(field.value.1, body[|body| - 1].1));
      }
    }
  }

  lemma {:induction false} RecordKeepsWellFormed(r: (map<string, map<string, string>>, seq<string>), param: string,
                                                 daily: string, val: string)
    requires WellFormed(r.0) && (param == "image" ==> IsWebUrl(val))
    ensures WellFormed(Record(r.0, r.1, daily, param, val).0)
  {
  }

  /** A valid field with an empty value still creates the entry, which then shows as set (though empty). */
  lemma {:induction false} EmptyFieldCreatesEntry(store: map<string, map<string, string>>, daily: string, param: string)
    requires daily in DailyIds && daily !in store && param in ParamsOf(daily).value && param != "image"
    requires '|' !in daily && '|' !in param
    ensures IngestStep(store, [], daily + "|" + param, "  ").0 == store[daily := map[]]
    ensures GetHtml(IngestStep(store, [], daily + "|" + param, "  ").0, daily) == Entry(map[])
  {
    SplitAtFirst(daily, '|', param);
    SplitNoSeparator(param, '|');
    assert daily + "|" + param == daily + ['|'] + param;
    assert FormKey(daily + "|" + param) == Some((daily, param));
    assert Trim("  ") == "";
  }

  /** An image given without a scheme is stored behind `http://`, an empty one as `http://` alone. */
  lemma {:induction false} ImageGetsScheme(value: string)
    ensures IsWebUrl(FieldValue("image", value))
    ensures !IsWebUrl(Trim(value)) ==> FieldValue("image", value) == "http://" + Trim(value)
    ensures Trim(value) == "" ==> FieldValue("image", value) == "http://"
  {
    if !IsWebUrl(Trim(value)) {
      assert ("http://" + Trim(value))[..7] == "http://";
    }
  }

  /**
   * The entry is shown privately exactly when the command is not used in a
   * room by a voiced user; the form link needs staff rank and defaults to
   * the library's room.
   */
  lemma {:induction false} DailyCommandBranches(command: string, roomid: string, hasPerms: char -> bool)
    ensures command != "daily" && command in DailyIds ==>
      DailyCommand(command, roomid, hasPerms).Infobox? &&
      (DailyCommand(command, roomid, hasPerms).pm <==> roomid == "" || !hasPerms('+'))
    ensures command != "daily" && command !in DailyIds ==> DailyCommand(command, roomid, hasPerms) == Silent
    ensures command == "daily" ==>
      (DailyCommand(command, roomid, hasPerms).FormLink? <==> hasPerms('%')) &&
      (hasPerms('%') ==> DailyCommand(command, roomid, hasPerms).room == if roomid == "" then Room else roomid)
  {
  }

  /** The link handed out by `daily` carries the permission of the form page, so it opens the form. */
  lemma {:induction false} FormLinkOpensForm(command: string, roomid: string, hasPerms: char -> bool,
                                             tokens: map<string, WebServer.TokenData>, token: string, userid: string,
                                             req: WebServer.Request)
    requires DailyCommand(command, roomid, hasPerms).FormLink?
    requires WebServer.QueryToken(req.url) == Some(token)
    ensures var link := DailyCommand(command, roomid, hasPerms);
      var issued := tokens[token := WebServer.TokenData(60 * 60000, Some(link.permission), link.room, userid)];
      WebServer.Resolve(WebServer.Page(Some("daily"), false), req, issued).Rendered?
  {
  }
}
