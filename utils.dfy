/**
 * utils.js: the identifier normalisation every other component keys its maps
 * by, the zero padding used in timestamps, and the query-string reader used
 * by the web pages.
 */
module Utils {
  import opened Wrappers
  import opened JsText

  predicate IsIdChar(c: char) {
    'a' <= c <= 'z' || '0' <= c <= '9'
  }

  predicate IsRoomIdChar(c: char) {
    IsIdChar(c) || c == '-'
  }

  /** replace(/[^a-z0-9]/g, '') */
  function KeepIdChars(s: string): (r: string)
    ensures forall i :: 0 <= i < |r| ==> IsIdChar(r[i])
  {
    if s == [] then [] else (if IsIdChar(s[0]) then [s[0]] else []) + KeepIdChars(s[1..])
  }

  /** replace(/[^a-z0-9-]/g, '') */
  function KeepRoomIdChars(s: string): (r: string)
    ensures forall i :: 0 <= i < |r| ==> IsRoomIdChar(r[i])
  {
    if s == [] then [] else (if IsRoomIdChar(s[0]) then [s[0]] else []) + KeepRoomIdChars(s[1..])
  }

  /** toId: lower-case, then drop everything outside a-z and 0-9. */
  function ToId(s: string): (id: string)
    ensures forall i :: 0 <= i < |id| ==> IsIdChar(id[i])
  {
    KeepIdChars(Lower(s))
  }

  /** toRoomId: trim, lower-case, then drop everything outside a-z, 0-9 and '-'. */
  function ToRoomId(s: string): (id: string)
    ensures forall i :: 0 <= i < |id| ==> IsRoomIdChar(id[i])
  {
    KeepRoomIdChars(Lower(Trim(s)))
  }

  lemma {:induction false} LowerOfLowered(s: string)
    requires forall i :: 0 <= i < |s| ==> !('A' <= s[i] <= 'Z')
    ensures Lower(s) == s
  {
    assert forall i :: 0 <= i < |s| ==> Lower(s)[i] == s[i];
  }

  lemma {:induction false} KeepIdCharsOfIds(s: string)
    requires forall i :: 0 <= i < |s| ==> IsIdChar(s[i])
    ensures KeepIdChars(s) == s
  {
    if s != [] {
      KeepIdCharsOfIds(s[1..]);
      assert [s[0]] + s[1..] == s;
    }
  }

  lemma {:induction false} KeepRoomIdCharsOfRoomIds(s: string)
    requires forall i :: 0 <= i < |s| ==> IsRoomIdChar(s[i])
    ensures KeepRoomIdChars(s) == s
  {
    if s != [] {
      KeepRoomIdCharsOfRoomIds(s[1..]);
      assert [s[0]] + s[1..] == s;
    }
  }

  lemma {:induction false} ToIdIdempotent(s: string)
    ensures ToId(ToId(s)) == ToId(s)
  {
    var id := ToId(s);
    LowerOfLowered(id);
    KeepIdCharsOfIds(id);
  }

  lemma {:induction false} ToRoomIdIdempotent(s: string)
    ensures ToRoomId(ToRoomId(s)) == ToRoomId(s)
  {
    var id := ToRoomId(s);
    assert id == [] || (!IsSpace(id[0]) && !IsSpace(id[|id| - 1]));
    TrimOfTrimmed(id);
    LowerOfLowered(id);
    KeepRoomIdCharsOfRoomIds(id);
  }

  lemma {:induction false} KeepIdCharsAppend(a: string, b: string)
    ensures KeepIdChars(a + b) == KeepIdChars(a) + KeepIdChars(b)
  {
    if a != [] {
      assert (a + b)[1..] == a[1..] + b;
      KeepIdCharsAppend(a[1..], b);
    } else {
      assert a + b == b;
    }
  }

  lemma {:induction false} KeepIdCharsOfRoomIdChars(s: string)
    ensures KeepIdChars(KeepRoomIdChars(s)) == KeepIdChars(s)
  {
    if s != [] {
      KeepIdCharsOfRoomIdChars(s[1..]);
      var head := if IsRoomIdChar(s[0]) then [s[0]] else [];
      KeepIdCharsAppend(head, KeepRoomIdChars(s[1..]));
      assert KeepIdChars(head) == if IsIdChar(s[0]) then [s[0]] else [];
    }
  }

  /** Lower-cased white space carries no identifier character. */
  lemma {:induction false} KeepIdCharsOfSpaces(s: string)
    requires forall i :: 0 <= i < |s| ==> IsSpace(s[i])
    ensures KeepIdChars(Lower(s)) == []
  {
    if s != [] {
      KeepIdCharsOfSpaces(s[1..]);
      assert Lower(s) == [LowerChar(s[0])] + Lower(s[1..]);
      assert Lower(s)[1..] == Lower(s[1..]);
    }
  }

  /** White space around a text adds no identifier character. */
  lemma {:induction false} KeepIdCharsOfSpaced(pre: string, r: string, post: string)
    requires forall k :: 0 <= k < |pre| ==> IsSpace(pre[k])
    requires forall k :: 0 <= k < |post| ==> IsSpace(post[k])
    ensures KeepIdChars(Lower(pre + r + post)) == KeepIdChars(Lower(r))
  {
    KeepIdCharsOfSpaces(pre);
    KeepIdCharsOfSpaces(post);
    LowerAppend(pre + r, post);
    LowerAppend(pre, r);
    KeepIdCharsAppend(Lower(pre + r), Lower(post));
    KeepIdCharsAppend(Lower(pre), Lower(r));
  }

  lemma {:induction false} ThreeParts(s: string, i: nat, n: nat)
    requires i + n <= |s|
    ensures s == s[..i] + s[i..i + n] + s[i + n..]
  {
  }

  lemma {:induction false} KeepIdCharsIgnoresTrim(s: string)
    ensures KeepIdChars(Lower(Trim(s))) == KeepIdChars(Lower(s))
  {
    TrimIsSlice(s);
    var i, r := SkipSpace(s, 0), Trim(s);
    var pre, post := s[..i], s[i + |r|..];
    ThreeParts(s, i, |r|);
    forall k | 0 <= k < |post| ensures IsSpace(post[k]) {
      assert post[k] == s[i + |r| + k];
    }
    KeepIdCharsOfSpaced(pre, r, post);
  }

  /** A leading rank symbol (no letter or digit) leaves the id of a name unchanged. */
  lemma {:induction false} RankIsNotPartOfId(rank: char, name: string)
    requires !IsIdChar(LowerChar(rank))
    ensures ToId([rank] + name) == ToId(name)
  {
    LowerAppend([rank], name);
    assert Lower([rank]) == [LowerChar(rank)];
    assert ([LowerChar(rank)] + Lower(name))[1..] == Lower(name);
  }

  /**
   * The key a room gets under toId is its room id under toRoomId with the
   * hyphens taken out: "a-b" and "ab" name the same presence entry.
   */
  lemma {:induction false} ToIdIsRoomIdWithoutHyphens(s: string)
    ensures ToId(s) == ToId(ToRoomId(s))
    ensures '-' !in ToId(s)
  {
    var id := ToRoomId(s);
    assert forall i :: 0 <= i < |id| ==> !('A' <= id[i] <= 'Z');
    LowerOfLowered(id);
    calc {
      ToId(id);
      KeepIdChars(Lower(id));
      KeepIdChars(KeepRoomIdChars(Lower(Trim(s))));
      { KeepIdCharsOfRoomIdChars(Lower(Trim(s))); }
      KeepIdChars(Lower(Trim(s)));
      { KeepIdCharsIgnoresTrim(s); }
      ToId(s);
    }
    assert !IsIdChar('-');
  }

  /** Above nine, the decimal text has two digits or more and no leading zero. */
  lemma {:induction false} NatToStringLeadingDigit(n: nat)
    ensures n >= 10 ==> |NatToString(n)| >= 2 && NatToString(n)[0] != '0'
    decreases n
  {
    if n / 10 >= 10 {
      NatToStringLeadingDigit(n / 10);
    }
  }

  /**
   * leftpad: a number below ten gets one leading "0"; any other is rendered
   * as it is. Either way the text is made of at least two digits, exactly
   * two below ten, and reads back as n.
   */
  function LeftPad(n: nat): (r: string)
    ensures |r| >= 2 && (n < 10 ==> |r| == 2)
    ensures forall i :: 0 <= i < |r| ==> '0' <= r[i] <= '9'
    ensures (r[0] == '0') == (n < 10)
    ensures ParseInt(r) == Some(n)
  {
    NatToStringLeadingDigit(n);
    var r := if n < 10 then "0" + NatToString(n) else NatToString(n);
    ParseIntOfDecimal(r, n);
    r
  }

  /** The `&`-separated parts that split on '=' into exactly two pieces, later ones overwriting earlier ones. */
  function QueryMap(parts: seq<string>): map<string, string> {
    if parts == [] then map[]
    else
      var m := QueryMap(parts[..|parts| - 1]);
      var elem := Split(parts[|parts| - 1], '=');
      if |elem| == 2 then m[elem[0] := elem[1]] else m
  }

  /** parseQueryString as a value: only the text between the first and the second '?' is read. */
  function QueryOf(url: string): map<string, string> {
    var split := Split(url, '?');
    if |split| == 1 then map[] else QueryMap(Split(split[1], '&'))
  }

  /** Part `i` of a query is the pair k=v. */
  predicate PairAt(parts: seq<string>, i: int, k: string, v: string) {
    0 <= i < |parts| && Split(parts[i], '=') == [k, v]
  }

  method ParseQueryString(url: string) returns (output: map<string, string>)
    ensures output == QueryOf(url)
  {
    var split := Split(url, '?');
    if |split| == 1 {
      return map[];
    }
    var query := split[1];
    var parts := Split(query, '&');
    output := map[];
    for i := 0 to |parts|
      invariant output == QueryMap(parts[..i])
    {
      assert parts[..i + 1][..i] == parts[..i];
      var elem := Split(parts[i], '=');
      if |elem| == 2 {
        output := output[elem[0] := elem[1]];
      }
    }
    assert parts[..|parts|] == parts;
  }

  lemma {:induction false} QueryWithoutQuestionMark(url: string)
    requires '?' !in url
    ensures QueryOf(url) == map[]
  {
    SplitNoSeparator(url, '?');
  }

  /** Text after a second '?' is never read. */
  lemma {:induction false} QueryBetweenFirstTwo(pre: string, q: string, rest: string)
    requires '?' !in pre && '?' !in q
    ensures QueryOf(pre + "?" + q) == QueryMap(Split(q, '&'))
    ensures QueryOf(pre + "?" + q + "?" + rest) == QueryMap(Split(q, '&'))
  {
    SplitAtFirst(pre, '?', q);
    SplitNoSeparator(q, '?');
    SplitAtFirst(pre, '?', q + "?" + rest);
    assert pre + "?" + q + "?" + rest == pre + "?" + (q + "?" + rest);
    SplitAtFirst(q, '?', rest);
  }

  /** A key is present exactly when some part is a pair with that key. */
  lemma {:induction false} QueryMapKeys(parts: seq<string>, k: string)
    ensures k in QueryMap(parts) <==> exists i, v :: PairAt(parts, i, k, v)
  {
    if parts != [] {
      var init := parts[..|parts| - 1];
      QueryMapKeys(init, k);
      var last := |parts| - 1;
      var elem := Split(parts[last], '=');
      if k in QueryMap(parts) {
        if |elem| == 2 && elem[0] == k {
          assert PairAt(parts, last, k, elem[1]);
        } else {
          var i, v :| PairAt(init, i, k, v);
          assert PairAt(parts, i, k, v);
        }
      }
      if exists i, v :: PairAt(parts, i, k, v) {
        var i, v :| PairAt(parts, i, k, v);
        if i < last {
          assert PairAt(init, i, k, v);
        }
      }
    }
  }

  /** A later pair with the same key overwrites an earlier one. */
  lemma {:induction false} QueryMapLastWins(parts: seq<string>, i: int, k: string, v: string)
    requires PairAt(parts, i, k, v)
    requires forall j, w :: i < j < |parts| ==> !PairAt(parts, j, k, w)
    ensures k in QueryMap(parts) && QueryMap(parts)[k] == v
  {
    var last := |parts| - 1;
    var init := parts[..last];
    if i < last {
      forall j, w | i < j < |init|
        ensures !PairAt(init, j, k, w)
      {
        assert !PairAt(parts, j, k, w);
      }
      QueryMapLastWins(init, i, k, v);
      var elem := Split(parts[last], '=');
      if |elem| == 2 && elem[0] == k {
        assert PairAt(parts, last, k, elem[1]);
      }
    }
  }
}
