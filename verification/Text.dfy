/** src/tools.cpp: replaceString and explodeString; src/database.cpp: escapeBlob. */
module Text {
  import opened Wrappers
  import opened Words

  // ----- searching -----

  predicate Occurs(text: string, key: string, i: nat) {
    i + |key| <= |text| && text[i..i + |key|] == key
  }

  // std::string::find: the first occurrence from a position on
  function Find(text: string, key: string, from: nat): (r: Option<nat>)
    ensures r.Some? ==> from <= r.value && r.value + |key| <= |text|
    decreases |text| - from
  {
    if from + |key| > |text| then None
    else if Occurs(text, key, from) then Some(from)
    else if from == |text| then None
    else Find(text, key, from + 1)
  }

  lemma {:induction false} FindIsFirst(text: string, key: string, from: nat)
    ensures var r := Find(text, key, from);
      && (r.Some? ==> from <= r.value && Occurs(text, key, r.value))
      && forall i: nat :: from <= i && (r.Some? ==> i < r.value) ==> !Occurs(text, key, i)
    decreases |text| - from
  {
    if from + |key| <= |text| && !Occurs(text, key, from) && from < |text| {
      FindIsFirst(text, key, from + 1);
    }
  }

  // Only what comes after the position matters.
  lemma {:induction false} FindInRest(a: string, b: string, key: string, from: nat)
    requires from <= |b|
    ensures Find(a + b, key, |a| + from) ==
      if Find(b, key, from).Some? then Some(|a| + Find(b, key, from).value) else None
    decreases |b| - from
  {
    if from + |key| <= |b| {
      assert (a + b)[|a| + from..|a| + from + |key|] == b[from..from + |key|];
      if !Occurs(b, key, from) && from < |b| {
        FindInRest(a, b, key, from + 1);
      }
    }
  }

  // ----- splitting and joining -----

  function Join(pieces: seq<string>, value: string): string {
    if pieces == [] then ""
    else if |pieces| == 1 then pieces[0]
    else pieces[0] + value + Join(pieces[1..], value)
  }

  // The pieces between the non-overlapping occurrences of a key, found from left to right
  function Pieces(text: string, key: string): (ps: seq<string>)
    requires key != ""
    ensures ps != []
    decreases |text|
  {
    match Find(text, key, 0)
    case None => [text]
    case Some(i) => [text[..i]] + Pieces(text[i + |key|..], key)
  }

  // The same with at most `limit` cuts, all of them when there is no limit. With a limit the key may
  // be empty: each cut is then in front of the text.
  function LimitedPieces(text: string, key: string, limit: Option<nat>): (ps: seq<string>)
    requires key != "" || limit.Some?
    ensures ps != []
    decreases |text|, if limit.Some? then limit.value else 0
  {
    match Find(text, key, 0)
    case None => [text]
    case Some(i) =>
      if limit == Some(0) then [text]
      else [text[..i]] + LimitedPieces(text[i + |key|..], key, OneLess(limit))
  }

  function OneLess(limit: Option<nat>): Option<nat>
    requires limit != Some(0)
  {
    if limit.Some? then Some(limit.value - 1) else None
  }

  lemma {:induction false} NoLimit(text: string, key: string)
    requires key != ""
    ensures LimitedPieces(text, key, None) == Pieces(text, key)
    decreases |text|
  {
    match Find(text, key, 0) {
      case None =>
      case Some(i) => NoLimit(text[i + |key|..], key);
    }
  }

  lemma JoinFirst(p: string, ps: seq<string>, value: string)
    requires ps != []
    ensures Join([p] + ps, value) == p + value + Join(ps, value)
  {
    assert ([p] + ps)[1..] == ps;
  }

  // Joining the pieces with the separator gives the text back.
  lemma {:induction false} JoinPieces(text: string, key: string, limit: Option<nat>)
    requires key != "" || limit.Some?
    ensures Join(LimitedPieces(text, key, limit), key) == text
    decreases |text|, if limit.Some? then limit.value else 0
  {
    match Find(text, key, 0) {
      case None =>
      case Some(i) =>
        if limit != Some(0) {
          FindIsFirst(text, key, 0);
          hide Join, Find;
          var rest := text[i + |key|..];
          JoinPieces(rest, key, OneLess(limit));
          JoinFirst(text[..i], LimitedPieces(rest, key, OneLess(limit)), key);
          assert text == text[..i] + text[i..i + |key|] + rest;
        }
    }
  }

  // No piece but a last one cut short by the limit holds the separator.
  lemma {:induction false} PiecesAreFree(text: string, key: string)
    requires key != ""
    ensures forall p :: p in Pieces(text, key) ==> Find(p, key, 0) == None
    decreases |text|
  {
    match Find(text, key, 0) {
      case None =>
      case Some(i) =>
        PiecesAreFree(text[i + |key|..], key);
        NotBefore(text, key, i);
    }
  }

  lemma NotBefore(text: string, key: string, i: nat)
    requires key != "" && Find(text, key, 0) == Some(i)
    ensures Find(text[..i], key, 0) == None
  {
    FindIsFirst(text, key, 0);
    FindIsFirst(text[..i], key, 0);
    var f := Find(text[..i], key, 0);
    if f.Some? {
      OccursInPrefix(text, i, key, f.value);
    }
  }

  lemma OccursInPrefix(text: string, n: nat, key: string, i: nat)
    requires n <= |text| && Occurs(text[..n], key, i)
    ensures Occurs(text, key, i) && (key != "" ==> i < n)
  {
    assert text[..n][i..i + |key|] == text[i..i + |key|];
  }

  // How far a limit changes the split: it keeps as many of the pieces as it allows cuts, and one more
  // piece for the rest of the text. All pieces but that rest are those of the unlimited split.
  lemma {:induction false} LimitedExactly(text: string, key: string, limit: Option<nat>)
    requires key != ""
    ensures var ps, all := LimitedPieces(text, key, limit), Pieces(text, key);
      && |ps| == (if limit.Some? && limit.value + 1 < |all| then limit.value + 1 else |all|)
      && ps[..|ps| - 1] == all[..|ps| - 1]
    decreases |text|
  {
    match Find(text, key, 0) {
      case None =>
      case Some(i) =>
        if limit != Some(0) {
          hide Find, LimitedPieces, Pieces, OneLess;
          var rest := text[i + |key|..];
          LimitedExactly(rest, key, OneLess(limit));
          FirstPiece(text, key, i, limit, text[..i], rest);
          FirstWhole(text, key, i, rest);
          LessOne(limit);
          var ps, all := LimitedPieces(rest, key, OneLess(limit)), Pieces(rest, key);
          BehindFirst(text[..i], ps);
          CutBehindFirst(text[..i], all, |ps|);
        }
    }
  }

  lemma FirstWhole(text: string, key: string, i: nat, rest: string)
    requires key != "" && Find(text, key, 0) == Some(i) && rest == text[i + |key|..]
    ensures Pieces(text, key) == [text[..i]] + Pieces(rest, key)
  {
    hide Find;
  }

  lemma LessOne(limit: Option<nat>)
    requires limit != Some(0)
    ensures OneLess(limit).Some? <==> limit.Some?
    ensures limit.Some? ==> OneLess(limit).value == limit.value - 1
  {
  }

  lemma BehindFirst(p: string, ps: seq<string>)
    requires ps != []
    ensures ([p] + ps)[..|ps|] == [p] + ps[..|ps| - 1]
  {
  }

  lemma CutBehindFirst(p: string, ps: seq<string>, n: nat)
    requires 0 < n <= |ps|
    ensures ([p] + ps)[..n] == [p] + ps[..n - 1]
  {
  }

  // A split has at most one piece more than the limit, and only its last piece may hold the separator.
  lemma LimitedPiecesAreFree(text: string, key: string, limit: Option<nat>)
    requires key != ""
    ensures var ps := LimitedPieces(text, key, limit);
      && (limit.Some? ==> |ps| <= limit.value + 1)
      && (forall i :: 0 <= i < |ps| - 1 ==> Find(ps[i], key, 0) == None)
      && (limit.None? || |ps| <= limit.value ==> Find(ps[|ps| - 1], key, 0) == None)
  {
    hide Find, Pieces, LimitedPieces;
    LimitedExactly(text, key, limit);
    PiecesAreFree(text, key);
    var ps, all := LimitedPieces(text, key, limit), Pieces(text, key);
    forall i | 0 <= i < |ps| - 1 ensures Find(ps[i], key, 0) == None {
      assert ps[..|ps| - 1][i] == all[..|ps| - 1][i] && all[i] in all;
    }
    if limit.None? || |ps| <= limit.value {
      UnlimitedIsAll(text, key, limit);
      assert ps[|ps| - 1] in all;
    }
  }

  // A limit that is not reached changes nothing.
  lemma {:induction false} UnlimitedIsAll(text: string, key: string, limit: Option<nat>)
    requires key != "" && (limit.Some? ==> |LimitedPieces(text, key, limit)| <= limit.value)
    ensures LimitedPieces(text, key, limit) == Pieces(text, key)
    decreases |text|
  {
    match Find(text, key, 0) {
      case None =>
      case Some(i) =>
        if limit != Some(0) {
          hide Find;
          UnlimitedIsAll(text[i + |key|..], key, OneLess(limit));
        }
    }
  }

  // ----- trimming -----

  // Without the spaces at the end, at the beginning
  function TrimRight(s: string): (r: string)
    ensures r <= s
  {
    if s == "" || s[|s| - 1] != ' ' then s else TrimRight(s[..|s| - 1])
  }

  function TrimLeft(s: string): (r: string)
    ensures |r| <= |s| && s[|s| - |r|..] == r
  {
    if s == "" || s[0] != ' ' then s else TrimLeft(s[1..])
  }

  // trimString()
  function Trim(s: string): string { TrimLeft(TrimRight(s)) }

  predicate Spaces(s: string) { forall i :: 0 <= i < |s| ==> s[i] == ' ' }

  lemma {:induction false} TrimsRight(s: string)
    ensures var r := TrimRight(s);
      (forall i :: |r| <= i < |s| ==> s[i] == ' ') && (r != "" ==> r[|r| - 1] != ' ')
  {
    if s != "" && s[|s| - 1] == ' ' {
      TrimsRight(s[..|s| - 1]);
    }
  }

  lemma {:induction false} TrimsLeft(s: string)
    ensures var r := TrimLeft(s);
      (forall i :: 0 <= i < |s| - |r| ==> s[i] == ' ') && (r != "" ==> r[0] != ' ')
  {
    if s != "" && s[0] == ' ' {
      TrimsLeft(s[1..]);
      forall i | 0 < i < |s| - |TrimLeft(s)| ensures s[i] == ' ' {
        assert s[i] == s[1..][i - 1];
      }
    }
  }

  // Only spaces go, and none is left at either end.
  lemma Trims(s: string) returns (before: string, after: string)
    ensures Spaces(before) && Spaces(after) && s == before + Trim(s) + after
    ensures Trim(s) != "" ==> Trim(s)[0] != ' ' && Trim(s)[|Trim(s)| - 1] != ' '
  {
    hide TrimRight, TrimLeft, Spaces;
    var t := TrimRight(s);
    var r := TrimLeft(t);
    TrimsRight(s);
    TrimsLeft(t);
    before, after := t[..|t| - |r|], s[|t|..];
    SpacesBefore(t, |t| - |r|);
    SpacesAfter(s, |t|);
    ThreeParts(s, t, r);
  }

  lemma SpacesBefore(s: string, n: nat)
    requires n <= |s| && forall i :: 0 <= i < n ==> s[i] == ' '
    ensures Spaces(s[..n])
  {
  }

  lemma SpacesAfter(s: string, n: nat)
    requires n <= |s| && forall i :: n <= i < |s| ==> s[i] == ' '
    ensures Spaces(s[n..])
  {
  }

  lemma ThreeParts(s: string, t: string, r: string)
    requires t <= s && |r| <= |t| && t[|t| - |r|..] == r
    ensures s == t[..|t| - |r|] + r + s[|t|..]
    ensures r != "" ==> r[|r| - 1] == t[|t| - 1]
  {
    assert t == t[..|t| - |r|] + r && s == t + s[|t|..];
  }

  // explodeString() trims every piece but the last.
  function TrimmedPieces(ps: seq<string>, trim: bool): (r: seq<string>)
    ensures |r| == |ps|
  {
    seq(|ps|, i requires 0 <= i < |ps| => if trim && i < |ps| - 1 then Trim(ps[i]) else ps[i])
  }

  // Trimmed pieces keep everything but spaces at their ends, and the last piece keeps those too.
  lemma WhatIsTrimmed(ps: seq<string>, trim: bool, i: nat)
    requires i < |ps|
    ensures var p := TrimmedPieces(ps, trim)[i];
      && (!trim || i == |ps| - 1 ==> p == ps[i])
      && (trim && i < |ps| - 1 && p != "" ==> p[0] != ' ' && p[|p| - 1] != ' ')
      && exists before, after :: Spaces(before) && Spaces(after) && ps[i] == before + p + after
  {
    hide TrimRight, TrimLeft, Trim;
    if trim && i < |ps| - 1 {
      var before, after := Trims(ps[i]);
    } else {
      assert Spaces("") && ps[i] == "" + ps[i] + "";
    }
  }

  // The limit as the 16-bit counter of the source sees it: the counter never passes 65535.
  function CutLimit(limit: U16): Option<nat> {
    if limit == 0 || limit == 0xFFFF then None else Some(limit)
  }

  function Left(limit: U16, cuts: nat): Option<nat> {
    if limit == 0 || limit == 0xFFFF then None else if cuts <= limit then Some(limit - cuts) else Some(0)
  }

  lemma FirstPiece(text: string, key: string, i: nat, limit: Option<nat>, first: string, rest: string)
    requires (key != "" || limit.Some?) && Find(text, key, 0) == Some(i) && limit != Some(0)
    requires first == text[..i] && rest == text[i + |key|..]
    ensures LimitedPieces(text, key, limit) == [first] + LimitedPieces(rest, key, OneLess(limit))
  {
    hide Find;
  }

  // One turn of the loop
  lemma NextCut(text: string, key: string, start: nat, end: nat, limit: Option<nat>)
    requires start <= |text| && Find(text, key, start) == Some(end)
    requires (key != "" || limit.Some?) && limit != Some(0)
    ensures start <= end && end + |key| <= |text|
    ensures LimitedPieces(text[start..], key, limit) ==
      [text[start..end]] + LimitedPieces(text[end + |key|..], key, OneLess(limit))
  {
    hide Find, LimitedPieces, OneLess;
    FindFrom(text, key, start);
    SameRest(text, start, end - start, |key|);
    FirstPiece(text[start..], key, end - start, limit, text[start..end], text[end + |key|..]);
  }

  lemma LastCut(text: string, key: string, start: nat, limit: Option<nat>)
    requires start <= |text| && (key != "" || limit.Some?) && Find(text, key, start) == None
    ensures LimitedPieces(text[start..], key, limit) == [text[start..]]
  {
    hide Find;
    FindFrom(text, key, start);
  }

  lemma SameRest(text: string, start: nat, i: nat, k: nat)
    requires start + i + k <= |text|
    ensures text[start..][..i] == text[start..start + i] && text[start..][i + k..] == text[start + i + k..]
  {
  }

  method ExplodeString(text: string, separator: string, trim: bool, limit: U16) returns (pieces: seq<string>)
    requires separator != "" || CutLimit(limit).Some?
    ensures pieces == TrimmedPieces(LimitedPieces(text, separator, CutLimit(limit)), trim)
  {
    hide Find, LimitedPieces, Trim;
    ghost var cut: seq<string> := [];
    var start: nat := 0;
    var i: U16 := 1;
    ghost var cuts := 0;
    pieces := [];
    assert text[0..] == text;
    while true
      invariant start <= |text| && i == Wrap16(1 + cuts)
      invariant Left(limit, cuts).None? || cuts < limit
      invariant LimitedPieces(text, separator, CutLimit(limit)) ==
        cut + LimitedPieces(text[start..], separator, Left(limit, cuts))
      invariant |pieces| == |cut| && forall k :: 0 <= k < |cut| ==> pieces[k] == if trim then Trim(cut[k]) else cut[k]
      decreases |text| - start, if separator == "" then limit - cuts else 0
    {
      var end := Find(text, separator, start);
      if end == None {
        LastCut(text, separator, start, Left(limit, cuts));
        break;
      }
      NextCut(text, separator, start, end.value, Left(limit, cuts));
      var t := text[start..end.value];
      cut := cut + [t];
      if trim {
        t := Trim(t);
      }
      pieces := pieces + [t];
      start := end.value + |separator|;
      i := Wrap16(i + 1);
      cuts := cuts + 1;
      if limit > 0 && i > limit {
        NothingLeft(text[start..], separator);
        break;
      }
    }
    pieces := pieces + [text[start..]];
  }

  lemma NothingLeft(text: string, key: string)
    ensures LimitedPieces(text, key, Some(0)) == [text]
  {
  }

  // An empty separator is found at once and consumes nothing: as many empty pieces as the limit allows
  // come in front of the whole text.
  lemma {:induction false} EmptySeparator(text: string, limit: nat)
    ensures LimitedPieces(text, "", Some(limit)) == seq(limit, _ => "") + [text]
  {
    if limit > 0 {
      EmptySeparator(text, limit - 1);
      assert seq(limit, _ => "") == [""] + seq(limit - 1, _ => "");
    }
  }

  // The source's counter ends the loop on turn n.
  predicate LimitEnds(limit: U16, n: nat) { limit > 0 && Wrap16(1 + n) > limit }

  // It is all that can end the loop when the separator is empty, and it does exactly for the limits
  // from 1 to 65534.
  lemma EmptySeparatorEnds(text: string, start: nat, limit: U16)
    requires start <= |text|
    ensures Find(text, "", start) == Some(start)
    ensures (exists n: nat :: n > 0 && LimitEnds(limit, n)) <==> CutLimit(limit).Some?
  {
    if CutLimit(limit).Some? {
      assert LimitEnds(limit, limit);
    }
  }

  // Finding from a position is finding in the rest of the text.
  lemma FindFrom(text: string, key: string, start: nat)
    requires start <= |text|
    ensures var rest := text[start..];
      Find(text, key, start) == if Find(rest, key, 0).Some? then Some(start + Find(rest, key, 0).value) else None
    ensures Find(text, key, start).Some? ==>
      var end, rest := Find(text, key, start).value, text[start..];
      end + |key| <= |text| && start <= end
      && rest[..end - start] == text[start..end] && rest[end - start + |key|..] == text[end + |key|..]
  {
    FindInRest(text[..start], text[start..], key, 0);
    assert text[..start] + text[start..] == text;
  }

  // replaceString(): a value that holds the key is not searched again.
  method ReplaceString(text: string, key: string, value: string) returns (found: bool, result: string)
    requires key != ""
    ensures found <==> Find(text, key, 0).Some?
    ensures result == Join(Pieces(text, key), value)
  {
    hide Find, Join, Pieces;
    result := text;
    assert text[0..] == text;
    NextReplacement(result, 0, key, value);
    if Find(result, key, 0) == None {
      return false, text;
    }
    var pos: nat := 0;
    while true
      invariant pos <= |result|
      invariant Join(Pieces(text, key), value) == result[..pos] + Join(Pieces(result[pos..], key), value)
      decreases |result| - pos
    {
      NextReplacement(result, pos, key, value);
      var start := Find(result, key, pos);
      if start == None {
        assert result == result[..pos] + result[pos..];
        break;
      }
      result := result[..start.value] + value + result[start.value + |key|..];
      pos := start.value + |value|;
    }
    found := true;
  }

  // One turn of the loop: what is in front of the new position is final.
  lemma NextReplacement(result: string, pos: nat, key: string, value: string)
    requires pos <= |result| && key != ""
    ensures Find(result, key, pos) == None ==> Join(Pieces(result[pos..], key), value) == result[pos..]
    ensures Find(result, key, pos).Some? ==>
      var start := Find(result, key, pos).value;
      pos <= start && start + |key| <= |result|
      && var next, end := result[..start] + value + result[start + |key|..], start + |value|;
         |next| - end < |result| - pos && end <= |next|
         && result[..pos] + Join(Pieces(result[pos..], key), value) ==
           next[..end] + Join(Pieces(next[end..], key), value)
  {
    hide Find, Join, Pieces;
    FindFrom(result, key, pos);
    if Find(result, key, pos).Some? {
      var start := Find(result, key, pos).value;
      NextPiece(result[pos..], key, value);
      Resplit(result, pos, start, |key|, value, Join(Pieces(result[start + |key|..], key), value));
    } else {
      LastPiece(result[pos..], key, value);
    }
  }

  lemma Resplit(s: string, pos: nat, start: nat, k: nat, value: string, tail: string)
    requires pos <= start && start + k <= |s|
    ensures var next, end := s[..start] + value + s[start + k..], start + |value|;
      |next| - end == |s| - (start + k) && next[end..] == s[start + k..]
      && s[..pos] + (s[pos..][..start - pos] + value + tail) == next[..end] + tail
  {
    var next, end := s[..start] + value + s[start + k..], start + |value|;
    assert next[..end] == s[..start] + value;
    assert s[..start] == s[..pos] + s[pos..][..start - pos];
  }

  lemma LastPiece(rest: string, key: string, value: string)
    requires key != "" && Find(rest, key, 0) == None
    ensures Join(Pieces(rest, key), value) == rest
  {
  }

  lemma NextPiece(rest: string, key: string, value: string)
    requires key != "" && Find(rest, key, 0).Some?
    ensures var i := Find(rest, key, 0).value;
      i + |key| <= |rest|
      && Join(Pieces(rest, key), value) == rest[..i] + value + Join(Pieces(rest[i + |key|..], key), value)
  {
    var i := Find(rest, key, 0).value;
    JoinFirst(rest[..i], Pieces(rest[i + |key|..], key), value);
  }

  // An empty key is why the key must not be empty: it is found again at every turn, and what is
  // left of the text never gets shorter.
  lemma EmptyKeyNeverEnds(text: string, pos: nat, value: string)
    requires pos <= |text|
    ensures Find(text, "", pos) == Some(pos)
    ensures var next, end := text[..pos] + value + text[pos..], pos + |value|;
      Find(next, "", end) == Some(end) && next[end..] == text[pos..]
  {
  }

  // Replacing is splitting without limit and joining with the value; by itself it changes nothing.
  lemma ReplaceIsSplitAndJoin(text: string, key: string, value: string)
    requires key != ""
    ensures Join(Pieces(text, key), value) ==
      Join(TrimmedPieces(LimitedPieces(text, key, CutLimit(0)), false), value)
    ensures Join(Pieces(text, key), key) == text
  {
    NoLimit(text, key);
    JoinPieces(text, key, None);
    assert TrimmedPieces(Pieces(text, key), false) == Pieces(text, key);
  }

  // ----- literals -----

  const SUB: char := '\U{1A}'

  function Escaped(c: char): string {
    match c
    case '\0' => "\\0"
    case '\n' => "\\n"
    case '\r' => "\\r"
    case '\\' => "\\\\"
    case '\'' => "\\'"
    case '"' => "\\\""
    case _ => if c == SUB then "\\Z" else [c]
  }

  function EscapedAll(s: string): string {
    if s == "" then "" else Escaped(s[0]) + EscapedAll(s[1..])
  }

  function Literal(connected: bool, s: string): string {
    if !connected || s == "" then "''" else "'" + EscapedAll(s) + "'"
  }

  lemma {:induction false} EscapedMore(s: string, t: string)
    ensures EscapedAll(s + t) == EscapedAll(s) + EscapedAll(t)
  {
    if s == "" {
      assert s + t == t;
    } else {
      assert (s + t)[1..] == s[1..] + t;
      EscapedMore(s[1..], t);
    }
  }

  method EscapeBlob(connected: bool, s: string) returns (output: string)
    ensures output == Literal(connected, s)
  {
    if !connected || |s| == 0 {
      return "''";
    }
    output := "'";
    for i := 0 to |s|
      invariant output == "'" + EscapedAll(s[..i])
    {
      assert s[..i + 1] == s[..i] + [s[i]];
      EscapedMore(s[..i], [s[i]]);
      match s[i] {
        case '\0' => output := output + "\\0";
        case '\n' => output := output + "\\n";
        case '\r' => output := output + "\\r";
        case '\\' => output := output + "\\\\";
        case '\'' => output := output + "\\'";
        case '"' => output := output + "\\\"";
        case _ =>
          if s[i] == SUB {
            output := output + "\\Z";
          } else {
            output := output + [s[i]];
          }
      }
    }
    assert s[..|s|] == s;
    output := output + "'";
  }

  // Nothing in an escaped text could end a literal or a line: no zero byte, line break or control-Z is
  // left, and each quote and each backslash stands behind a backslash of its own or in front of what
  // it escapes.
  predicate Harmless(e: string)
    decreases |e|
  {
    e == ""
    || (e[0] == '\\' && |e| >= 2 && !IsControl(e[1]) && Harmless(e[2..]))
    || (!IsControl(e[0]) && !IsQuote(e[0]) && Harmless(e[1..]))
  }

  predicate IsControl(c: char) { c == '\0' || c == '\n' || c == '\r' || c == SUB }

  predicate IsQuote(c: char) { c == '\\' || c == '\'' || c == '"' }

  lemma {:induction false} EscapedIsHarmless(s: string)
    ensures Harmless(EscapedAll(s))
  {
    if s != "" {
      EscapedIsHarmless(s[1..]);
      HarmlessFirst(s[0], EscapedAll(s[1..]));
    }
  }

  lemma HarmlessFirst(c: char, e: string)
    requires Harmless(e)
    ensures Harmless(Escaped(c) + e)
  {
    hide Harmless;
    var x := Escaped(c);
    assert (x + e)[|x|..] == e && (x + e)[0] == x[0];
    if |x| == 2 {
      assert (x + e)[1] == x[1];
      HarmlessPair(x + e);
    } else {
      HarmlessPlain(x + e);
    }
  }

  lemma HarmlessPair(e: string)
    requires |e| >= 2 && e[0] == '\\' && !IsControl(e[1]) && Harmless(e[2..])
    ensures Harmless(e)
  {
  }

  lemma HarmlessPlain(e: string)
    requires e != "" && !IsControl(e[0]) && !IsQuote(e[0]) && Harmless(e[1..])
    ensures Harmless(e)
  {
  }

  // A string literal as section 9.1.1 of the MySQL 8.0 Reference Manual reads it, with backslash
  // escapes: its value and its length, or None if it does not end.
  datatype Token = Token(value: string, length: nat)

  function Meaning(c: char): string {
    match c
    case '0' => "\0"
    case 'b' => "\U{08}"
    case 'n' => "\n"
    case 'r' => "\r"
    case 't' => "\t"
    case 'Z' => [SUB]
    case '%' => "\\%"
    case '_' => "\\_"
    case _ => [c]
  }

  function Prefix(p: string, n: nat, t: Option<Token>): Option<Token> {
    if t.None? then None else Some(Token(p + t.value.value, n + t.value.length))
  }

  function LexBody(t: string): Option<Token> {
    if t == "" then None
    else if t[0] == '\'' then
      if |t| > 1 && t[1] == '\'' then Prefix("'", 2, LexBody(t[2..])) else Some(Token("", 1))
    else if t[0] == '\\' then
      if |t| == 1 then None else Prefix(Meaning(t[1]), 2, LexBody(t[2..]))
    else Prefix([t[0]], 1, LexBody(t[1..]))
  }

  function Lex(t: string): Option<Token> {
    if t == "" || t[0] != '\'' then None else Prefix("", 1, LexBody(t[1..]))
  }

  lemma LexEscaped(c: char, t: string)
    ensures LexBody(Escaped(c) + t) == Prefix([c], |Escaped(c)|, LexBody(t))
  {
    hide LexBody;
    var e := Escaped(c);
    assert (e + t)[|e|..] == t && (e + t)[0] == e[0];
    if |e| == 2 {
      assert (e + t)[1] == e[1];
      LexPair(e + t);
      assert e[0] == '\\' && Meaning(e[1]) == [c];
    } else {
      LexPlain(e + t);
    }
  }

  lemma LexPair(t: string)
    requires |t| >= 2 && t[0] == '\\'
    ensures LexBody(t) == Prefix(Meaning(t[1]), 2, LexBody(t[2..]))
  {
    hide Meaning;
  }

  lemma LexPlain(t: string)
    requires t != "" && t[0] != '\\' && t[0] != '\''
    ensures LexBody(t) == Prefix([t[0]], 1, LexBody(t[1..]))
  {
    hide Meaning;
  }

  lemma {:induction false} LexAll(s: string, suffix: string)
    requires suffix != "" ==> suffix[0] != '\''
    ensures LexBody(EscapedAll(s) + "'" + suffix) == Some(Token(s, |EscapedAll(s)| + 1))
  {
    hide Escaped;
    if s == "" {
      EmptyBody(suffix);
    } else {
      hide LexBody;
      var e, r := Escaped(s[0]), EscapedAll(s[1..]);
      LexAll(s[1..], suffix);
      LexEscaped(s[0], r + "'" + suffix);
      Regroup(e, r, suffix);
      PrefixFirst(s, |e|, |r| + 1);
    }
  }

  lemma PrefixFirst(s: string, n: nat, m: nat)
    requires s != ""
    ensures Prefix([s[0]], n, Some(Token(s[1..], m))) == Some(Token(s, n + m))
  {
    assert [s[0]] + s[1..] == s;
  }

  lemma EmptyBody(suffix: string)
    requires suffix != "" ==> suffix[0] != '\''
    ensures LexBody("" + "'" + suffix) == Some(Token("", 1))
  {
    var t := "" + "'" + suffix;
    assert t[0] == '\'' && t[1..] == suffix;
    if suffix != "" {
      assert t[1] == suffix[0];
    }
  }

  lemma Regroup(e: string, r: string, suffix: string)
    ensures (e + r) + "'" + suffix == e + (r + "'" + suffix)
  {
  }

  // In front of any text that does not begin with a quote, the literal is read as exactly one
  // literal. Its value is the input, except for a non-empty input without a connection.
  lemma LiteralRoundTrip(connected: bool, s: string, suffix: string)
    requires suffix != "" ==> suffix[0] != '\''
    ensures Lex(Literal(connected, s) + suffix) ==
      Some(Token(if connected then s else "", |Literal(connected, s)|))
  {
    hide LexBody;
    var l := Literal(connected, s);
    var e := if connected then s else "";
    assert l == "'" + EscapedAll(e) + "'";
    Regroup("'", EscapedAll(e), suffix);
    assert (l + suffix)[1..] == EscapedAll(e) + "'" + suffix;
    assert (l + suffix)[0] == '\'';
    LexAll(e, suffix);
    assert "" + e == e;
  }
}
