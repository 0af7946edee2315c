/** The handful of Python `str` and `pathlib` operations the modelled code relies on:
    `strip()`, `split(sep)`, `sep.join(...)`, the `in` substring test, `lower()`,
    the final path component, and `Path / str`. */
module Text {

  /** The characters Python's `str.isspace()` accepts. */
  const SpaceChars: set<char> := {
    ' ', '\t', '\n', '\U{000B}', '\U{000C}', '\r',
    '\U{001C}', '\U{001D}', '\U{001E}', '\U{001F}', '\U{0085}', '\U{00A0}', '\U{1680}',
    '\U{2000}', '\U{2001}', '\U{2002}', '\U{2003}', '\U{2004}', '\U{2005}', '\U{2006}',
    '\U{2007}', '\U{2008}', '\U{2009}', '\U{200A}',
    '\U{2028}', '\U{2029}', '\U{202F}', '\U{205F}', '\U{3000}'
  }

  /** Python's `str.isspace()` for one character. */
  predicate IsSpace(c: char) {
    c in SpaceChars
  }

  /** Every character is white space (the empty string included). */
  predicate Blank(s: string) {
    forall i :: 0 <= i < |s| ==> IsSpace(s[i])
  }

  /** Neither end of `s` is white space. */
  predicate Stripped(s: string) {
    s == [] || (!IsSpace(s[0]) && !IsSpace(s[|s| - 1]))
  }

  /** `s.lstrip()`: the longest suffix of `s` that does not start with white space. */
  function LStrip(s: string): (r: string)
    ensures |r| <= |s| && r == s[|s| - |r|..]
    ensures forall i :: 0 <= i < |s| - |r| ==> IsSpace(s[i])
    ensures r == [] || !IsSpace(r[0])
  {
    if |s| > 0 && IsSpace(s[0]) then
      var r := LStrip(s[1..]);
      assert forall i :: 1 <= i < |s| - |r| ==> s[i] == s[1..][i - 1];
      r
    else
      s
  }

  /** `s.rstrip()`: the longest prefix of `s` that does not end with white space. */
  function RStrip(s: string): (r: string)
    ensures |r| <= |s| && r == s[..|r|]
    ensures forall i :: |r| <= i < |s| ==> IsSpace(s[i])
    ensures r == [] || !IsSpace(r[|r| - 1])
  {
    if |s| > 0 && IsSpace(s[|s| - 1]) then
      var r := RStrip(s[..|s| - 1]);
      assert forall i :: |r| <= i < |s| - 1 ==> s[i] == s[..|s| - 1][i];
      r
    else
      s
  }

  /** `r` is `s` with a blank margin of length `i` cut from the front and a blank margin
      cut from the back. */
  predicate StripsTo(s: string, r: string, i: int) {
    0 <= i <= |s| - |r| && r == s[i..i + |r|] && Blank(s[..i]) && Blank(s[i + |r|..])
  }

  /** `s.strip()`: white space removed from both ends. The result is what remains of `s`
      between two blank margins, has no white space at either end, and is empty exactly
      when `s` is blank. */
  function Strip(s: string): (r: string)
    ensures |r| <= |s| && Stripped(r)
    ensures exists i :: StripsTo(s, r, i)
    ensures r == [] <==> Blank(s)
  {
    var l := LStrip(s);
    var r := RStrip(l);
    assert l != [] ==> !IsSpace(l[0]) && l[0] == s[|s| - |l|];
    assert l != [] ==> r != [];
    MarginsBlank(s, l, r);
    r
  }

  /** Cutting a blank front off `s`, leaving `l`, and a blank back off `l`, leaving `r`,
      leaves `r` between two blank margins of `s`. */
  lemma MarginsBlank(s: string, l: string, r: string)
    requires |l| <= |s| && l == s[|s| - |l|..] && forall k :: 0 <= k < |s| - |l| ==> IsSpace(s[k])
    requires |r| <= |l| && r == l[..|r|] && forall k :: |r| <= k < |l| ==> IsSpace(l[k])
    ensures StripsTo(s, r, |s| - |l|)
  {
    var i := |s| - |l|;
    assert r == s[i..i + |r|];
    forall k | 0 <= k < i
      ensures IsSpace(s[..i][k])
    {
      assert s[..i][k] == s[k];
    }
    var tail := s[i + |r|..];
    forall k | 0 <= k < |tail|
      ensures IsSpace(tail[k])
    {
      assert tail[k] == l[|r| + k];
    }
    assert Blank(s[..i]) && Blank(tail);
  }

  /** Stripping a string whose ends are not white space changes nothing; in
      particular `Strip` is idempotent. */
  lemma StripOfStripped(s: string)
    requires Stripped(s)
    ensures Strip(s) == s
  {
  }

  lemma StripIdempotent(s: string)
    ensures Strip(Strip(s)) == Strip(s)
  {
    StripOfStripped(Strip(s));
  }

  /** `s.endswith(t)` */
  predicate EndsWith(s: string, t: string) {
    |t| <= |s| && t == s[|s| - |t|..]
  }

  /** `sub in s` for strings. */
  predicate Contains(s: string, sub: string) {
    exists j :: 0 <= j <= |s| && sub <= s[j..]
  }

  /** ASCII lower-casing of one character. */
  function LowerChar(c: char): char {
    if 'A' <= c <= 'Z' then (c as int + 32) as char else c
  }

  /** `s.lower()` (ASCII letters only). */
  function Lower(s: string): (r: string)
    ensures |r| == |s|
  {
    seq(|s|, i requires 0 <= i < |s| => LowerChar(s[i]))
  }

  /** Python's `s.split(sep)` for a non-empty `sep`, scanning left to right;
      `cur` is the part of the current piece already scanned. */
  function SplitFrom(s: string, sep: string, cur: string): (r: seq<string>)
    requires |sep| > 0
    ensures |r| >= 1
    decreases |s|
  {
    if |s| == 0 then [cur]
    else if sep <= s then [cur] + SplitFrom(s[|sep|..], sep, "")
    else SplitFrom(s[1..], sep, cur + [s[0]])
  }

  /** `s.split(sep)`; Python refuses an empty separator. */
  function Split(s: string, sep: string): (r: seq<string>)
    requires |sep| > 0
    ensures |r| >= 1
  {
    SplitFrom(s, sep, "")
  }

  /** `sep.join(pieces)` */
  function Join(pieces: seq<string>, sep: string): string {
    if |pieces| == 0 then ""
    else if |pieces| == 1 then pieces[0]
    else pieces[0] + sep + Join(pieces[1..], sep)
  }

  /** Joining the pieces of a split with the same separator gives back the input. */
  lemma {:induction false} JoinSplitFrom(s: string, sep: string, cur: string)
    requires |sep| > 0
    ensures Join(SplitFrom(s, sep, cur), sep) == cur + s
    decreases |s|, 1
  {
    if |s| == 0 {
      assert cur + s == cur;
    } else if sep <= s {
      JoinSplitAtSep(s, sep, cur);
    } else {
      JoinSplitFrom(s[1..], sep, cur + [s[0]]);
      assert cur + [s[0]] + s[1..] == cur + s;
    }
  }

  /** The case of `JoinSplitFrom` where the scan stands on a separator: the current piece
      ends, and the separator reappears between it and the join of the rest. */
  lemma {:induction false} JoinSplitAtSep(s: string, sep: string, cur: string)
    requires |sep| > 0 && |s| > 0 && sep <= s
    ensures Join(SplitFrom(s, sep, cur), sep) == cur + s
    decreases |s|, 0
  {
    var s' := s[|sep|..];
    var rest := SplitFrom(s', sep, "");
    calc {
      Join(SplitFrom(s, sep, cur), sep);
      Join([cur] + rest, sep);
      { JoinCons(cur, rest, sep); }
      cur + sep + Join(rest, sep);
      { JoinSplitFrom(s', sep, ""); assert "" + s' == s'; }
      cur + sep + s';
      { assert s == sep + s'; }
      cur + s;
    }
  }

  /** Joining a list of at least two pieces puts the separator after the first. */
  lemma JoinCons(first: string, rest: seq<string>, sep: string)
    requires |rest| >= 1
    ensures Join([first] + rest, sep) == first + sep + Join(rest, sep)
  {
    assert ([first] + rest)[1..] == rest;
  }

  lemma JoinSplit(s: string, sep: string)
    requires |sep| > 0
    ensures Join(Split(s, sep), sep) == s
  {
    JoinSplitFrom(s, sep, "");
  }

  /** `s.split(sep)[-1]`: the text after the last separator found by the scan. */
  function LastPiece(s: string, sep: string): (r: string)
    requires |sep| > 0
    ensures !Contains(r, sep) && EndsWith(s, r)
    ensures FollowsSep(s, r, sep)
  {
    LastOfSplit(s, sep);
    var pieces := Split(s, sep);
    pieces[|pieces| - 1]
  }

  /** The facts about the last piece of a split, from the scan started with an empty
      current piece. */
  lemma LastOfSplit(s: string, sep: string)
    requires |sep| > 0
    ensures var pieces := Split(s, sep);
      !Contains(pieces[|pieces| - 1], sep) && EndsWith(s, pieces[|pieces| - 1]) &&
      FollowsSep(s, pieces[|pieces| - 1], sep)
  {
    LastPieceOfSplitFrom(s, sep, "");
    LastPieceFollowsSep(s, sep, "");
    assert "" + s == s;
  }

  /** The last line of stripped, non-empty text is not empty: an empty last piece would
      follow a newline at the very end, and the text cannot end in white space. */
  lemma LastLineOfStripped(s: string)
    requires Stripped(s)
    ensures s != [] ==> LastPiece(s, "\n") != []
  {
    if s != [] {
      assert IsSpace('\n');
    }
  }

  /** `r`, a suffix of `s`, is either all of `s` or directly preceded by `sep`. */
  predicate FollowsSep(s: string, r: string, sep: string) {
    |r| <= |s| && (r == s || EndsWith(s[..|s| - |r|], sep))
  }

  /** Appending to the front keeps a suffix. */
  lemma EndsWithAppend(a: string, b: string, t: string)
    requires EndsWith(b, t)
    ensures EndsWith(a + b, t)
  {
    assert (a + b)[|a + b| - |t|..] == b[|b| - |t|..];
  }

  /** No occurrence of `sep` in `t` starts before position `n`. */
  predicate NoMatchBefore(t: string, sep: string, n: nat) {
    forall j :: 0 <= j < n && j <= |t| ==> !(sep <= t[j..])
  }

  lemma {:induction false} LastPieceOfSplitFrom(s: string, sep: string, cur: string)
    requires |sep| > 0
    requires NoMatchBefore(cur + s, sep, |cur|)
    ensures var pieces := SplitFrom(s, sep, cur);
      var last := pieces[|pieces| - 1];
      !Contains(last, sep) && EndsWith(cur + s, last)
    decreases |s|, 1
  {
    var t := cur + s;
    if |s| == 0 {
      assert t == cur;
      forall j | 0 <= j <= |cur| ensures !(sep <= cur[j..]) {
        if j == |cur| {
          assert cur[j..] == [];
        }
      }
    } else if sep <= s {
      LastPieceAtSep(s, sep, cur);
    } else {
      var cur' := cur + [s[0]];
      assert cur' + s[1..] == t;
      forall j | 0 <= j < |cur'| && j <= |t| ensures !(sep <= t[j..]) {
        if j == |cur| {
          assert t[j..] == s;
        }
      }
      LastPieceOfSplitFrom(s[1..], sep, cur');
    }
  }

  /** The case of `LastPieceOfSplitFrom` where the scan stands on a separator: the last
      piece is the last piece of the text after it. */
  lemma {:induction false} LastPieceAtSep(s: string, sep: string, cur: string)
    requires |sep| > 0 && |s| > 0 && sep <= s
    ensures var pieces := SplitFrom(s, sep, cur);
      var last := pieces[|pieces| - 1];
      !Contains(last, sep) && EndsWith(cur + s, last)
    decreases |s|, 0
  {
    var s' := s[|sep|..];
    var rest := SplitFrom(s', sep, "");
    assert SplitFrom(s, sep, cur) == [cur] + rest;
    LastPieceOfSplitFrom(s', sep, "");
    assert "" + s' == s';
    var last := rest[|rest| - 1];
    assert EndsWith(s', last);
    assert s' == (cur + s)[|cur + s| - |s'|..];
  }

  /** The last piece of a split is the whole text or starts right after a separator. */
  lemma {:induction false} LastPieceFollowsSep(s: string, sep: string, cur: string)
    requires |sep| > 0
    ensures var pieces := SplitFrom(s, sep, cur);
      FollowsSep(cur + s, pieces[|pieces| - 1], sep)
    decreases |s|, 1
  {
    if |s| == 0 {
      assert cur + s == cur;
    } else if sep <= s {
      LastPieceFollowsSepAtSep(s, sep, cur);
    } else {
      assert (cur + [s[0]]) + s[1..] == cur + s;
      LastPieceFollowsSep(s[1..], sep, cur + [s[0]]);
    }
  }

  /** The case of `LastPieceFollowsSep` where the scan stands on a separator. */
  lemma {:induction false} LastPieceFollowsSepAtSep(s: string, sep: string, cur: string)
    requires |sep| > 0 && |s| > 0 && sep <= s
    ensures var pieces := SplitFrom(s, sep, cur);
      FollowsSep(cur + s, pieces[|pieces| - 1], sep)
    decreases |s|, 0
  {
    var s' := s[|sep|..];
    var rest := SplitFrom(s', sep, "");
    assert SplitFrom(s, sep, cur) == [cur] + rest;
    LastPieceFollowsSep(s', sep, "");
    assert "" + s' == s';
    assert cur + s == cur + sep + s';
    FollowsSepAfterSep(cur, sep, s', rest[|rest| - 1]);
  }

  /** A piece that follows a separator in `rest` still does after `cur + sep` is put in
      front of `rest`. */
  lemma FollowsSepAfterSep(cur: string, sep: string, rest: string, last: string)
    requires FollowsSep(rest, last, sep)
    ensures FollowsSep(cur + sep + rest, last, sep)
  {
    var t := cur + sep + rest;
    var front := rest[..|rest| - |last|];
    assert t[..|t| - |last|] == (cur + sep) + front;
    if last == rest {
      assert front == [];
      assert (cur + sep)[|cur + sep| - |sep|..] == sep;
    } else {
      EndsWithAppend(cur + sep, front, sep);
    }
  }

  /** The final path component, `s.rsplit('/', 1)[-1]` or `Path(s).name`: a suffix of
      `s` without a slash. */
  function BaseName(s: string): (r: string)
    ensures !Contains(r, "/") && EndsWith(s, r)
    ensures FollowsSep(s, r, "/")
  {
    LastPiece(s, "/")
  }

  /** `Path(a) / b` on POSIX: an absolute `b` replaces `a`, an empty `b` leaves `a`. */
  function PathJoin(a: string, b: string): (r: string)
    ensures |b| > 0 && b[0] == '/' ==> r == b
    ensures b == [] ==> r == a
    ensures |b| > 0 && b[0] != '/' && a == [] ==> r == b
    ensures |b| > 0 && b[0] != '/' && a != [] ==>
      a <= r && EndsWith(r, b) &&
      (a[|a| - 1] == '/' ==> |r| == |a| + |b|) &&
      (a[|a| - 1] != '/' ==> |r| == |a| + |b| + 1 && r[|a|] == '/')
  {
    if |b| > 0 && b[0] == '/' then b
    else if b == [] then a
    else if a == [] then b
    else if a[|a| - 1] == '/' then a + b
    else a + "/" + b
  }
}
