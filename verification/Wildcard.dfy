/** File name patterns: a pattern is cut at its stars, and a name is checked for the pieces. */
module Wildcard {
  import opened Common

  // ---- The code ----

  predicate At(s: string, p: string, k: nat) {
    k + |p| <= |s| && s[k..k + |p|] == p
  }

  /** The library's search: the leftmost place at or after `from`. */
  function Find(s: string, p: string, from: nat): (r: Option<nat>)
    ensures r.Some? ==> from <= r.value && At(s, p, r.value) && forall k :: from <= k < r.value ==> !At(s, p, k)
    ensures r.None? ==> forall k :: from <= k ==> !At(s, p, k)
    decreases |s| - from
  {
    if |s| < from + |p| then None else if At(s, p, from) then Some(from) else Find(s, p, from + 1)
  }

  method Cut(str: string, c: char) returns (ret: seq<string>)
    ensures ret == Pieces(str, c)
  {
    ret := [];
    var offset := 0;
    while true
      invariant offset <= |str| && Pieces(str, c) == ret + Pieces(str[offset..], c)
      decreases |str| - offset
    {
      var pos := Find(str, [c], offset);
      OnePieceMore(str, c, offset, ret);
      if pos.None? {
        ret := ret + [str[offset..]];
        return;
      }
      ret := ret + [str[offset..pos.value]];
      offset := pos.value + 1;
    }
  }

  method Check(str: string, pattern: seq<string>) returns (found: bool)
    ensures found <==> Occur(pattern, str, 0)
  {
    var offset: nat := 0;
    for i := 0 to |pattern|
      invariant offset <= |str| && (Occur(pattern, str, 0) <==> Occur(pattern[i..], str, offset))
    {
      LeftmostIsBest(pattern[i..], str, offset);
      assert pattern[i..][1..] == pattern[i + 1..];
      if pattern[i] != "" {
        var pos := Find(str, pattern[i], offset);
        if pos.None? {
          return false;
        }
        offset := pos.value + |pattern[i]|;
      }
    }
    found := true;
  }

  // ---- Meaning ----

  predicate Within(i: nat, k: nat, n: nat) {
    i <= k <= n
  }

  /** `p` matches `s` from `i` to its end; a star stands for any string. */
  ghost predicate Match(p: string, s: string, i: nat)
    decreases |p|
  {
    if p == "" then i == |s|
    else if p[0] == '*' then exists k :: Within(i, k, |s|) && Match(p[1..], s, k)
    else i < |s| && s[i] == p[0] && Match(p[1..], s, i + 1)
  }

  /** The pieces occur in `s` in order, without overlap, from `from` on. */
  ghost predicate Occur(pieces: seq<string>, s: string, from: nat)
    decreases |pieces|
  {
    pieces != [] ==> exists k :: from <= k && At(s, pieces[0], k) && Occur(pieces[1..], s, k + |pieces[0]|)
  }

  /** What lies between the cuts. */
  function Pieces(p: string, c: char): (r: seq<string>)
    ensures r != []
    decreases |p|
  {
    if p == "" then [""]
    else if p[0] == c then [""] + Pieces(p[1..], c)
    else
      var rest := Pieces(p[1..], c);
      [[p[0]] + rest[0]] + rest[1..]
  }

  function Join(pieces: seq<string>, c: char): string {
    if pieces == [] then "" else if |pieces| == 1 then pieces[0] else pieces[0] + [c] + Join(pieces[1..], c)
  }

  // ---- Cutting and joining ----

  lemma {:induction false} PiecesWithout(p: string, c: char)
    requires c !in p
    ensures Pieces(p, c) == [p]
    decreases |p|
  {
    if p != "" {
      PiecesWithout(p[1..], c);
      assert [p[0]] + p[1..] == p && [p[1..]][1..] == [];
    }
  }

  lemma {:induction false} PiecesAtCut(a: string, c: char, b: string)
    requires c !in a
    ensures Pieces(a + [c] + b, c) == [a] + Pieces(b, c)
    decreases |a|
  {
    var p := a + [c] + b;
    if a == "" {
      assert p[1..] == b;
    } else {
      assert p[1..] == a[1..] + [c] + b;
      PiecesAtCut(a[1..], c, b);
      assert ([a[1..]] + Pieces(b, c))[1..] == Pieces(b, c);
      assert [a[0]] + a[1..] == a;
    }
  }

  lemma NoneBefore(p: string, c: char, from: nat, end: nat)
    requires from <= end <= |p| && forall k :: from <= k < end ==> !At(p, [c], k)
    ensures c !in p[from..end]
  {
    forall k | from <= k < end
      ensures p[k] != c
    {
      assert p[k..k + 1] == [p[k]] && !At(p, [c], k);
    }
  }

  /** One turn of the cutting loop. */
  lemma PiecesStep(str: string, c: char, offset: nat)
    requires offset <= |str|
    ensures var pos := Find(str, [c], offset);
            Pieces(str[offset..], c) ==
              if pos.None? then [str[offset..]] else [str[offset..pos.value]] + Pieces(str[pos.value + 1..], c)
  {
    var pos := Find(str, [c], offset);
    var end := if pos.None? then |str| else pos.value;
    assert offset <= end <= |str| && forall k :: offset <= k < end ==> !At(str, [c], k);
    NoneBefore(str, c, offset, end);
    if pos.None? {
      PiecesWithout(str[offset..], c);
    } else {
      assert str[end..end + 1] == [c];
      assert str[offset..] == str[offset..end] + [c] + str[end + 1..];
      PiecesAtCut(str[offset..end], c, str[end + 1..]);
    }
  }

  lemma OnePieceMore(str: string, c: char, offset: nat, ret: seq<string>)
    requires offset <= |str|
    ensures var pos := Find(str, [c], offset);
            ret + Pieces(str[offset..], c) ==
              if pos.None? then ret + [str[offset..]]
              else ret + [str[offset..pos.value]] + Pieces(str[pos.value + 1..], c)
  {
    PiecesStep(str, c, offset);
  }

  lemma JoinFirst(a: string, rest: seq<string>, c: char)
    requires rest != []
    ensures Join([a] + rest, c) == a + [c] + Join(rest, c)
  {
    assert ([a] + rest)[1..] == rest;
  }

  /** Putting a character in front of the first piece puts it in front of the whole. */
  lemma JoinLonger(x: char, pieces: seq<string>, c: char)
    requires pieces != []
    ensures Join([[x] + pieces[0]] + pieces[1..], c) == [x] + Join(pieces, c)
  {
    var all := [[x] + pieces[0]] + pieces[1..];
    assert all[1..] == pieces[1..];
  }

  /** Joining the pieces gives the pattern back, and no piece holds the cutting character. */
  lemma {:induction false} JoinOfPieces(p: string, c: char)
    ensures Join(Pieces(p, c), c) == p
    ensures forall x :: x in Pieces(p, c) ==> c !in x
    decreases |p|
  {
    if p != "" {
      JoinOfPieces(p[1..], c);
      var rest := Pieces(p[1..], c);
      assert p == [p[0]] + p[1..];
      if p[0] == c {
        JoinFirst("", rest, c);
      } else {
        JoinLonger(p[0], rest, c);
        assert forall x :: x in Pieces(p, c) ==> x == [p[0]] + rest[0] || x in rest;
        assert rest[0] in rest;
      }
    }
  }

  /** And cutting what was joined gives the pieces back. */
  lemma {:induction false} PiecesOfJoin(pieces: seq<string>, c: char)
    requires pieces != [] && forall x :: x in pieces ==> c !in x
    ensures Pieces(Join(pieces, c), c) == pieces
    decreases |pieces|
  {
    assert pieces[0] in pieces;
    if |pieces| == 1 {
      PiecesWithout(pieces[0], c);
    } else {
      PiecesOfJoin(pieces[1..], c);
      PiecesAtCut(pieces[0], c, Join(pieces[1..], c));
    }
  }

  // ---- Leftmost search loses nothing ----

  lemma {:induction false} EarlierIsEasier(pieces: seq<string>, s: string, i: nat, j: nat)
    requires i <= j && Occur(pieces, s, j)
    ensures Occur(pieces, s, i)
  {
    if pieces != [] {
      var k :| j <= k && At(s, pieces[0], k) && Occur(pieces[1..], s, k + |pieces[0]|);
    }
  }

  lemma LeftmostIsBest(pieces: seq<string>, s: string, from: nat)
    requires pieces != [] && from <= |s|
    ensures var pos := Find(s, pieces[0], from);
            Occur(pieces, s, from) <==> pos.Some? && Occur(pieces[1..], s, pos.value + |pieces[0]|)
    ensures pieces[0] == "" ==> Find(s, pieces[0], from) == Some(from)
  {
    var pos := Find(s, pieces[0], from);
    if Occur(pieces, s, from) {
      var k :| from <= k && At(s, pieces[0], k) && Occur(pieces[1..], s, k + |pieces[0]|);
      EarlierIsEasier(pieces[1..], s, pos.value + |pieces[0]|, k + |pieces[0]|);
    }
  }

  // ---- Pieces and patterns ----

  lemma {:induction false} MatchLiteral(a: string, q: string, s: string, i: nat)
    requires '*' !in a
    ensures Match(a + q, s, i) <==> At(s, a, i) && Match(q, s, i + |a|)
    decreases |a|
  {
    if a == "" {
      assert a + q == q;
      if Match(q, s, i) {
        MatchInside(q, s, i);
      }
    } else {
      assert (a + q)[1..] == a[1..] + q;
      assert a == [a[0]] + a[1..];
      assert i + |a| <= |s| ==> s[i..i + |a|] == [s[i]] + s[i + 1..i + |a|];
      if i < |s| && s[i] == a[0] {
        MatchLiteral(a[1..], q, s, i + 1);
      }
    }
  }

  lemma {:induction false} MatchInside(p: string, s: string, i: nat)
    requires Match(p, s, i)
    ensures i <= |s|
    decreases |p|
  {
    if p != "" && p[0] != '*' {
      MatchInside(p[1..], s, i + 1);
    }
  }

  lemma MatchStar(q: string, s: string, i: nat)
    ensures Match("*" + q, s, i) <==> exists k :: Within(i, k, |s|) && Match(q, s, k)
  {
    var p := "*" + q;
    assert p[0] == '*' && p[1..] == q;
  }

  lemma OccurIs(a: string, rest: seq<string>, s: string, i: nat)
    ensures Occur([a] + rest, s, i) <==> exists k: nat :: i <= k && At(s, a, k) && Occur(rest, s, k + |a|)
  {
    var pieces := [a] + rest;
    assert pieces[0] == a && pieces[1..] == rest;
  }

  lemma PieceAfterStar(a: string, q: string, rest: seq<string>, s: string, i: nat)
    requires '*' !in a && i <= |s|
    requires forall k: nat :: At(s, a, k) ==> (Match(q, s, k + |a|) <==> Occur(rest, s, k + |a|))
    ensures Match("*" + (a + q), s, i) <==> Occur([a] + rest, s, i)
  {
    MatchStar(a + q, s, i);
    OccurIs(a, rest, s, i);
    if k: nat :| i <= k && At(s, a, k) && Occur(rest, s, k + |a|) {
      MatchLiteral(a, q, s, k);
      assert Within(i, k, |s|);
    }
    if k: nat :| Within(i, k, |s|) && Match(a + q, s, k) {
      MatchLiteral(a, q, s, k);
      assert At(s, a, k);
    }
  }

  lemma StarMatchesAll(s: string, i: nat)
    requires i <= |s|
    ensures Match("*", s, i)
  {
    MatchStar("", s, i);
    assert "*" + "" == "*" && Match("", s, |s|) && Within(i, |s|, |s|);
  }

  lemma LonePiece(p: string, s: string, i: nat)
    requires '*' !in p && i <= |s|
    ensures Match("*" + p + "*", s, i) <==> Occur([p], s, i)
  {
    forall k: nat | At(s, p, k)
      ensures Match("*", s, k + |p|)
    {
      StarMatchesAll(s, k + |p|);
    }
    assert "*" + p + "*" == "*" + (p + "*") && [p] + [] == [p];
    PieceAfterStar(p, "*", [], s, i);
  }

  lemma FirstPiece(p: string, c: char)
    ensures var pos := Find(p, [c], 0);
            if pos.None? then c !in p && Pieces(p, c) == [p]
            else
              var a, b := p[..pos.value], p[pos.value + 1..];
              p == a + [c] + b && c !in a && Pieces(p, c) == [a] + Pieces(b, c)
  {
    var pos := Find(p, [c], 0);
    PiecesStep(p, c, 0);
    assert p[0..] == p && p[0..|p|] == p;
    NoneBefore(p, c, 0, if pos.None? then |p| else pos.value);
    if pos.Some? {
      assert p[pos.value..pos.value + 1] == [c];
    }
  }

  lemma {:induction false} PiecesDecide(p: string, s: string, i: nat)
    requires i <= |s|
    ensures Match("*" + p + "*", s, i) <==> Occur(Pieces(p, '*'), s, i)
    decreases |p|
  {
    var pos := Find(p, "*", 0);
    FirstPiece(p, '*');
    if pos.None? {
      LonePiece(p, s, i);
    } else {
      var a, b := p[..pos.value], p[pos.value + 1..];
      forall k: nat | At(s, a, k)
        ensures Match("*" + b + "*", s, k + |a|) <==> Occur(Pieces(b, '*'), s, k + |a|)
      {
        PiecesDecide(b, s, k + |a|);
      }
      assert "*" + p + "*" == "*" + (a + ("*" + b + "*"));
      PieceAfterStar(a, "*" + b + "*", Pieces(b, '*'), s, i);
    }
  }

  /** A name passes the check exactly if it matches the pattern with a star put on either side. */
  method CheckPattern(p: string, s: string) returns (found: bool)
    ensures found <==> Match("*" + p + "*", s, 0)
  {
    var pieces := Cut(p, '*');
    found := Check(s, pieces);
    PiecesDecide(p, s, 0);
  }

  /** So a name that matches the pattern as written always passes; but others do too. */
  lemma AnchoredMatchPasses(p: string, s: string)
    requires Match(p, s, 0)
    ensures Match("*" + p + "*", s, 0)
  {
    MatchThenStar(p, s, 0, "");
    assert s + "" == s && "*" + p + "*" == "*" + (p + "*");
    StarInFront(p + "*", s, 0);
  }

  lemma StarInFront(q: string, s: string, k: nat)
    requires Match(q, s, k)
    ensures Match("*" + q, s, 0)
  {
    MatchInside(q, s, k);
    MatchStar(q, s, 0);
    assert Within(0, k, |s|);
  }

  lemma {:induction false} MatchThenStar(p: string, s: string, i: nat, t: string)
    requires Match(p, s, i)
    ensures Match(p + "*", s + t, i)
    decreases |p|
  {
    if p == "" {
      assert p + "*" == "*";
      StarMatchesAll(s + t, i);
    } else {
      assert (p + "*")[1..] == p[1..] + "*";
      if p[0] == '*' {
        var k :| Within(i, k, |s|) && Match(p[1..], s, k);
        MatchThenStar(p[1..], s, k, t);
        assert Within(i, k, |s + t|);
      } else {
        MatchThenStar(p[1..], s, i + 1, t);
      }
    }
  }

  // ---- For which patterns passing means matching ----

  predicate StarredBothEnds(p: string) {
    p != "" && p[0] == '*' && p[|p| - 1] == '*'
  }

  lemma {:induction false} StarsAtEndCollapse(r: string, s: string, i: nat)
    requires Match(r + "*" + "*", s, i)
    ensures Match(r + "*", s, i)
    decreases |r|
  {
    MatchInside(r + "*" + "*", s, i);
    if r == "" {
      assert r + "*" == "*";
      StarMatchesAll(s, i);
    } else {
      assert (r + "*" + "*")[1..] == r[1..] + "*" + "*" && (r + "*")[1..] == r[1..] + "*";
      if r[0] == '*' {
        var k :| Within(i, k, |s|) && Match(r[1..] + "*" + "*", s, k);
        StarsAtEndCollapse(r[1..], s, k);
      } else {
        StarsAtEndCollapse(r[1..], s, i + 1);
      }
    }
  }

  lemma StarsInFrontCollapse(q: string, s: string)
    requires Match("*" + ("*" + q), s, 0)
    ensures Match("*" + q, s, 0)
  {
    MatchStar("*" + q, s, 0);
    var k :| Within(0, k, |s|) && Match("*" + q, s, k);
    MatchStar(q, s, k);
    var j :| Within(k, j, |s|) && Match(q, s, j);
    StarInFront(q, s, j);
  }

  lemma StarredPatternIsExact(p: string, s: string)
    requires StarredBothEnds(p) && Match("*" + p + "*", s, 0)
    ensures Match(p, s, 0)
  {
    var q, r := p[1..], p[..|p| - 1];
    assert p == "*" + q && p == r + "*";
    assert "*" + p + "*" == "*" + ("*" + (q + "*"));
    StarsInFrontCollapse(q + "*", s);
    assert "*" + (q + "*") == r + "*" + "*";
    StarsAtEndCollapse(r, s, 0);
  }

  /** The shortest name that matches: the pattern without its stars. */
  function Plain(p: string): string {
    if p == "" then "" else (if p[0] == '*' then "" else [p[0]]) + Plain(p[1..])
  }

  lemma {:induction false} PlainMatches(p: string, s: string, i: nat)
    requires i <= |s| && s[i..] == Plain(p)
    ensures Match(p, s, i)
    decreases |p|
  {
    if p == "" {
    } else if p[0] == '*' {
      PlainMatches(p[1..], s, i);
      assert Within(i, i, |s|);
    } else {
      assert s[i] == s[i..][0] && s[i + 1..] == s[i..][1..];
      PlainMatches(p[1..], s, i + 1);
    }
  }

  lemma {:induction false} LastIsLiteral(p: string, s: string, i: nat)
    requires p != "" && p[|p| - 1] != '*' && Match(p, s, i)
    ensures i < |s| && s[|s| - 1] == p[|p| - 1]
    decreases |p|
  {
    if p[0] == '*' {
      var k :| Within(i, k, |s|) && Match(p[1..], s, k);
      LastIsLiteral(p[1..], s, k);
    } else if |p| > 1 {
      LastIsLiteral(p[1..], s, i + 1);
    }
  }

  function OtherChar(c: char): (r: char)
    ensures r != c
  {
    if c == 'a' then 'b' else 'a'
  }

  lemma OpenPatternPassesMore(p: string) returns (s: string)
    requires !StarredBothEnds(p)
    ensures Match("*" + p + "*", s, 0) && !Match(p, s, 0)
  {
    if p == "" {
      s := "a";
      StarMatchesAll(s, 0);
      assert "*" + "" + "*" == "*" + "*";
      StarInFront("*", s, 0);
    } else if p[0] != '*' {
      s := [OtherChar(p[0])] + Plain(p);
      PlainMatches(p, s, 1);
      MatchThenStar(p, s, 1, "");
      assert s + "" == s && "*" + p + "*" == "*" + (p + "*");
      StarInFront(p + "*", s, 1);
    } else {
      s := Plain(p) + [OtherChar(p[|p| - 1])];
      PlainMatches(p, Plain(p), 0);
      MatchThenStar(p, Plain(p), 0, [OtherChar(p[|p| - 1])]);
      assert "*" + p + "*" == "*" + (p + "*");
      StarInFront(p + "*", s, 0);
      if Match(p, s, 0) {
        LastIsLiteral(p, s, 0);
      }
    }
  }

  /** Exactly the patterns with a star at either end are checked as written. */
  lemma PassingMeansMatchingIff(p: string)
    ensures (forall s :: Match("*" + p + "*", s, 0) <==> Match(p, s, 0)) <==> StarredBothEnds(p)
  {
    if StarredBothEnds(p) {
      forall s
        ensures Match("*" + p + "*", s, 0) <==> Match(p, s, 0)
      {
        if Match(p, s, 0) {
          AnchoredMatchPasses(p, s);
        } else if Match("*" + p + "*", s, 0) {
          StarredPatternIsExact(p, s);
        }
      }
    } else {
      var s := OpenPatternPassesMore(p);
    }
  }

  /** One such pattern and name. */
  lemma UnanchoredNamePasses()
    ensures Match("*" + "*.xml" + "*", "a.xml.bak", 0) && !Match("*.xml", "a.xml.bak", 0)
  {
    var s := "a.xml.bak";
    assert s[1..5] == ".xml";
    PiecesDecide("*.xml", s, 0);
    PiecesAtCut("", '*', ".xml");
    assert "" + "*" + ".xml" == "*.xml";
    PiecesWithout(".xml", '*');
    assert Pieces("*.xml", '*') == ["", ".xml"];
    assert At(s, ".xml", 1) && Occur([], s, 5);
    assert ["", ".xml"][1..] == [".xml"] && [".xml"][1..] == [];
    assert Occur([".xml"], s, 0);
    assert At(s, "", 0);
    forall k | 0 <= k <= |s|
      ensures !Match(".xml", s, k)
    {
      MatchLiteral(".xml", "", s, k);
      assert ".xml" + "" == ".xml";
    }
    MatchStar(".xml", s, 0);
  }
}
