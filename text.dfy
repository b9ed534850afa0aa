/**
 * The string operations of Python's `str` that the automation code relies
 * on: `split()` with no argument (maximal runs of non-whitespace),
 * `" ".join(...)`, `strip()` and `split("||")`.
 */
module Text {

  /** `str.isspace` for one character: the Unicode whitespace characters. */
  predicate IsSpace(c: char)
  {
    ('\t' <= c <= '\r') || ('\U{1C}' <= c <= ' ') || c == '\U{85}' || c == '\U{A0}'
    || c == '\U{1680}' || ('\U{2000}' <= c <= '\U{200A}') || c == '\U{2028}' || c == '\U{2029}'
    || c == '\U{202F}' || c == '\U{205F}' || c == '\U{3000}'
  }

  /** A word as `split()` yields it: non-empty and free of whitespace. */
  predicate IsWord(w: string)
  {
    w != [] && forall j :: 0 <= j < |w| ==> !IsSpace(w[j])
  }

  /** Length of the run of non-whitespace characters that starts `s`. */
  function WordLen(s: string): (n: nat)
    ensures n <= |s|
    ensures forall j :: 0 <= j < n ==> !IsSpace(s[j])
    ensures n < |s| ==> IsSpace(s[n])
  {
    if s == [] || IsSpace(s[0]) then 0 else 1 + WordLen(s[1..])
  }

  /** `s.split()`: the maximal runs of non-whitespace characters, in order. */
  function Words(s: string): (ws: seq<string>)
    ensures forall i :: 0 <= i < |ws| ==> IsWord(ws[i])
    decreases |s|
  {
    if s == [] then []
    else if IsSpace(s[0]) then Words(s[1..])
    else
      var n := WordLen(s);
      [s[..n]] + Words(s[n..])
  }

  /** `" ".join(ws)` */
  function Join(ws: seq<string>): string
  {
    if |ws| == 0 then ""
    else if |ws| == 1 then ws[0]
    else ws[0] + " " + Join(ws[1..])
  }

  lemma {:induction false} WordLenStopsAtSpace(a: string, b: string)
    ensures WordLen(a + " " + b) == WordLen(a)
  {
    if a != [] && !IsSpace(a[0]) {
      assert (a + " " + b)[1..] == a[1..] + " " + b;
      WordLenStopsAtSpace(a[1..], b);
    }
  }

  /** Splitting at an inserted space splits the two sides independently. */
  lemma {:induction false} WordsOfSpaceConcat(a: string, b: string)
    ensures Words(a + " " + b) == Words(a) + Words(b)
    decreases |a|
  {
    var s := a + " " + b;
    if a == [] {
      assert s[1..] == b;
    } else if IsSpace(a[0]) {
      assert s[1..] == a[1..] + " " + b;
      WordsOfSpaceConcat(a[1..], b);
    } else {
      var n := WordLen(s);
      WordLenStopsAtSpace(a, b);
      assert n == WordLen(a) && 0 < n <= |a|;
      assert s[..n] == a[..n];
      assert s[n..] == a[n..] + " " + b;
      WordsOfSpaceConcat(a[n..], b);
    }
  }

  lemma WordsOfWord(w: string)
    requires IsWord(w)
    ensures Words(w) == [w]
  {
    var n := WordLen(w);
    assert n == |w|;
    assert w[..n] == w;
    assert w[n..] == [];
  }

  /** Splitting a single-space join of words gives the words back. */
  lemma {:induction false} WordsOfJoin(ws: seq<string>)
    requires forall i :: 0 <= i < |ws| ==> IsWord(ws[i])
    ensures Words(Join(ws)) == ws
  {
    if |ws| == 1 {
      WordsOfWord(ws[0]);
    } else if |ws| > 1 {
      WordsOfJoin(ws[1..]);
      WordsOfSpaceConcat(ws[0], Join(ws[1..]));
      WordsOfWord(ws[0]);
      assert ws == [ws[0]] + ws[1..];
    }
  }

  /** `s.lstrip()` */
  function TrimStart(s: string): (r: string)
    ensures |r| <= |s| && r == s[|s| - |r|..]
    ensures forall j :: 0 <= j < |s| - |r| ==> IsSpace(s[j])
    ensures r == [] || !IsSpace(r[0])
  {
    if s != [] && IsSpace(s[0]) then TrimStart(s[1..]) else s
  }

  /** `s.rstrip()` */
  function TrimEnd(s: string): (r: string)
    ensures |r| <= |s| && r == s[..|r|]
    ensures forall j :: |r| <= j < |s| ==> IsSpace(s[j])
    ensures r == [] || !IsSpace(r[|r| - 1])
  {
    if s != [] && IsSpace(s[|s| - 1]) then TrimEnd(s[..|s| - 1]) else s
  }

  /** `s.strip()` */
  function Strip(s: string): string
  {
    TrimEnd(TrimStart(s))
  }

  lemma StripShape(s: string)
    ensures var r := Strip(s); r == [] || (!IsSpace(r[0]) && !IsSpace(r[|r| - 1]))
  {
    var t := TrimStart(s);
    var r := TrimEnd(t);
    if r != [] {
      assert r[0] == t[0];
    }
  }

  /** Stripping twice is stripping once. */
  lemma StripIdempotent(s: string)
    ensures Strip(Strip(s)) == Strip(s)
  {
    var r := Strip(s);
    StripShape(s);
    if r != [] {
      assert TrimStart(r) == r;
      assert TrimEnd(r) == r;
    }
  }

  /** `s.split("||")`: pieces between non-overlapping separators, scanning left to right. */
  function SplitBars(s: string): (pieces: seq<string>)
    ensures |pieces| >= 1
    decreases |s|
  {
    if |s| < 2 then [s]
    else if s[0] == '|' && s[1] == '|' then [""] + SplitBars(s[2..])
    else
      var rest := SplitBars(s[1..]);
      [[s[0]] + rest[0]] + rest[1..]
  }

  /** `"||".join(pieces)` */
  function JoinBars(pieces: seq<string>): string
    requires |pieces| >= 1
  {
    if |pieces| == 1 then pieces[0] else pieces[0] + "||" + JoinBars(pieces[1..])
  }

  /** True when `p` has two bars in a row. */
  predicate HasBars(p: string)
  {
    exists j :: 0 <= j < |p| - 1 && p[j] == '|' && p[j + 1] == '|'
  }

  lemma JoinBarsConsFirst(c: char, pieces: seq<string>)
    requires |pieces| >= 1
    ensures JoinBars([[c] + pieces[0]] + pieces[1..]) == [c] + JoinBars(pieces)
  {
    var first := [c] + pieces[0];
    var ps := [first] + pieces[1..];
    assert ps[0] == first && ps[1..] == pieces[1..];
    if |pieces| > 1 {
      var rest := JoinBars(pieces[1..]);
      assert JoinBars(ps) == first + "||" + rest;
      assert JoinBars(pieces) == pieces[0] + "||" + rest;
      AppendAssoc([c], pieces[0], "||");
      AppendAssoc([c], pieces[0] + "||", rest);
    }
  }

  /** Regrouping a concatenation, stated once so the solver need not rediscover it. */
  lemma AppendAssoc(a: string, b: string, c: string)
    ensures (a + b) + c == a + (b + c)
  {
  }

  /** Joining the pieces again gives back the original text. */
  lemma {:induction false} SplitBarsJoin(s: string)
    ensures JoinBars(SplitBars(s)) == s
    decreases |s|
  {
    if |s| < 2 {
    } else if s[0] == '|' && s[1] == '|' {
      SplitBarsJoin(s[2..]);
      var ps := [""] + SplitBars(s[2..]);
      assert ps[1..] == SplitBars(s[2..]);
      assert s == "||" + s[2..];
    } else {
      SplitBarsJoin(s[1..]);
      JoinBarsConsFirst(s[0], SplitBars(s[1..]));
      assert s == [s[0]] + s[1..];
    }
  }

  /** The first piece is a prefix of the text. */
  lemma {:induction false} SplitBarsFirstPrefix(s: string)
    ensures var p := SplitBars(s)[0]; |p| <= |s| && p == s[..|p|]
    decreases |s|
  {
    if |s| >= 2 && !(s[0] == '|' && s[1] == '|') {
      SplitBarsFirstPrefix(s[1..]);
    }
  }

  /** No piece contains the separator. */
  lemma {:induction false} SplitBarsPiecesFree(s: string)
    ensures forall i :: 0 <= i < |SplitBars(s)| ==> !HasBars(SplitBars(s)[i])
    decreases |s|
  {
    var ps := SplitBars(s);
    if |s| < 2 {
      assert ps == [s];
      assert !HasBars(s);
    } else if s[0] == '|' && s[1] == '|' {
      SplitBarsPiecesFree(s[2..]);
      assert ps[1..] == SplitBars(s[2..]);
      assert !HasBars(ps[0]);
      forall i | 1 <= i < |ps| ensures !HasBars(ps[i]) {
        assert ps[i] == SplitBars(s[2..])[i - 1];
      }
    } else {
      var rest := SplitBars(s[1..]);
      SplitBarsPiecesFree(s[1..]);
      SplitBarsFirstPrefix(s[1..]);
      var p := [s[0]] + rest[0];
      assert ps[0] == p;
      forall j | 0 <= j < |p| - 1 ensures !(p[j] == '|' && p[j + 1] == '|') {
        if j == 0 {
          assert p[1] == rest[0][0] == s[1];
        } else {
          assert p[j] == rest[0][j - 1] && p[j + 1] == rest[0][j];
        }
      }
      forall i | 1 <= i < |ps| ensures !HasBars(ps[i]) {
        assert ps[i] == rest[i];
      }
    }
  }

  /** True when `p` ends with a bar. */
  predicate EndsWithBar(p: string)
  {
    p != [] && p[|p| - 1] == '|'
  }

  /**
   * The split is leftmost: no piece but the last ends with a bar, so each
   * separator starts at the first "||" after the previous one.
   */
  lemma {:induction false} SplitBarsLeftmost(s: string)
    ensures forall i :: 0 <= i < |SplitBars(s)| - 1 ==> !EndsWithBar(SplitBars(s)[i])
    decreases |s|
  {
    var ps := SplitBars(s);
    if |s| < 2 {
    } else if s[0] == '|' && s[1] == '|' {
      SplitBarsLeftmost(s[2..]);
      forall i | 1 <= i < |ps| - 1 ensures !EndsWithBar(ps[i]) {
        assert ps[i] == SplitBars(s[2..])[i - 1];
      }
    } else {
      var rest := SplitBars(s[1..]);
      SplitBarsLeftmost(s[1..]);
      if |rest| > 1 && rest[0] == "" {
        var t := s[1..];
        assert |t| >= 2 && t[0] == '|' && t[1] == '|';
        assert s[0] != '|';
      }
      forall i | 1 <= i < |ps| - 1 ensures !EndsWithBar(ps[i]) {
        assert ps[i] == rest[i];
      }
    }
  }

  /** A text without "||" is a single piece. */
  lemma {:induction false} SplitBarsWhole(s: string)
    requires !HasBars(s)
    ensures SplitBars(s) == [s]
    decreases |s|
  {
    if |s| >= 2 {
      assert !(s[0] == '|' && s[1] == '|');
      var t := s[1..];
      assert !HasBars(t) by {
        forall j | 0 <= j < |t| - 1 ensures !(t[j] == '|' && t[j + 1] == '|') {
          assert t[j] == s[j + 1] && t[j + 1] == s[j + 2];
        }
      }
      SplitBarsWhole(t);
      assert [s[0]] + t == s;
    }
  }

  /**
   * The split is the only way to cut a text at "||": pieces that join to
   * `s`, contain no "||" and, but for the last, do not end with a bar, are
   * the pieces of `SplitBars(s)`.
   */
  lemma {:induction false} SplitBarsUnique(s: string, ps: seq<string>)
    requires |ps| >= 1 && JoinBars(ps) == s
    requires forall i :: 0 <= i < |ps| ==> !HasBars(ps[i])
    requires forall i :: 0 <= i < |ps| - 1 ==> !EndsWithBar(ps[i])
    ensures ps == SplitBars(s)
    decreases |s|
  {
    if |ps| == 1 {
      SplitBarsWhole(s);
    } else if ps[0] == "" {
      var tail := ps[1..];
      assert s == "||" + JoinBars(tail);
      assert s[2..] == JoinBars(tail);
      forall i | 0 <= i < |tail| ensures !HasBars(tail[i]) {
        assert tail[i] == ps[i + 1];
      }
      forall i | 0 <= i < |tail| - 1 ensures !EndsWithBar(tail[i]) {
        assert tail[i] == ps[i + 1];
      }
      SplitBarsUnique(s[2..], tail);
      assert ps == [""] + tail;
    } else {
      var c, p := ps[0][0], ps[0][1..];
      var qs := [p] + ps[1..];
      assert ps[0] == [c] + p;
      assert qs[1..] == ps[1..];
      JoinBarsConsFirst(c, qs);
      assert [[c] + qs[0]] + qs[1..] == ps;
      assert s == [c] + JoinBars(qs);
      assert s[1..] == JoinBars(qs);
      if p == [] {
        assert !EndsWithBar(ps[0]);
        assert s[0] == c != '|';
      } else {
        assert s[0] == c && s[1] == p[0] == ps[0][1];
        assert !(ps[0][0] == '|' && ps[0][1] == '|');
      }
      assert !HasBars(p) by {
        forall j | 0 <= j < |p| - 1 ensures !(p[j] == '|' && p[j + 1] == '|') {
          assert p[j] == ps[0][j + 1] && p[j + 1] == ps[0][j + 2];
        }
      }
      forall i | 0 <= i < |qs| ensures !HasBars(qs[i]) {
        if i > 0 { assert qs[i] == ps[i]; }
      }
      forall i | 0 <= i < |qs| - 1 ensures !EndsWithBar(qs[i]) {
        if i > 0 { assert qs[i] == ps[i]; }
        else if p != [] { assert p[|p| - 1] == ps[0][|ps[0]| - 1]; }
      }
      SplitBarsUnique(s[1..], qs);
    }
  }
}
