/** The few functions of Go's `strings` and `unicode` packages that the core
    relies on, over Dafny strings (sequences of Unicode scalar values), and the
    order in which a `range` loop visits a map. */
module GoStrings {
  import opened Wrappers

  /** unicode.IsSpace: the Latin-1 spaces and the other White_Space code points. */
  predicate IsSpace(c: char) {
    c == ' ' || c == '\t' || c == '\n' || c == '\r' || c == '\U{000B}' || c == '\U{000C}'
    || c == '\U{0085}' || c == '\U{00A0}' || c == '\U{1680}'
    || ('\U{2000}' <= c <= '\U{200A}')
    || c == '\U{2028}' || c == '\U{2029}' || c == '\U{202F}' || c == '\U{205F}' || c == '\U{3000}'
  }

  predicate IsQuote(c: char) { c == '"' }

  /** An order a `range` over a map may visit its keys in: each key once. Go
      leaves the order unspecified, so the model lets it be any such order. */
  predicate Enumerates<K>(order: seq<K>, keys: set<K>) {
    (forall i :: 0 <= i < |order| ==> order[i] in keys)
    && (forall k :: k in keys ==> k in order)
    && (forall i, j :: 0 <= i < j < |order| ==> order[i] != order[j])
  }

  /** strings.TrimLeftFunc: drop the longest prefix whose characters satisfy p. */
  function TrimLeft(s: string, p: char -> bool): string {
    if s != [] && p(s[0]) then TrimLeft(s[1..], p) else s
  }

  /** TrimLeft keeps a suffix, drops only characters satisfying p, and the
      suffix does not start with one. */
  lemma {:induction false} TrimLeftShape(s: string, p: char -> bool)
    ensures var r := TrimLeft(s, p);
      |r| <= |s| && r == s[|s| - |r|..]
      && (forall i :: 0 <= i < |s| - |r| ==> p(s[i]))
      && (r != [] ==> !p(r[0]))
  {
    if s != [] && p(s[0]) {
      TrimLeftShape(s[1..], p);
    }
  }

  /** strings.TrimRightFunc: drop the longest suffix whose characters satisfy p. */
  function TrimRight(s: string, p: char -> bool): string {
    if s != [] && p(s[|s| - 1]) then TrimRight(s[..|s| - 1], p) else s
  }

  /** TrimRight keeps a prefix, drops only characters satisfying p, and the
      prefix does not end with one. */
  lemma {:induction false} TrimRightShape(s: string, p: char -> bool)
    ensures var r := TrimRight(s, p);
      |r| <= |s| && r == s[..|r|]
      && (forall i :: |r| <= i < |s| ==> p(s[i]))
      && (r != [] ==> !p(r[|r| - 1]))
  {
    if s != [] && p(s[|s| - 1]) {
      TrimRightShape(s[..|s| - 1], p);
    }
  }

  /** Trim keeps a slice that neither starts nor ends with a trimmed character. */
  lemma TrimEnds(s: string, p: char -> bool)
    ensures var r := Trim(s, p);
      |r| <= |s| && (r != [] ==> !p(r[0]) && !p(r[|r| - 1]))
  {
    var l := TrimLeft(s, p);
    TrimLeftShape(s, p);
    TrimRightShape(l, p);
  }

  /** strings.TrimFunc. */
  function Trim(s: string, p: char -> bool): string {
    TrimRight(TrimLeft(s, p), p)
  }

  /** strings.TrimSpace. */
  function TrimSpace(s: string): string {
    Trim(s, IsSpace)
  }

  /** Trimming leaves nothing exactly when every character is trimmed. */
  lemma TrimEmptyIff(s: string, p: char -> bool)
    ensures Trim(s, p) == [] <==> forall i :: 0 <= i < |s| ==> p(s[i])
  {
    var l := TrimLeft(s, p);
    TrimLeftShape(s, p);
    TrimRightShape(l, p);
    if l != [] {
      var r := TrimRight(l, p);
      assert !p(s[|s| - |l|]) by { assert r[0] == l[0] == s[|s| - |l|]; }
    }
  }

  /** Position of the first c in s, or |s| when there is none. */
  function IndexOf(s: string, c: char): (i: nat)
    ensures i <= |s|
    ensures i < |s| ==> s[i] == c
    ensures forall j :: 0 <= j < i ==> s[j] != c
  {
    if s == [] then 0 else if s[0] == c then 0 else 1 + IndexOf(s[1..], c)
  }

  /** strings.Join. */
  function Join(parts: seq<string>, sep: string): string {
    if |parts| == 0 then ""
    else if |parts| == 1 then parts[0]
    else parts[0] + sep + Join(parts[1..], sep)
  }

  /** strings.Split with a one-character separator: never empty, no piece holds
      the separator, and (SplitJoin) joining the pieces gives the input back. */
  function Split(s: string, c: char): (r: seq<string>)
    ensures |r| >= 1
    ensures forall i :: 0 <= i < |r| ==> c !in r[i]
  {
    if |s| == 0 then [""]
    else
      var rest := Split(s[1..], c);
      if s[0] == c then [""] + rest
      else [[s[0]] + rest[0]] + rest[1..]
  }

  lemma {:induction false} SplitJoin(s: string, c: char)
    ensures Join(Split(s, c), [c]) == s
  {
    if |s| > 0 {
      var rest := Split(s[1..], c);
      SplitJoin(s[1..], c);
      if s[0] == c {
        assert s == [c] + s[1..];
      } else if |rest| == 1 {
        assert s == [s[0]] + s[1..];
      } else {
        var r := Split(s, c);
        assert r[1..] == rest[1..];
        assert Join(rest, [c]) == rest[0] + [c] + Join(rest[1..], [c]);
        assert s == [s[0]] + s[1..];
      }
    }
  }

  /** Splitting a join of separator-free pieces gives the pieces back. */
  lemma {:induction false} JoinSplit(parts: seq<string>, c: char)
    requires |parts| >= 1
    requires forall i :: 0 <= i < |parts| ==> c !in parts[i]
    ensures Split(Join(parts, [c]), c) == parts
  {
    if |parts| == 1 {
      SplitNoSep(parts[0], c);
    } else {
      JoinSplit(parts[1..], c);
      SplitAfterPiece(parts[0], Join(parts[1..], [c]), c);
      assert Join(parts, [c]) == parts[0] + ([c] + Join(parts[1..], [c]));
      assert [parts[0]] + parts[1..] == parts;
    }
  }

  lemma {:induction false} SplitNoSep(s: string, c: char)
    requires c !in s
    ensures Split(s, c) == [s]
  {
    if |s| > 0 {
      SplitNoSep(s[1..], c);
      assert s == [s[0]] + s[1..];
    }
  }

  /** A separator-free piece followed by the separator becomes the first piece. */
  lemma {:induction false} SplitAfterPiece(piece: string, tail: string, c: char)
    requires c !in piece
    ensures Split(piece + ([c] + tail), c) == [piece] + Split(tail, c)
  {
    var s := piece + ([c] + tail);
    if |piece| == 0 {
      assert s == [c] + tail;
      assert s[1..] == tail;
    } else {
      assert s[1..] == piece[1..] + ([c] + tail);
      SplitAfterPiece(piece[1..], tail, c);
      assert [piece[0]] + piece[1..] == piece;
    }
  }

  /** A separator and a separator-free piece at the end add one last piece. */
  lemma {:induction false} SplitSnoc(x: string, piece: string, c: char)
    requires c !in piece
    ensures Split(x + ([c] + piece), c) == Split(x, c) + [piece]
    decreases |x|
  {
    var s := x + ([c] + piece);
    if |x| == 0 {
      assert s == [c] + piece && s[1..] == piece;
      SplitNoSep(piece, c);
    } else {
      assert s[1..] == x[1..] + ([c] + piece);
      SplitSnoc(x[1..], piece, c);
    }
  }

  /** A character other than the separator at the end joins the last piece. */
  lemma {:induction false} SplitTrail(x: string, ch: char, c: char)
    requires ch != c
    ensures var r := Split(x, c);
      Split(x + [ch], c) == r[..|r| - 1] + [r[|r| - 1] + [ch]]
    decreases |x|
  {
    if |x| == 0 {
      assert x + [ch] == [ch];
      SplitNoSep([ch], c);
    } else {
      assert (x + [ch])[1..] == x[1..] + [ch];
      SplitTrail(x[1..], ch, c);
      var rest := Split(x[1..], c);
      if x[0] != c {
        assert [x[0]] + (rest[0] + [ch]) == ([x[0]] + rest[0]) + [ch];
      }
    }
  }

  /** A trimmed character in front or behind does not change the trimmed text. */
  lemma TrimLead(ch: char, s: string, p: char -> bool)
    requires p(ch)
    ensures Trim([ch] + s, p) == Trim(s, p)
  {
    assert ([ch] + s)[1..] == s;
  }

  lemma {:induction false} TrimLeftAppend(s: string, x: string, p: char -> bool)
    requires TrimLeft(s, p) != []
    ensures TrimLeft(s + x, p) == TrimLeft(s, p) + x
    decreases |s|
  {
    if p(s[0]) {
      assert (s + x)[1..] == s[1..] + x;
      TrimLeftAppend(s[1..], x, p);
    }
  }

  lemma TrimTrail(s: string, ch: char, p: char -> bool)
    requires p(ch)
    ensures Trim(s + [ch], p) == Trim(s, p)
  {
    var t := s + [ch];
    var l := TrimLeft(s, p);
    TrimLeftShape(s, p);
    if l == [] {
      assert forall i :: 0 <= i < |t| ==> p(t[i]) by {
        forall i | 0 <= i < |t| ensures p(t[i]) {
          if i < |s| { assert t[i] == s[i]; }
        }
      }
      TrimLeftAll(t, p);
      assert Trim(t, p) == TrimRight([], p) == Trim(s, p);
    } else {
      TrimLeftAppend(s, [ch], p);
      var lc := l + [ch];
      assert TrimLeft(t, p) == lc;
      assert lc[..|lc| - 1] == l;
      assert TrimRight(lc, p) == TrimRight(l, p);
    }
  }

  lemma {:induction false} TrimLeftAll(s: string, p: char -> bool)
    requires forall i :: 0 <= i < |s| ==> p(s[i])
    ensures TrimLeft(s, p) == []
    decreases |s|
  {
    if s != [] {
      TrimLeftAll(s[1..], p);
    }
  }

  /** Text whose ends are not trimmed is left whole. */
  lemma TrimUntouched(s: string, p: char -> bool)
    requires s != [] && !p(s[0]) && !p(s[|s| - 1])
    ensures Trim(s, p) == s
  {
  }

  /** Trimming a quote pair off text that does not itself start or end with
      a quote gives the text. */
  lemma TrimPair(q: char, v: string, p: char -> bool)
    requires p(q)
    requires v != [] ==> !p(v[0]) && !p(v[|v| - 1])
    ensures Trim([q] + v + [q], p) == v
  {
    assert [q] + v + [q] == [q] + (v + [q]);
    TrimLead(q, v + [q], p);
    TrimTrail(v, q, p);
    if v != [] {
      TrimUntouched(v, p);
    } else {
      assert Trim(v, p) == [];
    }
  }

  /** strings.SplitN(s, c, 2): the text before the first c and, when there is a c,
      the text after it. */
  function Cut(s: string, c: char): (r: (string, Option<string>))
    ensures r.1.None? <==> c !in s
    ensures r.1.None? ==> r.0 == s
    ensures r.1.Some? ==> s == r.0 + [c] + r.1.value && c !in r.0
  {
    var i := IndexOf(s, c);
    if i == |s| then (s, None) else (s[..i], Some(s[i + 1..]))
  }

  /** The cut falls at the first separator. */
  lemma CutAt(key: string, rest: string, c: char)
    requires c !in key
    ensures Cut(key + [c] + rest, c) == (key, Some(rest))
  {
    var s := key + [c] + rest;
    assert s[|key|] == c;
    assert forall j :: 0 <= j < |key| ==> s[j] == key[j];
    var i := IndexOf(s, c);
    assert i == |key|;
    assert s[..i] == key && s[i + 1..] == rest;
  }

  /** unicode.ToLower restricted to ASCII letters. */
  function LowerChar(c: char): char {
    if 'A' <= c <= 'Z' then (c as int + 32) as char else c
  }

  /** strings.ToLower with the ASCII case mapping. */
  function ToLower(s: string): (r: string)
    ensures |r| == |s|
    ensures forall i :: 0 <= i < |s| ==> r[i] == LowerChar(s[i])
  {
    if s == [] then [] else [LowerChar(s[0])] + ToLower(s[1..])
  }
}
