/** Links.String and ParseLinks are inverse on links whose parts need no
    quoting: no ',' or ';' anywhere, no '=' in a key, no "rel" key, no quote at
    either end of a value, no leading space in a key. */
module LinkRoundTrip {
  import opened GoStrings
  import opened UrlLib

  predicate Plain(s: string) {
    ',' !in s && ';' !in s
  }

  predicate PrintableKey(k: string) {
    Plain(k) && '=' !in k && k != "rel" && (k == "" || !IsSpace(k[0]))
  }

  /** A link that survives printing and parsing. */
  predicate Printable(l: Link) {
    l.url != "" && Plain(l.url) && Plain(l.rel) && Unquoted(l.rel)
    && forall k | k in l.attrs :: PrintableKey(k) && Plain(l.attrs[k]) && Unquoted(l.attrs[k])
  }

  /** The ';'-separated pieces of a link's text. */
  function UrlPiece(l: Link): string {
    "<" + l.url + ">"
  }

  function AttrPiece(k: string, v: string): string {
    " " + Pair(k, v)
  }

  function RelPiece(rel: string): string {
    AttrPiece("rel", rel)
  }

  lemma TextIsPiece(k: string, v: string)
    ensures AttrText(k, v) == [';'] + AttrPiece(k, v)
  {
    assert "; " == [';'] + " ";
  }

  function AttrPieces(attrs: map<string, string>, order: seq<string>): seq<string>
    requires Within(order, attrs)
  {
    if order == [] then []
    else
      var k := order[|order| - 1];
      AttrPieces(attrs, order[..|order| - 1]) + [AttrPiece(k, attrs[k])]
  }

  function HeadPieces(l: Link): seq<string> {
    [UrlPiece(l)] + (if |l.rel| > 0 then [RelPiece(l.rel)] else [])
  }

  lemma SplitHead(l: Link)
    requires Printable(l)
    ensures Split(Head(l), ';') == HeadPieces(l)
  {
    SplitNoSep(UrlPiece(l), ';');
    if |l.rel| > 0 {
      TextIsPiece("rel", l.rel);
      assert Head(l) == UrlPiece(l) + ([';'] + RelPiece(l.rel));
      SplitSnoc(UrlPiece(l), RelPiece(l.rel), ';');
    } else {
      assert Head(l) == UrlPiece(l);
    }
  }

  lemma SplitLinkTextStep(l: Link, order: seq<string>)
    requires order != [] && Within(order, l.attrs) && Printable(l)
    ensures var k := order[|order| - 1];
      Split(LinkText(l, order), ';') == Split(LinkText(l, order[..|order| - 1]), ';') + [AttrPiece(k, l.attrs[k])]
  {
    var init := order[..|order| - 1];
    var k := order[|order| - 1];
    var piece := AttrPiece(k, l.attrs[k]);
    assert ';' !in piece;
    TextIsPiece(k, l.attrs[k]);
    assert LinkText(l, order) == LinkText(l, init) + ([';'] + piece);
    SplitSnoc(LinkText(l, init), piece, ';');
  }

  lemma {:induction false} SplitLinkText(l: Link, order: seq<string>)
    requires Within(order, l.attrs) && Printable(l)
    ensures Split(LinkText(l, order), ';') == HeadPieces(l) + AttrPieces(l.attrs, order)
    decreases |order|
  {
    if order == [] {
      SplitHead(l);
      assert LinkText(l, order) == Head(l);
    } else {
      SplitLinkText(l, order[..|order| - 1]);
      SplitLinkTextStep(l, order);
    }
  }

  lemma {:induction false} ApplyAttrsSnoc(link: Link, raws: seq<string>, raw: string)
    ensures ApplyAttrs(link, raws + [raw]) == ApplyAttr(ApplyAttrs(link, raws), raw)
    decreases |raws|
  {
    if raws != [] {
      assert (raws + [raw])[1..] == raws[1..] + [raw];
      ApplyAttrsSnoc(ApplyAttr(link, raws[0]), raws[1..], raw);
    }
  }

  /** The attribute map made from some keys of a map, in order. */
  function MapOf(attrs: map<string, string>, order: seq<string>): map<string, string>
    requires Within(order, attrs)
  {
    map k | k in order :: attrs[k]
  }

  lemma PairEnds(k: string, v: string)
    ensures var a := Pair(k, v);
      a[0] == (if k == "" then '=' else k[0]) && a[|a| - 1] == '"'
  {
  }

  lemma NotSpaceEnds(k: string, v: string)
    requires k == "rel" || PrintableKey(k)
    ensures var a := Pair(k, v); !IsSpace(a[0]) && !IsSpace(a[|a| - 1])
  {
    PairEnds(k, v);
    if k == "rel" {
      assert Pair(k, v)[0] == 'r';
    }
  }

  lemma PieceIsPair(k: string, v: string)
    ensures TrimSpace(AttrPiece(k, v)) == TrimSpace(Pair(k, v))
  {
    assert AttrPiece(k, v) == [' '] + Pair(k, v);
    TrimLead(' ', Pair(k, v), IsSpace);
  }

  lemma PairUntrimmed(k: string, v: string)
    requires k == "rel" || PrintableKey(k)
    ensures TrimSpace(Pair(k, v)) == Pair(k, v)
  {
    NotSpaceEnds(k, v);
    TrimUntouched(Pair(k, v), IsSpace);
  }

  /** The trimmed form of a key=value piece. */
  lemma TrimAttrPiece(k: string, v: string)
    requires k == "rel" || PrintableKey(k)
    ensures TrimSpace(AttrPiece(k, v)) == Pair(k, v)
  {
    PieceIsPair(k, v);
    PairUntrimmed(k, v);
  }

  lemma KeyValueOf(k: string, v: string)
    requires '=' !in k && Unquoted(v)
    ensures KeyValue(Pair(k, v)) == (k, v)
  {
    var q := Quoted(v);
    CutAt(k, q, '=');
    assert Pair(k, v) == k + ['='] + q;
    assert q == ['"'] + v + ['"'];
    TrimPair('"', v, IsQuote);
  }

  /** A key=value piece sets exactly that attribute; the rel piece sets Rel. */
  lemma ParseAttrPiece(link: Link, k: string, v: string)
    requires k == "rel" || PrintableKey(k)
    requires Unquoted(v)
    ensures k != "rel" ==> ApplyAttr(link, AttrPiece(k, v)) == link.(attrs := link.attrs[k := v])
    ensures k == "rel" ==> ApplyAttr(link, AttrPiece(k, v)) == link.(rel := v)
  {
    var a := Pair(k, v);
    TrimAttrPiece(k, v);
    KeyValueOf(k, v);
    assert a[|a| - 1] == '"';
  }

  lemma ParseUrlPiece(link: Link, url: string)
    ensures ApplyAttr(link, "<" + url + ">") == link.(url := url)
  {
    var a := "<" + url + ">";
    TrimUntouched(a, IsSpace);
    assert a[1..|a| - 1] == url;
  }

  lemma HeadParses(l: Link)
    requires Printable(l)
    ensures ApplyAttrs(EmptyLink, HeadPieces(l)) == Link(l.url, l.rel, map[])
  {
    ParseUrlPiece(EmptyLink, l.url);
    var u := EmptyLink.(url := l.url);
    assert ApplyAttrs(EmptyLink, [UrlPiece(l)]) == u;
    if |l.rel| > 0 {
      ApplyAttrsSnoc(EmptyLink, [UrlPiece(l)], RelPiece(l.rel));
      ParseAttrPiece(u, "rel", l.rel);
    }
  }

  lemma MapOfSnoc(attrs: map<string, string>, order: seq<string>)
    requires order != [] && Within(order, attrs)
    ensures var k := order[|order| - 1];
      MapOf(attrs, order[..|order| - 1])[k := attrs[k]] == MapOf(attrs, order)
  {
    assert order == order[..|order| - 1] + [order[|order| - 1]];
  }

  lemma PiecesSnoc(l: Link, order: seq<string>)
    requires order != [] && Within(order, l.attrs)
    ensures var k := order[|order| - 1];
      HeadPieces(l) + AttrPieces(l.attrs, order)
      == (HeadPieces(l) + AttrPieces(l.attrs, order[..|order| - 1])) + [AttrPiece(k, l.attrs[k])]
  {
  }

  lemma ParsePieceStep(l: Link, order: seq<string>)
    requires order != [] && Within(order, l.attrs) && Printable(l)
    requires var init := order[..|order| - 1];
      ApplyAttrs(EmptyLink, HeadPieces(l) + AttrPieces(l.attrs, init)) == Link(l.url, l.rel, MapOf(l.attrs, init))
    ensures ApplyAttrs(EmptyLink, HeadPieces(l) + AttrPieces(l.attrs, order)) == Link(l.url, l.rel, MapOf(l.attrs, order))
  {
    var init := order[..|order| - 1];
    var k := order[|order| - 1];
    var v := l.attrs[k];
    var ps := HeadPieces(l) + AttrPieces(l.attrs, init);
    PiecesSnoc(l, order);
    ApplyAttrsSnoc(EmptyLink, ps, AttrPiece(k, v));
    ParseAttrPiece(Link(l.url, l.rel, MapOf(l.attrs, init)), k, v);
    MapOfSnoc(l.attrs, order);
  }

  lemma {:induction false} ParsePieces(l: Link, order: seq<string>)
    requires Within(order, l.attrs) && Printable(l)
    ensures ApplyAttrs(EmptyLink, HeadPieces(l) + AttrPieces(l.attrs, order)) == Link(l.url, l.rel, MapOf(l.attrs, order))
    decreases |order|
  {
    if order == [] {
      HeadParses(l);
      assert HeadPieces(l) + AttrPieces(l.attrs, order) == HeadPieces(l);
      assert MapOf(l.attrs, order) == map[];
    } else {
      ParsePieces(l, order[..|order| - 1]);
      ParsePieceStep(l, order);
    }
  }

  /** A printable link's text parses back to the link, whatever order its
      attributes were written in. */
  lemma LinkTextParses(l: Link, order: seq<string>)
    requires Printable(l) && Enumerates(order, l.attrs.Keys) && Within(order, l.attrs)
    ensures ParseSegment(LinkText(l, order)) == l
  {
    SplitLinkText(l, order);
    ParsePieces(l, order);
    assert MapOf(l.attrs, order) == l.attrs;
  }

  /** Optional spaces around a text. */
  function Pad(lead: bool, t: string, trail: bool): string {
    (if lead then " " else "") + t + (if trail then " " else "")
  }

  /** Two sequences of attributes that trim alike. */
  predicate SameTrims(a: seq<string>, b: seq<string>) {
    |a| == |b| && forall i :: 0 <= i < |a| ==> TrimSpace(a[i]) == TrimSpace(b[i])
  }

  lemma SameTrimsFirst(x: string, y: string, r: seq<string>)
    requires TrimSpace(x) == TrimSpace(y)
    ensures SameTrims([x] + r, [y] + r)
  {
    var a := [x] + r;
    var b := [y] + r;
    forall i | 0 <= i < |a| ensures TrimSpace(a[i]) == TrimSpace(b[i]) {
      if i == 0 { assert a[0] == x && b[0] == y; } else { assert a[i] == r[i - 1] == b[i]; }
    }
  }

  lemma SameTrimsLast(r: seq<string>, x: string, y: string)
    requires TrimSpace(x) == TrimSpace(y)
    ensures SameTrims(r + [x], r + [y])
  {
    var a := r + [x];
    var b := r + [y];
    forall i | 0 <= i < |a| ensures TrimSpace(a[i]) == TrimSpace(b[i]) {
      if i < |r| { assert a[i] == r[i] == b[i]; } else { assert a[i] == x && b[i] == y; }
    }
  }

  lemma SplitLeadSpace(t: string)
    ensures Split([' '] + t, ';') == [[' '] + Split(t, ';')[0]] + Split(t, ';')[1..]
  {
    var s := [' '] + t;
    assert s[1..] == t;
  }

  lemma LeadSpaceSplit(t: string)
    ensures SameTrims(Split([' '] + t, ';'), Split(t, ';'))
  {
    var r := Split(t, ';');
    SplitLeadSpace(t);
    TrimLead(' ', r[0], IsSpace);
    SameTrimsFirst([' '] + r[0], r[0], r[1..]);
    assert [r[0]] + r[1..] == r;
  }

  lemma TrailSpaceSplit(t: string)
    ensures SameTrims(Split(t + [' '], ';'), Split(t, ';'))
  {
    var r := Split(t, ';');
    var n := |r| - 1;
    SplitTrail(t, ' ', ';');
    TrimTrail(r[n], ' ', IsSpace);
    SameTrimsLast(r[..n], r[n] + [' '], r[n]);
    assert r[..n] + [r[n]] == r;
  }

  /** Spaces around a segment do not change the link it describes. */
  lemma PadKeepsSegment(lead: bool, t: string, trail: bool)
    ensures ParseSegment(Pad(lead, t, trail)) == ParseSegment(t)
  {
    var lt := (if lead then " " else "") + t;
    if lead {
      assert lt == [' '] + t;
      LeadSpaceSplit(t);
      SameTrimSameLink(EmptyLink, Split(lt, ';'), Split(t, ';'));
    } else {
      assert lt == t;
    }
    assert ParseSegment(lt) == ParseSegment(t);
    if trail {
      assert Pad(lead, t, trail) == lt + [' '];
      TrailSpaceSplit(lt);
      SameTrimSameLink(EmptyLink, Split(lt + [' '], ';'), Split(lt, ';'));
    } else {
      assert Pad(lead, t, trail) == lt;
    }
  }

  lemma {:induction false} SameTrimSameLink(link: Link, a: seq<string>, b: seq<string>)
    requires SameTrims(a, b)
    ensures ApplyAttrs(link, a) == ApplyAttrs(link, b)
    decreases |a|
  {
    if a != [] {
      assert ApplyAttr(link, a[0]) == ApplyAttr(link, b[0]);
      assert SameTrims(a[1..], b[1..]) by {
        forall i | 0 <= i < |a| - 1 ensures TrimSpace(a[1..][i]) == TrimSpace(b[1..][i]) {
          assert a[1..][i] == a[i + 1] && b[1..][i] == b[i + 1];
        }
      }
      SameTrimSameLink(ApplyAttr(link, a[0]), a[1..], b[1..]);
    }
  }

  /** The segments of a " , "-join as ParseLinks sees them after splitting at ','. */
  function PadFrom(texts: seq<string>, lead: bool): (r: seq<string>)
    ensures |r| == |texts|
  {
    seq(|texts|, i requires 0 <= i < |texts| => Pad(lead || i > 0, texts[i], i < |texts| - 1))
  }

  lemma {:induction false} JoinPadded(texts: seq<string>, lead: bool)
    requires |texts| >= 1
    ensures (if lead then " " else "") + Join(texts, " , ") == Join(PadFrom(texts, lead), ",")
    decreases |texts|
  {
    var L := if lead then " " else "";
    if |texts| == 1 {
      assert PadFrom(texts, lead) == [L + texts[0] + ""];
    } else {
      var rest := texts[1..];
      JoinPadded(rest, true);
      var p := PadFrom(texts, lead);
      assert p[1..] == PadFrom(rest, true);
      assert p[0] == L + texts[0] + " ";
      calc {
        Join(p, ",");
        p[0] + "," + Join(p[1..], ",");
        (L + texts[0] + " ") + "," + (" " + Join(rest, " , "));
        L + (texts[0] + " , " + Join(rest, " , "));
        L + Join(texts, " , ");
      }
    }
  }

  lemma {:induction false} LinkTextsAt(ls: seq<Link>, orders: seq<seq<string>>)
    requires |orders| == |ls|
    requires forall i :: 0 <= i < |ls| ==> Within(orders[i], ls[i].attrs)
    ensures forall i :: 0 <= i < |ls| ==> LinkTexts(ls, orders)[i] == LinkText(ls[i], orders[i])
    decreases |ls|
  {
    if ls != [] {
      var n := |ls| - 1;
      LinkTextsAt(ls[..n], orders[..n]);
    }
  }

  lemma ParseAllKeptLast(segments: seq<string>, link: Link)
    requires segments != [] && ParseSegment(segments[|segments| - 1]) == link && link.url != ""
    ensures ParseAll(segments) == ParseAll(segments[..|segments| - 1]) + [link]
  {
  }

  lemma {:induction false} ParseAllKeepsAll(segments: seq<string>, ls: seq<Link>)
    requires |segments| == |ls|
    requires forall i :: 0 <= i < |ls| ==> ParseSegment(segments[i]) == ls[i] && ls[i].url != ""
    ensures ParseAll(segments) == ls
    decreases |ls|
  {
    if ls != [] {
      var n := |ls| - 1;
      ParseAllKeepsAll(segments[..n], ls[..n]);
      ParseAllKeptLast(segments, ls[n]);
      assert ls == ls[..n] + [ls[n]];
    }
  }

  /** Printing printable links with Links.String and parsing the text with
      ParseLinks gives the links back, whatever order each map was printed in. */
  lemma LinksRoundTrip(ls: seq<Link>, orders: seq<seq<string>>)
    requires |orders| == |ls|
    requires forall i :: 0 <= i < |ls| ==> Printable(ls[i]) && Enumerates(orders[i], ls[i].attrs.Keys) && Within(orders[i], ls[i].attrs)
    ensures ParseAll(Split(Join(LinkTexts(ls, orders), " , "), ',')) == ls
  {
    var texts := LinkTexts(ls, orders);
    if ls == [] {
      assert Join(texts, " , ") == "";
      assert ParseSegment("") == EmptyLink;
      assert ParseAll([""]) == [];
    } else {
      LinkTextsAt(ls, orders);
      JoinPadded(texts, false);
      var segs := PadFrom(texts, false);
      assert Join(texts, " , ") == Join(segs, ",");
      forall i | 0 <= i < |segs|
        ensures ',' !in segs[i] && ParseSegment(segs[i]) == ls[i]
      {
        LinkTextParses(ls[i], orders[i]);
        PadKeepsSegment(i > 0, texts[i], i < |texts| - 1);
        NoCommaInText(ls[i], orders[i]);
      }
      JoinSplit(segs, ',');
      ParseAllKeepsAll(segs, ls);
    }
  }

  lemma {:induction false} NoCommaInText(l: Link, order: seq<string>)
    requires Printable(l) && Within(order, l.attrs)
    ensures ',' !in LinkText(l, order)
    decreases |order|
  {
    if order != [] {
      NoCommaInText(l, order[..|order| - 1]);
    }
  }

  /** The round trip through the two methods themselves. */
  method PrintThenParse(ls: seq<Link>) returns (parsed: seq<Link>)
    requires forall i :: 0 <= i < |ls| ==> Printable(ls[i])
    ensures parsed == ls
  {
    var s, orders := LinksString(ls);
    parsed := ParseLinks(s);
    LinksRoundTrip(ls, orders);
  }
}
