/** The Link header model of urllib/link.go: ParseLinks and the two String
    methods. The parser is a simplified reading of the Link header field of
    section 3 of RFC 8288: links are split at every ',', attributes at every
    ';', with no quoting rules. */
module UrlLib {
  import opened Wrappers
  import opened GoStrings

  /** A link: its target, its rel and every other attribute. (Go keeps *Link
      pointers; each is created afresh and never shared, so values stand for them.) */
  datatype Link = Link(url: string, rel: string, attrs: map<string, string>)

  const EmptyLink := Link("", "", map[])

  /** An attribute written "<...>" after trimming: the link target. */
  predicate Bracketed(a: string) {
    |a| >= 2 && a[0] == '<' && a[|a| - 1] == '>'
  }

  /** The key of a trimmed key=value attribute and its value with the surrounding
      double quotes removed; a key with no '=' has the empty value. */
  function KeyValue(a: string): (r: (string, string))
    ensures '=' !in a ==> r == (a, "")
    ensures '=' in a ==> '=' !in r.0 && |r.0| < |a| && a[|r.0|] == '='
    ensures r.1 != "" ==> r.1[0] != '"' && r.1[|r.1| - 1] != '"'
  {
    var (key, rest) := Cut(a, '=');
    if rest.Some? then
      TrimEnds(rest.value, IsQuote);
      (key, Trim(rest.value, IsQuote))
    else (key, "")
  }

  /** One ';'-separated attribute applied to the link being built. */
  function ApplyAttr(link: Link, raw: string): Link {
    var a := TrimSpace(raw);
    if |a| == 0 then link
    else if a[0] == '<' && a[|a| - 1] == '>' then link.(url := a[1..|a| - 1])
    else
      var (key, value) := KeyValue(a);
      if key == "rel" then link.(rel := value) else link.(attrs := link.attrs[key := value])
  }

  /** What one attribute does to the link. */
  lemma ApplyAttrCases(link: Link, raw: string)
    // empty and whitespace-only attributes are skipped
    ensures TrimSpace(raw) == "" ==> ApplyAttr(link, raw) == link
    // a bracketed attribute sets the URL and nothing else
    ensures var a := TrimSpace(raw);
      Bracketed(a) ==> ApplyAttr(link, raw) == link.(url := a[1..|a| - 1])
    // any other attribute keeps the URL and sets either Rel or one attribute entry
    ensures var a := TrimSpace(raw);
      a != "" && !Bracketed(a) ==>
      var (key, value) := KeyValue(a);
      ApplyAttr(link, raw) == (if key == "rel" then link.(rel := value) else link.(attrs := link.attrs[key := value]))
  {
  }

  /** The attributes applied left to right. */
  function ApplyAttrs(link: Link, raws: seq<string>): Link
    decreases |raws|
  {
    if raws == [] then link else ApplyAttrs(ApplyAttr(link, raws[0]), raws[1..])
  }

  /** The link one ','-separated segment describes. */
  function ParseSegment(segment: string): Link {
    ApplyAttrs(EmptyLink, Split(segment, ';'))
  }

  /** The links of the segments, in order, without those that have no URL. */
  function ParseAll(segments: seq<string>): (r: seq<Link>)
    ensures |r| <= |segments|
    ensures forall i :: 0 <= i < |r| ==> r[i].url != ""
  {
    if segments == [] then []
    else
      var last := ParseSegment(segments[|segments| - 1]);
      ParseAll(segments[..|segments| - 1]) + (if last.url != "" then [last] else [])
  }

  /** ParseLinks: split at ',', build a link from each segment's attributes,
      keep the links that have a URL. */
  method ParseLinks(str: string) returns (links: seq<Link>)
    ensures links == ParseAll(Split(str, ','))
  {
    links := [];
    var segments := Split(str, ',');
    for i := 0 to |segments|
      invariant links == ParseAll(segments[..i])
    {
      assert segments[..i + 1][..i] == segments[..i];
      var link := EmptyLink;
      var raws := Split(segments[i], ';');
      for j := 0 to |raws|
        invariant ApplyAttrs(link, raws[j..]) == ParseSegment(segments[i])
      {
        assert raws[j..][1..] == raws[j + 1..];
        var attr := TrimSpace(raws[j]);
        if |attr| == 0 {
          continue;
        }
        if attr[0] == '<' && attr[|attr| - 1] == '>' {
          link := link.(url := attr[1..|attr| - 1]);
          continue;
        }
        var (key, rest) := Cut(attr, '=');
        var value := "";
        if rest.Some? {
          value := Trim(rest.value, IsQuote);
        }
        if key == "rel" {
          link := link.(rel := value);
        } else {
          link := link.(attrs := link.attrs[key := value]);
        }
      }
      if |link.url| == 0 {
        continue;
      }
      links := links + [link];
    }
    assert segments[..|segments|] == segments;
  }

  /** The attribute map of a parsed link: no "rel" entry, and no value that
      begins or ends with a double quote. */
  predicate Unquoted(v: string) {
    v != "" ==> v[0] != '"' && v[|v| - 1] != '"'
  }

  predicate AttrsWellFormed(attrs: map<string, string>) {
    "rel" !in attrs && forall k | k in attrs :: Unquoted(attrs[k])
  }

  lemma AttrKeepsShape(link: Link, raw: string)
    requires AttrsWellFormed(link.attrs) && Unquoted(link.rel)
    ensures AttrsWellFormed(ApplyAttr(link, raw).attrs) && Unquoted(ApplyAttr(link, raw).rel)
  {
    var a := TrimSpace(raw);
    ApplyAttrCases(link, raw);
    if a != "" && !Bracketed(a) {
      var kv := KeyValue(a);
      assert Unquoted(kv.1);
      ValueKeepsShape(link, kv.0, kv.1);
    }
  }

  lemma ValueKeepsShape(link: Link, key: string, value: string)
    requires AttrsWellFormed(link.attrs) && Unquoted(link.rel) && Unquoted(value)
    ensures var next := if key == "rel" then link.(rel := value) else link.(attrs := link.attrs[key := value]);
      AttrsWellFormed(next.attrs) && Unquoted(next.rel)
  {
  }

  lemma {:induction false} AttrsKeepShape(link: Link, raws: seq<string>)
    requires AttrsWellFormed(link.attrs) && Unquoted(link.rel)
    ensures AttrsWellFormed(ApplyAttrs(link, raws).attrs) && Unquoted(ApplyAttrs(link, raws).rel)
    decreases |raws|
  {
    if raws != [] {
      AttrKeepsShape(link, raws[0]);
      AttrsKeepShape(ApplyAttr(link, raws[0]), raws[1..]);
    }
  }

  /** Every parsed link keeps "rel" out of Attrs, and neither Rel nor any
      attribute value begins or ends with a double quote. */
  lemma ParsedLinkShape(segment: string)
    ensures AttrsWellFormed(ParseSegment(segment).attrs) && Unquoted(ParseSegment(segment).rel)
  {
    AttrsKeepShape(EmptyLink, Split(segment, ';'));
  }

  /** The indices of the segments whose link is kept. */
  function Kept(segments: seq<string>): seq<nat> {
    if segments == [] then []
    else
      var n := |segments| - 1;
      Kept(segments[..n]) + (if ParseSegment(segments[n]).url != "" then [n] else [])
  }

  /** The kept indices are segment positions, in increasing order, one per parsed link. */
  lemma {:induction false} KeptIncreasing(segments: seq<string>)
    ensures var idx := Kept(segments);
      |idx| == |ParseAll(segments)|
      && (forall k :: 0 <= k < |idx| ==> idx[k] < |segments|)
      && (forall k, l :: 0 <= k < l < |idx| ==> idx[k] < idx[l])
    decreases |segments|
  {
    if segments != [] {
      KeptIncreasing(segments[..|segments| - 1]);
    }
  }

  /** The parsed links come from the segments in segment order: the k-th link
      is that of the k-th kept segment. */
  lemma {:induction false} ParseAllInOrder(segments: seq<string>)
    ensures var r := ParseAll(segments); var idx := Kept(segments);
      |idx| == |r|
      && (forall k :: 0 <= k < |idx| ==> idx[k] < |segments| && r[k] == ParseSegment(segments[idx[k]]))
      && (forall k, l :: 0 <= k < l < |idx| ==> idx[k] < idx[l])
    decreases |segments|
  {
    KeptIncreasing(segments);
    if segments != [] {
      var n := |segments| - 1;
      var init := segments[..n];
      ParseAllInOrder(init);
      var prev := Kept(init);
      var r := ParseAll(segments);
      var idx := Kept(segments);
      var last := ParseSegment(segments[n]);
      var rest := ParseAll(init);
      assert r == rest + (if last.url != "" then [last] else []);
      assert idx == prev + (if last.url != "" then [n] else []);
      forall k | 0 <= k < |idx|
        ensures r[k] == ParseSegment(segments[idx[k]])
      {
        if k < |prev| {
          assert idx[k] == prev[k] && r[k] == rest[k];
          assert init[prev[k]] == segments[prev[k]];
        }
      }
    }
  }

  /** A value between double quotes. */
  function Quoted(value: string): string {
    "\"" + value + "\""
  }

  /** `key="value"`. */
  function Pair(key: string, value: string): string {
    key + "=" + Quoted(value)
  }

  /** One attribute as Link.String writes it: `; key="value"`. */
  function AttrText(key: string, value: string): string {
    "; " + Pair(key, value)
  }

  /** Every key of the order is a key of the map. */
  predicate Within(order: seq<string>, attrs: map<string, string>) {
    forall i :: 0 <= i < |order| ==> order[i] in attrs
  }

  /** The text of the attributes in a given order. */
  function AttrsText(attrs: map<string, string>, order: seq<string>): string
    requires Within(order, attrs)
  {
    if order == [] then ""
    else
      var k := order[|order| - 1];
      AttrsText(attrs, order[..|order| - 1]) + AttrText(k, attrs[k])
  }

  /** The rel attribute as Link.String writes it: `; rel="..."`. */
  function RelText(rel: string): string {
    "; " + Pair("rel", rel)
  }

  /** "<URL>", then `; rel="..."` when Rel is not empty. */
  function Head(l: Link): string {
    "<" + l.url + ">" + (if |l.rel| > 0 then RelText(l.rel) else "")
  }

  /** The text of one link, for a given order of its attributes. */
  function LinkText(l: Link, order: seq<string>): string
    requires Within(order, l.attrs)
  {
    Head(l) + AttrsText(l.attrs, order)
  }

  /** The texts of several links, each with its own attribute order. */
  function LinkTexts(ls: seq<Link>, orders: seq<seq<string>>): (r: seq<string>)
    requires |orders| == |ls|
    requires forall i :: 0 <= i < |ls| ==> Within(orders[i], ls[i].attrs)
    ensures |r| == |ls|
  {
    if ls == [] then []
    else
      var n := |ls| - 1;
      LinkTexts(ls[..n], orders[..n]) + [LinkText(ls[n], orders[n])]
  }

  /** Link.String: the head, then every attribute as `; key="value"` in the
      map's iteration order, which is unspecified; `order` is the order taken. */
  method LinkString(l: Link) returns (s: string, ghost order: seq<string>)
    ensures Enumerates(order, l.attrs.Keys) && Within(order, l.attrs)
    ensures s == LinkText(l, order)
    ensures |Head(l)| <= |s| && s[..|Head(l)|] == Head(l)
    ensures l.attrs == map[] ==> s == Head(l)
  {
    s := "<" + l.url + ">";
    if |l.rel| > 0 {
      s := s + RelText(l.rel);
    }
    assert s == Head(l) + "";
    var rest := l.attrs.Keys;
    order := [];
    while rest != {}
      invariant rest <= l.attrs.Keys
      invariant Within(order, l.attrs)
      invariant forall i :: 0 <= i < |order| ==> order[i] !in rest
      invariant forall k :: k in l.attrs && k !in rest ==> k in order
      invariant forall i, j :: 0 <= i < j < |order| ==> order[i] != order[j]
      invariant s == Head(l) + AttrsText(l.attrs, order)
      decreases |rest|
    {
      var key :| key in rest;
      ghost var before := order;
      var text := AttrText(key, l.attrs[key]);
      s := s + text;
      order := order + [key];
      assert order[..|order| - 1] == before;
      assert AttrsText(l.attrs, order) == AttrsText(l.attrs, before) + text;
      assert s == Head(l) + (AttrsText(l.attrs, before) + text);
      rest := rest - {key};
    }
  }

  /** Links.String: every link's text, joined with " , ". */
  method LinksString(ls: seq<Link>) returns (s: string, ghost orders: seq<seq<string>>)
    ensures |orders| == |ls|
    ensures forall i :: 0 <= i < |ls| ==> Enumerates(orders[i], ls[i].attrs.Keys) && Within(orders[i], ls[i].attrs)
    ensures s == Join(LinkTexts(ls, orders), " , ")
    ensures s == "" <==> ls == []
    ensures ls != [] ==> s[0] == '<'
  {
    var strs: seq<string> := [];
    orders := [];
    for i := 0 to |ls|
      invariant |orders| == i
      invariant forall j :: 0 <= j < i ==> Enumerates(orders[j], ls[j].attrs.Keys) && Within(orders[j], ls[j].attrs)
      invariant strs == LinkTexts(ls[..i], orders)
      invariant i > 0 ==> strs[0] != "" && strs[0][0] == '<'
    {
      var t, order := LinkString(ls[i]);
      TextStarts(ls[i], order);
      ghost var before := orders;
      strs := strs + [t];
      orders := orders + [order];
      assert ls[..i + 1][..i] == ls[..i] && orders[..i] == before;
    }
    assert ls[..|ls|] == ls;
    s := Join(strs, " , ");
    if strs != [] {
      JoinStarts(strs, " , ");
    }
  }

  /** A link's text starts with the '<' of its target. */
  lemma TextStarts(l: Link, order: seq<string>)
    requires Within(order, l.attrs)
    ensures LinkText(l, order) != "" && LinkText(l, order)[0] == '<'
  {
    assert LinkText(l, order) == ['<'] + (l.url + ">" + (if |l.rel| > 0 then RelText(l.rel) else "") + AttrsText(l.attrs, order));
  }

  /** A join starts with the first part. */
  lemma JoinStarts(parts: seq<string>, sep: string)
    requires parts != [] && parts[0] != ""
    ensures Join(parts, sep) != "" && Join(parts, sep)[0] == parts[0][0]
  {
    if |parts| > 1 {
      assert Join(parts, sep) == parts[0] + (sep + Join(parts[1..], sep));
    }
  }
}
