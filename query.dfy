/** The query builder of orm/query.go: the Query record and its pagination,
    the clone used for counting, and the translation of keywords, sorts and
    pages into calls on the ORM's query setter. The setter is modelled by the
    list of calls made on it, in order. */
module OrmQuery {
  import opened Wrappers
  import opened Errors
  import opened GoStrings

  /** Go's int64. */
  newtype int64 = x: int | -0x8000_0000_0000_0000 <= x < 0x8000_0000_0000_0000

  const Int64Span: int := 0x1_0000_0000_0000_0000

  /** Two's complement wrap-around into int64. */
  function Wrap(x: int): int64 {
    ((x + 0x8000_0000_0000_0000) % Int64Span - 0x8000_0000_0000_0000) as int64
  }

  /** Wrapping changes a number by a multiple of 2^64 and leaves an int64 as it is. */
  lemma WrapCongruent(x: int)
    ensures (x - Wrap(x) as int) % Int64Span == 0
    ensures -0x8000_0000_0000_0000 <= x < 0x8000_0000_0000_0000 ==> Wrap(x) as int == x
  {
  }

  /** int64 multiplication as Go performs it: the product modulo 2^64. */
  function Mul(a: int64, b: int64): int64 {
    Wrap(a as int * b as int)
  }

  /** The `interface{}` values a keyword or a parameter can hold: nil, numbers,
      strings and the query value types of orm/query.go. A nil *OrList is NilOrList. */
  datatype Value =
    | Nil
    | Int(i: int)
    | Str(s: string)
    | Fuzzy(text: string)
    | Range(min: Value, max: Value)
    | OrList(values: seq<Value>)
    | NilOrList
    | AndList(values: seq<Value>)

  datatype Sort = Sort(key: string, desc: bool)

  /** A call made on the ORM's query setter. FilterFunc is the model's own
      filter method, called with the keyword and its value. */
  datatype Op =
    | Filter(expr: string, args: seq<Value>)
    | FilterFunc(key: string, value: Value)
    | OrderBy(keys: seq<string>)
    | Limit(n: int64)
    | Offset(n: int64)

  /** What parseModel learns about a model: which keys can be filtered (and
      whether through a filter method), which can be sorted, and the default sorts. */
  datatype Field = Field(hasFilterFunc: bool)

  datatype Meta = Meta(filterable: string -> Option<Field>, sortable: string -> bool, defaultSorts: seq<Sort>)

  /** The Query record. Go passes *Query; First and QuerySetterForCount update it in place. */
  class Query {
    var keywords: map<string, Value>
    var sorts: seq<Sort>
    var pageNumber: int64
    var pageSize: int64
    var sorting: string

    /** New: a query holding only the given keywords. */
    constructor (kw: map<string, Value>)
      ensures keywords == kw && sorts == [] && pageNumber == 0 && pageSize == 0 && sorting == ""
    {
      keywords := kw;
      sorts := [];
      pageNumber := 0;
      pageSize := 0;
      sorting := "";
    }

    /** First: one record (page 1 of size 1), the given sorts after the existing ones. */
    method First(extra: seq<Sort>) returns (q: Query)
      modifies this
      ensures q == this
      ensures pageNumber == 1 && pageSize == 1
      ensures sorts == old(sorts) + extra
      ensures keywords == old(keywords) && sorting == old(sorting)
    {
      pageNumber := 1;
      pageSize := 1;
      if |extra| > 0 {
        sorts := sorts + extra;
      }
      q := this;
    }
  }

  /** Every keyword of a map copied into a fresh map, in an unspecified order. */
  method CopyKeywords(kw: map<string, Value>) returns (copy: map<string, Value>)
    ensures copy == kw
  {
    copy := map[];
    var rest := kw.Keys;
    while rest != {}
      invariant rest <= kw.Keys
      invariant copy.Keys == kw.Keys - rest
      invariant forall k | k in copy :: copy[k] == kw[k]
      decreases |rest|
    {
      var k :| k in rest;
      copy := copy[k := kw[k]];
      rest := rest - {k};
    }
  }

  /** The sort list MustClone builds as written: the original list (shared),
      then a fresh copy of each original entry. */
  function ClonedSortsAsWritten(sorts: seq<Sort>): seq<Sort> {
    sorts + sorts
  }

  /** MustClone as written. A nil query gives an empty one; otherwise the clone
      has the pages and the keywords (in a fresh map) of the original, not its
      Sorting text, and its sort list holds every sort twice. */
  method MustCloneAsWritten(query: Query?) returns (q: Query)
    ensures fresh(q)
    ensures query == null ==> q.keywords == map[] && q.sorts == [] && q.pageNumber == 0 && q.pageSize == 0
    ensures query != null ==>
      q.keywords == query.keywords && q.pageNumber == query.pageNumber
      && q.pageSize == query.pageSize && q.sorts == ClonedSortsAsWritten(query.sorts)
    ensures q.sorting == ""
  {
    q := new Query(map[]);
    if query != null {
      q.pageNumber := query.pageNumber;
      q.pageSize := query.pageSize;
      var kw := CopyKeywords(query.keywords);
      q.keywords := kw;
      var sorts := query.sorts;
      for i := 0 to |query.sorts|
        invariant sorts == query.sorts + query.sorts[..i]
      {
        sorts := sorts + [Sort(query.sorts[i].key, query.sorts[i].desc)];
      }
      assert query.sorts[..|query.sorts|] == query.sorts;
      q.sorts := sorts;
    }
  }

  /** The as-written clone of a query with one sort sorts by that key twice. */
  lemma AsWrittenDoublesSorts(sorts: seq<Sort>)
    requires sorts != []
    ensures |ClonedSortsAsWritten(sorts)| == 2 * |sorts|
    ensures ClonedSortsAsWritten(sorts) != sorts
    ensures ClonedSortsAsWritten([Sort("name", false)]) == [Sort("name", false), Sort("name", false)]
  {
  }

  /** MustClone as evidently intended: the sort list is a copy of the original's. */
  method MustClone(query: Query?) returns (q: Query)
    ensures fresh(q)
    ensures query == null ==> q.keywords == map[] && q.sorts == [] && q.pageNumber == 0 && q.pageSize == 0
    ensures query != null ==>
      q.keywords == query.keywords && q.pageNumber == query.pageNumber
      && q.pageSize == query.pageSize && q.sorts == query.sorts
    ensures q.sorting == ""
  {
    q := new Query(map[]);
    if query != null {
      q.pageNumber := query.pageNumber;
      q.pageSize := query.pageSize;
      var kw := CopyKeywords(query.keywords);
      q.keywords := kw;
      var sorts := [];
      for i := 0 to |query.sorts|
        invariant sorts == query.sorts[..i]
      {
        sorts := sorts + [Sort(query.sorts[i].key, query.sorts[i].desc)];
      }
      assert query.sorts[..|query.sorts|] == query.sorts;
      q.sorts := sorts;
    }
  }

  // ---------------------------------------------------------------- pagination

  /** The offset of a page: (number - 1) * size in int64 arithmetic. */
  function PageOffset(number: int64, size: int64): int64
    requires number > 0
  {
    Mul(number - 1, size)
  }

  /** Without overflow the offset is the number of records on the earlier pages,
      and it is never negative. */
  lemma PageOffsetExact(number: int64, size: int64)
    requires number > 0 && size > 0
    requires (number as int - 1) * size as int < 0x8000_0000_0000_0000
    ensures PageOffset(number, size) as int == (number as int - 1) * size as int
    ensures PageOffset(number, size) >= 0
  {
    WrapCongruent((number as int - 1) * size as int);
  }

  /** The page information of a query as the raw-SQL helper sees it: None for a nil query. */
  function RawPagination(page: Option<(int64, int64)>, sql: string, params: seq<Value>): (string, seq<Value>) {
    match page
    case None => (sql, params)
    case Some((number, size)) =>
      if size <= 0 then (sql, params)
      else if number > 0 then (sql + " limit ?" + " offset ?", params + [Int(size as int), Int(PageOffset(number, size) as int)])
      else (sql + " limit ?", params + [Int(size as int)])
  }

  /** Number of '?' placeholders in a text. */
  function Placeholders(s: string): nat {
    multiset(s)['?']
  }

  lemma PlaceholdersAppend(a: string, b: string)
    ensures Placeholders(a + b) == Placeholders(a) + Placeholders(b)
  {
    assert multiset(a + b) == multiset(a) + multiset(b);
  }

  lemma LimitText()
    ensures Placeholders(" limit ?") == 1
  {
    PlaceholdersAppend(" limit ", "?");
    assert " limit " + "?" == " limit ?";
    assert '?' !in " limit ";
  }

  lemma OffsetText()
    ensures Placeholders(" offset ?") == 1
  {
    PlaceholdersAppend(" offset ", "?");
    assert " offset " + "?" == " offset ?";
    assert '?' !in " offset ";
  }

  /** Text and parameters that extend the given ones by one parameter per added placeholder. */
  predicate Extends(sql: string, params: seq<Value>, s: string, ps: seq<Value>) {
    |sql| <= |s| && s[..|sql|] == sql && |params| <= |ps| && ps[..|params|] == params
    && Placeholders(s) == Placeholders(sql) + (|ps| - |params|)
  }

  lemma ExtendsByOne(sql: string, params: seq<Value>, text: string, p: Value)
    requires Placeholders(text) == 1
    ensures Extends(sql, params, sql + text, params + [p])
  {
    PlaceholdersAppend(sql, text);
    assert (sql + text)[..|sql|] == sql;
    assert (params + [p])[..|params|] == params;
  }

  lemma ExtendsTrans(s1: string, p1: seq<Value>, s2: string, p2: seq<Value>, s3: string, p3: seq<Value>)
    requires Extends(s1, p1, s2, p2) && Extends(s2, p2, s3, p3)
    ensures Extends(s1, p1, s3, p3)
  {
    assert s3[..|s1|] == s3[..|s2|][..|s1|];
    assert p3[..|p1|] == p3[..|p2|][..|p1|];
  }

  lemma LimitExtends(size: int64, sql: string, params: seq<Value>)
    ensures Extends(sql, params, sql + " limit ?", params + [Int(size as int)])
  {
    LimitText();
    ExtendsByOne(sql, params, " limit ?", Int(size as int));
  }

  lemma LimitOffsetExtends(size: int64, offset: int64, sql: string, params: seq<Value>)
    ensures Extends(sql, params, sql + " limit ?" + " offset ?", params + [Int(size as int), Int(offset as int)])
  {
    var s1, p1 := sql + " limit ?", params + [Int(size as int)];
    LimitExtends(size, sql, params);
    OffsetText();
    ExtendsByOne(s1, p1, " offset ?", Int(offset as int));
    ExtendsTrans(sql, params, s1, p1, s1 + " offset ?", p1 + [Int(offset as int)]);
    assert p1 + [Int(offset as int)] == params + [Int(size as int), Int(offset as int)];
  }

  /** The raw-SQL helper keeps the SQL and parameters given and adds exactly one
      parameter per placeholder it adds: a limit, then an offset for a positive page. */
  lemma RawPaginationBindsEveryPlaceholder(page: Option<(int64, int64)>, sql: string, params: seq<Value>)
    ensures Extends(sql, params, RawPagination(page, sql, params).0, RawPagination(page, sql, params).1)
  {
    if page.Some? && page.value.1 > 0 {
      var (number, size) := page.value;
      if number > 0 {
        LimitOffsetExtends(size, PageOffset(number, size), sql, params);
      } else {
        LimitExtends(size, sql, params);
      }
    } else {
      assert sql[..|sql|] == sql && params[..|params|] == params;
    }
  }

  /** Nothing is added exactly when there is no query or its page size is not positive. */
  lemma RawPaginationUnchanged(page: Option<(int64, int64)>, sql: string, params: seq<Value>)
    ensures page.None? || page.value.1 <= 0 <==> RawPagination(page, sql, params) == (sql, params)
  {
    if page.Some? && page.value.1 > 0 {
      assert |RawPagination(page, sql, params).0| > |sql|;
    }
  }

  /** PaginationOnRawSQL: " limit ?" and the page size when the query has a
      positive page size, then " offset ?" and the offset when the page number
      is positive too; otherwise the SQL and parameters unchanged. */
  method PaginationOnRawSQL(query: Query?, sql: string, params: seq<Value>) returns (s: string, ps: seq<Value>)
    ensures s == RawPagination(if query == null then None else Some((query.pageNumber, query.pageSize)), sql, params).0
    ensures ps == RawPagination(if query == null then None else Some((query.pageNumber, query.pageSize)), sql, params).1
  {
    s, ps := sql, params;
    if query != null && query.pageSize > 0 {
      s := s + " limit ?";
      ps := ps + [Int(query.pageSize as int)];
      if query.pageNumber > 0 {
        s := s + " offset ?";
        ps := ps + [Int(Mul(query.pageNumber - 1, query.pageSize) as int)];
      }
    }
  }

  /** The pagination calls QuerySetter makes: Limit for a positive size, then
      Offset for a positive page number. */
  function PageOps(number: int64, size: int64): (r: seq<Op>)
    ensures size <= 0 <==> r == []
    ensures size > 0 ==> r[0] == Limit(size)
    ensures |r| == 2 <==> size > 0 && number > 0
  {
    if size <= 0 then []
    else if number > 0 then [Limit(size), Offset(Mul(size, number - 1))]
    else [Limit(size)]
  }

  /** QuerySetter's offset and the raw-SQL helper's offset are the same number,
      although one multiplies size by page and the other page by size. */
  lemma OffsetsAgree(number: int64, size: int64, sql: string, params: seq<Value>)
    requires number > 0 && size > 0
    ensures PageOps(number, size)[1] == Offset(PageOffset(number, size))
    ensures RawPagination(Some((number, size)), sql, params).1[|params| + 1] == Int(PageOps(number, size)[1].n as int)
  {
    assert (number - 1) as int * size as int == size as int * (number - 1) as int;
  }

  // ---------------------------------------------------------------- sorting

  /** A sort as the ORM's OrderBy takes it: the key, prefixed with "-" when descending. */
  function SortText(s: Sort): string {
    if s.desc then "-" + s.key else s.key
  }

  /** How OrderBy reads a sort text back. */
  function ReadSortText(t: string): Sort {
    if |t| > 0 && t[0] == '-' then Sort(t[1..], true) else Sort(t, false)
  }

  /** The text of a sort whose key does not itself start with '-' reads back as that sort. */
  lemma SortTextRoundTrip(s: Sort)
    requires s.key == "" || s.key[0] != '-'
    ensures ReadSortText(SortText(s)) == s
  {
    if s.desc {
      assert ("-" + s.key)[1..] == s.key;
    }
  }

  /** The texts of the sortable sorts, in order. */
  function Requested(sorts: seq<Sort>, sortable: string -> bool): seq<string> {
    if sorts == [] then []
    else
      var n := |sorts| - 1;
      Requested(sorts[..n], sortable) + (if sortable(sorts[n].key) then [SortText(sorts[n])] else [])
  }

  function Texts(sorts: seq<Sort>): (r: seq<string>)
    ensures |r| == |sorts|
    ensures forall i :: 0 <= i < |sorts| ==> r[i] == SortText(sorts[i])
  {
    if sorts == [] then [] else Texts(sorts[..|sorts| - 1]) + [SortText(sorts[|sorts| - 1])]
  }

  /** The sorts setSorts passes to OrderBy: the requested sortable ones, or the
      model's defaults when none is left. */
  function Sortings(sorts: seq<Sort>, meta: Meta): seq<string> {
    var r := Requested(sorts, meta.sortable);
    if |r| == 0 then Texts(meta.defaultSorts) else r
  }

  /** The calls setSorts adds: one OrderBy, or none when there is nothing to sort by. */
  function SortOps(sorts: seq<Sort>, meta: Meta): seq<Op> {
    var r := Sortings(sorts, meta);
    if |r| > 0 then [OrderBy(r)] else []
  }

  /** A text is requested exactly when it is the text of a sortable sort of the query. */
  lemma {:induction false} RequestedMembers(sorts: seq<Sort>, sortable: string -> bool, t: string)
    ensures t in Requested(sorts, sortable) <==> exists s :: s in sorts && sortable(s.key) && SortText(s) == t
    decreases |sorts|
  {
    if sorts != [] {
      var n := |sorts| - 1;
      RequestedMembers(sorts[..n], sortable, t);
      assert sorts == sorts[..n] + [sorts[n]];
      if exists s :: s in sorts && sortable(s.key) && SortText(s) == t {
        var s :| s in sorts && sortable(s.key) && SortText(s) == t;
        if s != sorts[n] {
          assert s in sorts[..n];
        }
      }
    }
  }

  /** When every sort is sortable, all of them are requested, in order. */
  lemma {:induction false} RequestedAll(sorts: seq<Sort>, sortable: string -> bool)
    requires forall i :: 0 <= i < |sorts| ==> sortable(sorts[i].key)
    ensures Requested(sorts, sortable) == Texts(sorts)
    decreases |sorts|
  {
    if sorts != [] {
      RequestedAll(sorts[..|sorts| - 1], sortable);
    }
  }

  /** The requested list is empty exactly when no sort is sortable, and never
      longer than the sort list. */
  lemma {:induction false} RequestedEmpty(sorts: seq<Sort>, sortable: string -> bool)
    ensures |Requested(sorts, sortable)| <= |sorts|
    ensures Requested(sorts, sortable) == [] <==> forall i :: 0 <= i < |sorts| ==> !sortable(sorts[i].key)
    decreases |sorts|
  {
    if sorts != [] {
      var n := |sorts| - 1;
      RequestedEmpty(sorts[..n], sortable);
      if Requested(sorts, sortable) == [] {
        forall i | 0 <= i < |sorts| ensures !sortable(sorts[i].key) {
          if i < n { assert sorts[..n][i] == sorts[i]; }
        }
      }
    }
  }

  /** The defaults are used exactly when no sort of the query is sortable. */
  lemma SortingsFallBack(sorts: seq<Sort>, meta: Meta)
    ensures (forall i :: 0 <= i < |sorts| ==> !meta.sortable(sorts[i].key)) ==> Sortings(sorts, meta) == Texts(meta.defaultSorts)
    ensures (exists i :: 0 <= i < |sorts| && meta.sortable(sorts[i].key)) ==> Sortings(sorts, meta) == Requested(sorts, meta.sortable) != []
  {
    RequestedEmpty(sorts, meta.sortable);
  }

  /** setSorts: the sortable sorts in order (or the defaults), added as one OrderBy. */
  method SetSorts(qs: seq<Op>, query: Query, meta: Meta) returns (r: seq<Op>)
    ensures r == qs + SortOps(query.sorts, meta)
  {
    var sortings: seq<string> := [];
    for i := 0 to |query.sorts|
      invariant sortings == Requested(query.sorts[..i], meta.sortable)
    {
      assert query.sorts[..i + 1][..i] == query.sorts[..i];
      var sort := query.sorts[i];
      if !meta.sortable(sort.key) {
        continue;
      }
      var sorting := sort.key;
      if sort.desc {
        sorting := "-" + sorting;
      }
      sortings := sortings + [sorting];
    }
    assert query.sorts[..|query.sorts|] == query.sorts;
    if |sortings| == 0 {
      for i := 0 to |meta.defaultSorts|
        invariant sortings == Texts(meta.defaultSorts[..i])
      {
        assert meta.defaultSorts[..i + 1][..i] == meta.defaultSorts[..i];
        var ds := meta.defaultSorts[i];
        var sorting := ds.key;
        if ds.desc {
          sorting := "-" + sorting;
        }
        sortings := sortings + [sorting];
      }
      assert meta.defaultSorts[..|meta.defaultSorts|] == meta.defaultSorts;
    }
    r := qs;
    if |sortings| > 0 {
      r := r + [OrderBy(sortings)];
    }
  }

  // ---------------------------------------------------------------- filtering

  /** strings.SplitN(key, "__", 2)[0]: the key up to the ORM's expression
      separator "__" (beego's orm.ExprSep). */
  function FieldOf(key: string): (r: string)
    ensures |r| <= |key| && key[..|r|] == r
    ensures r == key || (|r| + 2 <= |key| && key[|r|] == '_' && key[|r| + 1] == '_')
    ensures forall i :: 0 <= i < |r| - 1 ==> !(r[i] == '_' && r[i + 1] == '_')
  {
    if |key| < 2 then key
    else if key[0] == '_' && key[1] == '_' then ""
    else [key[0]] + FieldOf(key[1..])
  }

  /** The field a keyword filters on, if any: its name, or the snake-case form of its name. */
  function FieldFor(key: string, meta: Meta, snakeCase: string -> string): Option<Field> {
    var k := FieldOf(key);
    if meta.filterable(k).Some? then meta.filterable(k) else meta.filterable(snakeCase(k))
  }

  /** The calls setFilters makes for one keyword. escape is the ORM package's
      Escape for LIKE patterns. */
  function KeywordOps(key: string, value: Value, meta: Meta, snakeCase: string -> string, escape: string -> string): seq<Op> {
    match FieldFor(key, meta, snakeCase)
    case None => []
    case Some(field) =>
      if field.hasFilterFunc then [FilterFunc(key, value)]
      else
        match value
        case Fuzzy(text) => [Filter(key + "__icontains", [Str(escape(text))])]
        case Range(lo, hi) =>
          (if lo != Nil then [Filter(key + "__gte", [lo])] else [])
          + (if hi != Nil then [Filter(key + "__lte", [hi])] else [])
        case OrList(values) => if |values| == 0 then [Filter(key + "__in", [Nil])] else [Filter(key + "__in", values)]
        case NilOrList => [Filter(key + "__in", [Nil])]
        case AndList(_) => []
        case _ => [Filter(key, [value])]
  }

  /** What one keyword contributes. */
  lemma KeywordOpsCases(key: string, value: Value, meta: Meta, snakeCase: string -> string, escape: string -> string)
    ensures var ops := KeywordOps(key, value, meta, snakeCase, escape);
      // a keyword on no filterable field (under either spelling) is ignored
      && (FieldFor(key, meta, snakeCase).None? ==> ops == [])
      // a filter method takes over the keyword entirely
      && (FieldFor(key, meta, snakeCase).Some? && FieldFor(key, meta, snakeCase).value.hasFilterFunc ==> ops == [FilterFunc(key, value)])
      && (FieldFor(key, meta, snakeCase).Some? && !FieldFor(key, meta, snakeCase).value.hasFilterFunc ==>
        // a fuzzy value is a case-insensitive containment on the escaped text
        (value.Fuzzy? ==> ops == [Filter(key + "__icontains", [Str(escape(value.text))])])
        // a range bounds from below and above, each only when given
        && (value.Range? ==>
          |ops| <= 2
          && (Filter(key + "__gte", [value.min]) in ops <==> value.min != Nil)
          && (Filter(key + "__lte", [value.max]) in ops <==> value.max != Nil)
          && forall op :: op in ops ==> op == Filter(key + "__gte", [value.min]) || op == Filter(key + "__lte", [value.max]))
        // an empty or nil OrList still filters, on a single nil
        && ((value.OrList? && value.values == []) || value.NilOrList? ==> ops == [Filter(key + "__in", [Nil])])
        && (value.OrList? && value.values != [] ==> ops == [Filter(key + "__in", value.values)])
        // an AndList is left to the caller
        && (value.AndList? ==> ops == [])
        // anything else is an exact match
        && (value.Nil? || value.Int? || value.Str? ==> ops == [Filter(key, [value])]))
  {
  }

  /** What a keyword and its value turn into. */
  type Emit = (string, Value) -> seq<Op>

  function Emitter(meta: Meta, snakeCase: string -> string, escape: string -> string): Emit {
    (key, value) => KeywordOps(key, value, meta, snakeCase, escape)
  }

  /** The calls for the keywords, visited in the given order. */
  function FilterOps(kw: map<string, Value>, order: seq<string>, emit: Emit): seq<Op>
    requires forall i :: 0 <= i < |order| ==> order[i] in kw
  {
    if order == [] then []
    else
      var n := |order| - 1;
      FilterOps(kw, order[..n], emit) + emit(order[n], kw[order[n]])
  }

  /** setFilters: every keyword's calls, in the order the map is visited, which Go leaves unspecified. */
  method SetFilters(qs: seq<Op>, query: Query, meta: Meta, snakeCase: string -> string, escape: string -> string)
    returns (r: seq<Op>, ghost order: seq<string>)
    ensures Enumerates(order, query.keywords.Keys)
    ensures r == qs + FilterOps(query.keywords, order, Emitter(meta, snakeCase, escape))
    ensures |qs| <= |r| && r[..|qs|] == qs
    ensures forall i :: |qs| <= i < |r| ==> r[i].Filter? || r[i].FilterFunc?
    ensures query.keywords == map[] ==> r == qs
  {
    var kw := query.keywords;
    r := qs;
    order := [];
    var rest := kw.Keys;
    while rest != {}
      invariant rest <= kw.Keys
      invariant forall i :: 0 <= i < |order| ==> order[i] in kw && order[i] !in rest
      invariant forall k :: k in kw && k !in rest ==> k in order
      invariant forall i, j :: 0 <= i < j < |order| ==> order[i] != order[j]
      invariant r == qs + FilterOps(kw, order, Emitter(meta, snakeCase, escape))
      decreases |rest|
    {
      var key :| key in rest;
      ghost var before := order;
      ghost var prev := r;
      var ops := KeywordOps(key, kw[key], meta, snakeCase, escape);
      r := r + ops;
      order := order + [key];
      assert order[..|order| - 1] == before;
      assert FilterOps(kw, order, Emitter(meta, snakeCase, escape)) == FilterOps(kw, before, Emitter(meta, snakeCase, escape)) + ops;
      assert r == qs + (FilterOps(kw, before, Emitter(meta, snakeCase, escape)) + ops);
      rest := rest - {key};
    }
    FilterOpsUnpaged(kw, order, meta, snakeCase, escape);
    assert r[|qs|..] == FilterOps(kw, order, Emitter(meta, snakeCase, escape));
  }

  lemma {:induction false} FilterOpsAppend(kw: map<string, Value>, a: seq<string>, b: seq<string>, emit: Emit)
    requires forall i :: 0 <= i < |a| ==> a[i] in kw
    requires forall i :: 0 <= i < |b| ==> b[i] in kw
    ensures forall i :: 0 <= i < |a + b| ==> (a + b)[i] in kw
    ensures FilterOps(kw, a + b, emit) == FilterOps(kw, a, emit) + FilterOps(kw, b, emit)
    decreases |b|
  {
    assert forall i :: 0 <= i < |a + b| ==> (a + b)[i] in kw by {
      forall i | 0 <= i < |a + b| ensures (a + b)[i] in kw {
        if i < |a| { assert (a + b)[i] == a[i]; } else { assert (a + b)[i] == b[i - |a|]; }
      }
    }
    if b == [] {
      assert a + b == a;
    } else {
      var n := |b| - 1;
      assert (a + b)[..|a + b| - 1] == a + b[..n];
      FilterOpsAppend(kw, a, b[..n], emit);
    }
  }

  /** Keys each once. */
  predicate Distinct(o: seq<string>) {
    forall i, j :: 0 <= i < j < |o| ==> o[i] != o[j]
  }

  /** Taking the last key of one order out of another order of the same keys
      leaves an order of the remaining keys. */
  lemma RemoveLast(o1: seq<string>, o2: seq<string>, j: nat)
    requires o1 != [] && Distinct(o1) && Distinct(o2)
    requires forall i :: 0 <= i < |o1| ==> o1[i] in o2
    requires forall i :: 0 <= i < |o2| ==> o2[i] in o1
    requires j < |o2| && o2[j] == o1[|o1| - 1]
    ensures var rest := o2[..j] + o2[j + 1..]; var init := o1[..|o1| - 1];
      Distinct(rest) && Distinct(init)
      && (forall i :: 0 <= i < |rest| ==> rest[i] in init)
      && (forall i :: 0 <= i < |init| ==> init[i] in rest)
  {
    RestDistinct(o2, j);
    RestDistinct(o1, |o1| - 1);
    assert o1[|o1|..] == [];
    assert o1[..|o1| - 1] + o1[|o1|..] == o1[..|o1| - 1];
    RestInInit(o1, o2, j);
    InitInRest(o1, o2, j);
  }

  lemma RestDistinct(o2: seq<string>, j: nat)
    requires Distinct(o2) && j < |o2|
    ensures Distinct(o2[..j] + o2[j + 1..])
  {
    var rest := o2[..j] + o2[j + 1..];
    forall i, i' | 0 <= i < i' < |rest| ensures rest[i] != rest[i'] {
      var p := if i < j then i else i + 1;
      var p' := if i' < j then i' else i' + 1;
      assert rest[i] == o2[p] && rest[i'] == o2[p'];
    }
  }

  lemma RestInInit(o1: seq<string>, o2: seq<string>, j: nat)
    requires o1 != [] && Distinct(o2)
    requires forall i :: 0 <= i < |o2| ==> o2[i] in o1
    requires j < |o2| && o2[j] == o1[|o1| - 1]
    ensures var rest := o2[..j] + o2[j + 1..];
      forall i :: 0 <= i < |rest| ==> rest[i] in o1[..|o1| - 1]
  {
    var n := |o1| - 1;
    var rest := o2[..j] + o2[j + 1..];
    forall i | 0 <= i < |rest| ensures rest[i] in o1[..n] {
      var i2 := if i < j then i else i + 1;
      var x := o2[i2];
      assert rest[i] == x && i2 != j;
      var i1 :| 0 <= i1 < |o1| && o1[i1] == x;
      assert i1 != n;
      assert o1[..n][i1] == x;
    }
  }

  lemma InitInRest(o1: seq<string>, o2: seq<string>, j: nat)
    requires o1 != [] && Distinct(o1)
    requires forall i :: 0 <= i < |o1| ==> o1[i] in o2
    requires j < |o2| && o2[j] == o1[|o1| - 1]
    ensures var rest := o2[..j] + o2[j + 1..];
      forall x :: x in o1[..|o1| - 1] ==> x in rest
  {
    var n := |o1| - 1;
    var rest := o2[..j] + o2[j + 1..];
    forall x | x in o1[..n] ensures x in rest {
      var i :| 0 <= i < n && o1[i] == x;
      assert x != o1[n];
      var i2 :| 0 <= i2 < |o2| && o2[i2] == x;
      assert i2 != j;
      if i2 < j { assert rest[i2] == x; } else { assert rest[i2 - 1] == x; }
    }
  }

  /** The calls for a key in the middle of an order are those of the key plus those of the rest. */
  lemma FilterOpsSplice(kw: map<string, Value>, a: seq<string>, k: string, b: seq<string>, emit: Emit)
    requires forall i :: 0 <= i < |a| ==> a[i] in kw
    requires forall i :: 0 <= i < |b| ==> b[i] in kw
    requires k in kw
    ensures forall i :: 0 <= i < |a + [k] + b| ==> (a + [k] + b)[i] in kw
    ensures multiset(FilterOps(kw, a + [k] + b, emit))
      == multiset(FilterOps(kw, a + b, emit)) + multiset(emit(k, kw[k]))
  {
    FilterOpsAppend(kw, a, b, emit);
    FilterOpsAppend(kw, a, [k], emit);
    FilterOpsAppend(kw, a + [k], b, emit);
    assert FilterOps(kw, [k], emit) == emit(k, kw[k]);
  }

  /** Every key of an order is a keyword. */
  predicate Keys(order: seq<string>, kw: map<string, Value>) {
    forall i :: 0 <= i < |order| ==> order[i] in kw
  }

  lemma KeysSlices(o: seq<string>, kw: map<string, Value>, j: nat)
    requires Keys(o, kw) && j < |o|
    ensures Keys(o[..j], kw) && Keys(o[j + 1..], kw) && Keys(o[..|o| - 1], kw) && o[j] in kw
  {
    var t := o[j + 1..];
    forall i | 0 <= i < |t| ensures t[i] in kw {
      assert t[i] == o[j + 1 + i];
    }
    forall i | 0 <= i < j ensures o[..j][i] in kw {
      assert o[..j][i] == o[i];
    }
  }

  /** One step of the order-independence proof: the last key of o1, found at
      position |a| of o2, contributes the same calls on both sides. */
  lemma OrderFreeStep(kw: map<string, Value>, o1: seq<string>, a: seq<string>, k: string, b: seq<string>, emit: Emit)
    requires o1 != [] && o1[|o1| - 1] == k && Keys(o1, kw) && Keys(a, kw) && Keys(b, kw) && k in kw
    requires multiset(FilterOps(kw, o1[..|o1| - 1], emit)) == multiset(FilterOps(kw, a + b, emit))
    ensures Keys(a + [k] + b, kw)
    ensures multiset(FilterOps(kw, o1, emit)) == multiset(FilterOps(kw, a + [k] + b, emit))
  {
    FilterOpsSplice(kw, a, k, b, emit);
    assert FilterOps(kw, o1, emit)
      == FilterOps(kw, o1[..|o1| - 1], emit) + emit(k, kw[k]);
  }

  /** Whatever order the keywords are visited in, the same filter calls are
      made, only in another order; since the filters are conjunctive the query
      means the same. */
  lemma {:induction false} FilterOpsOrderFree(kw: map<string, Value>, o1: seq<string>, o2: seq<string>, emit: Emit)
    requires Keys(o1, kw) && Keys(o2, kw)
    requires Distinct(o1) && Distinct(o2)
    requires forall i :: 0 <= i < |o1| ==> o1[i] in o2
    requires forall i :: 0 <= i < |o2| ==> o2[i] in o1
    ensures multiset(FilterOps(kw, o1, emit)) == multiset(FilterOps(kw, o2, emit))
    decreases |o1|
  {
    if o1 != [] {
      var n := |o1| - 1;
      var k := o1[n];
      var j :| 0 <= j < |o2| && o2[j] == k;
      var a, b := o2[..j], o2[j + 1..];
      assert o2 == a + [k] + b;
      RemoveLast(o1, o2, j);
      KeysSlices(o2, kw, j);
      KeysSlices(o1, kw, n);
      FilterOpsAppend(kw, a, b, emit);
      FilterOpsOrderFree(kw, o1[..n], a + b, emit);
      OrderFreeStep(kw, o1, a, k, b, emit);
    }
  }

  /** Any two orders the keywords may be visited in give the same filter calls. */
  lemma KeywordOrderIrrelevant(kw: map<string, Value>, o1: seq<string>, o2: seq<string>, emit: Emit)
    requires Enumerates(o1, kw.Keys) && Enumerates(o2, kw.Keys)
    ensures Keys(o1, kw) && Keys(o2, kw)
    ensures multiset(FilterOps(kw, o1, emit)) == multiset(FilterOps(kw, o2, emit))
  {
    FilterOpsOrderFree(kw, o1, o2, emit);
  }

  /** The error QuerySetter returns for a model that is not a pointer; elemName
      is getFullName of the type's element. */
  function NonPointerModel(elemName: string): Error {
    Text("<orm.QuerySetter> cannot use non-ptr model struct `" + elemName + "`")
  }

  /** QuerySetter: an error for a non-pointer model or a context without an ORM;
      no calls for a nil query; otherwise the filters, the sorts and the pages,
      in that order. The model is described by isPointer, its element's name and
      its metadata; ormer is what the context holds. */
  method QuerySetter(isPointer: bool, elemName: string, ormer: Option<Error>, query: Query?, meta: Meta,
                     snakeCase: string -> string, escape: string -> string)
    returns (r: Result<seq<Op>, Error>, ghost order: seq<string>)
    ensures !isPointer ==> r == Failure(NonPointerModel(elemName))
    ensures isPointer && ormer.Some? ==> r == Failure(ormer.value)
    ensures isPointer && ormer.None? && query == null ==> r == Success([])
    ensures isPointer && ormer.None? && query != null ==>
      Enumerates(order, query.keywords.Keys)
      && r == Success(FilterOps(query.keywords, order, Emitter(meta, snakeCase, escape))
                      + SortOps(query.sorts, meta) + PageOps(query.pageNumber, query.pageSize))
  {
    order := [];
    if !isPointer {
      return Failure(NonPointerModel(elemName)), order;
    }
    if ormer.Some? {
      return Failure(ormer.value), order;
    }
    var qs: seq<Op> := [];
    if query == null {
      return Success(qs), order;
    }
    qs, order := SetFilters(qs, query, meta, snakeCase, escape);
    assert qs == FilterOps(query.keywords, order, Emitter(meta, snakeCase, escape));
    qs := SetSorts(qs, query, meta);
    ghost var before := qs;
    if query.pageSize > 0 {
      qs := qs + [Limit(query.pageSize)];
      if query.pageNumber > 0 {
        qs := qs + [Offset(Mul(query.pageSize, query.pageNumber - 1))];
      }
    }
    assert qs == before + PageOps(query.pageNumber, query.pageSize);
    r := Success(qs);
  }

  /** No page call anywhere in a list of calls. */
  predicate Unpaged(ops: seq<Op>) {
    forall i :: 0 <= i < |ops| ==> !ops[i].Limit? && !ops[i].Offset?
  }

  lemma {:induction false} FilterOpsUnpaged(kw: map<string, Value>, order: seq<string>, meta: Meta, snakeCase: string -> string, escape: string -> string)
    requires forall i :: 0 <= i < |order| ==> order[i] in kw
    ensures forall i :: 0 <= i < |FilterOps(kw, order, Emitter(meta, snakeCase, escape))| ==>
      FilterOps(kw, order, Emitter(meta, snakeCase, escape))[i].Filter? || FilterOps(kw, order, Emitter(meta, snakeCase, escape))[i].FilterFunc?
    decreases |order|
  {
    if order != [] {
      FilterOpsUnpaged(kw, order[..|order| - 1], meta, snakeCase, escape);
    }
  }

  /** The calls of a query without sorts or pages: its filters, then the
      model's default order if it has one. */
  lemma CountOps(kw: map<string, Value>, order: seq<string>, meta: Meta, snakeCase: string -> string, escape: string -> string)
    requires Keys(order, kw)
    ensures var f := FilterOps(kw, order, Emitter(meta, snakeCase, escape));
      var ops := f + SortOps([], meta) + PageOps(0, 0);
      ops == f + (if meta.defaultSorts == [] then [] else [OrderBy(Texts(meta.defaultSorts))])
      && Unpaged(ops)
  {
    FilterOpsUnpaged(kw, order, meta, snakeCase, escape);
    assert Requested([], meta.sortable) == [];
  }

  /** QuerySetterForCount: the query of a clone without sorts or pages. The
      caller's query is left as it was; the calls are the filters, then the
      model's default sort order if it has one, and never a page. */
  method QuerySetterForCount(isPointer: bool, elemName: string, ormer: Option<Error>, query: Query?, meta: Meta,
                             snakeCase: string -> string, escape: string -> string)
    returns (r: Result<seq<Op>, Error>, ghost order: seq<string>)
    ensures !isPointer ==> r == Failure(NonPointerModel(elemName))
    ensures isPointer && ormer.Some? ==> r == Failure(ormer.value)
    ensures isPointer && ormer.None? ==>
      var kw := if query == null then map[] else query.keywords;
      Enumerates(order, kw.Keys)
      && r == Success(FilterOps(kw, order, Emitter(meta, snakeCase, escape))
                      + (if meta.defaultSorts == [] then [] else [OrderBy(Texts(meta.defaultSorts))]))
      && Unpaged(r.value)
  {
    var q := MustClone(query);
    q.sorts := [];
    q.pageSize := 0;
    q.pageNumber := 0;
    ghost var kw := q.keywords;
    assert kw == if query == null then map[] else query.keywords;
    r, order := QuerySetter(isPointer, elemName, ormer, q, meta, snakeCase, escape);
    if isPointer && ormer.None? {
      CountOps(kw, order, meta, snakeCase, escape);
    }
  }
}
