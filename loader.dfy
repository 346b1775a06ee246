/** The pagination aggregator: `loadFileList` reads page 1 of a tree listing,
    learns the page count from the `x-total-pages` header, reads pages 2..N,
    reads and parses every listed file, and concatenates the entities in page
    order, listing order within a page. `loadFile` reads and parses one file.
    Every request issued to the backend is recorded, in issue order. */
module Loader {

  import opened Wrappers
  import opened Strings
  import opened Js
  import opened Common
  import opened Interface

  datatype ListOptions = ListOptions(path: string, projectId: string, ref: string)

  /** What a run produced, and the requests it issued to the backend. */
  datatype Run<T> = Run(result: Res<T>, calls: seq<Call>)

  datatype Page = Page(entities: seq<JsValue>, headers: Headers)

  const TOTAL_PAGES_HEADER := "x-total-pages"

  function PageQuery(o: ListOptions, page: nat): TreeQuery
  {
    TreeQuery(o.projectId, o.ref, o.path, NatToString(page))
  }

  function EntryQuery(o: ListOptions, f: TreeFile): FileQuery
  {
    FileQuery(o.projectId, o.ref, f.path)
  }

  /** One listed file: `readFile` on its path, then decode and parse. */
  function ReadEntity(b: Backend, c: Codec, o: ListOptions, f: TreeFile): Res<JsValue>
  {
    var reply :- b.readFile(EntryQuery(o, f));
    ParseContent(c, reply.body)
  }

  /** The read requests for a listing, one per entry, in listing order. */
  function ReadCalls(o: ListOptions, files: seq<TreeFile>): (calls: seq<Call>)
    ensures |calls| == |files|
  {
    seq(|files|, k requires 0 <= k < |files| => ReadCall(EntryQuery(o, files[k])))
  }

  /** The first entry's read comes first, then the others'. */
  lemma ReadCallsCons(o: ListOptions, files: seq<TreeFile>)
    requires files != []
    ensures ReadCalls(o, files) == [ReadCall(EntryQuery(o, files[0]))] + ReadCalls(o, files[1..])
  {
    var calls := ReadCalls(o, files);
    var rest := ReadCalls(o, files[1..]);
    forall k | 0 <= k < |calls| ensures calls[k] == ([ReadCall(EntryQuery(o, files[0]))] + rest)[k] {
      if k > 0 {
        assert files[k] == files[1..][k - 1];
      }
    }
  }

  /** The tree requests of a trace, in order. */
  function TreeQueries(calls: seq<Call>): seq<TreeQuery>
  {
    if calls == [] then []
    else (if calls[0].TreeCall? then [calls[0].treeQuery] else []) + TreeQueries(calls[1..])
  }

  lemma {:induction false} TreeQueriesAppend(a: seq<Call>, b: seq<Call>)
    ensures TreeQueries(a + b) == TreeQueries(a) + TreeQueries(b)
  {
    if a != [] {
      TreeQueriesAppend(a[1..], b);
      assert (a + b)[0] == a[0];
      assert (a + b)[1..] == a[1..] + b;
    } else {
      assert a + b == b;
    }
  }

  lemma {:induction false} TreeQueriesOfReads(o: ListOptions, files: seq<TreeFile>)
    ensures TreeQueries(ReadCalls(o, files)) == []
  {
    if files != [] {
      assert ReadCalls(o, files)[1..] == ReadCalls(o, files[1..]);
      TreeQueriesOfReads(o, files[1..]);
    }
  }

  /** Every request carries the configured project and ref; every tree
      request also carries the configured path. */
  predicate OnTarget(o: ListOptions, call: Call)
  {
    match call
    case TreeCall(q) => q.projectId == o.projectId && q.ref == o.ref && q.path == o.path
    case ReadCall(q) => q.projectId == o.projectId && q.ref == o.ref
  }

  predicate AllOnTarget(o: ListOptions, calls: seq<Call>)
  {
    forall k :: 0 <= k < |calls| ==> OnTarget(o, calls[k])
  }

  /** The entities of one listing, read in listing order; the first failing
      read or parse fails the whole listing. */
  function ReadAll(b: Backend, c: Codec, o: ListOptions, files: seq<TreeFile>): (r: Run<seq<JsValue>>)
    ensures r.result.Ok? <==> forall k :: 0 <= k < |files| ==> ReadEntity(b, c, o, files[k]).Ok?
    ensures r.result.Ok? ==> |r.result.value| == |files|
    ensures r.result.Ok? ==> forall k :: 0 <= k < |files| ==> r.result.value[k] == ReadEntity(b, c, o, files[k]).value
    ensures r.result.Ok? ==> r.calls == ReadCalls(o, files)
    ensures r.result.Err? ==> exists k :: 0 <= k < |files| && ReadEntity(b, c, o, files[k]) == Err(r.result.error)
    decreases |files|
  {
    if files == [] then Run(Ok([]), [])
    else
      var q := EntryQuery(o, files[0]);
      match ReadEntity(b, c, o, files[0])
      case Err(e) => Run(Err(e), [ReadCall(q)])
      case Ok(entity) =>
        var rest := ReadAll(b, c, o, files[1..]);
        assert forall k :: 1 <= k < |files| ==> files[k] == files[1..][k - 1];
        match rest.result
        case Err(e) => Run(Err(e), [ReadCall(q)] + rest.calls)
        case Ok(entities) =>
          ReadCallsCons(o, files);
          Run(Ok([entity] + entities), [ReadCall(q)] + rest.calls)
  }

  /** The listing `tree` returns for a page, empty when the call fails. */
  function Listing(b: Backend, o: ListOptions, page: nat): seq<TreeFile>
  {
    var t := b.tree(PageQuery(o, page));
    if t.Ok? then t.value.body else []
  }

  /** `loadEntitiesForPage`: one tree request for the page, then one read per entry. */
  function LoadPage(b: Backend, c: Codec, o: ListOptions, page: nat): (r: Run<Page>)
    ensures |r.calls| >= 1 && r.calls[0] == TreeCall(PageQuery(o, page))
  {
    var q := PageQuery(o, page);
    match b.tree(q)
    case Err(e) => Run(Err(e), [TreeCall(q)])
    case Ok(reply) =>
      var read := ReadAll(b, c, o, reply.body);
      if read.result.Err? then Run(Err(read.result.error), [TreeCall(q)] + read.calls)
      else Run(Ok(Page(read.result.value, reply.headers)), [TreeCall(q)] + read.calls)
  }

  /** A page succeeds exactly when its tree request and every read and parse
      of its entries succeed; it then holds one entity per listed entry, in
      listing order, keeps the tree response's headers, and issued the tree
      request followed by one read per entry, all on the configured target. */
  lemma LoadPageShape(b: Backend, c: Codec, o: ListOptions, page: nat)
    ensures var r := LoadPage(b, c, o, page);
      r.result.Ok? <==>
        (b.tree(PageQuery(o, page)).Ok? &&
         forall k :: 0 <= k < |Listing(b, o, page)| ==> ReadEntity(b, c, o, Listing(b, o, page)[k]).Ok?)
    ensures var r := LoadPage(b, c, o, page);
      r.result.Ok? ==>
        && |r.result.value.entities| == |Listing(b, o, page)|
        && (forall k :: 0 <= k < |Listing(b, o, page)| ==>
              r.result.value.entities[k] == ReadEntity(b, c, o, Listing(b, o, page)[k]).value)
        && r.result.value.headers == b.tree(PageQuery(o, page)).value.headers
        && r.calls == [TreeCall(PageQuery(o, page))] + ReadCalls(o, Listing(b, o, page))
        && TreeQueries(r.calls) == [PageQuery(o, page)]
        && AllOnTarget(o, r.calls)
  {
    var r := LoadPage(b, c, o, page);
    var t := b.tree(PageQuery(o, page));
    if t.Ok? {
      var read := ReadAll(b, c, o, t.value.body);
      assert Listing(b, o, page) == t.value.body;
    }
    if r.result.Ok? {
      LoadPageRequests(b, c, o, page);
    }
  }

  /** A successful page issued one tree request, for that page, and only
      requests on the configured target. */
  lemma LoadPageRequests(b: Backend, c: Codec, o: ListOptions, page: nat)
    requires LoadPage(b, c, o, page).result.Ok?
    ensures TreeQueries(LoadPage(b, c, o, page).calls) == [PageQuery(o, page)]
    ensures AllOnTarget(o, LoadPage(b, c, o, page).calls)
  {
    var t := b.tree(PageQuery(o, page));
    var files := t.value.body;
    var read := ReadAll(b, c, o, files);
    assert LoadPage(b, c, o, page).calls == [TreeCall(PageQuery(o, page))] + ReadCalls(o, files);
    TreeQueriesOfReads(o, files);
    TreeQueriesAppend([TreeCall(PageQuery(o, page))], ReadCalls(o, files));
    assert TreeQueries([TreeCall(PageQuery(o, page))]) == [PageQuery(o, page)];
  }

  predicate IsSpace(ch: char)
  {
    ch == ' ' || ch == '\t' || ch == '\n' || ch == '\r' || ch == '\U{000B}' || ch == '\U{000C}'
  }

  function TrimStart(s: string): string
  {
    if s != [] && IsSpace(s[0]) then TrimStart(s[1..]) else s
  }

  /** The longest prefix of decimal digits. */
  function DigitPrefix(s: string): (d: string)
    ensures |d| <= |s| && d == s[..|d|]
    ensures forall k :: 0 <= k < |d| ==> IsDigit(d[k])
    ensures |d| < |s| ==> !IsDigit(s[|d|])
  {
    if s != [] && IsDigit(s[0]) then [s[0]] + DigitPrefix(s[1..]) else ""
  }

  /** `parseInt(s, 10)`: leading white space, an optional sign and the
      longest run of digits; None stands for NaN. */
  function ParseInt(s: string): Option<int>
  {
    var t := TrimStart(s);
    var negative := t != [] && t[0] == '-';
    var u := if t != [] && (t[0] == '-' || t[0] == '+') then t[1..] else t;
    var d := DigitPrefix(u);
    if d == "" then None
    else if negative then Some(-(DigitsValue(d) as int))
    else Some(DigitsValue(d))
  }

  lemma DigitPrefixAll(s: string)
    requires forall k :: 0 <= k < |s| ==> IsDigit(s[k])
    ensures DigitPrefix(s) == s
  {
  }

  /** A page count written in decimal is read back unchanged. */
  lemma ParseIntOfNatToString(n: nat)
    ensures ParseInt(NatToString(n)) == Some(n)
  {
    var s := NatToString(n);
    assert !IsSpace(s[0]) && s[0] != '-' && s[0] != '+';
    assert TrimStart(s) == s;
    DigitPrefixAll(s);
    DigitsValueOfNatToString(n);
  }

  /** The largest length `Array(n)` accepts: 2^32 - 1. */
  const MAX_ARRAY_LENGTH: nat := 0xFFFF_FFFF

  /** The page count: `parseInt(headers["x-total-pages"] || "1", 10)`.
      `Array(count - 1)` throws a RangeError when that is negative, NaN or
      above the largest array length. */
  function TotalPages(h: Headers): (r: Res<nat>)
    ensures r.Ok? ==> 1 <= r.value <= MAX_ARRAY_LENGTH + 1
    ensures r.Err? ==> r.error == Thrown("RangeError", "Invalid array length")
    ensures TOTAL_PAGES_HEADER !in h ==> r == Ok(1)
    ensures TOTAL_PAGES_HEADER in h && h[TOTAL_PAGES_HEADER] == "" ==> r == Ok(1)
  {
    var text := if TOTAL_PAGES_HEADER in h && h[TOTAL_PAGES_HEADER] != "" then h[TOTAL_PAGES_HEADER] else "1";
    assert text == "1" ==> ParseInt(text) == Some(1) by {
      if text == "1" {
        assert NatToString(1) == "1";
        ParseIntOfNatToString(1);
      }
    }
    match ParseInt(text)
    case None => Err(Thrown("RangeError", "Invalid array length"))
    case Some(count) =>
      if count - 1 < 0 || count - 1 > MAX_ARRAY_LENGTH then Err(Thrown("RangeError", "Invalid array length"))
      else Ok(count)
  }

  /** The header value of a page count Array can hold yields that count. */
  lemma TotalPagesOfCount(h: Headers, n: nat)
    requires 1 <= n <= MAX_ARRAY_LENGTH + 1
    requires TOTAL_PAGES_HEADER in h && h[TOTAL_PAGES_HEADER] == NatToString(n)
    ensures TotalPages(h) == Ok(n)
  {
    ParseIntOfNatToString(n);
  }

  /** A page count of zero, or one whose remaining pages no array can hold,
      is refused with the RangeError of `Array(count - 1)`. */
  lemma TotalPagesOutOfRange(h: Headers, n: nat)
    requires n == 0 || n > MAX_ARRAY_LENGTH + 1
    requires TOTAL_PAGES_HEADER in h && h[TOTAL_PAGES_HEADER] == NatToString(n)
    ensures TotalPages(h) == Err(Thrown("RangeError", "Invalid array length"))
  {
    ParseIntOfNatToString(n);
  }

  /** Concatenation of a sequence of sequences, in order. */
  function Flatten<T>(xss: seq<seq<T>>): seq<T>
  {
    if xss == [] then [] else xss[0] + Flatten(xss[1..])
  }

  predicate PagesOk(b: Backend, c: Codec, o: ListOptions, from: nat, to: nat)
  {
    forall p :: from <= p <= to ==> LoadPage(b, c, o, p).result.Ok?
  }

  /** The entities of pages from..to, page by page. */
  function PagesEntities(b: Backend, c: Codec, o: ListOptions, from: nat, to: nat): seq<seq<JsValue>>
    requires PagesOk(b, c, o, from, to)
    decreases (to as int) - from
  {
    if from > to then []
    else [LoadPage(b, c, o, from).result.value.entities] + PagesEntities(b, c, o, from + 1, to)
  }

  /** The sum of the listing lengths of pages from..to. */
  function ListingsSize(b: Backend, o: ListOptions, from: nat, to: nat): nat
    decreases (to as int) - from
  {
    if from > to then 0 else |Listing(b, o, from)| + ListingsSize(b, o, from + 1, to)
  }

  /** The tree requests for pages from..to, in page order. */
  function PageQueries(o: ListOptions, from: nat, to: nat): (qs: seq<TreeQuery>)
    ensures |qs| == if from <= to then to - from + 1 else 0
  {
    seq(if from <= to then to - from + 1 else 0, i requires 0 <= i => PageQuery(o, from + i))
  }

  /** The first page's request, then the others'. */
  lemma PageQueriesStep(o: ListOptions, from: nat, to: nat)
    requires from <= to
    ensures PageQueries(o, from, to) == [PageQuery(o, from)] + PageQueries(o, from + 1, to)
  {
    var qs := PageQueries(o, from, to);
    var tail := PageQueries(o, from + 1, to);
    assert |qs| == 1 + |tail|;
    forall i | 0 <= i < |qs| ensures qs[i] == ([PageQuery(o, from)] + tail)[i] {
      if i > 0 {
        assert tail[i - 1] == PageQuery(o, from + 1 + (i - 1));
      }
    }
  }

  /** Pages from..to, read one after the other; any failure fails the run. */
  function LoadPages(b: Backend, c: Codec, o: ListOptions, from: nat, to: nat): Run<seq<JsValue>>
    decreases (to as int) - from
  {
    if from > to then Run(Ok([]), [])
    else
      var first := LoadPage(b, c, o, from);
      if first.result.Err? then Run(Err(first.result.error), first.calls)
      else
        var rest := LoadPages(b, c, o, from + 1, to);
        if rest.result.Err? then Run(Err(rest.result.error), first.calls + rest.calls)
        else Run(Ok(first.result.value.entities + rest.result.value), first.calls + rest.calls)
  }

  lemma PagesOkStep(b: Backend, c: Codec, o: ListOptions, from: nat, to: nat)
    requires from <= to
    ensures PagesOk(b, c, o, from, to) <==>
      LoadPage(b, c, o, from).result.Ok? && PagesOk(b, c, o, from + 1, to)
  {
    if LoadPage(b, c, o, from).result.Ok? && PagesOk(b, c, o, from + 1, to) {
      forall p | from <= p <= to ensures LoadPage(b, c, o, p).result.Ok? {
        if p > from { assert from + 1 <= p <= to; }
      }
    }
  }

  /** Reading pages from..to fails exactly when one of those pages fails:
      none is skipped. */
  lemma {:induction false} LoadPagesFailure(b: Backend, c: Codec, o: ListOptions, from: nat, to: nat)
    ensures LoadPages(b, c, o, from, to).result.Ok? <==> PagesOk(b, c, o, from, to)
    decreases (to as int) - from
  {
    if from <= to {
      PagesOkStep(b, c, o, from, to);
      LoadPagesOkStep(b, c, o, from, to);
      LoadPagesFailure(b, c, o, from + 1, to);
    }
  }

  /** After a successful first page, the run's requests are that page's
      and then the rest's. */
  lemma LoadPagesCallsStep(b: Backend, c: Codec, o: ListOptions, from: nat, to: nat)
    requires from <= to && LoadPage(b, c, o, from).result.Ok?
    ensures LoadPages(b, c, o, from, to).calls == LoadPage(b, c, o, from).calls + LoadPages(b, c, o, from + 1, to).calls
  {
  }

  /** A run over pages from..to succeeds when its first page and the rest do. */
  lemma LoadPagesOkStep(b: Backend, c: Codec, o: ListOptions, from: nat, to: nat)
    requires from <= to
    ensures LoadPages(b, c, o, from, to).result.Ok? <==>
      LoadPage(b, c, o, from).result.Ok? && LoadPages(b, c, o, from + 1, to).result.Ok?
  {
  }

  /** The entities of a successful run over pages from..to are the pages'
      entities in page order. */
  lemma {:induction false} LoadPagesEntities(b: Backend, c: Codec, o: ListOptions, from: nat, to: nat)
    requires LoadPages(b, c, o, from, to).result.Ok?
    ensures PagesOk(b, c, o, from, to)
    ensures LoadPages(b, c, o, from, to).result.value == Flatten(PagesEntities(b, c, o, from, to))
    decreases (to as int) - from
  {
    LoadPagesFailure(b, c, o, from, to);
    if from <= to {
      LoadPagesEntities(b, c, o, from + 1, to);
    }
  }

  /** A successful run over pages from..to holds as many entities as the
      listings of those pages hold entries. */
  lemma {:induction false} LoadPagesSize(b: Backend, c: Codec, o: ListOptions, from: nat, to: nat)
    requires LoadPages(b, c, o, from, to).result.Ok?
    ensures |LoadPages(b, c, o, from, to).result.value| == ListingsSize(b, o, from, to)
    decreases (to as int) - from
  {
    if from <= to {
      var first := LoadPage(b, c, o, from);
      var rest := LoadPages(b, c, o, from + 1, to);
      assert LoadPages(b, c, o, from, to).result.value == first.result.value.entities + rest.result.value;
      LoadPageSize(b, c, o, from);
      LoadPagesSize(b, c, o, from + 1, to);
    }
  }

  /** A loaded page has one entity per listed file. */
  lemma LoadPageSize(b: Backend, c: Codec, o: ListOptions, page: nat)
    requires LoadPage(b, c, o, page).result.Ok?
    ensures |LoadPage(b, c, o, page).result.value.entities| == |Listing(b, o, page)|
  {
    LoadPageShape(b, c, o, page);
  }

  /** A successful run over pages from..to requested exactly those pages, in
      page order, and every request was on the configured target. */
  lemma {:induction false} LoadPagesRequests(b: Backend, c: Codec, o: ListOptions, from: nat, to: nat)
    requires LoadPages(b, c, o, from, to).result.Ok?
    ensures TreeQueries(LoadPages(b, c, o, from, to).calls) == PageQueries(o, from, to)
    ensures AllOnTarget(o, LoadPages(b, c, o, from, to).calls)
    decreases (to as int) - from
  {
    if from <= to {
      var first := LoadPage(b, c, o, from);
      var rest := LoadPages(b, c, o, from + 1, to);
      LoadPagesOkStep(b, c, o, from, to);
      LoadPagesCallsStep(b, c, o, from, to);
      LoadPageRequests(b, c, o, from);
      LoadPagesRequests(b, c, o, from + 1, to);
      RequestsCombine(o, from, to, first.calls, rest.calls);
    }
  }

  /** The first page's requests followed by those of the pages after it are
      the requests for all the pages. */
  lemma RequestsCombine(o: ListOptions, from: nat, to: nat, first: seq<Call>, rest: seq<Call>)
    requires from <= to
    requires TreeQueries(first) == [PageQuery(o, from)] && AllOnTarget(o, first)
    requires TreeQueries(rest) == PageQueries(o, from + 1, to) && AllOnTarget(o, rest)
    ensures TreeQueries(first + rest) == PageQueries(o, from, to)
    ensures AllOnTarget(o, first + rest)
  {
    PageQueriesStep(o, from, to);
    TreeQueriesAppend(first, rest);
    AllOnTargetAppend(o, first, rest);
  }

  lemma AllOnTargetAppend(o: ListOptions, a: seq<Call>, b: seq<Call>)
    requires AllOnTarget(o, a) && AllOnTarget(o, b)
    ensures AllOnTarget(o, a + b)
  {
    forall k | 0 <= k < |a + b| ensures OnTarget(o, (a + b)[k]) {
      if k < |a| {
        assert (a + b)[k] == a[k];
      } else {
        assert (a + b)[k] == b[k - |a|];
      }
    }
  }

  /** `loadFileList`. */
  function LoadFileList(b: Backend, c: Codec, o: ListOptions): (r: Run<seq<JsValue>>)
    ensures |r.calls| >= 1 && r.calls[0] == TreeCall(PageQuery(o, 1))
  {
    var first := LoadPage(b, c, o, 1);
    match first.result
    case Err(e) => Run(Err(e), first.calls)
    case Ok(page) =>
      match TotalPages(page.headers)
      case Err(e) => Run(Err(e), first.calls)
      case Ok(n) =>
        var rest := LoadPages(b, c, o, 2, n);
        if rest.result.Err? then Run(Err(rest.result.error), first.calls + rest.calls)
        else Run(Ok(page.entities + rest.result.value), first.calls + rest.calls)
  }

  /** The page count `loadFileList` settles on: the one page 1 announces. */
  function AnnouncedPages(b: Backend, o: ListOptions): Res<nat>
  {
    var t := b.tree(PageQuery(o, 1));
    if t.Ok? then TotalPages(t.value.headers) else Err(t.error)
  }

  /** `loadFileList` fails exactly when page 1, the page count it announces,
      or one of pages 2..N fails: no page and no file is skipped. */
  lemma LoadFileListFailure(b: Backend, c: Codec, o: ListOptions)
    ensures LoadFileList(b, c, o).result.Ok? <==>
      (&& LoadPage(b, c, o, 1).result.Ok?
       && AnnouncedPages(b, o).Ok?
       && PagesOk(b, c, o, 2, AnnouncedPages(b, o).value))
  {
    LoadPageShape(b, c, o, 1);
    if LoadPage(b, c, o, 1).result.Ok? && AnnouncedPages(b, o).Ok? {
      LoadPagesFailure(b, c, o, 2, AnnouncedPages(b, o).value);
    }
  }

  /** A successful `loadFileList` is page 1 followed by pages 2..N, where N
      is the count page 1 announces. */
  lemma LoadFileListUnfold(b: Backend, c: Codec, o: ListOptions)
    requires LoadFileList(b, c, o).result.Ok?
    ensures AnnouncedPages(b, o).Ok?
    ensures var first := LoadPage(b, c, o, 1);
      var rest := LoadPages(b, c, o, 2, AnnouncedPages(b, o).value);
      && first.result.Ok? && rest.result.Ok?
      && LoadFileList(b, c, o).calls == first.calls + rest.calls
      && LoadFileList(b, c, o).result.value == first.result.value.entities + rest.result.value
  {
    LoadPageShape(b, c, o, 1);
  }

  /** On success the entities are page 1's followed by pages 2..N in page
      order, N being the count page 1 announces, and there are as many as
      the listings of pages 1..N hold entries. */
  lemma LoadFileListEntities(b: Backend, c: Codec, o: ListOptions)
    requires LoadFileList(b, c, o).result.Ok?
    ensures AnnouncedPages(b, o).Ok? && PagesOk(b, c, o, 1, AnnouncedPages(b, o).value)
    ensures LoadFileList(b, c, o).result.value == Flatten(PagesEntities(b, c, o, 1, AnnouncedPages(b, o).value))
    ensures |LoadFileList(b, c, o).result.value| == ListingsSize(b, o, 1, AnnouncedPages(b, o).value)
  {
    LoadFileListUnfold(b, c, o);
    var n := AnnouncedPages(b, o).value;
    LoadPageShape(b, c, o, 1);
    LoadPagesEntities(b, c, o, 2, n);
    LoadPagesSize(b, c, o, 2, n);
    PagesOkStep(b, c, o, 1, n);
  }

  /** On success pages 1..N were requested once each, in page order, and
      every tree and read request carried the configured project and ref
      (tree requests also the configured path). */
  lemma LoadFileListRequests(b: Backend, c: Codec, o: ListOptions)
    requires LoadFileList(b, c, o).result.Ok?
    ensures AnnouncedPages(b, o).Ok?
    ensures TreeQueries(LoadFileList(b, c, o).calls) == PageQueries(o, 1, AnnouncedPages(b, o).value)
    ensures AllOnTarget(o, LoadFileList(b, c, o).calls)
  {
    LoadFileListUnfold(b, c, o);
    var n := AnnouncedPages(b, o).value;
    var first := LoadPage(b, c, o, 1);
    var rest := LoadPages(b, c, o, 2, n);
    LoadPageRequests(b, c, o, 1);
    LoadPagesRequests(b, c, o, 2, n);
    TreeQueriesAppend(first.calls, rest.calls);
    PageQueriesStep(o, 1, n);
    AllOnTargetAppend(o, first.calls, rest.calls);
  }

  /** Pages are requested under pairwise distinct decimal page strings. */
  lemma PageStringsDistinct(o: ListOptions, from: nat, to: nat)
    ensures forall i, j :: 0 <= i < j < |PageQueries(o, from, to)| ==>
      PageQueries(o, from, to)[i].page != PageQueries(o, from, to)[j].page
  {
    forall i, j | 0 <= i < j < |PageQueries(o, from, to)|
      ensures PageQueries(o, from, to)[i].page != PageQueries(o, from, to)[j].page
    {
      assert PageQueries(o, from, to)[i] == PageQuery(o, from + i);
      assert PageQueries(o, from, to)[j] == PageQuery(o, from + j);
      DigitsValueOfNatToString(from + i);
      DigitsValueOfNatToString(from + j);
    }
  }

  datatype FileOptions = FileOptions(path: string, projectId: string, ref: string)

  /** `loadFile`: exactly one read of the configured path, project and ref,
      then decode and parse; a read failure propagates unchanged, and so does
      a decode or parse failure. */
  function LoadFile(b: Backend, c: Codec, o: FileOptions): (r: Run<JsValue>)
    ensures r.calls == [ReadCall(FileQuery(o.projectId, o.ref, o.path))]
    ensures b.readFile(FileQuery(o.projectId, o.ref, o.path)).Err? ==>
      r.result == Err(b.readFile(FileQuery(o.projectId, o.ref, o.path)).error)
    ensures b.readFile(FileQuery(o.projectId, o.ref, o.path)).Ok? ==>
      r.result == ParseContent(c, b.readFile(FileQuery(o.projectId, o.ref, o.path)).value.body)
  {
    var q := FileQuery(o.projectId, o.ref, o.path);
    var result := (var reply :- b.readFile(q); ParseContent(c, reply.body));
    Run(result, [ReadCall(q)])
  }
}
