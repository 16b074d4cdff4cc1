/** Evidence assembly (orchestrator/server.py): URL normalisation, the meta-tag reading of a
    page, the text choice and truncation of a fetch, the flattening of the per-query results,
    the character-budget loop that turns fetched pages into numbered sources and text blocks,
    and the merge of live sources with vector-cache hits. Searches, fetches, the store and the
    clock are inputs. */
module Server {
  import opened Wrappers
  import opened PyStr
  import opened VectorCache
  import opened Search

  // ---------------------------------------------------------------------------------------
  // URL normalisation

  /** `s.rstrip(c)` for one character. */
  function RStripChar(s: string, c: char): (r: string)
    decreases |s|
    ensures r <= s
    ensures r == [] || r[|r| - 1] != c
    ensures forall i :: |r| <= i < |s| ==> s[i] == c
  {
    if s != [] && s[|s| - 1] == c then RStripChar(s[..|s| - 1], c) else s
  }

  /** `u.split('#')[0].rstrip('/')`: the key under which a page is cached. */
  function NormalizeUrl(u: string): string {
    RStripChar(SplitOn(u, '#')[0], '/')
  }

  /** The first piece of a split is a prefix of the string without the separator. */
  lemma SplitOnHead(s: string, sep: char)
    ensures SplitOn(s, sep)[0] <= s && sep !in SplitOn(s, sep)[0]
  {
    assert SplitOn(s, sep)[0] in SplitOn(s, sep);
  }

  /** A normalised url is a prefix of the url with no fragment marker and no trailing slash,
      and normalising again changes nothing. */
  lemma NormalizeUrlShape(u: string)
    ensures var n := NormalizeUrl(u);
      && n <= u
      && '#' !in n
      && (n == [] || n[|n| - 1] != '/')
      && NormalizeUrl(n) == n
  {
    var head := SplitOn(u, '#')[0];
    SplitOnHead(u, '#');
    var n := NormalizeUrl(u);
    assert n <= head;
    assert '#' !in n by {
      assert forall i :: 0 <= i < |n| ==> n[i] == head[i];
    }
    assert SplitOn(n, '#') == [n];
  }

  /** A fragment and trailing slashes do not change the key. */
  lemma NormalizeUrlIgnoresFragment(u: string, frag: string)
    requires '#' !in u
    ensures NormalizeUrl(u + "#" + frag) == NormalizeUrl(u)
    ensures NormalizeUrl(u + "/") == NormalizeUrl(u)
  {
    var s := u + "#" + frag;
    IndexOfAfter(u, '#', frag);
    assert s[..|u|] == u;
    assert SplitOn(u, '#') == [u];
    var t := u + "/";
    assert '#' !in t;
    assert SplitOn(t, '#') == [t];
    assert t[..|t| - 1] == u;
  }

  // ---------------------------------------------------------------------------------------
  // extract_page_metadata

  /** A `<meta>` tag with its `name`, `property` and `content` attributes; an absent
      attribute reads as the empty string. */
  datatype MetaTag = MetaTag(name: string, property: string, content: string)

  datatype MetaField = AuthorField | DateField | DescriptionField | NoField

  /** The field a tag sets: the author test first, then the date, then the description, on
      the lower-cased attribute values. */
  function Classify(t: MetaTag): MetaField {
    var name := Lower(t.name);
    var property := Lower(t.property);
    if name == "author" || property == "article:author" then AuthorField
    else if name == "date" || name == "publish-date" || property == "article:published_time" then DateField
    else if name == "description" || property == "og:description" then DescriptionField
    else NoField
  }

  /** The parsed document: its meta tags in document order and the text of its first
      `<title>`, None when it has none. */
  datatype Markup = Markup(tags: seq<MetaTag>, title: Option<string>)

  datatype PageMeta = PageMeta(pageTitle: string, metaAuthor: string, metaDate: string, metaDescription: string)

  /** The content of the last tag that sets field `f`, or "" when none does. */
  function LastContent(tags: seq<MetaTag>, f: MetaField): string {
    if tags == [] then ""
    else if Classify(tags[|tags| - 1]) == f then tags[|tags| - 1].content
    else LastContent(tags[..|tags| - 1], f)
  }

  /** What `extract_page_metadata` returns; None stands for the empty dictionary returned
      when parsing raises. */
  function PageMetaOf(markup: Option<Markup>): Option<PageMeta> {
    match markup
    case None => None
    case Some(m) =>
      Some(PageMeta(
        if m.title.Some? then Strip(m.title.value) else "",
        LastContent(m.tags, AuthorField), LastContent(m.tags, DateField),
        LastContent(m.tags, DescriptionField)))
  }

  /** Later tags win: the field holds the content of the last tag that sets it. */
  lemma {:induction false} LastContentWins(tags: seq<MetaTag>, f: MetaField, k: nat)
    requires k < |tags| && Classify(tags[k]) == f
    requires forall j :: k < j < |tags| ==> Classify(tags[j]) != f
    decreases |tags|
    ensures LastContent(tags, f) == tags[k].content
  {
    if k < |tags| - 1 {
      var init := tags[..|tags| - 1];
      assert init[k] == tags[k];
      assert forall j :: k < j < |init| ==> init[j] == tags[j];
      LastContentWins(init, f, k);
    }
  }

  /** A field no tag sets stays empty. */
  lemma {:induction false} LastContentAbsent(tags: seq<MetaTag>, f: MetaField)
    requires forall j :: 0 <= j < |tags| ==> Classify(tags[j]) != f
    decreases |tags|
    ensures LastContent(tags, f) == ""
  {
    if tags != [] {
      var init := tags[..|tags| - 1];
      assert forall j :: 0 <= j < |init| ==> init[j] == tags[j];
      LastContentAbsent(init, f);
    }
  }

  /** A non-empty field comes from some tag that sets it. */
  lemma {:induction false} LastContentFrom(tags: seq<MetaTag>, f: MetaField)
    requires LastContent(tags, f) != ""
    decreases |tags|
    ensures exists k :: 0 <= k < |tags| && Classify(tags[k]) == f && tags[k].content == LastContent(tags, f)
  {
    if Classify(tags[|tags| - 1]) != f {
      var init := tags[..|tags| - 1];
      LastContentFrom(init, f);
      var k :| 0 <= k < |init| && Classify(init[k]) == f && init[k].content == LastContent(init, f);
      assert tags[k] == init[k];
    }
  }

  /** One more tag: it overwrites field `f` exactly when it classifies as `f`. */
  lemma LastContentStep(tags: seq<MetaTag>, i: nat, f: MetaField)
    requires i < |tags|
    ensures LastContent(tags[..i + 1], f)
         == if Classify(tags[i]) == f then tags[i].content else LastContent(tags[..i], f)
  {
    assert tags[..i + 1][..i] == tags[..i];
  }

  /** A tag sets one field only, even when it would pass several tests. */
  lemma AuthorTakesPrecedence(t: MetaTag)
    requires Lower(t.name) == "author"
    ensures Classify(t) == AuthorField
  {
  }

  /** `extract_page_metadata`: the loop over the meta tags, each overwriting the field it sets. */
  method ExtractPageMetadata(markup: Option<Markup>) returns (r: Option<PageMeta>)
    ensures r == PageMetaOf(markup)
  {
    if markup.None? {
      return None;
    }
    var tags := markup.value.tags;
    var author, date, description := "", "", "";
    var i := 0;
    while i < |tags|
      invariant 0 <= i <= |tags|
      invariant author == LastContent(tags[..i], AuthorField)
      invariant date == LastContent(tags[..i], DateField)
      invariant description == LastContent(tags[..i], DescriptionField)
    {
      var field := Classify(tags[i]);
      LastContentStep(tags, i, AuthorField);
      LastContentStep(tags, i, DateField);
      LastContentStep(tags, i, DescriptionField);
      if field == AuthorField {
        author := tags[i].content;
      } else if field == DateField {
        date := tags[i].content;
      } else if field == DescriptionField {
        description := tags[i].content;
      }
      i := i + 1;
    }
    assert tags[..i] == tags;
    var title := if markup.value.title.Some? then Strip(markup.value.title.value) else "";
    r := Some(PageMeta(title, author, date, description));
  }

  // ---------------------------------------------------------------------------------------
  // clean_html_with_metadata and fetch_page_with_metadata

  /** The boilerplate-free text is longer than this when it is used. */
  const MinExtracted := 200

  /** The page text: the extractor's output when it has more than 200 characters, else the
      document's generic text. `extracted` is None when the extractor returns nothing or
      raises. */
  function ChooseText(extracted: Option<string>, generic: string): (r: string)
    ensures extracted.Some? && |extracted.value| > MinExtracted ==> r == extracted.value
    ensures !(extracted.Some? && |extracted.value| > MinExtracted) ==> r == generic
  {
    if extracted.Some? && |extracted.value| > MinExtracted then extracted.value else generic
  }

  /** What the HTTP client returns for a url: the status, the two headers (None when absent),
      the time of the fetch in seconds, and the page as the extractors see it. */
  datatype PageResponse = PageResponse(
    status: int, contentType: Option<string>, lastModified: Option<string>, fetchedAt: int,
    extracted: Option<string>, generic: string, markup: Option<Markup>)

  /** The metadata dictionary of a successful fetch; `page` is None when the meta-tag reading
      gave the empty dictionary. */
  datatype FetchMeta = FetchMeta(
    statusCode: int, contentType: string, lastModified: string, contentLength: nat,
    fetchTimestamp: int, page: Option<PageMeta>)

  /** The `(text, metadata)` pair; `meta` is None for the empty dictionary. */
  datatype Fetched = Fetched(text: string, meta: Option<FetchMeta>)

  /** `fetch_page_with_metadata`: None stands for the client raising. */
  function FetchPage(resp: Option<PageResponse>, perPage: int): Fetched {
    match resp
    case None => Fetched("", None)
    case Some(r) =>
      if 200 <= r.status < 300 then
        var clean := ChooseText(r.extracted, r.generic);
        Fetched(PyTake(clean, perPage),
                Some(FetchMeta(r.status, r.contentType.GetOr(""), r.lastModified.GetOr(""), |clean|,
                               r.fetchedAt, PageMetaOf(r.markup))))
      else Fetched("", None)
  }

  /** A failed request or a status outside 2xx gives `("", {})`; a 2xx answer gives the
      extractor's text when it has more than 200 characters, else the generic text, cut to
      the page limit, with its length before the cut recorded. */
  lemma FetchPageShape(resp: Option<PageResponse>, perPage: int)
    ensures var f := FetchPage(resp, perPage);
      && (resp.None? || !(200 <= resp.value.status < 300) <==> f.meta.None?)
      && (f.meta.None? ==> f.text == [])
      && (f.meta.Some? ==>
            var e := resp.value.extracted;
            var clean := if e.Some? && |e.value| > MinExtracted then e.value else resp.value.generic;
            && f.text <= clean
            && (perPage >= 0 ==> |f.text| == Min(perPage, |clean|))
            && f.meta.value.contentLength == |clean|
            && f.meta.value.statusCode == resp.value.status
            && f.meta.value.fetchTimestamp == resp.value.fetchedAt)
  {
  }

  // ---------------------------------------------------------------------------------------
  // Flattening

  /** A link with the query that found it (`item["source_query"]`). */
  datatype FlatLink = FlatLink(link: Link, sourceQuery: string)

  function Tagged(links: seq<Link>, q: string): (r: seq<FlatLink>)
    ensures |r| == |links| && forall i :: 0 <= i < |r| ==> r[i] == FlatLink(links[i], q)
  {
    seq(|links|, i requires 0 <= i < |links| => FlatLink(links[i], q))
  }

  /** `zip(queries, search_results)` flattened: the results of each query in query order. */
  function Flatten(qs: seq<string>, rs: seq<seq<Link>>): seq<FlatLink> {
    if qs == [] || rs == [] then [] else Tagged(rs[0], qs[0]) + Flatten(qs[1..], rs[1..])
  }

  /** `s[0] + s[1] + ...`. */
  function Concat<T>(s: seq<seq<T>>): seq<T> {
    if s == [] then [] else s[0] + Concat(s[1..])
  }

  function LinksOfFlat(fs: seq<FlatLink>): (r: seq<Link>)
    ensures |r| == |fs| && forall i :: 0 <= i < |r| ==> r[i] == fs[i].link
  {
    seq(|fs|, i requires 0 <= i < |fs| => fs[i].link)
  }

  lemma LinksOfFlatAppend(a: seq<FlatLink>, b: seq<FlatLink>)
    ensures LinksOfFlat(a + b) == LinksOfFlat(a) + LinksOfFlat(b)
  {
  }

  /** The flat list holds exactly the links of each query in query order (zip stops at the
      shorter list), and each is tagged with a query that was searched. */
  lemma {:induction false} FlattenShape(qs: seq<string>, rs: seq<seq<Link>>)
    decreases |qs|
    ensures LinksOfFlat(Flatten(qs, rs)) == Concat(rs[..Min(|qs|, |rs|)])
    ensures forall f :: f in Flatten(qs, rs) ==> f.sourceQuery in qs
  {
    if qs != [] && rs != [] {
      FlattenShape(qs[1..], rs[1..]);
      LinksOfFlatAppend(Tagged(rs[0], qs[0]), Flatten(qs[1..], rs[1..]));
      var n := Min(|qs|, |rs|);
      assert rs[..n] == [rs[0]] + rs[1..][..n - 1];
      assert LinksOfFlat(Tagged(rs[0], qs[0])) == rs[0];
      assert forall f :: f in Flatten(qs[1..], rs[1..]) ==> f.sourceQuery in qs by {
        assert forall q :: q in qs[1..] ==> q in qs;
      }
    } else {
      assert rs[..Min(|qs|, |rs|)] == [];
    }
  }

  /** Searching each query and flattening tags every link with the query its search was for. */
  lemma {:induction false} FlattenTagsQuery(qs: seq<string>, rs: seq<seq<Link>>)
    requires forall k :: 0 <= k < Min(|qs|, |rs|) ==> forall l :: l in rs[k] ==> l.query == qs[k]
    decreases |qs|
    ensures forall f :: f in Flatten(qs, rs) ==> f.link.query == f.sourceQuery
  {
    if qs != [] && rs != [] {
      assert forall l :: l in rs[0] ==> l.query == qs[0];
      forall k | 0 <= k < Min(|qs[1..]|, |rs[1..]|) ensures forall l :: l in rs[1..][k] ==> l.query == qs[1..][k] {
        assert rs[1..][k] == rs[k + 1] && qs[1..][k] == qs[k + 1];
      }
      FlattenTagsQuery(qs[1..], rs[1..]);
    }
  }

  /** The flattening loop of `bulk_retrieve`. */
  method FlattenLinks(qs: seq<string>, rs: seq<seq<Link>>) returns (flat: seq<FlatLink>)
    ensures flat == Flatten(qs, rs)
  {
    var n := Min(|qs|, |rs|);
    flat := [];
    var k := 0;
    while k < n
      invariant 0 <= k <= n
      invariant flat + Flatten(qs[k..], rs[k..]) == Flatten(qs, rs)
    {
      var results := rs[k];
      var j := 0;
      ghost var before := flat;
      while j < |results|
        invariant 0 <= j <= |results|
        invariant flat == before + Tagged(results[..j], qs[k])
      {
        TaggedSnoc(results, j, qs[k]);
        flat := flat + [FlatLink(results[j], qs[k])];
        j := j + 1;
      }
      assert results[..j] == results;
      FlattenStep(qs, rs, k, before);
      k := k + 1;
    }
    assert qs[k..] == [] || rs[k..] == [];
  }

  lemma TaggedSnoc(links: seq<Link>, j: nat, q: string)
    requires j < |links|
    ensures Tagged(links[..j + 1], q) == Tagged(links[..j], q) + [FlatLink(links[j], q)]
  {
  }

  /** One pair of the zip: the results of query `k`, then the rest. */
  lemma FlattenStep(qs: seq<string>, rs: seq<seq<Link>>, k: nat, before: seq<FlatLink>)
    requires k < |qs| && k < |rs|
    ensures before + Flatten(qs[k..], rs[k..])
         == (before + Tagged(rs[k], qs[k])) + Flatten(qs[k + 1..], rs[k + 1..])
  {
    assert qs[k..][1..] == qs[k + 1..] && rs[k..][1..] == rs[k + 1..];
  }

  // ---------------------------------------------------------------------------------------
  // Sources and the character budget

  const FetchedStatus := "successfully_fetched"
  const Untitled := "Untitled"

  /** One entry of `sources`. `fetchTimestamp` is None for the empty default. */
  datatype Source = Source(
    id: nat, title: string, url: string, domain: string, snippet: string, sourceQuery: string,
    searchEngine: string, author: string, publishDate: string, fetchTimestamp: Option<int>,
    contentType: string, wordCount: nat, status: string)

  /** A flat link with the page fetched for its url. */
  datatype Item = Item(item: FlatLink, page: Fetched)

  /** `item.get("title") or fetch_metadata.get("page_title", "Untitled")`. */
  function SourceTitle(it: Item): string {
    if it.item.link.title != [] then it.item.link.title
    else if it.page.meta.Some? && it.page.meta.value.page.Some? then it.page.meta.value.page.value.pageTitle
    else Untitled
  }

  /** `item.get("title") or fetch_metadata.get("page_title")`, the title given to the cache. */
  function CacheTitle(it: Item): Option<string> {
    if it.item.link.title != [] then Some(it.item.link.title)
    else if it.page.meta.Some? && it.page.meta.value.page.Some? then Some(it.page.meta.value.page.value.pageTitle)
    else None
  }

  /** `fetch_metadata.get("fetch_timestamp")`. */
  function FetchTime(it: Item): Option<int> {
    if it.page.meta.Some? then Some(it.page.meta.value.fetchTimestamp) else None
  }

  function PageField(it: Item, f: PageMeta -> string): string {
    if it.page.meta.Some? && it.page.meta.value.page.Some? then f(it.page.meta.value.page.value) else ""
  }

  /** The source record built for a fetched item with the given id. */
  function SourceOf(it: Item, id: nat): Source {
    var l := it.item.link;
    Source(id, SourceTitle(it), l.url, l.domain, l.snippet, it.item.sourceQuery, l.engine,
           PageField(it, (m: PageMeta) => m.metaAuthor), PageField(it, (m: PageMeta) => m.metaDate), FetchTime(it),
           if it.page.meta.Some? then it.page.meta.value.contentType else "",
           WordCount(it.page.text), FetchedStatus)
  }

  /** `f"[SOURCE {id}] {title}\n{url}\n\n{text}\n\n"`. */
  function FullBlock(src: Source, text: string): string {
    "[SOURCE " + Decimal(src.id) + "] " + src.title + "\n" + src.url + "\n\n" + text + "\n\n"
  }

  /** The items whose fetch gave non-empty text, in order. */
  function Successes(items: seq<Item>): seq<Item> {
    if items == [] then []
    else if items[0].page.text != [] then [items[0]] + Successes(items[1..])
    else Successes(items[1..])
  }

  /** The full block of the `k`-th success carries id `k + 1`. */
  function Fulls(succ: seq<Item>): (r: seq<string>)
    ensures |r| == |succ|
  {
    seq(|succ|, k requires 0 <= k < |succ| => FullBlock(SourceOf(succ[k], k + 1), succ[k].page.text))
  }

  /** A block as it is appended when `used` characters are already taken. */
  function Fit(block: string, total: int, used: int): string {
    if used + |block| > total then PyTake(block, Max(0, total - used)) else block
  }

  /** The blocks appended by the loop, starting with `used` characters taken: each full block
      is fitted, and the loop ends once the budget is reached. */
  function BudgetBlocks(fulls: seq<string>, total: int, used: int): (r: seq<string>)
    decreases |fulls|
    ensures |r| <= |fulls| && (fulls != [] ==> r != [])
  {
    if fulls == [] then []
    else
      var b := Fit(fulls[0], total, used);
      if used + |b| >= total then [b] else [b] + BudgetBlocks(fulls[1..], total, used + |b|)
  }

  /** The first `n` successes as sources, numbered from 1. */
  function SourcesOf(succ: seq<Item>, n: nat): (r: seq<Source>)
    requires n <= |succ|
    ensures |r| == n && forall k :: 0 <= k < n ==> r[k] == SourceOf(succ[k], k + 1)
  {
    seq(n, k requires 0 <= k < n => SourceOf(succ[k], k + 1))
  }

  lemma SourcesOfStep(succ: seq<Item>, n: nat)
    requires n < |succ|
    ensures SourcesOf(succ, n + 1) == SourcesOf(succ, n) + [SourceOf(succ[n], n + 1)]
  {
  }

  /** The loop's result: `sources`, `merged_text` and `used_chars`. */
  datatype Evidence = Evidence(sources: seq<Source>, blocks: seq<string>, used: int)

  function Assemble(items: seq<Item>, total: int): Evidence {
    var succ := Successes(items);
    var blocks := BudgetBlocks(Fulls(succ), total, 0);
    Evidence(SourcesOf(succ, |blocks|), blocks, |Concat(blocks)|)
  }

  lemma {:induction false} ConcatAppend<T>(a: seq<seq<T>>, b: seq<seq<T>>)
    decreases |a|
    ensures Concat(a + b) == Concat(a) + Concat(b)
  {
    if a != [] {
      assert (a + b)[1..] == a[1..] + b;
      ConcatAppend(a[1..], b);
    } else {
      assert a + b == b;
    }
  }

  /** Starting within the budget, the loop never goes over it. */
  lemma {:induction false} BudgetWithin(fulls: seq<string>, total: int, used: int)
    requires 0 <= used <= total
    decreases |fulls|
    ensures used + |Concat(BudgetBlocks(fulls, total, used))| <= total
  {
    if fulls != [] {
      var b := Fit(fulls[0], total, used);
      if used + |b| < total {
        BudgetWithin(fulls[1..], total, used + |b|);
      }
    }
  }

  /** Only the last block can be cut: a cut block uses up the budget and ends the loop. */
  lemma {:induction false} BudgetFull(fulls: seq<string>, total: int, used: int)
    requires 0 <= used
    decreases |fulls|
    ensures var r := BudgetBlocks(fulls, total, used);
      forall k :: 0 <= k < |r| - 1 ==> r[k] == fulls[k]
  {
    if fulls != [] {
      var r := BudgetBlocks(fulls, total, used);
      var b := Fit(fulls[0], total, used);
      if used + |b| < total {
        BudgetFull(fulls[1..], total, used + |b|);
        var rest := BudgetBlocks(fulls[1..], total, used + |b|);
        assert r == [b] + rest;
        assert b == fulls[0];
        forall k | 1 <= k < |r| - 1 ensures r[k] == fulls[k] {
          assert r[k] == rest[k - 1];
        }
      }
    }
  }

  /** The characters used before block `k`. */
  function UsedBefore(blocks: seq<string>, k: nat): nat
    requires k <= |blocks|
  {
    |Concat(blocks[..k])|
  }

  lemma UsedBeforeStep(b: string, rest: seq<string>, k: nat)
    requires k < |rest| + 1
    ensures ([b] + rest)[..k + 1] == [b] + rest[..k]
    ensures UsedBefore([b] + rest, k + 1) == |b| + UsedBefore(rest, k)
  {
    assert ([b] + rest)[..k + 1] == [b] + rest[..k];
  }

  /** The last of the blocks `r` is the full block at its position fitted to what the blocks
      before it left of the budget. */
  predicate LastFits(r: seq<string>, fulls: seq<string>, total: int, used: int) {
    && r != [] && |r| <= |fulls|
    && r[|r| - 1] == Fit(fulls[|r| - 1], total, used + UsedBefore(r, |r| - 1))
  }

  /** The last block is its full block fitted to what is left of the budget. */
  lemma {:induction false} BudgetLast(fulls: seq<string>, total: int, used: int)
    requires 0 <= used && fulls != []
    decreases |fulls|
    ensures LastFits(BudgetBlocks(fulls, total, used), fulls, total, used)
  {
    var r := BudgetBlocks(fulls, total, used);
    var b := Fit(fulls[0], total, used);
    if used + |b| < total && |fulls| > 1 {
      var rest := BudgetBlocks(fulls[1..], total, used + |b|);
      BudgetLast(fulls[1..], total, used + |b|);
      assert r == [b] + rest;
      LastAfterCons(b, rest, fulls, total, used);
    } else {
      assert r == [b];
      LastSingle(b, fulls, total, used);
    }
  }

  lemma LastSingle(b: string, fulls: seq<string>, total: int, used: int)
    requires fulls != [] && b == Fit(fulls[0], total, used)
    ensures LastFits([b], fulls, total, used)
  {
    assert [b][..0] == [];
  }

  lemma LastAfterCons(b: string, rest: seq<string>, fulls: seq<string>, total: int, used: int)
    requires fulls != [] && LastFits(rest, fulls[1..], total, used + |b|)
    ensures LastFits([b] + rest, fulls, total, used)
  {
    var n := |rest| - 1;
    UsedBeforeStep(b, rest, n);
    assert ([b] + rest)[n + 1] == rest[n] && fulls[n + 1] == fulls[1..][n];
  }

  lemma {:induction false} BudgetBelow(fulls: seq<string>, total: int, used: int)
    requires 0 <= used
    decreases |fulls|
    ensures var r := BudgetBlocks(fulls, total, used);
      forall k :: 1 <= k < |r| ==> used + UsedBefore(r, k) < total
  {
    if fulls != [] {
      var r := BudgetBlocks(fulls, total, used);
      var b := Fit(fulls[0], total, used);
      if used + |b| < total {
        var rest := BudgetBlocks(fulls[1..], total, used + |b|);
        BudgetBelow(fulls[1..], total, used + |b|);
        assert r == [b] + rest;
        forall k | 1 <= k < |r| ensures used + UsedBefore(r, k) < total {
          UsedBeforeStep(b, rest, k - 1);
          if k == 1 {
            assert rest[..0] == [];
            assert UsedBefore(rest, 0) == 0;
          } else {
            assert 1 <= k - 1 < |rest|;
            assert used + |b| + UsedBefore(BudgetBlocks(fulls[1..], total, used + |b|), k - 1) < total;
          }
        }
      }
    }
  }

  lemma {:induction false} BudgetStops(fulls: seq<string>, total: int, used: int)
    requires 0 <= used
    decreases |fulls|
    ensures var r := BudgetBlocks(fulls, total, used);
      |r| < |fulls| ==> used + |Concat(r)| >= total
  {
    if fulls != [] {
      var r := BudgetBlocks(fulls, total, used);
      var b := Fit(fulls[0], total, used);
      if used + |b| < total {
        var rest := BudgetBlocks(fulls[1..], total, used + |b|);
        BudgetStops(fulls[1..], total, used + |b|);
        assert r == [b] + rest;
      } else {
        assert r == [b];
      }
    }
  }

  /** The loop's result: sources numbered `1..n` in processing order, one block per source,
      sources taken from the successes alone and in order, and `used_chars` the length of the
      joined text, within a non-negative budget. */
  lemma AssembleCounts(items: seq<Item>, total: int)
    ensures var ev := Assemble(items, total);
      var succ := Successes(items);
      && |ev.blocks| == |ev.sources| <= |succ|
      && (forall k :: 0 <= k < |ev.sources| ==> ev.sources[k].id == k + 1 && ev.sources[k] == SourceOf(succ[k], k + 1))
      && ev.used == |Concat(ev.blocks)|
      && (total >= 0 ==> ev.used <= total)
  {
    if total >= 0 {
      BudgetWithin(Fulls(Successes(items)), total, 0);
    }
  }

  /** Each block is its source's full block, except that the last one is fitted to what is
      left of the budget. */
  lemma AssembleBlocks(items: seq<Item>, total: int)
    ensures var ev := Assemble(items, total);
      var succ := Successes(items);
      && |ev.blocks| == |ev.sources| <= |succ|
      && (forall k :: 0 <= k < |ev.blocks| - 1 ==> ev.blocks[k] == FullBlock(ev.sources[k], succ[k].page.text))
      && (ev.blocks != [] ==>
            var last := |ev.blocks| - 1;
            ev.blocks[last] == Fit(FullBlock(ev.sources[last], succ[last].page.text), total, UsedBefore(ev.blocks, last)))
  {
    var succ := Successes(items);
    var fulls := Fulls(succ);
    var blocks := BudgetBlocks(fulls, total, 0);
    var srcs := SourcesOf(succ, |blocks|);
    assert Assemble(items, total) == Evidence(srcs, blocks, |Concat(blocks)|);
    BudgetFull(fulls, total, 0);
    forall k | 0 <= k < |blocks| - 1 ensures blocks[k] == FullBlock(srcs[k], succ[k].page.text) {
      assert fulls[k] == FullBlock(srcs[k], succ[k].page.text);
    }
    if fulls != [] {
      var last := |blocks| - 1;
      LastFitted(fulls, total, FullBlock(srcs[last], succ[last].page.text));
    }
  }

  lemma LastFitted(fulls: seq<string>, total: int, full: string)
    requires fulls != [] && full == fulls[|BudgetBlocks(fulls, total, 0)| - 1]
    ensures var n := |BudgetBlocks(fulls, total, 0)| - 1;
      BudgetBlocks(fulls, total, 0)[n] == Fit(full, total, UsedBefore(BudgetBlocks(fulls, total, 0), n))
  {
    BudgetLast(fulls, total, 0);
    assert LastFits(BudgetBlocks(fulls, total, 0), fulls, total, 0);
  }

  /** Fewer sources than successes only when the budget is used up, and every source but the
      last leaves the text below the budget. */
  lemma AssembleStops(items: seq<Item>, total: int)
    ensures var ev := Assemble(items, total);
      && (|ev.sources| < |Successes(items)| ==> ev.used >= total)
      && (forall k :: 1 <= k < |ev.blocks| ==> UsedBefore(ev.blocks, k) < total)
  {
    var fulls := Fulls(Successes(items));
    BudgetStops(fulls, total, 0);
    BudgetBelow(fulls, total, 0);
  }

  /** One write of `cache_page`: the url is found fresh and nothing changes, or its page
      points cannot all be encoded and nothing changes, or they are upserted. */
  ghost predicate CacheStep(m: map<string, Point>, m2: map<string, Point>, url: string, text: string,
                            title: Option<string>, site: string, fetchedAt: Option<int>, now: int,
                            ttlDays: int, embed: string -> Option<Vector>)
  {
    exists first :: FirstOf(m, url, first) &&
      if Fresh(first, now, ttlDays) then m2 == m
      else match PagePoints(url, title, site, fetchedAt, Chunks(text, DefaultSize, DefaultOverlap), embed)
        case None => m2 == m
        case Some(pts) => m2 == Upsert(m, pts)
  }

  /** The write made for a fetched item: none when `urlparse` raises on its url before
      `cache_page` is called, otherwise one cache step. */
  ghost predicate ItemWrite(m: map<string, Point>, m2: map<string, Point>, it: Item, now: int, ttlDays: int,
                            embed: string -> Option<Vector>, netloc: string -> Option<string>)
  {
    match netloc(it.item.link.url)
    case None => m2 == m
    case Some(site) =>
      CacheStep(m, m2, NormalizeUrl(it.item.link.url), it.page.text, CacheTitle(it),
                site, FetchTime(it), now, ttlDays, embed)
  }

  /** What `cache_page` promises is one cache step. */
  lemma CacheStepOf(m: map<string, Point>, m2: map<string, Point>, url: string, text: string,
                    title: Option<string>, site: string, fetchedAt: Option<int>, now: int,
                    ttlDays: int, embed: string -> Option<Vector>, outcome: CacheOutcome, first: Option<Payload>)
    requires FirstOf(m, url, first)
    requires outcome.AlreadyFresh? <==> Fresh(first, now, ttlDays)
    requires outcome.AlreadyFresh? ==> m2 == m
    requires var pts := PagePoints(url, title, site, fetchedAt, Chunks(text, DefaultSize, DefaultOverlap), embed);
        && (outcome.EncodeFailed? <==> !outcome.AlreadyFresh? && pts.None?)
        && (outcome.EncodeFailed? ==> m2 == m)
        && (outcome.Stored? ==> m2 == Upsert(m, pts.value))
    ensures CacheStep(m, m2, url, text, title, site, fetchedAt, now, ttlDays, embed)
  {
  }

  /** A block that reaches the budget is the last one appended. */
  lemma BudgetAdvanceStops(fulls: seq<string>, total: int, target: seq<string>, merged: seq<string>, used: int,
                           j: nat, chunk: string)
    requires j < |fulls| && chunk == Fit(fulls[j], total, used)
    requires target == merged + BudgetBlocks(fulls[j..], total, used)
    requires used + |chunk| >= total
    ensures target == merged + [chunk]
  {
    assert fulls[j..][0] == fulls[j];
  }

  /** A block below the budget leaves the rest of it to the remaining full blocks. */
  lemma BudgetAdvanceGoesOn(fulls: seq<string>, total: int, target: seq<string>, merged: seq<string>, used: int,
                            j: nat, chunk: string)
    requires j < |fulls| && chunk == Fit(fulls[j], total, used)
    requires target == merged + BudgetBlocks(fulls[j..], total, used)
    requires used + |chunk| < total
    ensures target == (merged + [chunk]) + BudgetBlocks(fulls[j + 1..], total, used + |chunk|)
  {
    assert fulls[j..][0] == fulls[j] && fulls[j..][1..] == fulls[j + 1..];
    var rest := BudgetBlocks(fulls[j + 1..], total, used + |chunk|);
    assert merged + ([chunk] + rest) == (merged + [chunk]) + rest;
  }

  /** One pass of the loop over a fetched page with text: its source record is numbered
      next, and its block is fitted into what is left of the budget. */
  function Advance(st: Evidence, it: Item, total: int): (r: Evidence)
    ensures |r.sources| == |st.sources| + 1 && |r.blocks| == |st.blocks| + 1
    ensures r.sources[|st.sources|].id == |st.sources| + 1
    ensures r.used == st.used + |r.blocks[|st.blocks|]|
  {
    var src := SourceOf(it, |st.sources| + 1);
    var chunk := Fit(FullBlock(src, it.page.text), total, st.used);
    Evidence(st.sources + [src], st.blocks + [chunk], st.used + |chunk|)
  }

  /** The loop as written, over the items still to process and the state built so far; it
      ends after the block that reaches the budget. */
  function Run(rest: seq<Item>, total: int, st: Evidence): Evidence
    decreases |rest|
  {
    if rest == [] then st
    else if rest[0].page.text == [] then Run(rest[1..], total, st)
    else
      var st2 := Advance(st, rest[0], total);
      if st2.used >= total then st2 else Run(rest[1..], total, st2)
  }

  /** What the loop has built when `rest` is still to come, in terms of the successes and
      their full blocks. */
  ghost predicate RunState(succ: seq<Item>, fulls: seq<string>, target: seq<string>, total: int,
                           rest: seq<Item>, st: Evidence)
  {
    && |st.sources| == |st.blocks| <= |succ| == |fulls|
    && Successes(rest) == succ[|st.sources|..]
    && st.sources == SourcesOf(succ, |st.sources|)
    && st.used == |Concat(st.blocks)|
    && target == st.blocks + BudgetBlocks(fulls[|st.sources|..], total, st.used)
  }

  /** The next success is the head of what is left. */
  lemma RunHead(succ: seq<Item>, rest: seq<Item>, j: nat)
    requires j <= |succ| && Successes(rest) == succ[j..]
    requires rest != [] && rest[0].page.text != []
    ensures j < |succ| && succ[j] == rest[0] && Successes(rest[1..]) == succ[j + 1..]
  {
    assert succ[j..] == [rest[0]] + Successes(rest[1..]);
    assert succ[j] == rest[0] && succ[j + 1..] == succ[j..][1..];
  }

  /** A success that ends the loop. */
  lemma RunStops(succ: seq<Item>, fulls: seq<string>, target: seq<string>, total: int, rest: seq<Item>, st: Evidence)
    requires RunState(succ, fulls, target, total, rest, st)
    requires rest != [] && rest[0].page.text != [] && |st.sources| < |fulls|
    requires fulls[|st.sources|] == FullBlock(SourceOf(rest[0], |st.sources| + 1), rest[0].page.text)
    requires Advance(st, rest[0], total).used >= total
    ensures Advance(st, rest[0], total) == Evidence(SourcesOf(succ, |target|), target, |Concat(target)|)
  {
    var j := |st.sources|;
    var chunk := Fit(fulls[j], total, st.used);
    RunHead(succ, rest, j);
    BudgetAdvanceStops(fulls, total, target, st.blocks, st.used, j, chunk);
    SourcesOfStep(succ, j);
    ConcatAppend(st.blocks, [chunk]);
  }

  /** A success that leaves budget for more. */
  lemma RunGoesOn(succ: seq<Item>, fulls: seq<string>, target: seq<string>, total: int, rest: seq<Item>, st: Evidence)
    requires RunState(succ, fulls, target, total, rest, st)
    requires rest != [] && rest[0].page.text != [] && |st.sources| < |fulls|
    requires fulls[|st.sources|] == FullBlock(SourceOf(rest[0], |st.sources| + 1), rest[0].page.text)
    requires Advance(st, rest[0], total).used < total
    ensures RunState(succ, fulls, target, total, rest[1..], Advance(st, rest[0], total))
  {
    var j := |st.sources|;
    var chunk := Fit(fulls[j], total, st.used);
    RunHead(succ, rest, j);
    BudgetAdvanceGoesOn(fulls, total, target, st.blocks, st.used, j, chunk);
    SourcesOfStep(succ, j);
    ConcatAppend(st.blocks, [chunk]);
  }

  /** From any state the loop reaches, it ends with the evidence as defined. */
  lemma {:induction false} RunFrom(succ: seq<Item>, target: seq<string>, total: int, rest: seq<Item>, st: Evidence)
    requires RunState(succ, Fulls(succ), target, total, rest, st)
    decreases |rest|
    ensures Run(rest, total, st) == Evidence(SourcesOf(succ, |target|), target, |Concat(target)|)
  {
    if rest == [] {
      assert Fulls(succ)[|st.sources|..] == [];
    } else if rest[0].page.text == [] {
      RunFrom(succ, target, total, rest[1..], st);
    } else {
      RunHead(succ, rest, |st.sources|);
      assert Fulls(succ)[|st.sources|] == FullBlock(SourceOf(rest[0], |st.sources| + 1), rest[0].page.text);
      if Advance(st, rest[0], total).used >= total {
        RunStops(succ, Fulls(succ), target, total, rest, st);
      } else {
        RunGoesOn(succ, Fulls(succ), target, total, rest, st);
        RunFrom(succ, target, total, rest[1..], Advance(st, rest[0], total));
      }
    }
  }

  /** The loop as written computes the evidence as defined. */
  lemma RunIsAssemble(items: seq<Item>, total: int)
    ensures Run(items, total, Evidence([], [], 0)) == Assemble(items, total)
  {
    var succ := Successes(items);
    var target := BudgetBlocks(Fulls(succ), total, 0);
    assert Fulls(succ)[0..] == Fulls(succ);
    RunFrom(succ, target, total, items, Evidence([], [], 0));
  }

  /** A chain of states from `first` to `last`: `trace[k]` to `trace[k + 1]` is the step
      made for `done[k]`. */
  ghost predicate Chain<S, T>(trace: seq<S>, done: seq<T>, first: S, last: S, step: (S, S, T) -> bool)
  {
    && |trace| == |done| + 1 && trace[0] == first && trace[|done|] == last
    && forall k :: 0 <= k < |done| ==> step(trace[k], trace[k + 1], done[k])
  }

  lemma ChainExtend<S, T>(trace: seq<S>, done: seq<T>, first: S, last: S, next: S, x: T, step: (S, S, T) -> bool)
    requires Chain(trace, done, first, last, step)
    requires step(last, next, x)
    ensures Chain(trace + [next], done + [x], first, next, step)
  {
    var t := trace + [next];
    var d := done + [x];
    forall k | 0 <= k < |d| ensures step(t[k], t[k + 1], d[k]) {
      if k < |done| {
        assert t[k] == trace[k] && t[k + 1] == trace[k + 1] && d[k] == done[k];
      }
    }
  }

  /** The writes of a run from `first` to `last`, one per item of `written`. */
  ghost predicate Writes(trace: seq<map<string, Point>>, written: seq<Item>, first: map<string, Point>,
                         last: map<string, Point>, now: int, ttlDays: int,
                         embed: string -> Option<Vector>, netloc: string -> Option<string>)
  {
    Chain(trace, written, first, last,
          (m: map<string, Point>, m2: map<string, Point>, it: Item) => ItemWrite(m, m2, it, now, ttlDays, embed, netloc))
  }

  /** The `try` block that writes a fetched page to the cache; `urlparse` raising on the url,
      or a failure inside `cache_page`, is caught there and changes nothing. */
  method CacheFetched(it: Item, cache: WebCache, now: int, ttlDays: int,
                      embed: string -> Option<Vector>, netloc: string -> Option<string>)
    requires cache.Valid()
    modifies cache
    ensures cache.Valid()
    ensures ItemWrite(old(cache.points), cache.points, it, now, ttlDays, embed, netloc)
  {
    var url := NormalizeUrl(it.item.link.url);
    var site := netloc(it.item.link.url);
    if site.None? {
      return;
    }
    var outcome, first := cache.CachePage(url, it.page.text, CacheTitle(it), site.value,
                                          FetchTime(it), now, ttlDays, embed);
    CacheStepOf(old(cache.points), cache.points, url, it.page.text, CacheTitle(it), site.value,
                FetchTime(it), now, ttlDays, embed, outcome, first);
  }

  /** The source/budget loop of `bulk_retrieve`: each fetched page with text is written to the
      cache, numbered, and its block appended within the budget. */
  method CollectSources(items: seq<Item>, total: int, cache: WebCache, now: int, ttlDays: int,
                        embed: string -> Option<Vector>, netloc: string -> Option<string>)
    returns (ev: Evidence, ghost trace: seq<map<string, Point>>)
    requires cache.Valid()
    modifies cache
    ensures cache.Valid()
    ensures ev == Assemble(items, total)
    ensures |ev.sources| <= |Successes(items)|
    ensures Writes(trace, Successes(items)[..|ev.sources|], old(cache.points), cache.points, now, ttlDays, embed, netloc)
  {
    RunIsAssemble(items, total);
    ghost var written: seq<Item> := [];
    ev := Evidence([], [], 0);
    trace := [cache.points];
    var rest := items;
    while rest != []
      decreases |rest|
      invariant cache.Valid()
      invariant Run(rest, total, ev) == Assemble(items, total)
      invariant written + Successes(rest) == Successes(items) && |written| == |ev.sources|
      invariant Writes(trace, written, old(cache.points), cache.points, now, ttlDays, embed, netloc)
    {
      var it := rest[0];
      if it.page.text != [] {
        AppendAssoc(written, it, Successes(rest[1..]));
        ghost var before := cache.points;
        CacheFetched(it, cache, now, ttlDays, embed, netloc);
        ChainExtend(trace, written, old(cache.points), before, cache.points, it,
                    (m: map<string, Point>, m2: map<string, Point>, x: Item) => ItemWrite(m, m2, x, now, ttlDays, embed, netloc));
        trace := trace + [cache.points];
        written := written + [it];
        ev := Advance(ev, it, total);
        if ev.used >= total {
          PrefixOf(written, Successes(rest[1..]), Successes(items));
          break;
        }
      }
      rest := rest[1..];
    }
    if rest == [] {
      PrefixOf(written, Successes(rest), Successes(items));
    }
  }

  // ---------------------------------------------------------------------------------------
  // Merging live sources with cache hits

  /** An entry of `merged`: a live source or a cache hit. */
  datatype Entry = Live(source: Source) | Cached(hit: CacheHit)

  /** `x.get("score", 0.0)`: a live source has no score. */
  function Score(e: Entry): int {
    match e
    case Live(_) => 0
    case Cached(h) => h.score
  }

  function Lives(srcs: seq<Source>): (r: seq<Entry>)
    ensures |r| == |srcs| && forall i :: 0 <= i < |r| ==> r[i] == Live(srcs[i])
  {
    seq(|srcs|, i requires 0 <= i < |srcs| => Live(srcs[i]))
  }

  function CachedAll(hits: seq<CacheHit>): (r: seq<Entry>)
    ensures |r| == |hits| && forall i :: 0 <= i < |r| ==> r[i] == Cached(hits[i])
  {
    seq(|hits|, i requires 0 <= i < |hits| => Cached(hits[i]))
  }

  /** The keys of the live sources' urls. */
  function SeenKeys(srcs: seq<Source>, key: string -> string): set<string> {
    set s | s in srcs :: key(s.url)
  }

  /** The hits whose url key is not among `seen`, in order. */
  function Unseen(hits: seq<CacheHit>, seen: set<string>, key: string -> string): seq<CacheHit>
    decreases |hits|
  {
    if hits == [] then []
    else if key(hits[0].url) in seen then Unseen(hits[1..], seen, key)
    else [hits[0]] + Unseen(hits[1..], seen, key)
  }

  /** `sources + [h for h in vec_hits if key(h["url"]) not in seen]`. */
  function MergeBy(srcs: seq<Source>, hits: seq<CacheHit>, key: string -> string): seq<Entry> {
    Lives(srcs) + CachedAll(Unseen(hits, SeenKeys(srcs, key), key))
  }

  /** The merge as written: raw live urls against the urls of the hits, which the cache
      stores normalised. */
  function MergeAsWritten(srcs: seq<Source>, hits: seq<CacheHit>): seq<Entry> {
    MergeBy(srcs, hits, (u: string) => u)
  }

  /** The merge as intended: both sides compared under `NormalizeUrl`. */
  function Merge(srcs: seq<Source>, hits: seq<CacheHit>): seq<Entry> {
    MergeBy(srcs, hits, NormalizeUrl)
  }

  /** A hit is kept exactly when its url key is unseen, and kept hits stay in order. */
  lemma {:induction false} UnseenMembers(hits: seq<CacheHit>, seen: set<string>, key: string -> string)
    decreases |hits|
    ensures |Unseen(hits, seen, key)| <= |hits|
    ensures forall h :: h in Unseen(hits, seen, key) <==> h in hits && key(h.url) !in seen
  {
    if hits != [] {
      UnseenMembers(hits[1..], seen, key);
      assert forall h :: h in hits <==> h == hits[0] || h in hits[1..];
    }
  }

  /** The merged list: the live sources in order, then exactly the hits whose url key is not
      the key of a live source's url, in order. */
  lemma MergeByShape(srcs: seq<Source>, hits: seq<CacheHit>, key: string -> string)
    ensures var r := MergeBy(srcs, hits, key);
      && |srcs| <= |r| <= |srcs| + |hits|
      && r[..|srcs|] == Lives(srcs)
      && (forall e :: e in r[|srcs|..] ==> e.Cached?)
      && (forall h :: Cached(h) in r <==> h in hits && forall s :: s in srcs ==> key(s.url) != key(h.url))
  {
    var seen := SeenKeys(srcs, key);
    var kept := Unseen(hits, seen, key);
    UnseenMembers(hits, seen, key);
    SeenKeysMembers(srcs, key);
    CachedMembers(Lives(srcs), kept);
  }

  lemma SeenKeysMembers(srcs: seq<Source>, key: string -> string)
    ensures forall h: CacheHit :: key(h.url) !in SeenKeys(srcs, key) <==> forall s :: s in srcs ==> key(s.url) != key(h.url)
  {
  }

  /** Live entries followed by the cached entries of `kept`. */
  lemma CachedMembers(lives: seq<Entry>, kept: seq<CacheHit>)
    requires forall e :: e in lives ==> e.Live?
    ensures var r := lives + CachedAll(kept);
      && r[..|lives|] == lives
      && (forall e :: e in r[|lives|..] ==> e.Cached?)
      && (forall h :: Cached(h) in r <==> h in kept)
  {
    var r := lives + CachedAll(kept);
    assert r[|lives|..] == CachedAll(kept);
    forall h ensures Cached(h) in r <==> h in kept {
      if Cached(h) in r {
        assert Cached(h) !in lives;
        var i :| 0 <= i < |kept| && CachedAll(kept)[i] == Cached(h);
      }
      if h in kept {
        var j :| 0 <= j < |kept| && kept[j] == h;
        assert r[|lives| + j] == Cached(h);
      }
    }
  }

  /** After the intended merge no kept hit is a page that is also a live source. */
  lemma MergeDropsLivePages(srcs: seq<Source>, hits: seq<CacheHit>)
    ensures forall h :: Cached(h) in Merge(srcs, hits) ==>
      forall s :: s in srcs ==> NormalizeUrl(s.url) != NormalizeUrl(h.url)
  {
    MergeByShape(srcs, hits, NormalizeUrl);
  }

  /** A url without `#` and without a trailing slash is its own key. */
  lemma NormalizeUrlFixed(u: string)
    requires '#' !in u && (u == [] || u[|u| - 1] != '/')
    ensures NormalizeUrl(u) == u
  {
    assert SplitOn(u, '#') == [u];
  }

  /** One live source and one hit: the hit is kept unless the keys agree. */
  lemma MergeSingle(src: Source, hit: CacheHit, key: string -> string)
    ensures MergeBy([src], [hit], key)
         == if key(hit.url) == key(src.url) then [Live(src)] else [Live(src), Cached(hit)]
  {
    assert SeenKeys([src], key) == {key(src.url)};
    assert [hit][1..] == [];
    assert Lives([src]) == [Live(src)] && CachedAll([hit]) == [Cached(hit)] && CachedAll([]) == [];
    if key(hit.url) != key(src.url) {
      assert Unseen([hit], {key(src.url)}, key) == [hit] + [];
    }
  }

  /** A live source listed as `u/` and the cache hit its own write produced, stored under `u`:
      the merge as written keeps both, the intended merge keeps the source only. */
  lemma TrailingSlashDuplicate(u: string, src: Source, hit: CacheHit)
    requires '#' !in u && u != [] && u[|u| - 1] != '/'
    requires src.url == u + "/" && hit.url == u
    ensures MergeAsWritten([src], [hit]) == [Live(src), Cached(hit)]
    ensures Merge([src], [hit]) == [Live(src)]
  {
    NormalizeUrlFixed(u);
    NormalizeUrlIgnoresFragment(u, "");
    assert u + "/" != u by {
      assert |u + "/"| != |u|;
    }
    MergeSingle(src, hit, (x: string) => x);
    MergeSingle(src, hit, NormalizeUrl);
  }

  /** Live page `https://example.com/a/` cached as `https://example.com/a`. */
  lemma ExampleDuplicate(src: Source, hit: CacheHit)
    requires src.url == "https://example.com/a" + "/" && hit.url == "https://example.com/a"
    ensures |MergeAsWritten([src], [hit])| == 2 && |Merge([src], [hit])| == 1
  {
    var u := "https://example.com/a";
    assert u[|u| - 1] == 'a';
    TrailingSlashDuplicate(u, src, hit);
  }

  // ---------------------------------------------------------------------------------------
  // The stable sort by descending score

  /** `e` placed before the first entry that does not score higher. */
  function InsertByScore(e: Entry, s: seq<Entry>): seq<Entry>
    decreases |s|
  {
    if s == [] then [e]
    else if Score(e) >= Score(s[0]) then [e] + s
    else [s[0]] + InsertByScore(e, s[1..])
  }

  /** `merged.sort(key=score, reverse=True)`: Python's sort is stable also in reverse. */
  function SortByScore(s: seq<Entry>): seq<Entry>
    decreases |s|
  {
    if s == [] then [] else InsertByScore(s[0], SortByScore(s[1..]))
  }

  predicate Descending(s: seq<Entry>) {
    forall i, j :: 0 <= i < j < |s| ==> Score(s[i]) >= Score(s[j])
  }

  /** The entries scoring `v`, in order. */
  function Scoring(s: seq<Entry>, v: int): seq<Entry>
    decreases |s|
  {
    if s == [] then []
    else if Score(s[0]) == v then [s[0]] + Scoring(s[1..], v)
    else Scoring(s[1..], v)
  }

  lemma {:induction false} InsertCount(e: Entry, s: seq<Entry>)
    decreases |s|
    ensures multiset(InsertByScore(e, s)) == multiset([e] + s)
  {
    if s != [] && Score(e) < Score(s[0]) {
      InsertCount(e, s[1..]);
      assert s == [s[0]] + s[1..];
    }
  }

  lemma {:induction false} InsertDescending(e: Entry, s: seq<Entry>)
    requires Descending(s)
    decreases |s|
    ensures Descending(InsertByScore(e, s))
  {
    if s != [] {
      if Score(e) >= Score(s[0]) {
        HeadAbove(s);
        ConsDescending(e, s);
      } else {
        var t := InsertByScore(e, s[1..]);
        TailDescending(s);
        InsertDescending(e, s[1..]);
        InsertMembers(e, s[1..]);
        HeadAbove(s);
        ConsDescending(s[0], t);
      }
    }
  }

  lemma HeadAbove(s: seq<Entry>)
    requires Descending(s) && s != []
    ensures forall x :: x in s[1..] ==> Score(s[0]) >= Score(x)
  {
    forall x | x in s[1..] ensures Score(s[0]) >= Score(x) {
      var k :| 0 <= k < |s[1..]| && s[1..][k] == x;
      assert s[k + 1] == x;
    }
  }

  lemma TailDescending(s: seq<Entry>)
    requires Descending(s) && s != []
    ensures Descending(s[1..])
  {
    var t := s[1..];
    forall i, j | 0 <= i < j < |t| ensures Score(t[i]) >= Score(t[j]) {
      assert t[i] == s[i + 1] && t[j] == s[j + 1];
    }
  }

  lemma ConsDescending(x: Entry, t: seq<Entry>)
    requires Descending(t) && forall y :: y in t ==> Score(x) >= Score(y)
    ensures Descending([x] + t)
  {
    var r := [x] + t;
    forall i, j | 0 <= i < j < |r| ensures Score(r[i]) >= Score(r[j]) {
      assert r[j] == t[j - 1] && r[j] in t;
      if i > 0 {
        assert r[i] == t[i - 1];
      }
    }
  }

  lemma InsertMembers(e: Entry, s: seq<Entry>)
    ensures forall x :: x in InsertByScore(e, s) ==> x == e || x in s
  {
    InsertCount(e, s);
    forall x | x in InsertByScore(e, s) ensures x == e || x in s {
      assert x in multiset([e] + s);
    }
  }

  /** Inserting into a descending list keeps, for every score, the entries of that score in
      the order of `[e] + s`. */
  lemma {:induction false} InsertStable(e: Entry, s: seq<Entry>, v: int)
    requires Descending(s)
    decreases |s|
    ensures Scoring(InsertByScore(e, s), v) == Scoring([e] + s, v)
  {
    if s != [] && Score(e) < Score(s[0]) {
      var t := s[1..];
      TailDescending(s);
      InsertStable(e, t, v);
      assert ([e] + s)[1..] == s && ([e] + t)[1..] == t;
      assert InsertByScore(e, s) == [s[0]] + InsertByScore(e, t);
      assert ([s[0]] + InsertByScore(e, t))[1..] == InsertByScore(e, t);
      if Score(e) == v {
        assert Scoring(s, v) == Scoring(t, v);
      }
    } else if s != [] {
      assert InsertByScore(e, s) == [e] + s;
    }
  }

  /** The sort puts entries in descending score, keeps every entry, and keeps the order of
      entries with equal scores. */
  lemma {:induction false} SortByScoreSpec(s: seq<Entry>)
    decreases |s|
    ensures Descending(SortByScore(s))
    ensures multiset(SortByScore(s)) == multiset(s)
    ensures forall v :: Scoring(SortByScore(s), v) == Scoring(s, v)
  {
    if s != [] {
      var t := SortByScore(s[1..]);
      SortByScoreSpec(s[1..]);
      InsertDescending(s[0], t);
      InsertCount(s[0], t);
      assert s == [s[0]] + s[1..];
      forall v ensures Scoring(SortByScore(s), v) == Scoring(s, v) {
        InsertStable(s[0], t, v);
        assert ([s[0]] + t)[1..] == t;
      }
    }
  }

  /** A list already in descending order is left as it is. */
  lemma {:induction false} SortDescendingUnchanged(s: seq<Entry>)
    requires Descending(s)
    decreases |s|
    ensures SortByScore(s) == s
  {
    if s != [] {
      var t := s[1..];
      TailDescending(s);
      SortDescendingUnchanged(t);
      if t != [] {
        assert Score(s[0]) >= Score(s[1]);
      }
    }
  }

  /** Sorting twice is sorting once. */
  lemma SortIdempotent(s: seq<Entry>)
    ensures SortByScore(SortByScore(s)) == SortByScore(s)
  {
    SortByScoreSpec(s);
    SortDescendingUnchanged(SortByScore(s));
  }

  // ---------------------------------------------------------------------------------------
  // The response of bulk_retrieve

  /** `TOP_K`, `PER_PAGE_CHARS` and `TOTAL_CHARS` as the environment sets them, and the query
      cap `N_QUERIES` of the query extraction. */
  datatype Config = Config(topK: int, perPageChars: int, totalChars: int, nQueries: int)

  datatype Settings = Settings(
    totalChars: int, perPageChars: int, topK: int, numQueries: nat, hybridVectorCache: bool)

  /** The dictionary `bulk_retrieve` returns; `retrievalTimestamp` is the clock's reading. */
  datatype Response = Response(
    queries: seq<string>, claim: string, sources: seq<Entry>, sourceCount: nat,
    totalResultsFound: nat, mergedText: string, retrievalTimestamp: int, characterCount: int,
    settings: Settings)

  /** `claim or " ".join(queries)`: the text the cache is searched with. */
  function VectorQuery(p: Parsed): string {
    if p.claim != [] then p.claim else Join(p.queries, " ")
  }

  /** The links of each query's search, in query order. */
  function SearchAll(qs: seq<string>, k: int, answer: string -> SearchReply, netloc: string -> Option<string>)
    : (r: seq<seq<Link>>)
    ensures |r| == |qs| && forall i :: 0 <= i < |qs| ==> r[i] == TopLinks(qs[i], k, answer(qs[i]), netloc)
  {
    seq(|qs|, i requires 0 <= i < |qs| => TopLinks(qs[i], k, answer(qs[i]), netloc))
  }

  /** Each flat link with the page fetched for its url. */
  function FetchAll(flat: seq<FlatLink>, fetch: string -> Option<PageResponse>, perPage: int): (r: seq<Item>)
    ensures |r| == |flat| && forall i :: 0 <= i < |flat| ==> r[i] == Item(flat[i], FetchPage(fetch(flat[i].link.url), perPage))
  {
    seq(|flat|, i requires 0 <= i < |flat| => Item(flat[i], FetchPage(fetch(flat[i].link.url), perPage)))
  }

  /** The response for the parsed prompt, the number of links found, the loop's result and
      the cache hits, with the hits deduplicated under `key`. */
  function RespondBy(p: Parsed, found: nat, ev: Evidence, hits: seq<CacheHit>, cfg: Config, now: int,
                     key: string -> string): Response
  {
    var merged := SortByScore(MergeBy(ev.sources, hits, key));
    Response(p.queries, p.claim, PyTake(merged, |ev.sources|), |merged|, found, Concat(ev.blocks), now,
             ev.used, Settings(cfg.totalChars, cfg.perPageChars, cfg.topK, |p.queries|, true))
  }

  /** The response as written: the hits are compared with the raw live urls. */
  function RespondAsWritten(p: Parsed, found: nat, ev: Evidence, hits: seq<CacheHit>, cfg: Config, now: int)
    : Response
  {
    RespondBy(p, found, ev, hits, cfg, now, (u: string) => u)
  }

  /** The response as intended: both sides are compared under `NormalizeUrl`. */
  function Respond(p: Parsed, found: nat, ev: Evidence, hits: seq<CacheHit>, cfg: Config, now: int): Response {
    RespondBy(p, found, ev, hits, cfg, now, NormalizeUrl)
  }

  /** For either key: `sources` has as many entries as there are live sources, in descending
      score, each one of the merged entries; `source_count` counts the live sources and the
      kept hits; `character_count` is the length of `merged_text`. */
  lemma RespondShape(p: Parsed, found: nat, items: seq<Item>, total: int, hits: seq<CacheHit>,
                     cfg: Config, now: int, key: string -> string)
    ensures var ev := Assemble(items, total);
      var r := RespondBy(p, found, ev, hits, cfg, now, key);
      var kept := Unseen(hits, SeenKeys(ev.sources, key), key);
      && |r.sources| == |ev.sources|
      && Descending(r.sources)
      && multiset(r.sources) <= multiset(MergeBy(ev.sources, hits, key))
      && r.sourceCount == |ev.sources| + |kept|
      && r.characterCount == |r.mergedText|
      && r.totalResultsFound == found
      && r.settings.numQueries == |p.queries|
  {
    var ev := Assemble(items, total);
    var m := MergeBy(ev.sources, hits, key);
    SortByScoreSpec(m);
    MergeByShape(ev.sources, hits, key);
    var merged := SortByScore(m);
    assert |merged| == |m| by {
      assert |multiset(merged)| == |multiset(m)|;
    }
    SortedPrefix(merged, |ev.sources|);
  }

  /** Sorting keeps the number of merged entries. */
  lemma SortedCount(srcs: seq<Source>, hits: seq<CacheHit>, key: string -> string)
    ensures |SortByScore(MergeBy(srcs, hits, key))| == |MergeBy(srcs, hits, key)|
  {
    var m := MergeBy(srcs, hits, key);
    SortByScoreSpec(m);
    assert |multiset(SortByScore(m))| == |multiset(m)|;
  }

  /** A live page `u/` and the hit `u` cached from it: the response as written counts two
      sources, the corrected one counts one. */
  lemma TrailingSlashCount(p: Parsed, found: nat, ev: Evidence, hit: CacheHit, cfg: Config, now: int, u: string)
    requires '#' !in u && u != [] && u[|u| - 1] != '/'
    requires |ev.sources| == 1 && ev.sources[0].url == u + "/" && hit.url == u
    ensures RespondAsWritten(p, found, ev, [hit], cfg, now).sourceCount == 2
    ensures Respond(p, found, ev, [hit], cfg, now).sourceCount == 1
  {
    assert ev.sources == [ev.sources[0]];
    TrailingSlashDuplicate(u, ev.sources[0], hit);
    SortedCount(ev.sources, [hit], (u: string) => u);
    SortedCount(ev.sources, [hit], NormalizeUrl);
  }

  /** The first `n` entries of a descending list. */
  lemma SortedPrefix(s: seq<Entry>, n: nat)
    requires Descending(s) && n <= |s|
    ensures Descending(s[..n]) && multiset(s[..n]) <= multiset(s)
  {
    var top := s[..n];
    forall i, j | 0 <= i < j < |top| ensures Score(top[i]) >= Score(top[j]) {
      assert top[i] == s[i] && top[j] == s[j];
    }
    assert s == top + s[n..];
  }

  /** With no hit left after the merge the live sources are returned as they are, in order:
      they all score 0, and the sort is stable. */
  lemma NoHitsKeepsSources(p: Parsed, found: nat, ev: Evidence, hits: seq<CacheHit>, cfg: Config, now: int,
                           key: string -> string)
    requires Unseen(hits, SeenKeys(ev.sources, key), key) == []
    ensures RespondBy(p, found, ev, hits, cfg, now, key).sources == Lives(ev.sources)
  {
    var m := MergeBy(ev.sources, hits, key);
    assert m == Lives(ev.sources);
    SortDescendingUnchanged(m);
  }

  /** `bulk_retrieve(prompt)`. The query extraction is given the prompt's JSON value; the
      search engine, the page fetcher, the url parser, the encoder, the store's
      nearest-neighbour search and the clock are inputs. */
  method BulkRetrieve(prompt: string, parsed: Option<Json>, cfg: Config,
                      answer: string -> SearchReply, fetch: string -> Option<PageResponse>,
                      netloc: string -> Option<string>, cache: WebCache, now: int, ttlDays: int,
                      embed: string -> Option<Vector>,
                      nearest: (map<string, Point>, Vector, int) -> Option<seq<ScoredPoint>>)
    returns (resp: Response, ghost trace: seq<map<string, Point>>)
    requires cache.Valid()
    modifies cache
    ensures cache.Valid()
    ensures var p := ParseQueries(prompt, parsed, cfg.nQueries);
      var flat := Flatten(p.queries, SearchAll(p.queries, cfg.topK, answer, netloc));
      var items := FetchAll(flat, fetch, cfg.perPageChars);
      var ev := Assemble(items, cfg.totalChars);
      && Writes(trace, Successes(items)[..|ev.sources|], old(cache.points), cache.points, now, ttlDays, embed, netloc)
      && resp == Respond(p, |flat|, ev, Hits(SearchStore(cache.points, VectorQuery(p), cfg.topK * 2, embed, nearest)),
                         cfg, now)
  {
    var p := ParseQueriesFromPrompt(prompt, parsed, cfg.nQueries);
    var results := SearchQueries(p.queries, cfg.topK, answer, netloc);
    var flat := FlattenLinks(p.queries, results);
    var ev;
    ev, trace := FetchAndCollect(flat, cfg, fetch, netloc, cache, now, ttlDays, embed);
    var hits := cache.VectorSearch(VectorQuery(p), cfg.topK * 2, embed, nearest);
    resp := Respond(p, |flat|, ev, hits, cfg, now);
  }

  /** `await asyncio.gather(*[searx_top_links(q, TOP_K) for q in queries])`, one query after
      the other. */
  method SearchQueries(qs: seq<string>, k: int, answer: string -> SearchReply, netloc: string -> Option<string>)
    returns (results: seq<seq<Link>>)
    ensures results == SearchAll(qs, k, answer, netloc)
  {
    results := [];
    var i := 0;
    while i < |qs|
      invariant 0 <= i <= |qs|
      invariant results == SearchAll(qs[..i], k, answer, netloc)
    {
      var links := SearxTopLinks(qs[i], k, answer(qs[i]), netloc);
      SearchAllSnoc(qs, i, k, answer, netloc);
      results := results + [links];
      i := i + 1;
    }
    assert qs[..i] == qs;
  }

  lemma SearchAllSnoc(qs: seq<string>, i: nat, k: int, answer: string -> SearchReply, netloc: string -> Option<string>)
    requires i < |qs|
    ensures SearchAll(qs[..i + 1], k, answer, netloc)
         == SearchAll(qs[..i], k, answer, netloc) + [TopLinks(qs[i], k, answer(qs[i]), netloc)]
  {
    var a, b := SearchAll(qs[..i + 1], k, answer, netloc), SearchAll(qs[..i], k, answer, netloc);
    assert forall j :: 0 <= j < i ==> qs[..i + 1][j] == qs[..i][j];
    assert forall j :: 0 <= j < i ==> a[j] == b[j];
  }

  /** The fetches of all flat links and the source/budget loop, which only run when some
      link was found. */
  method FetchAndCollect(flat: seq<FlatLink>, cfg: Config, fetch: string -> Option<PageResponse>,
                         netloc: string -> Option<string>, cache: WebCache, now: int, ttlDays: int,
                         embed: string -> Option<Vector>)
    returns (ev: Evidence, ghost trace: seq<map<string, Point>>)
    requires cache.Valid()
    modifies cache
    ensures cache.Valid()
    ensures var items := FetchAll(flat, fetch, cfg.perPageChars);
      && ev == Assemble(items, cfg.totalChars)
      && Writes(trace, Successes(items)[..|ev.sources|], old(cache.points), cache.points, now, ttlDays, embed, netloc)
  {
    var items := FetchAll(flat, fetch, cfg.perPageChars);
    if flat != [] {
      ev, trace := CollectSources(items, cfg.totalChars, cache, now, ttlDays, embed, netloc);
    } else {
      ev := Evidence([], [], 0);
      trace := [cache.points];
      NoLinksNoSources(items, cfg.totalChars);
    }
  }

  lemma NoLinksNoSources(items: seq<Item>, total: int)
    requires items == []
    ensures Assemble(items, total) == Evidence([], [], 0)
    ensures Successes(items)[..0] == []
  {
  }

  lemma AppendAssoc<T>(a: seq<T>, x: T, b: seq<T>)
    ensures a + ([x] + b) == (a + [x]) + b
  {
  }

  lemma PrefixOf<T>(a: seq<T>, b: seq<T>, c: seq<T>)
    requires a + b == c
    ensures |a| <= |c| && a == c[..|a|]
  {
    assert c[..|a|] == (a + b)[..|a|];
  }

}
