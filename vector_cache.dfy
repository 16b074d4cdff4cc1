/** The semantic web cache (orchestrator/vector_cache.py): sliding-window chunking of page
    text, content-addressed point ids, the freshness test on whole elapsed days, the
    freshness-gated upsert into the store, and the mapping of store hits to cache records.
    The embedding model and the store's nearest-neighbour search are inputs. */
module VectorCache {
  import opened Wrappers
  import opened PyStr

  /** `chunk_text`'s default window size and overlap, as `cache_page` uses them. */
  const DefaultSize := 1000
  const DefaultOverlap := 120
  /** A stripped window shorter than this is dropped. */
  const MinSegment := 200
  /** Snippet length of a cache hit. */
  const SnippetChars := 280
  const SecondsPerDay := 86400
  const CacheStatus := "from_vector_cache"

  // ---------------------------------------------------------------------------------------
  // Chunking

  /** One kept window: its stripped text and the offsets `txt[a:b]` it was cut at. */
  datatype Chunk = Chunk(seg: string, a: nat, b: int)

  /** How `chunk_text` reads the window `[a, b)` of `txt`: `txt[a:b].strip()`. */
  function WindowText(txt: string): (nat, int) -> string {
    (a: nat, b: int) => Strip(PySlice(txt, a, b))
  }

  /** The chunks `chunk_text` emits from the window starting at `i` onwards, for a text of
      length `L` whose window `[a, b)` reads `text(a, b)`: each window `[i, min(L, i + size))`
      whose text has at least `MinSegment` characters, in order, the start advancing by
      `step`. The text is a parameter so that the structure of the loop can be reasoned
      about separately from what stripping does. */
  function Windows(L: nat, size: int, step: int, text: (nat, int) -> string, i: nat): seq<Chunk>
    requires step > 0
    decreases L - i
  {
    if i >= L then []
    else
      var j := Min(L, i + size);
      var seg := text(i, j);
      if |seg| >= MinSegment then [Chunk(seg, i, j)] + Windows(L, size, step, text, i + step)
      else Windows(L, size, step, text, i + step)
  }

  /** Everything `chunk_text(txt, size, overlap)` returns. The loop only ends when the step
      `size - overlap` is positive or there is no text at all. */
  function Chunks(txt: string, size: int, overlap: int): seq<Chunk>
    requires overlap < size || txt == []
  {
    if txt == [] then [] else Windows(|txt|, size, size - overlap, WindowText(txt), 0)
  }

  method ChunkText(txt: string, size: int, overlap: int) returns (out: seq<Chunk>)
    requires overlap < size || txt == []
    ensures out == Chunks(txt, size, overlap)
  {
    out := [];
    if txt != [] {
      out := ChunkLoop(|txt|, size, size - overlap, WindowText(txt));
    }
  }

  /** The loop of `chunk_text` over a text of length `L` whose window `[i, j)` reads
      `text(i, j)`. */
  method ChunkLoop(L: nat, size: int, step: int, text: (nat, int) -> string) returns (out: seq<Chunk>)
    requires step > 0
    ensures out == Windows(L, size, step, text, 0)
  {
    out := [];
    var i: nat := 0;
    ghost var rounds: nat := 0;
    while i < L
      invariant out + Windows(L, size, step, text, i) == Windows(L, size, step, text, 0)
      invariant i == StartAfter(step, rounds)
      decreases L - i
    {
      var j := Min(L, i + size);
      var seg := text(i, j);
      WindowsStep(L, size, step, text, i, out);
      if |seg| >= MinSegment {
        out := out + [Chunk(seg, i, j)];
      }
      i := i + step;
      rounds := rounds + 1;
    }
    assert out + [] == out;
  }

  /** One turn of the `chunk_text` loop: the window at `i` is kept or dropped, and the rest
      starts one step later. */
  lemma WindowsStep(L: nat, size: int, step: int, text: (nat, int) -> string, i: nat, out: seq<Chunk>)
    requires step > 0 && i < L
    ensures var j := Min(L, i + size);
      out + Windows(L, size, step, text, i)
      == (if |text(i, j)| >= MinSegment then out + [Chunk(text(i, j), i, j)] else out)
         + Windows(L, size, step, text, i + step)
  {
    var j := Min(L, i + size);
    var rest := Windows(L, size, step, text, i + step);
    if |text(i, j)| >= MinSegment {
      assert out + ([Chunk(text(i, j), i, j)] + rest) == (out + [Chunk(text(i, j), i, j)]) + rest;
    }
  }

  /** A window of the kind `Windows` keeps: a start that is a multiple of the step and inside
      the text, the end `min(L, a + size)`, and at least `MinSegment` characters of text. */
  predicate IsWindowOf(L: nat, size: int, step: int, text: (nat, int) -> string, c: Chunk)
    requires step > 0
  {
    && c.a % step == 0
    && c.a < L
    && c.b == Min(L, c.a + size)
    && c.seg == text(c.a, c.b)
    && |c.seg| >= MinSegment
  }

  /** What it takes to be a chunk of `txt`: the stripped window `txt[a:min(L, a + size)]`
      at a start `a` that is a multiple of the step and inside the text, with at least
      `MinSegment` characters. */
  predicate IsChunkOf(txt: string, size: int, step: int, c: Chunk)
    requires step > 0
  {
    && c.a % step == 0
    && c.a < |txt|
    && c.b == Min(|txt|, c.a + size)
    && c.seg == Strip(PySlice(txt, c.a, c.b))
    && |c.seg| >= MinSegment
  }

  lemma MulMono(s: int, x: int, y: int)
    requires s > 0 && x <= y
    ensures s * x <= s * y
  {
  }

  lemma ModShift(x: int, step: int)
    requires step > 0
    ensures (x + step) % step == x % step
  {
    var q, r := x / step, x % step;
    var q2, r2 := (x + step) / step, (x + step) % step;
    assert step * q2 + r2 == step * (q + 1) + r;
    var d := q2 - q - 1;
    assert step * d == r - r2 by {
      assert step * q2 == step * (q + 1) + step * d;
    }
    if d >= 1 { MulMono(step, 1, d); }
    if d <= -1 { MulMono(step, d, -1); }
  }

  lemma MultiplesApart(i: nat, a: nat, step: int)
    requires step > 0 && i % step == 0 && a % step == 0 && i < a
    ensures i + step <= a
  {
    var k, m := i / step, a / step;
    assert i == step * k && a == step * m;
    if m <= k {
      MulMono(step, m, k);
      assert false;
    }
    MulMono(step, k + 1, m);
  }

  lemma {:induction false} WindowsMembers(L: nat, size: int, step: int, text: (nat, int) -> string, i: nat, c: Chunk)
    requires step > 0 && i % step == 0
    decreases L - i
    ensures c in Windows(L, size, step, text, i) <==> (IsWindowOf(L, size, step, text, c) && i <= c.a)
  {
    if i < L {
      ModShift(i, step);
      WindowsMembers(L, size, step, text, i + step, c);
      if IsWindowOf(L, size, step, text, c) && i < c.a {
        MultiplesApart(i, c.a, step);
      }
    }
  }

  /** A chunk is exactly a window of the kind `IsChunkOf` describes: every chunk is one, and
      every such window is kept. */
  lemma ChunkMembers(txt: string, size: int, overlap: int, c: Chunk)
    requires overlap < size
    ensures c in Chunks(txt, size, overlap) <==> IsChunkOf(txt, size, size - overlap, c)
  {
    if txt != [] {
      WindowsMembers(|txt|, size, size - overlap, WindowText(txt), 0, c);
      assert WindowText(txt)(c.a, c.b) == Strip(PySlice(txt, c.a, c.b));
    }
  }

  /** For a positive window size the offsets of every chunk satisfy `0 <= a < b <= L`, and the
      kept text is `txt[a:b]` with the whitespace at both ends removed, so
      `200 <= len(seg) <= b - a`. */
  lemma ChunkBounds(txt: string, size: int, overlap: int, c: Chunk)
    requires 0 < size && overlap < size
    requires c in Chunks(txt, size, overlap)
    ensures c.a % (size - overlap) == 0
    ensures 0 <= c.a < c.b <= |txt| && c.b == Min(|txt|, c.a + size)
    ensures MinSegment <= |c.seg| <= c.b - c.a
    ensures c.seg == Strip(txt[c.a..c.b])
  {
    ChunkMembers(txt, size, overlap, c);
  }

  lemma {:induction false} WindowsStartAt(L: nat, size: int, step: int, text: (nat, int) -> string, i: nat)
    requires step > 0
    decreases L - i
    ensures forall c :: c in Windows(L, size, step, text, i) ==> i <= c.a
  {
    if i < L {
      WindowsStartAt(L, size, step, text, i + step);
    }
  }

  predicate StartsIncrease(r: seq<Chunk>) {
    forall p, q :: 0 <= p < q < |r| ==> r[p].a < r[q].a
  }

  lemma {:induction false} WindowsIncreasing(L: nat, size: int, step: int, text: (nat, int) -> string, i: nat)
    requires step > 0
    decreases L - i
    ensures StartsIncrease(Windows(L, size, step, text, i))
  {
    if i < L {
      WindowsIncreasing(L, size, step, text, i + step);
      WindowsStartAt(L, size, step, text, i + step);
      var rest := Windows(L, size, step, text, i + step);
      var r := Windows(L, size, step, text, i);
      var j := Min(L, i + size);
      if |text(i, j)| >= MinSegment {
        assert r == [Chunk(text(i, j), i, j)] + rest;
        forall p, q | 0 <= p < q < |r| ensures r[p].a < r[q].a {
          assert r[q] == rest[q - 1] && rest[q - 1] in rest;
          if p > 0 {
            assert r[p] == rest[p - 1];
          }
        }
      }
    }
  }

  /** Chunk start offsets strictly increase. */
  lemma ChunkStartsIncrease(txt: string, size: int, overlap: int)
    requires overlap < size || txt == []
    ensures StartsIncrease(Chunks(txt, size, overlap))
  {
    if txt != [] {
      WindowsIncreasing(|txt|, size, size - overlap, WindowText(txt), 0);
    }
  }

  /** The loop variable `i` of `chunk_text` after `n` rounds of `i += step`; `ChunkLoop`
      keeps `i == StartAfter(step, rounds)` as an invariant. */
  function StartAfter(step: int, n: nat): int {
    if n == 0 then 0 else StartAfter(step, n - 1) + step
  }

  /** As written, `chunk_text` never ends on a non-empty text when `overlap >= size`: the
      loop test `i < len(txt)` still holds after any number of rounds. */
  lemma {:induction false} NoProgressWithoutStep(txt: string, size: int, overlap: int, n: nat)
    requires txt != [] && overlap >= size
    ensures StartAfter(size - overlap, n) <= 0 < |txt|
  {
    if n > 0 {
      NoProgressWithoutStep(txt, size, overlap, n - 1);
    }
  }

  /** With a positive step the start has passed `n` after `n` rounds, so the loop over a
      text of length `L` ends within `L` rounds. */
  lemma {:induction false} StepReachesEnd(step: int, n: nat)
    requires step > 0
    ensures StartAfter(step, n) >= n
  {
    if n > 0 {
      StepReachesEnd(step, n - 1);
    }
  }

  /** Text shorter than the minimum segment has no chunks at all. */
  lemma ShortTextHasNoChunks(txt: string, size: int, overlap: int)
    requires overlap < size || txt == []
    requires |txt| < MinSegment
    ensures Chunks(txt, size, overlap) == []
  {
    var r := Chunks(txt, size, overlap);
    if r != [] {
      assert r[0] in r;
      ChunkMembers(txt, size, overlap, r[0]);
      assert false;
    }
  }

  /** `chunk_text("short text") == []`. */
  lemma ShortTextExample()
    ensures Chunks("short text", DefaultSize, DefaultOverlap) == []
  {
    ShortTextHasNoChunks("short text", DefaultSize, DefaultOverlap);
  }

  lemma RepeatSlice(c: char, n: nat, i: nat, j: nat)
    requires i < j <= n
    ensures PySlice(Repeat(c, n), i, j) == Repeat(c, j - i)
  {
  }

  lemma StripRepeated(c: char, n: nat)
    requires !IsSpace(c) && n > 0
    ensures Strip(Repeat(c, n)) == Repeat(c, n)
  {
    StripUnchanged(Repeat(c, n));
  }

  /** 2500 characters, windows of 1000 with an overlap of 100: three chunks at
      `(0, 1000)`, `(900, 1900)` and `(1800, 2500)` with 1000, 1000 and 700 characters. */
  lemma OverlapExample()
    ensures Chunks(Repeat('x', 2500), 1000, 100)
         == [Chunk(Repeat('x', 1000), 0, 1000), Chunk(Repeat('x', 1000), 900, 1900),
             Chunk(Repeat('x', 700), 1800, 2500)]
  {
    var t := Repeat('x', 2500);
    RepeatSlice('x', 2500, 0, 1000);
    RepeatSlice('x', 2500, 900, 1900);
    RepeatSlice('x', 2500, 1800, 2500);
    StripRepeated('x', 1000);
    StripRepeated('x', 700);
    var text := WindowText(t);
    assert text(0, 1000) == Repeat('x', 1000);
    assert text(900, 1900) == Repeat('x', 1000);
    assert text(1800, 2500) == Repeat('x', 700);
    assert Windows(2500, 1000, 900, text, 2700) == [];
    assert Windows(2500, 1000, 900, text, 1800) == [Chunk(Repeat('x', 700), 1800, 2500)];
    assert Windows(2500, 1000, 900, text, 900)
        == [Chunk(Repeat('x', 1000), 900, 1900), Chunk(Repeat('x', 700), 1800, 2500)];
  }

  // ---------------------------------------------------------------------------------------
  // Points: content-addressed ids and payloads

  type Vector = seq<real>

  /** What `cache_page` stores with each chunk. A missing or empty `fetched_at` is `None`;
      timestamps are whole seconds. */
  datatype Payload = Payload(
    url: string, title: Option<string>, site: string, chunk: nat, a: nat, b: int,
    text: string, fetchedAt: Option<int>)

  datatype Point = Point(id: string, vector: Vector, payload: Payload)

  /** `f"{url_norm}|{idx}|{a}|{b}"`. */
  function PointId(url: string, idx: nat, a: nat, b: int): string {
    url + "|" + Decimal(idx) + "|" + Decimal(a) + "|" + IntStr(b)
  }

  /** The id a payload is stored under. */
  function IdOf(p: Payload): string {
    PointId(p.url, p.chunk, p.a, p.b)
  }

  /** Reads a decimal field of a point id; the sign is only allowed where `IntStr` puts one. */
  function ParseNat(s: string): Option<nat> {
    if s != [] && AllDigits(s) then Some(ParseDecimal(s)) else None
  }

  function ParseInt(s: string): Option<int> {
    if s != [] && s[0] == '-' then
      match ParseNat(s[1..])
      case Some(n) => if n > 0 then Some(0 - n) else None
      case None => None
    else ParseNat(s)
  }

  /** Splits an id back into url, chunk index and offsets by cutting at the last three `|`. */
  function ParsePointId(id: string): Option<(string, nat, nat, int)> {
    match SplitLast(id, '|')
    case None => None
    case Some((rest, bs)) =>
      match ParseInt(bs)
      case None => None
      case Some(b) => ParseHead(rest, b)
  }

  function ParseHead(s: string, b: int): Option<(string, nat, nat, int)> {
    match SplitLast(s, '|')
    case None => None
    case Some((rest, as_)) =>
      match ParseNat(as_)
      case None => None
      case Some(a) => ParseUrl(rest, a, b)
  }

  function ParseUrl(s: string, a: nat, b: int): Option<(string, nat, nat, int)> {
    match SplitLast(s, '|')
    case None => None
    case Some((u, is_)) =>
      match ParseNat(is_)
      case None => None
      case Some(i) => Some((u, i, a, b))
  }

  lemma ParseNatDecimal(n: nat)
    ensures ParseNat(Decimal(n)) == Some(n)
  {
    DecimalRoundTrip(n);
  }

  lemma ParseIntStr(n: int)
    ensures ParseInt(IntStr(n)) == Some(n)
  {
    if n >= 0 {
      ParseNatDecimal(n);
      assert Decimal(n)[0] != '-';
    } else {
      var d := Decimal(-n);
      assert IntStr(n)[1..] == d;
      ParseNatDecimal(-n);
    }
  }

  lemma IntStrNoBar(n: int)
    ensures '|' !in IntStr(n)
  {
    DigitsExclude(Decimal(if n >= 0 then n else -n), '|');
    if n < 0 {
      assert IntStr(n) == "-" + Decimal(-n);
    }
  }

  lemma ParseUrlOf(url: string, idx: nat, a: nat, b: int)
    ensures ParseUrl(url + "|" + Decimal(idx), a, b) == Some((url, idx, a, b))
  {
    DigitsExclude(Decimal(idx), '|');
    SplitLastAppend(url, '|', Decimal(idx));
    ParseNatDecimal(idx);
  }

  lemma ParseHeadOf(url: string, idx: nat, a: nat, b: int)
    ensures ParseHead(url + "|" + Decimal(idx) + "|" + Decimal(a), b) == Some((url, idx, a, b))
  {
    DigitsExclude(Decimal(a), '|');
    SplitLastAppend(url + "|" + Decimal(idx), '|', Decimal(a));
    ParseNatDecimal(a);
    ParseUrlOf(url, idx, a, b);
  }

  /** The id a chunk is stored under can be read back: the url may itself contain `|`,
      since only the last three separators are cut at. */
  lemma PointIdRoundTrip(url: string, idx: nat, a: nat, b: int)
    ensures ParsePointId(PointId(url, idx, a, b)) == Some((url, idx, a, b))
  {
    IntStrNoBar(b);
    SplitLastAppend(url + "|" + Decimal(idx) + "|" + Decimal(a), '|', IntStr(b));
    ParseIntStr(b);
    ParseHeadOf(url, idx, a, b);
  }

  /** Different chunks get different ids. */
  lemma PointIdInjective(u1: string, i1: nat, a1: nat, b1: int, u2: string, i2: nat, a2: nat, b2: int)
    requires PointId(u1, i1, a1, b1) == PointId(u2, i2, a2, b2)
    ensures u1 == u2 && i1 == i2 && a1 == a2 && b1 == b2
  {
    PointIdRoundTrip(u1, i1, a1, b1);
    PointIdRoundTrip(u2, i2, a2, b2);
  }

  /** The point `cache_page` builds for the `idx`-th chunk of a page. */
  function MakePoint(url: string, title: Option<string>, site: string, fetchedAt: Option<int>,
                     idx: nat, c: Chunk, v: Vector): Point
  {
    var p := Payload(url, title, site, idx, c.a, c.b, c.seg, fetchedAt);
    Point(IdOf(p), v, p)
  }

  /** The points of a page, one per chunk in chunk order, or None when encoding some chunk
      raises (then nothing is written). */
  function PagePoints(url: string, title: Option<string>, site: string, fetchedAt: Option<int>,
                      chunks: seq<Chunk>, embed: string -> Option<Vector>): Option<seq<Point>>
  {
    if chunks == [] then Some([])
    else
      var n := |chunks| - 1;
      match PagePoints(url, title, site, fetchedAt, chunks[..n], embed)
      case None => None
      case Some(pts) =>
        match embed(chunks[n].seg)
        case None => None
        case Some(v) => Some(pts + [MakePoint(url, title, site, fetchedAt, n, chunks[n], v)])
  }

  /** The point for the `k`-th chunk `c` of a page: payload with the page's url, title,
      site and fetch time, the chunk's text and offsets, stored under id `url|k|a|b`. */
  predicate PointFor(p: Point, url: string, title: Option<string>, site: string,
                     fetchedAt: Option<int>, k: nat, c: Chunk)
  {
    && p.id == PointId(url, k, c.a, c.b)
    && p.payload == Payload(url, title, site, k, c.a, c.b, c.seg, fetchedAt)
  }

  /** Point `k` of a batch is the point for chunk `k`, for every `k`. */
  predicate PointsFor(pts: seq<Point>, url: string, title: Option<string>, site: string,
                      fetchedAt: Option<int>, chunks: seq<Chunk>)
  {
    && |pts| == |chunks|
    && forall k :: 0 <= k < |pts| ==> PointFor(pts[k], url, title, site, fetchedAt, k, chunks[k])
  }

  lemma PointsForAppend(pts: seq<Point>, url: string, title: Option<string>, site: string,
                        fetchedAt: Option<int>, chunks: seq<Chunk>, p: Point, c: Chunk)
    requires PointsFor(pts, url, title, site, fetchedAt, chunks)
    requires PointFor(p, url, title, site, fetchedAt, |chunks|, c)
    ensures PointsFor(pts + [p], url, title, site, fetchedAt, chunks + [c])
  {
    var r, cs := pts + [p], chunks + [c];
    forall k | 0 <= k < |r| ensures PointFor(r[k], url, title, site, fetchedAt, k, cs[k]) {
      if k < |pts| {
        assert r[k] == pts[k] && cs[k] == chunks[k];
      }
    }
  }

  /** Each point of a page has the id `url|idx|a|b` with `idx` dense from 0, and all of them
      share the url, title, site and fetch time. */
  lemma {:induction false} PagePointsShape(url: string, title: Option<string>, site: string,
                                           fetchedAt: Option<int>, chunks: seq<Chunk>,
                                           embed: string -> Option<Vector>)
    requires PagePoints(url, title, site, fetchedAt, chunks, embed).Some?
    ensures PointsFor(PagePoints(url, title, site, fetchedAt, chunks, embed).value, url, title, site, fetchedAt, chunks)
  {
    if chunks != [] {
      var n := |chunks| - 1;
      var init := chunks[..n];
      PagePointsShape(url, title, site, fetchedAt, init, embed);
      var prev := PagePoints(url, title, site, fetchedAt, init, embed).value;
      var p := MakePoint(url, title, site, fetchedAt, n, chunks[n], embed(chunks[n].seg).value);
      PointsForAppend(prev, url, title, site, fetchedAt, init, p, chunks[n]);
      assert init + [chunks[n]] == chunks;
    }
  }

  /** Encoding fails for the page exactly when it fails for one of its chunks. */
  lemma {:induction false} PagePointsFail(url: string, title: Option<string>, site: string,
                                          fetchedAt: Option<int>, chunks: seq<Chunk>,
                                          embed: string -> Option<Vector>)
    ensures PagePoints(url, title, site, fetchedAt, chunks, embed).None?
        <==> exists k :: 0 <= k < |chunks| && embed(chunks[k].seg).None?
  {
    if chunks != [] {
      var n := |chunks| - 1;
      PagePointsFail(url, title, site, fetchedAt, chunks[..n], embed);
      if embed(chunks[n].seg).None? {
        assert 0 <= n < |chunks| && embed(chunks[n].seg).None?;
      }
      if exists k :: 0 <= k < |chunks| && embed(chunks[k].seg).None? {
        var k :| 0 <= k < |chunks| && embed(chunks[k].seg).None?;
        if k < n {
          assert chunks[..n][k] == chunks[k];
        }
      }
    }
  }

  predicate DistinctIds(pts: seq<Point>) {
    forall p, q :: 0 <= p < q < |pts| ==> pts[p].id != pts[q].id
  }

  /** The points of one page never share an id, so every chunk gets its own point. */
  lemma PagePointsDistinct(url: string, title: Option<string>, site: string,
                           fetchedAt: Option<int>, chunks: seq<Chunk>,
                           embed: string -> Option<Vector>)
    requires PagePoints(url, title, site, fetchedAt, chunks, embed).Some?
    ensures DistinctIds(PagePoints(url, title, site, fetchedAt, chunks, embed).value)
  {
    var pts := PagePoints(url, title, site, fetchedAt, chunks, embed).value;
    PagePointsShape(url, title, site, fetchedAt, chunks, embed);
    forall p, q | 0 <= p < q < |pts| ensures pts[p].id != pts[q].id {
      if pts[p].id == pts[q].id {
        PointIdInjective(url, p, chunks[p].a, chunks[p].b, url, q, chunks[q].a, chunks[q].b);
      }
    }
  }

  /** The ids written for a page depend only on its url and text: caching the same text again
      (even with another title, site, fetch time or encoder) addresses the same points. */
  lemma SameTextSameIds(url: string, text: string, t1: Option<string>, s1: string, f1: Option<int>,
                        e1: string -> Option<Vector>, t2: Option<string>, s2: string,
                        f2: Option<int>, e2: string -> Option<Vector>)
    requires PagePoints(url, t1, s1, f1, Chunks(text, DefaultSize, DefaultOverlap), e1).Some?
    requires PagePoints(url, t2, s2, f2, Chunks(text, DefaultSize, DefaultOverlap), e2).Some?
    ensures var p1 := PagePoints(url, t1, s1, f1, Chunks(text, DefaultSize, DefaultOverlap), e1).value;
      var p2 := PagePoints(url, t2, s2, f2, Chunks(text, DefaultSize, DefaultOverlap), e2).value;
      |p1| == |p2| && forall k :: 0 <= k < |p1| ==> p1[k].id == p2[k].id
  {
    var cs := Chunks(text, DefaultSize, DefaultOverlap);
    PagePointsShape(url, t1, s1, f1, cs, e1);
    PagePointsShape(url, t2, s2, f2, cs, e2);
  }

  // ---------------------------------------------------------------------------------------
  // The store

  /** `upsert`: each point overwrites whatever was stored under its id, in batch order. */
  function Upsert(m: map<string, Point>, pts: seq<Point>): map<string, Point>
    decreases |pts|
  {
    if pts == [] then m else Upsert(m[pts[0].id := pts[0]], pts[1..])
  }

  function Ids(pts: seq<Point>): set<string> {
    set p | p in pts :: p.id
  }

  /** An upsert is a right-biased union with the batch on its own. */
  lemma {:induction false} UpsertIsUnion(m: map<string, Point>, pts: seq<Point>)
    decreases |pts|
    ensures Upsert(m, pts) == m + Upsert(map[], pts)
  {
    if pts != [] {
      var p := pts[0];
      UpsertIsUnion(m[p.id := p], pts[1..]);
      UpsertIsUnion(map[p.id := p], pts[1..]);
      var b := Upsert(map[], pts[1..]);
      assert m[p.id := p] + b == m + (map[p.id := p] + b);
    }
  }

  lemma {:induction false} BatchKeys(pts: seq<Point>)
    decreases |pts|
    ensures Upsert(map[], pts).Keys == Ids(pts)
    ensures forall id :: id in Upsert(map[], pts) ==> Upsert(map[], pts)[id].id == id
  {
    if pts != [] {
      var p := pts[0];
      BatchKeys(pts[1..]);
      UpsertIsUnion(map[p.id := p], pts[1..]);
      assert Ids(pts) == {p.id} + Ids(pts[1..]) by {
        forall x | x in Ids(pts) ensures x in {p.id} + Ids(pts[1..]) {
          var q :| q in pts && q.id == x;
          if q != p {
            assert q in pts[1..];
          }
        }
      }
    }
  }

  /** The keys after an upsert are the old keys and the batch's ids; entries whose id is not
      in the batch are untouched. */
  lemma UpsertFrame(m: map<string, Point>, pts: seq<Point>)
    ensures Upsert(m, pts).Keys == m.Keys + Ids(pts)
    ensures forall id :: id in m && id !in Ids(pts) ==> Upsert(m, pts)[id] == m[id]
  {
    UpsertIsUnion(m, pts);
    BatchKeys(pts);
  }

  /** Writing the same batch twice leaves the store as writing it once. */
  lemma UpsertIdempotent(m: map<string, Point>, pts: seq<Point>)
    ensures Upsert(Upsert(m, pts), pts) == Upsert(m, pts)
  {
    UpsertIsUnion(m, pts);
    UpsertIsUnion(Upsert(m, pts), pts);
    var b := Upsert(map[], pts);
    assert (m + b) + b == m + b;
  }

  /** With distinct ids every point of the batch is stored as it is. */
  lemma {:induction false} UpsertStoresAll(m: map<string, Point>, pts: seq<Point>)
    requires DistinctIds(pts)
    decreases |pts|
    ensures forall k :: 0 <= k < |pts| ==> pts[k].id in Upsert(m, pts) && Upsert(m, pts)[pts[k].id] == pts[k]
  {
    if pts != [] {
      var p := pts[0];
      var rest := pts[1..];
      assert DistinctIds(rest) by {
        forall x, y | 0 <= x < y < |rest| ensures rest[x].id != rest[y].id {
          assert rest[x] == pts[x + 1] && rest[y] == pts[y + 1];
        }
      }
      UpsertStoresAll(m[p.id := p], rest);
      UpsertFrame(m[p.id := p], rest);
      forall k | 0 <= k < |pts| ensures pts[k].id in Upsert(m, pts) && Upsert(m, pts)[pts[k].id] == pts[k] {
        if k > 0 {
          assert pts[k] == rest[k - 1];
        } else {
          assert p.id !in Ids(rest);
        }
      }
    }
  }

  /** Every point is stored under its own id, and that id is its payload's content address. */
  ghost predicate ValidStore(m: map<string, Point>) {
    forall id :: id in m ==> m[id].id == id && id == IdOf(m[id].payload)
  }

  /** Upserting content-addressed points keeps the store content-addressed. */
  lemma UpsertKeepsValid(m: map<string, Point>, pts: seq<Point>)
    requires ValidStore(m)
    requires forall p :: p in pts ==> p.id == IdOf(p.payload)
    ensures ValidStore(Upsert(m, pts))
  {
    UpsertIsUnion(m, pts);
    BatchKeys(pts);
    var b := Upsert(map[], pts);
    forall id | id in b ensures id == IdOf(b[id].payload) {
      BatchMember(pts, id);
    }
  }

  lemma {:induction false} BatchMember(pts: seq<Point>, id: string)
    requires id in Upsert(map[], pts)
    decreases |pts|
    ensures Upsert(map[], pts)[id] in pts
  {
    var p := pts[0];
    UpsertIsUnion(map[p.id := p], pts[1..]);
    var b := Upsert(map[], pts[1..]);
    if id in b {
      BatchMember(pts[1..], id);
    }
  }

  // ---------------------------------------------------------------------------------------
  // Freshness

  /** `timedelta.days`: whole days elapsed, rounded down (Dafny's `/` floors for a positive
      divisor, as Python's day normalisation does). */
  function ElapsedDays(now: int, t: int): int {
    (now - t) / SecondsPerDay
  }

  /** The freshness test on the first stored payload of a url. */
  predicate Fresh(first: Option<Payload>, now: int, ttlDays: int) {
    && first.Some?
    && first.value.fetchedAt.Some?
    && ElapsedDays(now, first.value.fetchedAt.value) < ttlDays
  }

  /** Stated in seconds: fresh exactly when there is a payload with a fetch time and fewer
      than `ttlDays * 86400` seconds have passed since it. */
  lemma FreshInSeconds(first: Option<Payload>, now: int, ttlDays: int)
    ensures Fresh(first, now, ttlDays)
        <==> first.Some? && first.value.fetchedAt.Some?
             && now - first.value.fetchedAt.value < ttlDays * SecondsPerDay
  {
    if first.Some? && first.value.fetchedAt.Some? {
      var e := now - first.value.fetchedAt.value;
      var d, r := e / SecondsPerDay, e % SecondsPerDay;
      assert e == SecondsPerDay * d + r && 0 <= r < SecondsPerDay;
      if d < ttlDays {
        assert SecondsPerDay * d <= SecondsPerDay * (ttlDays - 1);
      } else {
        assert SecondsPerDay * d >= SecondsPerDay * ttlDays;
      }
    }
  }

  /** A page fetched just now is fresh for any positive TTL. */
  lemma JustFetchedIsFresh(p: Payload, now: int, ttlDays: int)
    requires p.fetchedAt == Some(now) && ttlDays > 0
    ensures Fresh(Some(p), now, ttlDays)
  {
  }

  /** Freshness can only be lost as time goes on. */
  lemma FreshEarlier(first: Option<Payload>, t1: int, t2: int, ttlDays: int)
    requires t1 <= t2 && Fresh(first, t2, ttlDays)
    ensures Fresh(first, t1, ttlDays)
  {
    FreshInSeconds(first, t1, ttlDays);
    FreshInSeconds(first, t2, ttlDays);
  }

  /** Some stored payload of `url`: what `scroll(..., limit=1)` returns first. */
  ghost predicate FirstOf(points: map<string, Point>, url: string, first: Option<Payload>) {
    && (first.None? <==> forall id :: id in points ==> points[id].payload.url != url)
    && (first.Some? ==> first.value.url == url
                        && exists id :: id in points && points[id].payload == first.value)
  }

  datatype CacheOutcome = AlreadyFresh | EncodeFailed | Stored(count: nat)

  // ---------------------------------------------------------------------------------------
  // Hits

  /** A stored point the nearest-neighbour search returned, with its similarity score. */
  datatype ScoredPoint = ScoredPoint(payload: Payload, score: int)

  /** The record `vector_search` returns for one hit. */
  datatype CacheHit = CacheHit(
    id: string, title: string, url: string, domain: string, snippet: string, score: int,
    characterCount: nat, status: string)

  /** `p.get("title") or p.get("site")`. */
  function TitleOrSite(p: Payload): string {
    if p.title.Some? && p.title.value != [] then p.title.value else p.site
  }

  function HitOf(r: ScoredPoint, n: nat): CacheHit {
    var p := r.payload;
    CacheHit("V" + Decimal(n), TitleOrSite(p), p.url, p.site, PyTake(p.text, SnippetChars),
             r.score, |p.text|, CacheStatus)
  }

  /** The hit list for the store's answer, numbered from 1 in answer order. */
  function HitList(rs: seq<ScoredPoint>): seq<CacheHit> {
    seq(|rs|, k requires 0 <= k < |rs| => HitOf(rs[k], k + 1))
  }

  /** `vector_search`: None stands for any error (encoder or store), which yields no hits. */
  function Hits(res: Option<seq<ScoredPoint>>): seq<CacheHit> {
    match res
    case None => []
    case Some(rs) => HitList(rs)
  }

  /** The query is encoded, then the store is asked for its `k` nearest points. */
  function SearchStore(points: map<string, Point>, q: string, k: int, embed: string -> Option<Vector>,
                       nearest: (map<string, Point>, Vector, int) -> Option<seq<ScoredPoint>>)
    : Option<seq<ScoredPoint>>
  {
    match embed(q)
    case None => None
    case Some(v) => nearest(points, v, k)
  }

  /** Hits keep the store's order and are numbered `V1..Vn`; each snippet is the first (at most)
      280 characters of the chunk text, the character count is the full text length, and the
      status marks the hit as cached. */
  lemma HitsShape(rs: seq<ScoredPoint>)
    ensures var hs := Hits(Some(rs));
      && |hs| == |rs|
      && forall k :: 0 <= k < |hs| ==>
           && hs[k].id == "V" + Decimal(k + 1)
           && hs[k].url == rs[k].payload.url && hs[k].score == rs[k].score
           && hs[k].snippet <= rs[k].payload.text
           && |hs[k].snippet| == Min(SnippetChars, |rs[k].payload.text|)
           && hs[k].characterCount == |rs[k].payload.text|
           && hs[k].status == CacheStatus
  {
  }

  /** No two hits share an id. */
  lemma HitIdsDistinct(rs: seq<ScoredPoint>)
    ensures var hs := Hits(Some(rs));
      forall p, q :: 0 <= p < q < |hs| ==> hs[p].id != hs[q].id
  {
    var hs := Hits(Some(rs));
    forall p, q | 0 <= p < q < |hs| ensures hs[p].id != hs[q].id {
      if hs[p].id == hs[q].id {
        assert hs[p].id[1..] == Decimal(p + 1);
        assert hs[q].id[1..] == Decimal(q + 1);
        DecimalInjective(p + 1, q + 1);
      }
    }
  }

  /** Any error yields no hits. */
  lemma HitsOnError()
    ensures Hits(None) == []
  {
  }

  /** The loop of `cache_page` that encodes each chunk and builds its point; an encoder error
      ends it with nothing built. */
  method BuildPoints(urlNorm: string, title: Option<string>, site: string, fetchedAt: Option<int>,
                     chunks: seq<Chunk>, embed: string -> Option<Vector>)
    returns (built: Option<seq<Point>>)
    ensures built == PagePoints(urlNorm, title, site, fetchedAt, chunks, embed)
  {
    var pts: seq<Point> := [];
    var idx := 0;
    while idx < |chunks|
      invariant 0 <= idx <= |chunks|
      invariant PagePoints(urlNorm, title, site, fetchedAt, chunks[..idx], embed) == Some(pts)
    {
      var c := chunks[idx];
      var vec := embed(c.seg);
      if vec.None? {
        PagePointsFail(urlNorm, title, site, fetchedAt, chunks, embed);
        return None;
      }
      PagePointsSnoc(urlNorm, title, site, fetchedAt, chunks, embed, idx, pts);
      var payload := Payload(urlNorm, title, site, idx, c.a, c.b, c.seg, fetchedAt);
      pts := pts + [Point(PointId(urlNorm, idx, c.a, c.b), vec.value, payload)];
      idx := idx + 1;
    }
    assert chunks[..idx] == chunks;
    built := Some(pts);
  }

  lemma PagePointsSnoc(url: string, title: Option<string>, site: string, fetchedAt: Option<int>,
                       chunks: seq<Chunk>, embed: string -> Option<Vector>, idx: nat, pts: seq<Point>)
    requires idx < |chunks| && embed(chunks[idx].seg).Some?
    requires PagePoints(url, title, site, fetchedAt, chunks[..idx], embed) == Some(pts)
    ensures PagePoints(url, title, site, fetchedAt, chunks[..idx + 1], embed)
         == Some(pts + [MakePoint(url, title, site, fetchedAt, idx, chunks[idx], embed(chunks[idx].seg).value)])
  {
    assert chunks[..idx + 1][..idx] == chunks[..idx];
  }

  /** Every point of a page is stored under the content address of its payload. */
  lemma BuildPointsValid(url: string, title: Option<string>, site: string, fetchedAt: Option<int>,
                         chunks: seq<Chunk>, embed: string -> Option<Vector>)
    requires PagePoints(url, title, site, fetchedAt, chunks, embed).Some?
    ensures forall p :: p in PagePoints(url, title, site, fetchedAt, chunks, embed).value ==> p.id == IdOf(p.payload)
  {
    PagePointsShape(url, title, site, fetchedAt, chunks, embed);
  }

  // ---------------------------------------------------------------------------------------
  // The cache as an object over the store

  /** The web-cache collection: points by id. Every point is stored under its own id, and
      that id is the content address of its payload. */
  class WebCache {
    var points: map<string, Point>

    ghost predicate Valid()
      reads this
    {
      ValidStore(points)
    }

    constructor()
      ensures points == map[] && Valid()
    {
      points := map[];
    }

    /** `scroll(filter url == url_norm, limit=1)`: some point of the url, if any. Which one
        the store returns first is not specified. */
    method FirstFor(urlNorm: string) returns (first: Option<Payload>)
      ensures FirstOf(points, urlNorm, first)
    {
      if id :| id in points && points[id].payload.url == urlNorm {
        first := Some(points[id].payload);
      } else {
        first := None;
      }
    }

    /** `is_fresh(url_norm)`. */
    method IsFresh(urlNorm: string, now: int, ttlDays: int) returns (current: bool, ghost first: Option<Payload>)
      ensures FirstOf(points, urlNorm, first) && current == Fresh(first, now, ttlDays)
    {
      var found := FirstFor(urlNorm);
      first := found;
      current := found.Some? && found.value.fetchedAt.Some?
                 && (now - found.value.fetchedAt.value) / SecondsPerDay < ttlDays;
    }

    /** `cache_page`: nothing is written when the url is still fresh or when encoding a chunk
        raises; otherwise one point per chunk of the text is upserted. */
    method CachePage(urlNorm: string, text: string, title: Option<string>, site: string,
                     fetchedAt: Option<int>, now: int, ttlDays: int,
                     embed: string -> Option<Vector>)
      returns (outcome: CacheOutcome, ghost first: Option<Payload>)
      requires Valid()
      modifies this
      ensures Valid()
      ensures FirstOf(old(points), urlNorm, first)
      ensures outcome.AlreadyFresh? <==> Fresh(first, now, ttlDays)
      ensures outcome.AlreadyFresh? ==> points == old(points)
      ensures var pts := PagePoints(urlNorm, title, site, fetchedAt, Chunks(text, DefaultSize, DefaultOverlap), embed);
        && (outcome.EncodeFailed? <==> !outcome.AlreadyFresh? && pts.None?)
        && (outcome.EncodeFailed? ==> points == old(points))
        && (outcome.Stored? ==> outcome.count == |pts.value| && points == Upsert(old(points), pts.value))
    {
      var current;
      current, first := IsFresh(urlNorm, now, ttlDays);
      if current {
        return AlreadyFresh, first;
      }
      var chunks := ChunkText(text, DefaultSize, DefaultOverlap);
      var built := BuildPoints(urlNorm, title, site, fetchedAt, chunks, embed);
      if built.None? {
        return EncodeFailed, first;
      }
      var pts := built.value;
      if pts != [] {
        BuildPointsValid(urlNorm, title, site, fetchedAt, chunks, embed);
        UpsertKeepsValid(points, pts);
        points := Upsert(points, pts);
      }
      outcome := Stored(|pts|);
    }

    /** `vector_search(q, k)` over the current store. */
    method VectorSearch(q: string, k: int, embed: string -> Option<Vector>,
                        nearest: (map<string, Point>, Vector, int) -> Option<seq<ScoredPoint>>)
      returns (hits: seq<CacheHit>)
      ensures hits == Hits(SearchStore(points, q, k, embed, nearest))
    {
      var res := SearchStore(points, q, k, embed, nearest);
      if res.None? {
        return [];
      }
      var rs := res.value;
      hits := [];
      var i := 0;
      while i < |rs|
        invariant 0 <= i <= |rs|
        invariant hits == HitList(rs[..i])
      {
        hits := hits + [HitOf(rs[i], |hits| + 1)];
        i := i + 1;
      }
      assert rs[..i] == rs;
    }
  }
}
