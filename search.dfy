/** Query extraction and search-result mapping (orchestrator/search.py): the fallback query
    built from a claim, the three ways a prompt is read (a JSON object, a `QUERIES:` ...
    `CLAIM:` block, or the whole prompt as a claim), and the mapping of a SearxNG reply to
    links. `json.loads` and the HTTP request are inputs. */
module Search {
  import opened Wrappers
  import opened PyStr

  const ClaimMarker := "CLAIM TO EVALUATE:"
  const QueriesTag := "QUERIES:"
  const ClaimTag := "CLAIM:"
  /** The claim is cut to this many characters when no quoted claim is found. */
  const ClaimPrefix := 200
  const MaxWords := 10
  /** Words of at most this length are dropped. */
  const ShortWord := 3

  // ---------------------------------------------------------------------------------------
  // simple_queries

  /** The claim read from the text after `CLAIM TO EVALUATE:` (already stripped): the first
      quoted substring when a closing quote follows the opening one with something between,
      else the first 200 characters. */
  function SectionClaim(section: string): string {
    match Find(section, "\"")
    case None => PyTake(section, ClaimPrefix)
    case Some(q) =>
      var start := q + 1;
      match FindFrom(section, "\"", start)
      case Some(e) => if e > start then section[start..e] else PyTake(section, ClaimPrefix)
      case None => PyTake(section, ClaimPrefix)
  }

  /** `actual_claim` of `simple_queries`. */
  function ActualClaim(prompt: string): string {
    match Find(prompt, ClaimMarker)
    case None => PyTake(prompt, ClaimPrefix)
    case Some(k) => SectionClaim(Strip(prompt[k + |ClaimMarker|..]))
  }

  /** The words longer than three characters, in order. */
  function LongWords(ws: seq<string>): seq<string> {
    if ws == [] then []
    else (if |ws[0]| > ShortWord then [ws[0]] else []) + LongWords(ws[1..])
  }

  /** The kept words are words of the list, each longer than three characters. */
  lemma {:induction false} LongWordsShape(ws: seq<string>)
    ensures forall w :: w in LongWords(ws) ==> w in ws && |w| > ShortWord
  {
    if ws != [] {
      LongWordsShape(ws[1..]);
    }
  }

  /** The words a base query is made of. */
  function QueryWords(claim: string): seq<string> {
    PyTake(LongWords(Words(Lower(claim))), MaxWords)
  }

  /** The one query `simple_queries` repeats. */
  function BaseQuery(prompt: string): string {
    var claim := ActualClaim(prompt);
    var base := Join(QueryWords(claim), " ");
    if base == [] then PyTake(claim, ClaimPrefix) else base
  }

  /** `simple_queries(prompt, n)`: `max(1, n)` copies of one query. */
  function SimpleQueries(prompt: string, n: int): (r: seq<string>)
    ensures |r| == Max(1, n)
    ensures r[0] == BaseQuery(prompt)
    ensures forall i, j :: 0 <= i < j < |r| ==> r[i] == r[j]
  {
    Repeat(BaseQuery(prompt), Max(1, n))
  }

  lemma QueryWordsShape(claim: string)
    ensures |QueryWords(claim)| <= MaxWords
    ensures forall w :: w in QueryWords(claim) ==> |w| > ShortWord && w != [] && NoSpace(w) && NoUpper(w)
  {
    var lower := Lower(claim);
    WordsNoUpper(lower);
    LongWordsShape(Words(lower));
  }

  /** The base query is the claim's long words, lower-cased, at most ten, joined by single
      spaces, so splitting it gives them back; without such words it is the claim's first
      200 characters. */
  lemma BaseQueryWords(prompt: string)
    ensures var claim := ActualClaim(prompt);
      && (QueryWords(claim) != [] ==> Words(BaseQuery(prompt)) == QueryWords(claim))
      && (QueryWords(claim) == [] ==> BaseQuery(prompt) == PyTake(claim, ClaimPrefix))
  {
    var claim := ActualClaim(prompt);
    var ws := QueryWords(claim);
    QueryWordsShape(claim);
    if ws != [] {
      assert ws[0] in ws;
      JoinNonEmpty(ws, " ");
      WordsOfJoin(ws);
    }
  }

  /** Every word of the base query is lower case, longer than three characters, and there
      are at most ten of them (when the claim has long words at all). */
  lemma BaseQueryBounds(prompt: string)
    requires QueryWords(ActualClaim(prompt)) != []
    ensures var ws := Words(BaseQuery(prompt));
      |ws| <= MaxWords && forall w :: w in ws ==> |w| > ShortWord && NoUpper(w)
  {
    BaseQueryWords(prompt);
    QueryWordsShape(ActualClaim(prompt));
  }

  /** A prompt that starts with the marker is read from just after it. */
  lemma MarkerAtStart(rest: string)
    ensures ActualClaim(ClaimMarker + rest) == SectionClaim(Strip(rest))
  {
    var prompt := ClaimMarker + rest;
    assert OccursAt(prompt, ClaimMarker, 0) by {
      assert prompt[..|ClaimMarker|] == ClaimMarker;
    }
    assert prompt[|ClaimMarker|..] == rest;
  }

  /** Stripping leading whitespace and whatever follows a quoted part keeps the quoted part
      at the front. */
  lemma StripKeepsQuoted(sp: string, inner: string, post: string)
    requires forall i :: 0 <= i < |sp| ==> IsSpace(sp[i])
    ensures var section := Strip(sp + "\"" + inner + "\"" + post);
      |inner| + 2 <= |section| && section[..|inner| + 2] == "\"" + inner + "\""
  {
    var quoted := "\"" + inner + "\"";
    var rest := sp + quoted + post;
    assert sp + "\"" + inner + "\"" + post == rest;
    assert rest[|sp|..|sp| + |quoted|] == quoted;
    StripKeepsInfix(rest, |sp|, quoted);
  }

  /** A section that starts with a non-empty quoted part without inner quotes gives that part. */
  lemma SectionQuoted(section: string, inner: string)
    requires inner != [] && '"' !in inner
    requires |inner| + 2 <= |section| && section[..|inner| + 2] == "\"" + inner + "\""
    ensures SectionClaim(section) == inner
  {
    var quoted := section[..|inner| + 2];
    assert section[0] == quoted[0] == '"';
    assert OccursAt(section, "\"", 0) by {
      assert section[..1] == "\"";
    }
    assert section[1 + |inner|] == quoted[1 + |inner|] == '"';
    assert OccursAt(section, "\"", 1 + |inner|) by {
      assert section[1 + |inner|..2 + |inner|] == "\"";
    }
    forall m | 1 <= m < 1 + |inner| ensures !OccursAt(section, "\"", m) {
      assert section[m] == quoted[m] == inner[m - 1];
      assert inner[m - 1] in inner;
    }
    assert section[1..1 + |inner|] == quoted[1..1 + |inner|] == inner;
  }

  /** A first quoted claim after the marker is taken as it is, whatever surrounds it. */
  lemma QuotedClaim(sp: string, inner: string, post: string)
    requires forall i :: 0 <= i < |sp| ==> IsSpace(sp[i])
    requires inner != [] && '"' !in inner
    ensures ActualClaim(ClaimMarker + sp + "\"" + inner + "\"" + post) == inner
  {
    var rest := sp + "\"" + inner + "\"" + post;
    assert ClaimMarker + sp + "\"" + inner + "\"" + post == ClaimMarker + rest;
    MarkerAtStart(rest);
    StripKeepsQuoted(sp, inner, post);
    SectionQuoted(Strip(rest), inner);
  }

  /** The words of the claim in the prompt of the query-generation example. */
  function MoonClaimWords(): seq<string> {
    ["The", "Moon", "is", "made", "of", "cheese", "and", "is", "delicious"]
  }

  lemma MoonLower()
    ensures LowerAll(MoonClaimWords()) == ["the", "moon", "is", "made", "of", "cheese", "and", "is", "delicious"]
  {
    assert Lower("The") == "the" && Lower("Moon") == "moon" && Lower("is") == "is" && Lower("made") == "made";
    assert Lower("of") == "of" && Lower("cheese") == "cheese" && Lower("and") == "and" && Lower("delicious") == "delicious";
  }

  /** ASCII letters are neither whitespace nor quotes. */
  lemma LettersNoSpace(s: string)
    requires forall i :: 0 <= i < |s| ==> 'a' <= s[i] <= 'z' || 'A' <= s[i] <= 'Z'
    ensures NoSpace(s) && '"' !in s
  {
  }

  /** For a claim made of words joined by single spaces, the query words are the long
      lower-cased words. */
  lemma QueryWordsOfJoin(ws: seq<string>)
    requires forall w :: w in ws ==> w != [] && NoSpace(w)
    ensures QueryWords(Join(ws, " ")) == PyTake(LongWords(LowerAll(ws)), MaxWords)
  {
    LowerJoin(ws, " ");
    var lower := LowerAll(ws);
    forall w | w in lower ensures w != [] && NoSpace(w) {
      var i :| 0 <= i < |lower| && lower[i] == w;
      assert ws[i] in ws;
    }
    WordsOfJoin(lower);
  }

  lemma MoonLongWords()
    ensures LongWords(["the", "moon", "is", "made", "of", "cheese", "and", "is", "delicious"])
         == ["moon", "made", "cheese", "delicious"]
  {
  }

  lemma MoonClaimWordsShape(ws: seq<string>)
    requires ws == MoonClaimWords()
    ensures forall w :: w in ws ==> w != [] && NoSpace(w) && '"' !in w
  {
    forall w | w in ws ensures w != [] && NoSpace(w) && '"' !in w {
      LettersNoSpace(w);
    }
  }

  lemma MoonKept(ws: seq<string>)
    requires ws == MoonClaimWords()
    ensures PyTake(LongWords(LowerAll(ws)), MaxWords) == ["moon", "made", "cheese", "delicious"]
  {
    MoonLower();
    MoonLongWords();
    var kept := ["moon", "made", "cheese", "delicious"];
    assert PyTake(kept, MaxWords) == kept;
  }

  lemma MoonQueryWords(ws: seq<string>)
    requires ws == MoonClaimWords()
    ensures QueryWords(Join(ws, " ")) == ["moon", "made", "cheese", "delicious"]
  {
    MoonClaimWordsShape(ws);
    QueryWordsOfJoin(ws);
    MoonKept(ws);
  }

  lemma MoonClaimFacts(ws: seq<string>)
    requires ws == MoonClaimWords()
    ensures Join(ws, " ") != [] && '"' !in Join(ws, " ")
  {
    MoonClaimWordsShape(ws);
    JoinNonEmpty(ws, " ");
    JoinLacks(ws, " ", '"');
  }

  /** With long words in the claim, the base query is those words joined by spaces. */
  lemma BaseQueryOfWords(prompt: string)
    requires QueryWords(ActualClaim(prompt)) != []
    ensures BaseQuery(prompt) == Join(QueryWords(ActualClaim(prompt)), " ")
  {
    var ws := QueryWords(ActualClaim(prompt));
    QueryWordsShape(ActualClaim(prompt));
    assert ws[0] in ws;
    JoinNonEmpty(ws, " ");
  }

  lemma MoonPrompt(claim: string)
    ensures ClaimMarker + " \"" + claim + "\"" == ClaimMarker + " " + "\"" + claim + "\"" + ""
  {
  }

  lemma MoonJoin()
    ensures Join(["moon", "made", "cheese", "delicious"], " ") == "moon made cheese delicious"
  {
  }

  /** A quoted claim whose query words are those of the example gives its query. */
  lemma MoonBaseQuery(claim: string)
    requires claim != [] && '"' !in claim
    requires QueryWords(claim) == ["moon", "made", "cheese", "delicious"]
    ensures BaseQuery(ClaimMarker + " \"" + claim + "\"") == "moon made cheese delicious"
  {
    MoonPrompt(claim);
    QuotedClaim(" ", claim, "");
    BaseQueryOfWords(ClaimMarker + " \"" + claim + "\"");
    MoonJoin();
  }

  /** The claim `The Moon is made of cheese and is delicious`, quoted after the marker, is
      lower-cased and its words of at most three letters are dropped; `n = 3` gives three
      copies of the result. */
  lemma MoonExample()
    ensures SimpleQueries(ClaimMarker + " \"" + Join(MoonClaimWords(), " ") + "\"", 3)
         == ["moon made cheese delicious", "moon made cheese delicious", "moon made cheese delicious"]
  {
    MoonClaimFacts(MoonClaimWords());
    MoonQueryWords(MoonClaimWords());
    MoonBaseQuery(Join(MoonClaimWords(), " "));
  }

  // ---------------------------------------------------------------------------------------
  // The structured block

  /** The characters of the regular-expression class `[\d\-\.\s]`. */
  predicate IsMarkerChar(c: char) {
    IsDigit(c) || c == '-' || c == '.' || IsSpace(c)
  }

  /** `re.sub(r'^[\d\-\.\s]+', '', s)`: the leading run of list-marker characters removed. */
  function DropMarker(s: string): (r: string)
    decreases |s|
    ensures r == [] || !IsMarkerChar(r[0])
    ensures |r| <= |s| && r == s[|s| - |r|..]
    ensures forall i :: 0 <= i < |s| - |r| ==> IsMarkerChar(s[i])
  {
    if s != [] && IsMarkerChar(s[0]) then DropMarker(s[1..]) else s
  }

  /** The query one line of the block contributes: only lines starting with a digit or `-`
      count, and only when something is left once the marker is removed. */
  function QueryOfLine(line: string): Option<string> {
    var l := Strip(line);
    if l != [] && (IsDigit(l[0]) || l[0] == '-') then
      var q := Strip(DropMarker(l));
      if q != [] then Some(q) else None
    else None
  }

  function Keep(o: Option<string>): seq<string> {
    match o
    case Some(q) => [q]
    case None => []
  }

  /** The queries of the lines, in line order. */
  function QueryLines(lines: seq<string>): seq<string> {
    if lines == [] then [] else QueryLines(lines[..|lines| - 1]) + Keep(QueryOfLine(lines[|lines| - 1]))
  }

  /** A character absent from a string is absent from each of its slices. */
  lemma InfixLacks(s: string, t: string, p: nat, c: char)
    requires p + |t| <= |s| && t == s[p..p + |t|] && c !in s
    ensures c !in t
  {
    assert forall i :: 0 <= i < |t| ==> t[i] == s[p + i];
  }

  /** A query read from a line is non-empty, has no line break, does not start with a digit,
      `-`, `.` or whitespace, and does not end with whitespace. */
  predicate CleanQuery(q: string) {
    q != [] && '\n' !in q && !IsMarkerChar(q[0]) && !IsSpace(q[|q| - 1])
  }

  lemma StripLacks(s: string, c: char)
    requires c !in s
    ensures c !in Strip(s)
    ensures Strip(s) != [] ==> !IsSpace(Strip(s)[|Strip(s)| - 1])
  {
    var p := StripIsInfix(s);
    InfixLacks(s, Strip(s), p, c);
  }

  lemma DropMarkerLacks(s: string, c: char)
    requires c !in s
    ensures c !in DropMarker(s)
  {
    InfixLacks(s, DropMarker(s), |s| - |DropMarker(s)|, c);
  }

  lemma QueryOfLineShape(line: string)
    requires '\n' !in line
    requires QueryOfLine(line).Some?
    ensures CleanQuery(QueryOfLine(line).value)
  {
    var l := Strip(line);
    StripLacks(line, '\n');
    var d := DropMarker(l);
    DropMarkerLacks(l, '\n');
    var q := Strip(d);
    StripLacks(d, '\n');
    assert QueryOfLine(line) == Some(q);
    StripKeepsHead(d);
  }

  lemma {:induction false} QueryLinesShape(lines: seq<string>)
    requires forall l :: l in lines ==> '\n' !in l
    ensures forall q :: q in QueryLines(lines) ==>
      CleanQuery(q)
  {
    if lines != [] {
      var init := lines[..|lines| - 1];
      var last := lines[|lines| - 1];
      assert forall l :: l in init ==> l in lines;
      QueryLinesShape(init);
      var kept := Keep(QueryOfLine(last));
      if QueryOfLine(last).Some? {
        QueryOfLineShape(last);
      }
      forall q | q in QueryLines(lines)
        ensures CleanQuery(q)
      {
        assert QueryLines(lines) == QueryLines(init) + kept;
        if q !in QueryLines(init) {
          assert q in kept;
        }
      }
    }
  }

  /** The result of a prompt: the queries and the claim. */
  datatype Parsed = Parsed(queries: seq<string>, claim: string)

  /** The structured branch, given where its two tags were found. */
  function Structured(prompt: string, queriesAt: nat, claimAt: nat, n: int): Parsed
    requires claimAt + |ClaimTag| <= |prompt|
  {
    var section := Strip(PySlice(prompt, queriesAt + |QueriesTag|, claimAt));
    var claim := Strip(prompt[claimAt + |ClaimTag|..]);
    Parsed(PyTake(QueryLines(SplitOn(section, '\n')), n), claim)
  }

  /** What the prompt yields once it is not read as JSON. */
  function TextQueries(prompt: string, n: int): Parsed {
    match (Find(prompt, QueriesTag), Find(prompt, ClaimTag))
    case (Some(q), Some(c)) => Structured(prompt, q, c, n)
    case _ => Parsed(SimpleQueries(prompt, n), prompt)
  }

  /** Without both tags the whole prompt is the claim and there is at least one query. */
  lemma FallbackQueries(prompt: string, n: int)
    requires !(Contains(prompt, QueriesTag) && Contains(prompt, ClaimTag))
    ensures TextQueries(prompt, n) == Parsed(SimpleQueries(prompt, n), prompt)
    ensures |TextQueries(prompt, n).queries| >= 1
  {
  }

  /** With both tags every query is a cleaned list line: non-empty, on one line, without its
      list marker and without surrounding whitespace; at most `n` of them; the claim is the
      stripped text after the first `CLAIM:`. */
  lemma StructuredShape(prompt: string, n: int)
    requires Contains(prompt, QueriesTag) && Contains(prompt, ClaimTag)
    ensures var r := TextQueries(prompt, n);
      var c := Find(prompt, ClaimTag).value;
      && (n >= 0 ==> |r.queries| <= n)
      && r.claim == Strip(prompt[c + |ClaimTag|..])
      && forall q :: q in r.queries ==> CleanQuery(q)
  {
    var q := Find(prompt, QueriesTag).value;
    var c := Find(prompt, ClaimTag).value;
    assert TextQueries(prompt, n) == Structured(prompt, q, c, n);
    StructuredLines(prompt, q, c, n);
  }

  lemma StructuredLines(prompt: string, queriesAt: nat, claimAt: nat, n: int)
    requires claimAt + |ClaimTag| <= |prompt|
    ensures var r := Structured(prompt, queriesAt, claimAt, n);
      && (n >= 0 ==> |r.queries| <= n)
      && r.claim == Strip(prompt[claimAt + |ClaimTag|..])
      && forall q :: q in r.queries ==> CleanQuery(q)
  {
    var section := Strip(PySlice(prompt, queriesAt + |QueriesTag|, claimAt));
    var lines := SplitOn(section, '\n');
    QueryLinesShape(lines);
    var all := QueryLines(lines);
    assert forall x :: x in PyTake(all, n) ==> x in all;
  }

  /** `re.sub` removes exactly a leading run of marker characters. */
  lemma {:induction false} DropMarkerAfter(m: string, t: string)
    requires forall i :: 0 <= i < |m| ==> IsMarkerChar(m[i])
    requires t == [] || !IsMarkerChar(t[0])
    decreases |m|
    ensures DropMarker(m + t) == t
  {
    if m != [] {
      assert (m + t)[1..] == m[1..] + t;
      DropMarkerAfter(m[1..], t);
    } else {
      assert m + t == t;
    }
  }

  /** The prompt `QUERIES:` / body / `CLAIM:` / claim, one part per line. */
  function Block(body: string, claim: string): string {
    QueriesTag + "\n" + body + "\n" + ClaimTag + "\n" + claim
  }

  lemma BlockFindQueries(body: string, claim: string)
    ensures Find(Block(body, claim), QueriesTag) == Some(0)
  {
    var rest := "\n" + body + "\n" + ClaimTag + "\n" + claim;
    assert Block(body, claim) == [] + QueriesTag + rest;
    FindAfter([], QueriesTag, rest);
  }

  /** With no `CLAIM:` inside the body, the first one of the block is its tag. */
  lemma BlockFindClaim(body: string, claim: string)
    requires !Contains(body, ClaimTag)
    ensures Find(Block(body, claim), ClaimTag) == Some(|QueriesTag| + |body| + 2)
  {
    var b := Block(body, claim);
    var c := |QueriesTag| + |body| + 2;
    assert b[c..c + |ClaimTag|] == ClaimTag;
    assert OccursAt(b, ClaimTag, c);
    forall m | 0 <= m < c ensures !OccursAt(b, ClaimTag, m) {
      NoEarlierClaim(body, claim, m);
    }
    var r := FindFrom(b, ClaimTag, 0);
    assert r.Some? && !(r.value < c) && !(c < r.value);
  }

  /** No `CLAIM:` starts in the tag `QUERIES:`, in a body that lacks it, or across the line
      break after the body. */
  lemma NoEarlierClaim(body: string, claim: string, m: nat)
    requires !Contains(body, ClaimTag)
    requires m < |QueriesTag| + |body| + 2
    ensures !OccursAt(Block(body, claim), ClaimTag, m)
  {
    var b := Block(body, claim);
    var start := |QueriesTag| + 1;
    var nl := start + |body|;
    var w := |ClaimTag|;
    assert b[nl] == '\n';
    if m + w <= |b| {
      var at := b[m..m + w];
      if m < start {
        assert b[m] == (QueriesTag + "\n")[m];
        assert at[0] == b[m] != 'C';
      } else if m + w <= nl {
        assert at == body[m - start..m - start + w];
        assert !OccursAt(body, ClaimTag, m - start);
      } else {
        assert at[nl - m] == b[nl];
        assert ClaimTag[nl - m] != '\n';
      }
    }
  }

  /** A string without the first character of a pattern does not contain it. */
  lemma LacksHead(s: string, pat: string)
    requires pat != [] && pat[0] !in s
    ensures !Contains(s, pat)
  {
    forall k | 0 <= k && k + |pat| <= |s| ensures !OccursAt(s, pat, k) {
      assert s[k..k + |pat|][0] == s[k];
    }
  }

  lemma BlockParts(body: string, claim: string)
    ensures var b := Block(body, claim);
      && b[|QueriesTag|..|QueriesTag| + |body| + 2] == "\n" + body + "\n"
      && b[|QueriesTag| + |body| + 2 + |ClaimTag|..] == "\n" + claim + []
  {
  }

  /** With both tags found, the text branch is the structured one. */
  lemma TextQueriesOfTags(prompt: string, q: nat, c: nat, n: int)
    requires Find(prompt, QueriesTag) == Some(q) && Find(prompt, ClaimTag) == Some(c)
    ensures c + |ClaimTag| <= |prompt|
    ensures TextQueries(prompt, n) == Structured(prompt, q, c, n)
  {
  }

  /** The structured branch on a prompt whose query section and claim are known. */
  lemma StructuredOfParts(prompt: string, c: nat, body: string, claim: string, n: int)
    requires c + |ClaimTag| <= |prompt|
    requires PySlice(prompt, |QueriesTag|, c) == "\n" + body + "\n"
    requires prompt[c + |ClaimTag|..] == "\n" + claim + []
    requires body != [] && !IsSpace(body[0]) && !IsSpace(body[|body| - 1])
    requires claim != [] && !IsSpace(claim[0]) && !IsSpace(claim[|claim| - 1])
    ensures Structured(prompt, 0, c, n) == Parsed(PyTake(QueryLines(SplitOn(body, '\n')), n), claim)
  {
    PaddedPart(PySlice(prompt, 0 + |QueriesTag|, c), body, "\n");
    PaddedPart(prompt[c + |ClaimTag|..], claim, []);
  }

  /** A part between a newline and `post` (whitespace) strips to itself. */
  lemma PaddedPart(s: string, part: string, post: string)
    requires forall i :: 0 <= i < |post| ==> IsSpace(post[i])
    requires s == "\n" + part + post
    requires part != [] && !IsSpace(part[0]) && !IsSpace(part[|part| - 1])
    ensures Strip(s) == part
  {
    StripPadded("\n", part, post);
  }

  /** With both tags found, a block whose body and claim have no whitespace at their ends is
      read as the queries of the body's lines and the claim. */
  lemma BlockStructured(body: string, claim: string, n: int)
    requires !Contains(body, ClaimTag)
    requires body != [] && !IsSpace(body[0]) && !IsSpace(body[|body| - 1])
    requires claim != [] && !IsSpace(claim[0]) && !IsSpace(claim[|claim| - 1])
    ensures TextQueries(Block(body, claim), n)
         == Parsed(PyTake(QueryLines(SplitOn(body, '\n')), n), claim)
  {
    var prompt := Block(body, claim);
    var c := |QueriesTag| + |body| + 2;
    BlockFindQueries(body, claim);
    BlockFindClaim(body, claim);
    TextQueriesOfTags(prompt, 0, c, n);
    BlockParts(body, claim);
    StructuredOfParts(prompt, c, body, claim, n);
  }

  /** A block of lines whose text has no `CLAIM:` (so the first `CLAIM:` is the tag) is read
      as the queries of its lines and the claim. */
  lemma StructuredBlock(lines: seq<string>, claim: string, n: int)
    requires |lines| >= 1 && forall l :: l in lines ==> '\n' !in l
    requires !Contains(Join(lines, "\n"), ClaimTag)
    requires var body := Join(lines, "\n"); body != [] && !IsSpace(body[0]) && !IsSpace(body[|body| - 1])
    requires claim != [] && !IsSpace(claim[0]) && !IsSpace(claim[|claim| - 1])
    ensures TextQueries(Block(Join(lines, "\n"), claim), n) == Parsed(PyTake(QueryLines(lines), n), claim)
  {
    BlockStructured(Join(lines, "\n"), claim, n);
    SplitOnJoin(lines, '\n');
  }

  /** A list line `m + t`, where the marker `m` starts with a digit or `-` and `t` starts
      with no marker character and ends with no whitespace, contributes `t`. */
  lemma ListLine(m: string, t: string)
    requires m != [] && (IsDigit(m[0]) || m[0] == '-')
    requires forall i :: 0 <= i < |m| ==> IsMarkerChar(m[i])
    requires t != [] && !IsMarkerChar(t[0]) && !IsSpace(t[|t| - 1])
    ensures QueryOfLine(m + t) == Some(t)
  {
    var l := m + t;
    assert l[0] == m[0] && l[|l| - 1] == t[|t| - 1];
    StripUnchanged(l);
    DropMarkerAfter(m, t);
    StripUnchanged(t);
  }

  lemma FirstQueryLine()
    ensures QueryOfLine("1. " + "first query") == Some("first query")
  {
    var m, t := "1. ", "first query";
    assert IsMarkerChar(m[0]) && IsMarkerChar(m[1]) && IsMarkerChar(m[2]);
    assert !IsMarkerChar(t[0]) && !IsSpace(t[|t| - 1]);
    ListLine(m, t);
  }

  lemma SecondQueryLine()
    ensures QueryOfLine("- " + "second query") == Some("second query")
  {
    var m, t := "- ", "second query";
    assert IsMarkerChar(m[0]) && IsMarkerChar(m[1]);
    assert !IsMarkerChar(t[0]) && !IsSpace(t[|t| - 1]);
    ListLine(m, t);
  }

  lemma QueryLinesTwo(l1: string, l2: string)
    ensures QueryLines([l1, l2]) == Keep(QueryOfLine(l1)) + Keep(QueryOfLine(l2))
  {
    assert [l1][..0] == [];
    assert QueryLines([l1]) == Keep(QueryOfLine(l1));
    assert [l1, l2][..1] == [l1];
  }

  lemma ExampleBlockFacts(l1: string, l2: string, claim: string)
    requires l1 == "1. " + "first query" && l2 == "- " + "second query" && claim == "This is the claim"
    ensures forall l :: l in [l1, l2] ==> '\n' !in l && 'C' !in l
    ensures var body := Join([l1, l2], "\n"); body != [] && !IsSpace(body[0]) && !IsSpace(body[|body| - 1])
    ensures claim != [] && !IsSpace(claim[0]) && !IsSpace(claim[|claim| - 1])
  {
    ExampleLines(l1, l2);
    ExampleBody(l1, l2);
  }

  lemma ExampleLines(l1: string, l2: string)
    requires l1 == "1. " + "first query" && l2 == "- " + "second query"
    ensures forall l :: l in [l1, l2] ==> '\n' !in l && 'C' !in l
  {
    assert '\n' !in l1 && 'C' !in l1;
    assert '\n' !in l2 && 'C' !in l2;
  }

  lemma ExampleBody(l1: string, l2: string)
    requires l1 == "1. " + "first query" && l2 == "- " + "second query"
    ensures var body := Join([l1, l2], "\n"); body != [] && !IsSpace(body[0]) && !IsSpace(body[|body| - 1])
  {
    JoinTwoEnds(l1, l2, "\n");
    assert !IsSpace(l1[0]) && !IsSpace(l2[|l2| - 1]);
  }

  lemma JoinTwoEnds(a: string, b: string, sep: string)
    requires a != [] && b != []
    ensures var j := Join([a, b], sep); j != [] && j[0] == a[0] && j[|j| - 1] == b[|b| - 1]
  {
    assert [a, b][1..] == [b];
    assert Join([a, b], sep) == a + sep + b;
  }

  lemma ExampleQueries(l1: string, l2: string)
    requires l1 == "1. " + "first query" && l2 == "- " + "second query"
    ensures PyTake(QueryLines([l1, l2]), 5) == ["first query", "second query"]
  {
    FirstQueryLine();
    SecondQueryLine();
    QueryLinesTwo(l1, l2);
  }

  /** The block `QUERIES:` / `1. first query` / `- second query` / `CLAIM:` /
      `This is the claim`, not valid JSON, with five queries allowed. */
  lemma StructuredExample()
    ensures ParseQueries(Block(Join(["1. " + "first query", "- " + "second query"], "\n"), "This is the claim"), None, 5)
         == Parsed(["first query", "second query"], "This is the claim")
  {
    ExampleBlockFacts("1. " + "first query", "- " + "second query", "This is the claim");
    ExampleQueries("1. " + "first query", "- " + "second query");
    JoinLacks(["1. " + "first query", "- " + "second query"], "\n", 'C');
    LacksHead(Join(["1. " + "first query", "- " + "second query"], "\n"), ClaimTag);
    StructuredBlock(["1. " + "first query", "- " + "second query"], "This is the claim", 5);
  }

  /** The structured branch's line loop. */
  method ParseQueryLines(section: string) returns (queries: seq<string>)
    ensures queries == QueryLines(SplitOn(section, '\n'))
  {
    var lines := SplitOn(section, '\n');
    queries := [];
    var i := 0;
    while i < |lines|
      invariant 0 <= i <= |lines|
      invariant queries == QueryLines(lines[..i])
    {
      var line := Strip(lines[i]);
      assert lines[..i + 1][..i] == lines[..i];
      if line != [] && (IsDigit(line[0]) || line[0] == '-') {
        var query := Strip(DropMarker(line));
        if query != [] {
          queries := queries + [query];
        }
      }
      i := i + 1;
    }
    assert lines[..i] == lines;
  }

  // ---------------------------------------------------------------------------------------
  // The JSON branch

  /** What `json.loads` can give. An object is reduced to the two keys read from it: the
      list of queries and the claim, each None when the key is absent. */
  datatype Json =
    | JObject(queries: Option<seq<string>>, claim: Option<string>)
    | JArray(items: seq<Json>)
    | JString(s: string)
    | JNumber(n: int)
    | JBool(b: bool)
    | JNull

  /** The outcome of the code as written, where a Python exception escapes. */
  datatype Outcome = Raises | Returns(result: Parsed)

  /** `parse_queries_from_prompt` as written. `"queries" in data` is a key test only for an
      object: on a list it tests membership and on a string it tests for a substring (and
      `data["queries"]` then raises `TypeError`), and on a number, a boolean or null it
      raises `TypeError` itself. Only the decode error (`parsed == None`) is caught. */
  function ParseAsWritten(prompt: string, parsed: Option<Json>, n: int): Outcome {
    match parsed
    case None => Returns(TextQueries(prompt, n))
    case Some(JObject(qs, c)) =>
      if qs.Some? then Returns(Parsed(PyTake(qs.value, n), c.GetOr(prompt)))
      else Returns(TextQueries(prompt, n))
    case Some(JArray(items)) =>
      if JString("queries") in items then Raises else Returns(TextQueries(prompt, n))
    case Some(JString(s)) =>
      if Contains(s, "queries") then Raises else Returns(TextQueries(prompt, n))
    case Some(JNumber(_)) => Raises
    case Some(JBool(_)) => Raises
    case Some(JNull) => Raises
  }

  /** The prompt `42` is valid JSON and not an object: the `in` test raises. */
  lemma NumberPromptRaises(n: int)
    ensures ParseAsWritten("42", Some(JNumber(42)), n) == Raises
  {
  }

  /** `parse_queries_from_prompt` as intended: a JSON object with a `queries` key gives its
      first `n` queries and its claim (the prompt when there is none); anything else is read
      as text. */
  function ParseQueries(prompt: string, parsed: Option<Json>, n: int): Parsed {
    match parsed
    case Some(JObject(Some(qs), c)) => Parsed(PyTake(qs, n), c.GetOr(prompt))
    case _ => TextQueries(prompt, n)
  }

  /** The code as written raises exactly for the JSON values that are not objects and that
      the `in` test rejects, and otherwise agrees with the intended reading. */
  lemma AsWrittenAgrees(prompt: string, parsed: Option<Json>, n: int)
    ensures ParseAsWritten(prompt, parsed, n) == Raises
        <==> (parsed.Some? && !parsed.value.JObject?
              && (parsed.value.JArray? ==> JString("queries") in parsed.value.items)
              && (parsed.value.JString? ==> Contains(parsed.value.s, "queries")))
    ensures ParseAsWritten(prompt, parsed, n) != Raises
        ==> ParseAsWritten(prompt, parsed, n) == Returns(ParseQueries(prompt, parsed, n))
  {
  }

  /** The intended reading never fails, and a JSON value that is not an object with queries
      falls through to the text branches. */
  lemma NonObjectIsText(prompt: string, parsed: Option<Json>, n: int)
    requires !(parsed.Some? && parsed.value.JObject? && parsed.value.queries.Some?)
    ensures ParseQueries(prompt, parsed, n) == TextQueries(prompt, n)
  {
  }

  /** A JSON object with queries: at most `n` of them, in order, and its claim. */
  lemma JsonObjectQueries(prompt: string, qs: seq<string>, c: Option<string>, n: int)
    requires 0 <= n
    ensures var r := ParseQueries(prompt, Some(JObject(Some(qs), c)), n);
      && r.queries == qs[..Min(n, |qs|)]
      && r.claim == (if c.Some? then c.value else prompt)
  {
  }

  /** `{"queries": ["q1", "q2", "q3"], "claim": "some claim"}` with two queries allowed. */
  lemma JsonExample(prompt: string)
    ensures ParseQueries(prompt, Some(JObject(Some(["q1", "q2", "q3"]), Some("some claim"))), 2)
         == Parsed(["q1", "q2"], "some claim")
  {
  }

  /** `parse_queries_from_prompt`, with the JSON value decoded from the prompt as input. */
  method ParseQueriesFromPrompt(prompt: string, parsed: Option<Json>, n: int) returns (r: Parsed)
    ensures r == ParseQueries(prompt, parsed, n)
  {
    if parsed.Some? && parsed.value.JObject? && parsed.value.queries.Some? {
      return Parsed(PyTake(parsed.value.queries.value, n), parsed.value.claim.GetOr(prompt));
    }
    r := ParseText(prompt, n);
  }

  /** The part of `parse_queries_from_prompt` after the JSON attempt. */
  method ParseText(prompt: string, n: int) returns (r: Parsed)
    ensures r == TextQueries(prompt, n)
  {
    var q := Find(prompt, QueriesTag);
    var c := Find(prompt, ClaimTag);
    if q.Some? && c.Some? {
      var section := Strip(PySlice(prompt, q.value + |QueriesTag|, c.value));
      var claim := Strip(prompt[c.value + |ClaimTag|..]);
      var queries := ParseQueryLines(section);
      return Parsed(PyTake(queries, n), claim);
    }
    return Parsed(SimpleQueries(prompt, n), prompt);
  }


  // ---------------------------------------------------------------------------------------
  // searx_top_links

  /** A field of a result as JSON gives it: absent, a string, or some other value (on which
      `.strip()` raises). */
  datatype Field = Missing | Text(s: string) | NonText

  /** One entry of the reply's `results`. `engine` and `publishedDate` are None when absent. */
  datatype RawResult = RawResult(
    title: Field, url: Field, content: Field, engine: Option<string>, publishedDate: Option<string>)

  /** The SearxNG answer: a network, decoding or shape error, or a reply with its
      content-type header and its `results` list, each None when absent. A reply that is
      neither HTML nor JSON makes `r.json()` raise a client error, so it is `SearchFailed`
      too. */
  datatype SearchReply =
    | SearchFailed
    | SearchAnswered(contentType: Option<string>, results: Option<seq<RawResult>>)

  datatype Link = Link(
    title: string, url: string, snippet: string, engine: string, publishedDate: string,
    domain: string, query: string)

  /** `item.get(key, "").strip()`; None when the value is not a string. */
  function StrippedField(f: Field): Option<string> {
    match f
    case Missing => Some("")
    case Text(s) => Some(Strip(s))
    case NonText => None
  }

  function RawUrl(f: Field): string {
    if f.Text? then f.s else ""
  }

  /** The link built from one result, or None when building it raises: a field that is not
      a string, or a url `urlparse` rejects (`netloc` gives None). */
  function LinkOf(r: RawResult, query: string, netloc: string -> Option<string>): Option<Link> {
    match (StrippedField(r.title), StrippedField(r.url), StrippedField(r.content), netloc(RawUrl(r.url)))
    case (Some(t), Some(u), Some(c), Some(d)) =>
      Some(Link(t, u, c, r.engine.GetOr("unknown"), r.publishedDate.GetOr(""), d, query))
    case _ => None
  }

  /** The links of the results, or None when one of them raises. */
  function LinksOf(rs: seq<RawResult>, query: string, netloc: string -> Option<string>): Option<seq<Link>> {
    if rs == [] then Some([])
    else
      match LinksOf(rs[..|rs| - 1], query, netloc)
      case None => None
      case Some(ls) =>
        match LinkOf(rs[|rs| - 1], query, netloc)
        case None => None
        case Some(l) => Some(ls + [l])
  }

  /** What `searx_top_links(query, k)` returns for the reply; `netloc` is `urlparse(u).netloc`,
      or None when `urlparse` raises. */
  function TopLinks(query: string, k: int, reply: SearchReply, netloc: string -> Option<string>): seq<Link> {
    match reply
    case SearchFailed => []
    case SearchAnswered(ct, res) =>
      if Contains(ct.GetOr(""), "text/html") then []
      else
        match LinksOf(PyTake(res.GetOr([]), k), query, netloc)
        case None => []
        case Some(ls) => ls
  }

  lemma {:induction false} LinksOfShape(rs: seq<RawResult>, query: string, netloc: string -> Option<string>)
    requires LinksOf(rs, query, netloc).Some?
    ensures var ls := LinksOf(rs, query, netloc).value;
      |ls| == |rs| && forall i :: 0 <= i < |ls| ==> LinkOf(rs[i], query, netloc) == Some(ls[i])
  {
    if rs != [] {
      LinksOfShape(rs[..|rs| - 1], query, netloc);
    }
  }

  /** When every result maps, the mapping succeeds. */
  lemma {:induction false} LinksOfAll(rs: seq<RawResult>, query: string, netloc: string -> Option<string>)
    requires forall i :: 0 <= i < |rs| ==> LinkOf(rs[i], query, netloc).Some?
    decreases |rs|
    ensures LinksOf(rs, query, netloc).Some?
  {
    if rs != [] {
      LinksOfAll(rs[..|rs| - 1], query, netloc);
    }
  }

  /** A reply that is not HTML and whose first `k` results all map gives exactly those `k`
      links, each the mapping of its result, in reply order. */
  lemma TopLinksAll(query: string, k: int, ct: Option<string>, res: seq<RawResult>,
                    netloc: string -> Option<string>)
    requires !Contains(ct.GetOr(""), "text/html")
    requires forall i :: 0 <= i < |PyTake(res, k)| ==> LinkOf(PyTake(res, k)[i], query, netloc).Some?
    ensures var ls := TopLinks(query, k, SearchAnswered(ct, Some(res)), netloc);
      && |ls| == |PyTake(res, k)|
      && forall i :: 0 <= i < |ls| ==> LinkOf(PyTake(res, k)[i], query, netloc) == Some(ls[i])
  {
    LinksOfAll(PyTake(res, k), query, netloc);
    LinksOfShape(PyTake(res, k), query, netloc);
  }

  /** Links come in reply order, at most `k` of them, each tagged with the query and with its
      title, url and snippet already stripped. */
  lemma TopLinksShape(query: string, k: int, reply: SearchReply, netloc: string -> Option<string>)
    ensures var ls := TopLinks(query, k, reply, netloc);
      && (k >= 0 ==> |ls| <= k)
      && (forall i :: 0 <= i < |ls| ==>
           && ls[i].query == query
           && Strip(ls[i].title) == ls[i].title
           && Strip(ls[i].url) == ls[i].url
           && Strip(ls[i].snippet) == ls[i].snippet)
      && (ls != [] ==>
           && reply.SearchAnswered?
           && |ls| == |PyTake(reply.results.GetOr([]), k)|
           && forall i :: 0 <= i < |ls| ==>
                LinkOf(PyTake(reply.results.GetOr([]), k)[i], query, netloc) == Some(ls[i]))
  {
    if reply.SearchAnswered? && !Contains(reply.contentType.GetOr(""), "text/html") {
      var items := PyTake(reply.results.GetOr([]), k);
      if LinksOf(items, query, netloc).Some? {
        LinksOfShape(items, query, netloc);
        var ls := LinksOf(items, query, netloc).value;
        forall i | 0 <= i < |ls|
          ensures Strip(ls[i].title) == ls[i].title && Strip(ls[i].url) == ls[i].url
               && Strip(ls[i].snippet) == ls[i].snippet
        {
          var r := items[i];
          if r.title.Text? { StripIdempotent(r.title.s); }
          if r.url.Text? { StripIdempotent(r.url.s); }
          if r.content.Text? { StripIdempotent(r.content.s); }
        }
      }
    }
  }

  /** An HTML answer (the bot-detection page) and any error give no links. */
  lemma HtmlOrErrorGivesNothing(query: string, k: int, ct: string, res: Option<seq<RawResult>>,
                                netloc: string -> Option<string>)
    requires Contains(ct, "text/html")
    ensures TopLinks(query, k, SearchAnswered(Some(ct), res), netloc) == []
    ensures TopLinks(query, k, SearchFailed, netloc) == []
  {
  }

  /** A url among the first `k` results that `urlparse` rejects makes the `except Exception`
      branch return no links for the whole query. */
  lemma UnparsableUrlGivesNothing(query: string, k: int, ct: Option<string>, res: seq<RawResult>,
                                  netloc: string -> Option<string>, i: nat)
    requires !Contains(ct.GetOr(""), "text/html")
    requires i < |PyTake(res, k)| && netloc(RawUrl(PyTake(res, k)[i].url)).None?
    ensures TopLinks(query, k, SearchAnswered(ct, Some(res)), netloc) == []
  {
    LinksOfFail(PyTake(res, k), query, netloc, i);
  }

  /** The mapping loop of `searx_top_links`. */
  method SearxTopLinks(query: string, k: int, reply: SearchReply, netloc: string -> Option<string>)
    returns (out: seq<Link>)
    ensures out == TopLinks(query, k, reply, netloc)
  {
    if reply.SearchFailed? {
      return [];
    }
    if Contains(reply.contentType.GetOr(""), "text/html") {
      return [];
    }
    var items := PyTake(reply.results.GetOr([]), k);
    out := [];
    var i := 0;
    while i < |items|
      invariant 0 <= i <= |items|
      invariant LinksOf(items[..i], query, netloc) == Some(out)
    {
      var item := items[i];
      assert items[..i + 1][..i] == items[..i];
      var title := StrippedField(item.title);
      var url := StrippedField(item.url);
      var snippet := StrippedField(item.content);
      var domain := netloc(RawUrl(item.url));
      if title.None? || url.None? || snippet.None? || domain.None? {
        LinksOfFail(items, query, netloc, i);
        return [];
      }
      out := out + [Link(title.value, url.value, snippet.value, item.engine.GetOr("unknown"),
                         item.publishedDate.GetOr(""), domain.value, query)];
      i := i + 1;
    }
    assert items[..i] == items;
  }

  /** One result that raises makes the whole list raise. */
  lemma {:induction false} LinksOfFail(rs: seq<RawResult>, query: string, netloc: string -> Option<string>, i: nat)
    requires i < |rs| && LinkOf(rs[i], query, netloc).None?
    decreases |rs|
    ensures LinksOf(rs, query, netloc).None?
  {
    if i < |rs| - 1 {
      assert rs[..|rs| - 1][i] == rs[i];
      LinksOfFail(rs[..|rs| - 1], query, netloc, i);
    }
  }
}
