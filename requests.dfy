/**
 * The request and response records of the context store, their validators,
 * and the pure and local steps of ingest and retrieve that do not touch the
 * remote service: the upload filename, the merged attribute set, the search
 * arguments and the post-processing of search matches.
 */
module Requests {

  import opened Values
  import opened Strings
  import opened Remote

  /** The part of the process settings the context store reads. */
  datatype Settings = Settings(
    apiKey: Option<string>,
    defaultStoreId: Option<string>,
    defaultStoreName: Option<string>,
    defaultMaxResults: int)

  /** Inclusive bounds a caller's `max_results` must lie in. */
  const MinMaxResults := 1
  const MaxMaxResults := 50

  /** The MIME type an ingest request carries unless the caller names one. */
  const DefaultMimeType := "text/plain"

  datatype IngestRequest = IngestRequest(
    content: string,
    storeId: Option<string>,
    storeName: Option<string>,
    documentId: Option<string>,
    filename: Option<string>,
    summary: Option<string>,
    attributes: Option<Attributes>,
    chunkingStrategy: Option<string>,
    mimeType: string)

  datatype IngestResponse = IngestResponse(
    storeId: string,
    storeName: Option<string>,
    fileId: string,
    filename: string,
    status: string,
    attributes: Option<Attributes>)

  datatype RetrieveRequest = RetrieveRequest(
    query: string,
    storeId: Option<string>,
    maxResults: Option<int>,
    scoreThreshold: Option<real>,
    attributesFilter: Option<Attributes>,
    rewriteQuery: Option<bool>)

  datatype Chunk = Chunk(
    fileId: string,
    filename: string,
    score: real,
    text: string,
    attributes: Option<Attributes>)

  datatype RetrieveResponse = RetrieveResponse(storeId: string, query: string, results: seq<Chunk>)

  datatype StoreInfo = StoreInfo(storeId: string, storeName: Option<string>)

  /** A text holds something other than whitespace. */
  predicate HasText(s: string) {
    exists i :: 0 <= i < |s| && !IsWhitespace(s[i])
  }

  // ---------------------------------------------------------------- validation

  /** The check run when an ingest request is built: content may not be blank. */
  function ValidateIngest(req: IngestRequest): (r: Result<IngestRequest>)
    ensures r.Ok? <==> HasText(req.content)
    ensures r.Ok? ==> r.value == req
    ensures r.Err? ==> r.error == EmptyContent
  {
    StripEmptyIffBlank(req.content);
    if Strip(req.content) == "" then Err(EmptyContent) else Ok(req)
  }

  /** The field bounds on `max_results`: absent, or within [1, 50]. */
  predicate MaxResultsAllowed(maxResults: Option<int>) {
    maxResults.None? || MinMaxResults <= maxResults.value <= MaxMaxResults
  }

  /**
   * The checks run when a retrieve request is built: the field bounds on
   * `max_results` first, then the query may not be blank. A value outside
   * the bounds is rejected, never clamped.
   */
  function ValidateRetrieve(req: RetrieveRequest): (r: Result<RetrieveRequest>)
    ensures r.Ok? <==> MaxResultsAllowed(req.maxResults) && HasText(req.query)
    ensures r.Ok? ==> r.value == req
    ensures !MaxResultsAllowed(req.maxResults) ==> r == Err(MaxResultsOutOfRange(req.maxResults.value))
    ensures MaxResultsAllowed(req.maxResults) && !HasText(req.query) ==> r == Err(EmptyQuery)
  {
    StripEmptyIffBlank(req.query);
    if req.maxResults.Some? && !(MinMaxResults <= req.maxResults.value <= MaxMaxResults) then
      Err(MaxResultsOutOfRange(req.maxResults.value))
    else if Strip(req.query) == "" then Err(EmptyQuery)
    else Ok(req)
  }

  /** The bounds test of the tests: 1 and 50 pass, 0 and 51 are rejected. */
  lemma MaxResultsEdges(query: string)
    requires HasText(query)
    ensures ValidateRetrieve(RetrieveRequest(query, None, Some(1), None, None, None)).Ok?
    ensures ValidateRetrieve(RetrieveRequest(query, None, Some(50), None, None, None)).Ok?
    ensures ValidateRetrieve(RetrieveRequest(query, None, Some(0), None, None, None)) == Err(MaxResultsOutOfRange(0))
    ensures ValidateRetrieve(RetrieveRequest(query, None, Some(51), None, None, None)) == Err(MaxResultsOutOfRange(51))
  {
  }

  // ---------------------------------------------------------------- filenames

  function Min(a: int, b: int): int {
    if a <= b then a else b
  }

  /** The summary slug: lower-cased, spaces turned into hyphens, cut to 40 characters. */
  function Slug(summary: string): (r: string)
    ensures |r| == Min(|summary|, 40)
    ensures forall i :: 0 <= i < |r| ==> r[i] != ' ' && !IsAsciiUpper(r[i])
    ensures forall i :: 0 <= i < |r| && summary[i] == ' ' ==> r[i] == '-'
    ensures forall i :: 0 <= i < |r| && IsAsciiUpper(summary[i]) ==> r[i] as int == summary[i] as int + 32
    ensures forall i :: 0 <= i < |r| && summary[i] != ' ' && !IsAsciiUpper(summary[i]) ==> r[i] == summary[i]
  {
    var s := ReplaceSpaces(Lower(summary));
    s[..Min(|s|, 40)]
  }

  /** The name `_derive_filename` makes up when the caller gives none. */
  function DeriveFilename(documentId: Option<string>, summary: Option<string>, stampSeconds: int): string {
    if Truthy(documentId) then documentId.value + ".txt"
    else if Truthy(summary) then
      var slug := Slug(summary.value);
      (if slug == "" then "context" else slug) + "-" + IntDecimal(stampSeconds) + ".txt"
    else "context-" + IntDecimal(stampSeconds) + ".txt"
  }

  /** `request.filename or self._derive_filename(request)`. */
  function UploadFilename(req: IngestRequest, stampSeconds: int): string {
    if Truthy(req.filename) then req.filename.value
    else DeriveFilename(req.documentId, req.summary, stampSeconds)
  }

  /**
   * The filename rules, in order: a caller filename verbatim; else the document
   * id with ".txt"; else the summary slug, a hyphen, the timestamp and ".txt"
   * (the slug is never empty, so the "context" fallback for it never applies);
   * else "context-", the timestamp and ".txt".
   */
  lemma FilenameRules(req: IngestRequest, stampSeconds: int)
    ensures var f := UploadFilename(req, stampSeconds);
      && (Truthy(req.filename) ==> f == req.filename.value)
      && (!Truthy(req.filename) && Truthy(req.documentId) ==> f == req.documentId.value + ".txt")
      && (!Truthy(req.filename) && !Truthy(req.documentId) && Truthy(req.summary) ==>
            && f == Slug(req.summary.value) + "-" + IntDecimal(stampSeconds) + ".txt"
            && 0 < |Slug(req.summary.value)| <= 40)
      && (!Truthy(req.filename) && !Truthy(req.documentId) && !Truthy(req.summary) ==>
            f == "context-" + IntDecimal(stampSeconds) + ".txt")
  {
  }

  /** A made-up filename always ends in ".txt", and its timestamp can be read back from it. */
  lemma DerivedFilenameShape(documentId: Option<string>, summary: Option<string>, stampSeconds: int)
    ensures var f := DeriveFilename(documentId, summary, stampSeconds);
      && |f| >= 4 && f[|f| - 4..] == ".txt"
      && (!Truthy(documentId) ==>
            var n := |IntDecimal(stampSeconds)|;
            && |f| >= n + 5
            && f[|f| - 5 - n] == '-'
            && ParseInt(f[|f| - 4 - n..|f| - 4]) == Some(stampSeconds))
  {
    var f := DeriveFilename(documentId, summary, stampSeconds);
    var stamp := IntDecimal(stampSeconds);
    IntDecimalRoundTrip(stampSeconds);
    if !Truthy(documentId) {
      var head := if Truthy(summary) then Slug(summary.value) else "context";
      assert f == head + "-" + stamp + ".txt";
      assert f[|f| - 4 - |stamp|..|f| - 4] == stamp;
    }
  }

  // ---------------------------------------------------------------- attributes

  /** `dict(request.attributes or {})`. */
  function CallerAttributes(attributes: Option<Attributes>): Attributes {
    if attributes.Some? then attributes.value else map[]
  }

  /** The keys ingest adds: `document_id` and `summary` when truthy, `ingested_at` always. */
  function SystemKeys(documentId: Option<string>, summary: Option<string>): set<string> {
    (if Truthy(documentId) then {"document_id"} else {})
    + (if Truthy(summary) then {"summary"} else {})
    + {"ingested_at"}
  }

  /**
   * `m` is the attribute set ingest sends: every caller pair unchanged, and a
   * system key only where the caller did not already supply it.
   */
  ghost predicate IsMergedAttributes(attributes: Option<Attributes>, documentId: Option<string>,
                                     summary: Option<string>, ingestedAt: string, m: Attributes)
  {
    var caller := CallerAttributes(attributes);
    && m.Keys == caller.Keys + SystemKeys(documentId, summary)
    && (forall k :: k in caller ==> m[k] == caller[k])
    && ("document_id" !in caller && Truthy(documentId) ==> m["document_id"] == Str(documentId.value))
    && ("summary" !in caller && Truthy(summary) ==> m["summary"] == Str(summary.value))
    && ("ingested_at" !in caller ==> m["ingested_at"] == Str(ingestedAt))
  }

  /** `d.setdefault(k, v)` on a dict held in a variable. */
  function SetDefault(m: Attributes, k: string, v: AttrValue): (r: Attributes)
    ensures r.Keys == m.Keys + {k}
    ensures forall j :: j in m ==> r[j] == m[j]
    ensures k !in m ==> r[k] == v
  {
    if k in m then m else m[k := v]
  }

  /** Builds the attribute set of an upload with three `setdefault` calls. */
  method MergeAttributes(attributes: Option<Attributes>, documentId: Option<string>,
                         summary: Option<string>, ingestedAt: string)
    returns (merged: Attributes)
    ensures IsMergedAttributes(attributes, documentId, summary, ingestedAt, merged)
    ensures |merged| > 0
  {
    ghost var caller := CallerAttributes(attributes);
    merged := CallerAttributes(attributes);
    if Truthy(documentId) {
      merged := SetDefault(merged, "document_id", Str(documentId.value));
    }
    ghost var first := merged;
    if Truthy(summary) {
      merged := SetDefault(merged, "summary", Str(summary.value));
    }
    ghost var second := merged;
    merged := SetDefault(merged, "ingested_at", Str(ingestedAt));
    MergeStepsAgree(caller, documentId, summary, ingestedAt, first, second, merged);
  }

  /** The three `setdefault` steps, taken one after another, give the merged set. */
  lemma MergeStepsAgree(caller: Attributes, documentId: Option<string>, summary: Option<string>,
                        ingestedAt: string, first: Attributes, second: Attributes, last: Attributes)
    requires first == if Truthy(documentId) then SetDefault(caller, "document_id", Str(documentId.value)) else caller
    requires second == if Truthy(summary) then SetDefault(first, "summary", Str(summary.value)) else first
    requires last == SetDefault(second, "ingested_at", Str(ingestedAt))
    ensures last.Keys == caller.Keys + SystemKeys(documentId, summary)
    ensures forall k :: k in caller ==> last[k] == caller[k]
    ensures "document_id" !in caller && Truthy(documentId) ==> last["document_id"] == Str(documentId.value)
    ensures "summary" !in caller && Truthy(summary) ==> last["summary"] == Str(summary.value)
    ensures "ingested_at" !in caller ==> last["ingested_at"] == Str(ingestedAt)
  {
  }

  /** The merge rules pin the attribute set down completely. */
  lemma MergedAttributesUnique(attributes: Option<Attributes>, documentId: Option<string>,
                               summary: Option<string>, ingestedAt: string, m1: Attributes, m2: Attributes)
    requires IsMergedAttributes(attributes, documentId, summary, ingestedAt, m1)
    requires IsMergedAttributes(attributes, documentId, summary, ingestedAt, m2)
    ensures m1 == m2
  {
  }

  // ---------------------------------------------------------------- retrieve

  /** `request.max_results or settings.default_max_results`. */
  function EffectiveMaxResults(maxResults: Option<int>, defaultMaxResults: int): int {
    if maxResults.Some? && maxResults.value != 0 then maxResults.value else defaultMaxResults
  }

  /** For an accepted request the cap sent is the caller's value, within [1, 50], else the default. */
  lemma AcceptedMaxResults(req: RetrieveRequest, defaultMaxResults: int)
    requires ValidateRetrieve(req).Ok?
    ensures req.maxResults.Some? ==>
      EffectiveMaxResults(req.maxResults, defaultMaxResults) == req.maxResults.value
      && MinMaxResults <= req.maxResults.value <= MaxMaxResults
    ensures req.maxResults.None? ==> EffectiveMaxResults(req.maxResults, defaultMaxResults) == defaultMaxResults
  {
  }

  /**
   * `args` are the keyword arguments of the search call: the query and the
   * cap always, `filters` only for a non-empty attribute filter (forwarded
   * as given), `rewrite_query` only when the caller set it.
   */
  predicate IsSearchArgsFor(req: RetrieveRequest, defaultMaxResults: int, args: SearchArgs) {
    && args.query == req.query
    && args.maxNumResults == EffectiveMaxResults(req.maxResults, defaultMaxResults)
    && (args.filters.Some? <==> NonEmptyAttributes(req.attributesFilter))
    && (args.filters.Some? ==> args.filters == req.attributesFilter)
    && args.rewriteQuery == req.rewriteQuery
  }

  /** Fills the search keyword arguments one conditional entry at a time. */
  method BuildSearchArgs(req: RetrieveRequest, defaultMaxResults: int) returns (args: SearchArgs)
    ensures IsSearchArgsFor(req, defaultMaxResults, args)
  {
    args := SearchArgs(req.query, EffectiveMaxResults(req.maxResults, defaultMaxResults), None, None);
    if NonEmptyAttributes(req.attributesFilter) {
      args := args.(filters := req.attributesFilter);
    }
    if req.rewriteQuery.Some? {
      args := args.(rewriteQuery := req.rewriteQuery);
    }
  }

  /** A match survives the threshold unless its score is below it. */
  predicate Passes(r: SearchResult, threshold: Option<real>) {
    threshold.None? || !(r.score < threshold.value)
  }

  /** The matches that survive the threshold, in the order the search ranked them. */
  function Kept(results: seq<SearchResult>, threshold: Option<real>): seq<SearchResult> {
    if results == [] then []
    else
      var last := results[|results| - 1];
      Kept(results[..|results| - 1], threshold) + (if Passes(last, threshold) then [last] else [])
  }

  /** The texts of the parts of type "text", in order. */
  function TextParts(content: seq<ContentPart>): seq<string> {
    if content == [] then []
    else
      var last := content[|content| - 1];
      TextParts(content[..|content| - 1]) + (if last.kind == "text" then [last.text] else [])
  }

  /** The snippet text of a match: its text parts joined by a blank line. */
  function ChunkText(content: seq<ContentPart>): string {
    Join("\n\n", TextParts(content))
  }

  function ToChunk(r: SearchResult): Chunk {
    Chunk(r.fileId, r.filename, r.score, ChunkText(r.content), r.attributes)
  }

  /** The post-processing loop of retrieve: skip matches below the threshold, convert the rest. */
  method CollectChunks(results: seq<SearchResult>, threshold: Option<real>) returns (collected: seq<Chunk>)
    ensures |collected| == |Kept(results, threshold)|
    ensures forall j :: 0 <= j < |collected| ==> collected[j] == ToChunk(Kept(results, threshold)[j])
  {
    collected := [];
    var i := 0;
    while i < |results|
      invariant 0 <= i <= |results|
      invariant |collected| == |Kept(results[..i], threshold)|
      invariant forall j :: 0 <= j < |collected| ==> collected[j] == ToChunk(Kept(results[..i], threshold)[j])
    {
      var result := results[i];
      assert results[..i + 1][..i] == results[..i];
      i := i + 1;
      if !Passes(result, threshold) {
        continue;
      }
      collected := collected + [ToChunk(result)];
    }
    assert results[..i] == results;
  }

  // ---------------------------------------------------------------- properties of Kept

  /** Filtering distributes over concatenation, so relative order is never changed. */
  lemma {:induction false} KeptConcat(a: seq<SearchResult>, b: seq<SearchResult>, threshold: Option<real>)
    ensures Kept(a + b, threshold) == Kept(a, threshold) + Kept(b, threshold)
    decreases |b|
  {
    if b == [] {
      assert a + b == a;
    } else {
      var b' := b[..|b| - 1];
      assert (a + b)[..|a + b| - 1] == a + b';
      KeptConcat(a, b', threshold);
    }
  }

  /** Every kept match is one of the search's matches and reaches the threshold. */
  lemma {:induction false} KeptSound(results: seq<SearchResult>, threshold: Option<real>)
    ensures forall r :: r in Kept(results, threshold) ==> r in results && Passes(r, threshold)
  {
    if results != [] {
      var init := results[..|results| - 1];
      KeptSound(init, threshold);
      assert forall r :: r in init ==> r in results;
    }
  }

  /** Every match that reaches the threshold is kept. */
  lemma {:induction false} KeptComplete(results: seq<SearchResult>, threshold: Option<real>)
    ensures forall r :: r in results && Passes(r, threshold) ==> r in Kept(results, threshold)
  {
    if results != [] {
      var init := results[..|results| - 1];
      KeptComplete(init, threshold);
      assert results == init + [results[|results| - 1]];
    }
  }

  /** Without a threshold every match is kept, in order. */
  lemma {:induction false} KeptWithoutThreshold(results: seq<SearchResult>)
    ensures Kept(results, None) == results
  {
    if results != [] {
      KeptWithoutThreshold(results[..|results| - 1]);
    }
  }

  /** Filtering twice with the same threshold is filtering once. */
  lemma {:induction false} KeptIdempotent(results: seq<SearchResult>, threshold: Option<real>)
    ensures Kept(Kept(results, threshold), threshold) == Kept(results, threshold)
  {
    if results != [] {
      var init := results[..|results| - 1];
      var last := results[|results| - 1];
      var tail := if Passes(last, threshold) then [last] else [];
      KeptIdempotent(init, threshold);
      KeptConcat(Kept(init, threshold), tail, threshold);
      if Passes(last, threshold) {
        assert [last][..0] == [];
      }
    }
  }

  /** Selecting text parts distributes over concatenation, so their order is kept. */
  lemma {:induction false} TextPartsConcat(a: seq<ContentPart>, b: seq<ContentPart>)
    ensures TextParts(a + b) == TextParts(a) + TextParts(b)
    decreases |b|
  {
    if b == [] {
      assert a + b == a;
    } else {
      var b' := b[..|b| - 1];
      assert (a + b)[..|a + b| - 1] == a + b';
      TextPartsConcat(a, b');
    }
  }

  /** Every selected text comes from a part of type "text". */
  lemma {:induction false} TextPartsSound(content: seq<ContentPart>)
    ensures forall t :: t in TextParts(content) ==> ContentPart("text", t) in content
  {
    if content != [] {
      var init := content[..|content| - 1];
      TextPartsSound(init);
      assert forall p :: p in init ==> p in content;
    }
  }

  /** The text of every part of type "text" is selected. */
  lemma {:induction false} TextPartsComplete(content: seq<ContentPart>)
    ensures forall p :: p in content && p.kind == "text" ==> p.text in TextParts(content)
  {
    if content != [] {
      var init := content[..|content| - 1];
      TextPartsComplete(init);
      assert content == init + [content[|content| - 1]];
    }
  }

  /** The threshold test of the tests: of scores 0.95 and 0.60 only the first passes 0.8. */
  lemma ThresholdExample(a: SearchResult, b: SearchResult)
    requires a.score == 0.95 && b.score == 0.60
    ensures Kept([a, b], Some(0.8)) == [a]
  {
    assert [a, b][..1] == [a];
    assert [a][..0] == [];
    assert Passes(a, Some(0.8)) && !Passes(b, Some(0.8));
    assert Kept([a], Some(0.8)) == [a];
  }
}
