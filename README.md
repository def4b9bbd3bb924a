# context-db-mcp: the context store, modelled in Dafny

context-db-mcp is a context-memory server. A coding assistant calls it to
store text documents in a hosted OpenAI vector store and later to fetch the
passages most relevant to a query. This project models the component that
does the work, `OpenAIContextStore` and its request models:

- **Store resolution** (`ensure_vector_store`). The store is chosen by a fixed
  precedence: an explicit id, then the caller's store name, then the
  configured default id, then the configured default name. A name is looked
  up in the store list, in list order, and a new store is created when no
  store has it.
- **Ingest.** The content is uploaded under a chosen filename. The caller's
  attributes are merged with `document_id`, `summary` and `ingested_at`.
- **Retrieve.** The store is searched. Matches below the score threshold are
  dropped, ranked order is kept, and each match's text parts are joined into
  one snippet.
- **Request validation.** Content and query may not be blank. `max_results`
  must lie in [1, 50].

The remote service is modelled as a class, `Remote.RemoteService`. It holds:

- the stores its list call yields, newest first;
- whether that list call fails;
- logs of the create, search and upload calls it has received;
- the ranked matches every search returns;
- the terminal status every upload ends in.

`ContextStore.ContextStore` holds the settings and that service. Its methods
state the whole new state of the service. Ids of new stores and files are
built from counters of earlier creates and uploads (`vs_<n>`, `file_<n>`).
The two clock reads of `ingest` are parameters: `stampSeconds` for the
filename and `ingestedAt` for the attribute.

Files:

- `values.dfy`: Option, Result, errors, attribute values.
- `strings.dfy`: the Python string operations used. These are `strip()` over
  Python's whitespace set, ASCII `lower()`, `replace`, `join` and `str(int)`,
  the last with a parser and a round-trip lemma.
- `remote.dfy`: the service.
- `requests.dfy`: request and response records, validators, filename
  derivation, attribute merge, search arguments, and match post-processing.
- `context_store.dfy`: resolution as functions with their lemmas, and the class.
- `scenarios.dfy`: two client runs that mirror the unit tests
  `test_retrieve_chunks` and `test_ingest_document`. They are proved from the
  contracts alone.

### Behaviour as coded

Where a reader might expect otherwise, the model follows the code:

- Out-of-range `max_results` values are rejected by validation, not clamped.
- Attribute merging uses `setdefault`, so a caller-supplied `document_id`,
  `summary` or `ingested_at` wins over the system value.
- `attributes_filter` is only forwarded to the remote search. No matches are
  filtered on attributes locally.
- An explicit store id is still fetched from the service. An unknown id gives
  `StoreNotFound`.
- An upload whose status is not `completed` is reported with that status. No
  error is raised.
- When the list call fails, the name lookup answers "none", so resolution
  creates a store with that name.

## Model

| member | source | states |
|---|---|---|
| Requests.ValidateIngest | src/context_db_mcp/vector_store.py:63-67 | an ingest request is accepted iff its content has a non-whitespace character; an accepted request is returned unchanged (not trimmed); otherwise the error is EmptyContent |
| Requests.ValidateRetrieve | src/context_db_mcp/vector_store.py:93-116 | accepted iff max_results is absent or in [1, 50] and the query has a non-whitespace character; the bounds error comes first, then EmptyQuery; an accepted request is unchanged |
| Requests.MaxResultsEdges | tests/test_server.py:139-150 | 1 and 50 are accepted, 0 and 51 are rejected with MaxResultsOutOfRange |
| Strings.Strip | src/context_db_mcp/vector_store.py:65 | `str.strip()` as the trailing strip of the leading strip; what it keeps and drops is stated by TrimStart, TrimEnd and StripEmptyIffBlank |
| Strings.StripEmptyIffBlank | src/context_db_mcp/vector_store.py:65 | `strip()` gives the empty string exactly when every character is Python whitespace |
| Strings.TrimStart | src/context_db_mcp/vector_store.py:65 | the leading strip leaves a suffix that starts with a non-space, and only whitespace was removed |
| Strings.TrimEnd | src/context_db_mcp/vector_store.py:114 | the trailing strip leaves a prefix that ends with a non-space, and only whitespace was removed |
| Requests.Slug | src/context_db_mcp/vector_store.py:351 | the slug has min(len, 40) characters, none a space or an ASCII capital: spaces became `-`, capitals became lower case, every other character is kept |
| Requests.DeriveFilename | src/context_db_mcp/vector_store.py:346-353 | `_derive_filename`: the rules proved in FilenameRules and DerivedFilenameShape |
| Requests.UploadFilename | src/context_db_mcp/vector_store.py:230 | `request.filename or self._derive_filename(request)`: the rules proved in FilenameRules |
| Requests.FilenameRules | src/context_db_mcp/vector_store.py:346-353 | a truthy caller filename is used verbatim; else document_id + ".txt"; else slug + "-" + timestamp + ".txt" with a non-empty slug of at most 40 characters; else "context-" + timestamp + ".txt" |
| Requests.DerivedFilenameShape | src/context_db_mcp/vector_store.py:348-353 | a made-up filename ends in ".txt"; without a document id, the len(str(stamp)) characters before ".txt", preceded by "-", parse back to the stamp |
| Strings.IntDecimal | src/context_db_mcp/vector_store.py:352-353 | `str(int)` of the timestamp; it parses back to its integer, by IntDecimalRoundTrip |
| Strings.NatDecimalRoundTrip | src/context_db_mcp/vector_store.py:352-353 | the decimal digits written for a timestamp read back as the same number |
| Strings.IntDecimalRoundTrip | src/context_db_mcp/vector_store.py:352-353 | `str(int)` of any integer, sign included, parses back to that integer |
| Requests.SetDefault | src/context_db_mcp/vector_store.py:233 | `dict.setdefault`: the key set gains k; every existing pair is kept, so a key already present keeps its value; a missing k gets the default |
| Requests.MergeAttributes | src/context_db_mcp/vector_store.py:231-236 | the merged set holds exactly the caller keys plus document_id and summary (when truthy) plus ingested_at; every caller pair is unchanged; a system value appears only where the caller gave none; the set is never empty, so the upload never receives None |
| Requests.MergeStepsAgree | src/context_db_mcp/vector_store.py:232-236 | the three `setdefault` steps in sequence yield the merge rules |
| Requests.MergedAttributesUnique | src/context_db_mcp/vector_store.py:231-236 | the merge rules determine the attribute set uniquely |
| Requests.EffectiveMaxResults | src/context_db_mcp/vector_store.py:277 | `request.max_results or settings.default_max_results`: the cap proved in AcceptedMaxResults |
| Requests.AcceptedMaxResults | src/context_db_mcp/vector_store.py:277 | for an accepted request the cap sent is the caller's max_results, within [1, 50], or the configured default when absent |
| Requests.BuildSearchArgs | src/context_db_mcp/vector_store.py:277-285 | the search gets the query and the cap always, `filters` exactly when attributes_filter is non-empty, its `"attributes"` entry being the filter as given, `rewrite_query` exactly when it is not None |
| Requests.CollectChunks | src/context_db_mcp/vector_store.py:295-308 | the chunks are, in order, the conversions of exactly the matches that reach the threshold; each copies file id, filename, score and attributes and joins the "text" parts with a blank line |
| Requests.ToChunk | src/context_db_mcp/vector_store.py:301-307 | one chunk per match, copying file id, filename, score and attributes, with ChunkText as its text; used by the CollectChunks ensures |
| Requests.ChunkText | src/context_db_mcp/vector_store.py:299 | the text parts joined by a blank line; its contents are stated by JoinContents, JoinLength and the TextParts lemmas |
| Strings.Join | src/context_db_mcp/vector_store.py:299 | `sep.join(parts)`; stated by JoinContents and JoinLength |
| Strings.JoinContents | src/context_db_mcp/vector_store.py:299 | a join is the first part followed, in order, by every later part with the separator in front of it, so it holds every part once and one separator between neighbours |
| Strings.JoinLength | src/context_db_mcp/vector_store.py:299 | a join is as long as its parts together plus one separator per pair of neighbours |
| Requests.TextPartsConcat | src/context_db_mcp/vector_store.py:299 | selecting the parts of type "text" distributes over concatenation, so their order is kept |
| Requests.TextPartsSound | src/context_db_mcp/vector_store.py:299 | every selected text is the text of a part of type "text" |
| Requests.TextPartsComplete | src/context_db_mcp/vector_store.py:299 | the text of every part of type "text" is selected |
| Requests.Kept | src/context_db_mcp/vector_store.py:296-298 | the matches the threshold keeps; stated by KeptConcat, KeptSound, KeptComplete, KeptWithoutThreshold and KeptIdempotent |
| Requests.KeptConcat | src/context_db_mcp/vector_store.py:296-298 | threshold filtering distributes over concatenation, so it never reorders matches |
| Requests.KeptSound | src/context_db_mcp/vector_store.py:297-298 | every kept match came from the search and is not below the threshold |
| Requests.KeptComplete | src/context_db_mcp/vector_store.py:297-298 | every match not below the threshold is kept |
| Requests.KeptWithoutThreshold | src/context_db_mcp/vector_store.py:297 | with no threshold every match is kept, in order |
| Requests.KeptIdempotent | src/context_db_mcp/vector_store.py:296-298 | filtering again with the same threshold changes nothing |
| Requests.ThresholdExample | tests/test_server.py:216-255 | with threshold 0.8, of scores 0.95 and 0.60 only the first survives |
| ContextStore.StoreReference | src/context_db_mcp/vector_store.py:176-197 | the precedence explicit id, caller name, default id, default name; its consequences are ExplicitIdWins, NoCreateFromCallerName and UnconfiguredFails |
| ContextStore.Resolution | src/context_db_mcp/vector_store.py:168-205 | the store `ensure_vector_store` returns from the service state before the call; stated by ExplicitIdWins, ReusesFirstMatch and UnconfiguredFails, and tied to the class by EnsureVectorStore |
| ContextStore.IngestMetadata | src/context_db_mcp/vector_store.py:220-222 | `{}` metadata exactly when the request names a store, else none; used by the Ingest ensures |
| ContextStore.FirstNamedSpec | src/context_db_mcp/vector_store.py:340-344 | the name lookup finds nothing iff no listed store has the name, and otherwise finds the first such store in list order |
| ContextStore.ContextStore.FindVectorStoreByName | src/context_db_mcp/vector_store.py:331-344 | returns None when the list call fails, else the first listed store whose name equals the argument, or None |
| ContextStore.ExplicitIdWins | src/context_db_mcp/vector_store.py:176-178 | a truthy explicit id is fetched from the service as given, and no store is created |
| ContextStore.CreatesIffNoMatch | src/context_db_mcp/vector_store.py:180-205 | on either name path exactly one store, with that name, is created iff listing fails or no listed store has the name; on the id and error paths none is |
| ContextStore.ReusesFirstMatch | src/context_db_mcp/vector_store.py:199-202 | on a name path with a working list, the first listed store with the name is returned |
| ContextStore.UnconfiguredFails | src/context_db_mcp/vector_store.py:195-197 | with no id, no name and no defaults resolution fails with NoStoreConfigured and creates nothing |
| ContextStore.NoCreateFromCallerName | src/context_db_mcp/vector_store.py:272-275 | resolving without a caller name can create a store only under the configured default name |
| ContextStore.ContextStore.EnsureVectorStore | src/context_db_mcp/vector_store.py:168-205 | returns the store the precedence selects, judged on the state before the call; the service changes only by the one create (prepended to the list, logged with its metadata) that the resolution calls for |
| ContextStore.ContextStore.Ingest | src/context_db_mcp/vector_store.py:217-267 | resolves with empty metadata when a name is given; on failure nothing is uploaded; otherwise exactly one upload goes to the resolved store with the chosen filename, the content, the MIME type, the merged attributes and the chunking strategy; the response echoes store id and name, the new file id, the prepared filename, the final status whatever it is, and the stored attributes |
| ContextStore.ContextStore.Retrieve | src/context_db_mcp/vector_store.py:269-314 | resolves with no caller name; exactly one search goes to the resolved store with the arguments above; the response carries the store id, the original query and the converted kept matches in ranked order |
| ContextStore.ContextStore.GetVectorStoreInfo | src/context_db_mcp/vector_store.py:316-329 | resolves with no caller name and reports the resolved store's id and name, or the resolution error |
| ContextStore.ContextStore.Connect | src/context_db_mcp/vector_store.py:153-166 | the store is built iff an API key is set; otherwise the error is MissingApiKey |

## Left out

- The OpenAI SDK calls are replaced by `Remote.RemoteService`. Left out with them are the SDK's polling inside `upload_and_poll`, pagination, retries, timeouts, and transport or authentication failures.
- The remote search returns a fixed list of matches. It does not depend on the uploads, the cap, the filters or query rewriting. So the ingest-then-retrieve round trip is not modelled.
- List calls are not logged, because they are read-only. So the model does not state that the explicit-id path makes no list call; it states only that no store is created there.
- Search arguments are recorded, not applied. Attribute filtering happens inside the service, and the model does not reproduce it.
- An upload keeps the attributes it was given. The real service may normalize them.
- `_prepare_upload` (UTF-8 encoding into a byte buffer) is not modelled. The upload record keeps the content as text.
- Requests.Slug: `str.lower()` is modelled on ASCII letters only. Other characters are kept unchanged, where Python also folds non-ASCII capitals.
- Scores are reals. NaN and the other floating-point corner cases are not modelled.
- `datetime.now()` readings are parameters, and the `isoformat()` text is an opaque string.
- Logging has no behavioural effect and is left out.
- The Pydantic machinery is not modelled (`extra="forbid"`, type coercion, field metadata). Only the validation predicates are stated.
- Concurrent first-time resolutions of one name can create two stores. Concurrency is not modelled.
- server.py (tool registration), config.py (settings loading; the configured default for `max_results` is a field of `Requests.Settings`) and test_mcp_connection.py are not part of this model.
