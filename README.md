# FINWISE query routing, ingestion and tool helpers in Dafny

FINWISE is a Streamlit question-answering app over financial documents.
This project models its deterministic core and proves properties of it.

- **The query router of `app.py`.** Streamlit re-runs the whole script on
  every interaction. Everything in flight therefore lives in four session
  fields: `pending_query`, `web_permission`, `force_web` and `last_query`.
  - `Router.Step` is one script pass written as a function over a
    `SessionState` record.
  - `Router.Session` is the same pass as a class. Its methods assign the
    four fields in place.
  - A pass takes the text-box value, an optional Yes/No click, the
    document answer and whether the math attempt succeeded. It returns
    the new state and the observable effects of the pass, in order.
  - The two classifiers `get_intent` and `is_math_query` are in `Intent`.
- **Ingestion bookkeeping of `rag.py` (`ingest_documents`).**
  - md5 de-duplication of texts against the ids already stored.
  - Chunking, the ids `"{hash}_{k}"` and batches of five.
  - The returned count.
  - The vector store is a class holding a map from id to chunk, with
    upsert semantics.
- **`retrieve_answer`.** It returns the `"NOT_FOUND"` sentinel when
  nothing is retrieved. Otherwise it returns the stripped LLM answer.
- **`tools.py`.**
  - Ticker extraction of `yfinance_tool`: phrase removal, an ordered
    mapping lookup, then a blacklist fallback.
  - Its error returns.
  - `list(dict.fromkeys(urls))` and the error defaults of
    `web_search_full`.

The Python string primitives the code uses are written out in `Text`:

- `str.isspace` (and regex `\s`), `strip`, ASCII `lower` and `upper`.
- `in` on strings, `replace`, `split()` and `str(int)`.

External services are parameters of the model:

- md5, the text splitter and the LLM are function-typed parameters.
- The yfinance lookup and the DuckDuckGo search are outcome datatypes.
- The math attempt and the document answer are inputs of each pass.

Behaviour of the code that the model keeps as written:

- There is no word-problem category.
- `get_intent` is computed (app.py:174) but never used to dispatch.
  Price and advisor queries go through the same document/consent path
  as general ones. `yfinance_tool` and `finance_advisor_tool` are never
  called by the router.
- `retrieve_answer` does not post-filter the LLM's answer.
- There are no listing or delete operations for stored files.
- "Found" means only that the answer does not contain `"NOT_FOUND"`.
- The Yes click is seen in the pass that draws the buttons. That pass has
  already searched the documents again.
- `existing_ids` is read once before the texts are hashed, so a new text
  given twice in one call is chunked and stored twice.
- The router calls `retrieve_answer` (app.py:191) and `web_search_full`
  (app.py:181, 220) without a `try`. Both can raise: the retriever and the
  LLM (rag.py:91, 104), and the LLM call of `web_search_full` (tools.py:195),
  which sits after its own `try`. A raising call ends the pass with the
  session fields as they were. A forced web search that keeps failing
  therefore stays forced, and every later pass ignores the text box and
  retries it.
- `ingest_documents` calls `add_documents` (rag.py:69) without a `try`,
  and app.py:84 does not catch either. When a call raises, the earlier
  batches stay stored. A later upload of the same text is then skipped,
  because its hash is inside a stored id, so that document stays
  incomplete.

Modules:

- `wrappers.dfy`: `Option`.
- `seqs.dfy`: sequence identities the proofs cite.
- `text.dfy`: the string primitives.
- `intent.dfy`: the two classifiers.
- `router.dfy`: the session router.
- `rag.dfy`: ingestion and retrieval.
- `tools.dfy`: ticker extraction, URL de-duplication and search defaults.

## Model

| member | source | states |
|---|---|---|
| Text.ContainsIff | app.py:106 | The left-to-right scan behind Python's `n in s` succeeds exactly when `n` occurs at some index of `s`. |
| Text.TrimLeftSpec | app.py:111 | Left stripping keeps a suffix of the input and drops only whitespace. |
| Text.TrimRightSpec | app.py:111 | Right stripping keeps a prefix of the input, drops only whitespace, and leaves no trailing whitespace. |
| Text.StripSpec | app.py:111 | `strip()` yields the infix left after removing whitespace at both ends, and it neither starts nor ends with whitespace. |
| Text.StripEmptyIff | app.py:111-113 | A string strips to empty exactly when it is all whitespace. |
| Text.StripIdempotent | app.py:111 | Stripping a stripped string changes nothing. |
| Text.WordsSpec | tools.py:68 | `split()` yields non-empty words without whitespace, and their concatenation is exactly the input's non-whitespace characters, in order. |
| Text.WordsOfWord | tools.py:68 | A non-empty run without whitespace splits into exactly one word, itself. |
| Text.WordsOfSpace | tools.py:68 | A whitespace-only string splits into no words. |
| Text.WordsSkipSpace | tools.py:68 | Leading whitespace does not change the words. |
| Text.WordsSplitAtSpace | tools.py:68 | Every whitespace character is a word boundary: the words of `a + c + b`, with `c` whitespace, are the words of `a` followed by the words of `b`. With the two rows above this fixes `split()` on every string. |
| Text.DigitsInjective | rag.py:68 | Distinct chunk indices render as distinct decimal strings. |
| Intent.GetIntent | app.py:104-108 | Definition: the lower-cased query is tested for a price keyword, then for an advisor keyword, else "general". Its properties are the next two rows. |
| Intent.GetIntentIgnoresCase | app.py:104-108 | `get_intent` gives the same category for a query, its lower-case and its upper-case form. |
| Intent.PriceBeforeAdvisor | app.py:106-107 | A query containing both a price keyword and an advisor keyword is a price query. |
| Intent.ReplaceKeepsMathClass | app.py:117 | Replacing `**` with `^` keeps a string inside the regex character class exactly when it was inside it, and keeps it non-empty. |
| Intent.IsMathQuery | app.py:110-119 | Definition: strip, reject empty, test the math keywords on the lower-cased text, then full-match the character class after replacing `**` with `^`. Characterised by `IsMathQueryIff`. |
| Intent.IsMathQueryIff | app.py:110-119 | `is_math_query(s)` holds iff the stripped `s` is non-empty and either contains a math keyword case-insensitively or consists only of digits, whitespace and `+-*/^.()x=`. |
| Intent.BlankIsNotMath | app.py:111-113 | Empty and whitespace-only input is never a math query. |
| Router.Session.constructor | app.py:29-32 | A new session has no pending query, unset permission and no forced search (app.py:29-32), and an empty last query (app.py:122-123). |
| Router.Session.Run | app.py:127-230 | One pass updates the four fields in place to the state `Step` specifies, emits `Step`'s effects, and preserves `Inv`. |
| Router.Session.TakeInput | app.py:128-136 | Intake: during a forced web search the input is ignored. Otherwise new non-empty input becomes the pending query and resets permission and `force_web`. |
| Router.Session.HandlePending | app.py:138-172 | A math query is attempted and clears `pending_query` and `force_web`. Other queries go to the consent logic. |
| Router.Session.ResolveGeneral | app.py:177-230 | The forced web search, the document search with its buttons, the granted search and the cancellation each update the fields as `Resolve` specifies, including the passes in which a search raises. |
| Router.Intake | app.py:128-136 | Definition of the intake: keep the state during a forced search, otherwise take new non-empty input as the pending query and reset consent. Its properties are `NewQueryResets` and `SameInputKeepsState`. |
| Router.Dispatch | app.py:138-175 | Definition: nothing without a pending query; a math query is attempted and clears `pending_query` and `force_web`; any other query goes to `Resolve`. Its properties are `MathEndsTurn` and `StepPreservesInv`. |
| Router.Resolve | app.py:177-230 | Definition of the four branches for a non-math query: forced web search, document search with the consent buttons, granted search, cancellation. A raising document search ends the pass with the state unchanged. Its properties are the lemmas below. |
| Router.WebOutcome | app.py:180-186 | Definition: one web search, then the three fields cleared; when the search raises the fields keep their values. |
| Router.Step | app.py:127-230 | Definition of one script pass: intake, then dispatch. Every lemma below is about it. |
| Router.InitInv | app.py:29-32 | The initial session satisfies the invariant and has nothing pending. |
| Router.StepPreservesInv | app.py:127-230 | Every pass preserves the invariant. `force_web` implies permission 'yes' and a pending non-math query. A pending query is never empty. |
| Router.ForcedPassIgnoresInput | app.py:128-186 | During a forced web search, the pass is the same whatever the input, the buttons or the document search say. It is exactly one web search for the pending query. When it returns, all three fields are cleared; when it raises, the session is unchanged. |
| Router.FailingWebSearchStaysForced | app.py:128-186 | While `web_search_full` keeps raising, any number of passes leave a forced session unchanged and still forced, and each pass retries the same web search. |
| Router.NewQueryResets | app.py:131-136 | New non-empty input outside a forced search resets the session. The pass then behaves exactly as on a fresh session. |
| Router.SameInputKeepsState | app.py:127-136 | Empty or repeated input outside a forced search leaves the fields unchanged before dispatch. |
| Router.MathEndsTurn | app.py:141-172 | A math query clears `pending_query` and `force_web` whether or not it was solved, with no document search and no consent. |
| Router.DocumentAnswerClearsOnlyPending | app.py:188-198 | With permission unset, an answer without "NOT_FOUND" is shown and clears only `pending_query`. Consent is never asked. |
| Router.NotFoundSuspends | app.py:199-215 | A "NOT_FOUND" answer with no click leaves the state as intake made it, and asks for consent. |
| Router.DocSearchFailureRetries | app.py:188-192 | When `retrieve_answer` raises, the pass ends with the state as intake made it. The next pass with the same or an empty text box searches the documents for the same query again. |
| Router.ConsentYesScenario | app.py:177-209 | The passes are: query, then Yes, then rerun. Yes sets 'yes' and `force_web`. The rerun performs exactly one web search. If it returns, pending, permission and `force_web` are cleared and `last_query` is kept; if it raises, the session stays forced. |
| Router.ConsentNoScenario | app.py:188-230 | The passes are: query, then No, then rerun. No records the refusal. The next pass cancels and clears permission and pending but keeps `last_query`. The same text then triggers nothing, and no web search ever happens. |
| Router.EmptyRetrievalAsksConsent | app.py:188-202 | When retrieval finds nothing, the sentinel answer makes the pass ask for consent and leave the session suspended. |
| Rag.ChunkIdInjective | rag.py:68 | For underscore-free hashes, `f"{hash}_{k}"` determines both the hash and the index. |
| Rag.CollectChunksSingle | rag.py:46-54 | A text adds nothing to `all_chunks` exactly when its hash is already inside a stored id, and otherwise adds its own chunks in splitter order. |
| Rag.CollectChunksSnoc | rag.py:41-54 | One more text extends `all_chunks` by exactly that text's contribution. |
| Rag.CollectChunksOrder | rag.py:41-54 | `all_chunks` is built text by text, in input order: collecting over a concatenation of text lists is the concatenation of the collections. |
| Rag.CollectChunks | rag.py:41-54 | Definition of `all_chunks` after the first loop. Its properties are the rows below. |
| Rag.RepeatedTextChunkedTwice | rag.py:32-48 | A new text given twice in one call has its chunks collected twice. |
| Rag.CollectChunksProvenance | rag.py:41-54 | Every collected chunk's `file_id` is the hash of one of the input texts, and that hash is inside no pre-existing id. |
| Rag.ChunkIdContainsHash | rag.py:46 | A chunk id contains the hash it was made from, so the skip check sees it. |
| Rag.ChunkIds | rag.py:66-68 | Definition: chunk `k` of `all_chunks` gets the id `f"{file_id}_{k}"`. Its properties are `ChunkIdsDistinct` and `ChunkIdsFresh`. |
| Rag.IdsFromSlice | rag.py:68 | The ids built for the batch at offset `i` (`enumerate(batch, start=i)`) are the global ids of its chunks. |
| Rag.ChunkIdsDistinct | rag.py:65-70 | The ids of one ingestion are pairwise distinct. |
| Rag.ChunkIdsFresh | rag.py:46-68 | No new id equals a pre-existing id. |
| Rag.Upsert | rag.py:69 | Definition: the ids are written one after the other, each overwriting an id already present. Its properties are the four rows below. |
| Rag.UpsertValues | rag.py:69 | After upserting distinct ids, each holds its own chunk, and every other stored id keeps its old chunk. |
| Rag.UpsertAppend | rag.py:66-69 | Upserting batch by batch equals upserting everything at once. |
| Rag.UpsertKeys | rag.py:69 | After an upsert the store's ids are the old ids plus the new ones. |
| Rag.UpsertFreshSize | rag.py:64-79 | Upserting distinct fresh ids grows the store by exactly their number. |
| Rag.Batches | rag.py:66-67 | Definition of the slices `s[i:i+5]` for `i` in `range(0, len(s), 5)`. Its properties are the next three rows. |
| Rag.BatchesPartition | rag.py:63-67 | `range(0, n, 5)` slicing yields non-empty batches of at most 5 that concatenate back to the whole list. |
| Rag.BatchesStep | rag.py:66-67 | The batch at offset `i` is `s[i:i+5]` and the rest follow from `i+5`. |
| Rag.BatchesSplit | rag.py:66-67 | Cutting the list at a multiple of 5 cuts its batches there: the batches before the cut are those of the prefix. |
| Rag.VectorStore.constructor | rag.py:19 | A store opens holding the entries persisted by earlier runs (none on a fresh directory), with no calls logged. |
| Rag.VectorStore.Ids | rag.py:32-33 | `existing_ids` is exactly the set of stored ids. |
| Rag.VectorStore.AddDocuments | rag.py:69 | `add_documents(batch, ids)` upserts each id with its chunk and changes nothing else. |
| Rag.SplitTexts | rag.py:36-54 | The splitting loop, with the inner append loop, produces exactly the collected chunk list. |
| Rag.AddInBatches | rag.py:63-70 | The batch loop upserts every chunk under its global-index id, one `add_documents` call per batch of five, in order. When the call for batch number `failAt` raises, exactly the chunks of the earlier batches are stored and it reports the failure. |
| Rag.Ingest | rag.py:26-85 | The store becomes the old store upserted with the new chunks, all of them or those before the failing batch, and grows by exactly that many. A failure is reported exactly when a batch raises. Otherwise the return value is both the number of chunks and count-after minus count-before. When no chunk is produced, the store is untouched and 0 is returned. |
| Rag.NewChunksGrowStore | rag.py:64-82 | The chunks of one ingestion land under fresh distinct ids, so upserting any prefix of them grows the store by exactly its length. |
| Rag.FreshDistinctIds | rag.py:41-68 | For md5 hashes, the ids of one ingestion are pairwise distinct and none is already stored. |
| Rag.PartialIngestIsPermanent | rag.py:46-69 | After a failing batch, a text with a chunk stored before the failure is skipped by any later ingestion, and its chunks from the failing batch on are not in the store. |
| Rag.CollectedHasChunkOf | rag.py:41-54 | A new text that splits into at least one chunk has a chunk carrying its hash in `all_chunks`. |
| Rag.ReingestIsSkipped | rag.py:46-48 | A text stored by an earlier ingestion is skipped when it is ingested again. |
| Rag.JoinContainsParts | rag.py:101 | The joined context contains every retrieved text. |
| Rag.RetrieveAnswer | rag.py:87-106 | Definition: the sentinel when nothing is retrieved, otherwise the stripped LLM answer to the prompt. Its properties are the next two rows. |
| Rag.EmptyRetrievalIsNotFound | rag.py:93-95 | With no retrieved documents the answer is exactly "NOT_FOUND". |
| Rag.RetrievedAnswerIsGrounded | rag.py:101-106 | Otherwise the prompt contains every retrieved text and the question, and the answer is the stripped LLM output, unfiltered. |
| Tools.CleanQuery | tools.py:40 | Definition: the three phrases removed in order, case-sensitively, then `strip()` and `upper()`. |
| Tools.CleanQueryShape | tools.py:40 | The cleaned query has no lower-case ASCII letter and no whitespace at either end. |
| Tools.MatchMapping | tools.py:57-64 | The ticker is the symbol of the first entry, in insertion order, whose key occurs in the cleaned query. It is none iff no key occurs. |
| Tools.FirstEligibleWord | tools.py:66-74 | The ticker is the first word not in the blacklist. It is none iff every word is blacklisted. |
| Tools.ExtractTicker | tools.py:40-78 | A mapping match wins. Without one, the first eligible word of the cleaned query is used. No ticker means neither exists, and a found ticker is never empty. |
| Tools.ShadowedEntries | tools.py:43-64 | Because "HDFC" and "ICICI" are checked first, "HDFC BANK" and "ICICI BANK" are never the first match. |
| Tools.ContainsTransitive | tools.py:61 | A string containing a key also contains every prefix of that key. |
| Tools.YFinanceTool | tools.py:38-147 | The quote service is called iff a ticker was found, and with the ticker `ExtractTicker` gives: the first matching mapping entry's symbol, otherwise the first eligible word. Without a ticker, an exception or no price, the result is "". A report starts with `**`. "NO_TICKER" is never returned. |
| Tools.ReportStartsWithStar | tools.py:127-141 | The stripped report starts with `**`. |
| Tools.Dedup | tools.py:167 | Definition of `list(dict.fromkeys(urls))`: each URL is kept unless it is already in the result. Its properties are the next three rows. |
| Tools.DedupSpec | tools.py:166-167 | `list(dict.fromkeys(urls))` has no duplicates and has the same elements as its input. It lists them in order of first occurrence. |
| Tools.DedupOfDistinct | tools.py:167 | A duplicate-free list is returned unchanged. |
| Tools.DedupIdempotent | tools.py:167 | De-duplicating twice equals de-duplicating once. |
| Tools.WebSearchSources | tools.py:153-181 | On an exception, the context is the timeout apology and there are no URLs or sources. Otherwise the URLs are duplicate-free, come from the search, and include every URL found. |

## Left out

- Streamlit rendering, spinners, subheaders and the sidebar (file upload, PDF and text extraction, the stored-file list): UI and file I/O. `st.rerun()` is modelled only as the `Rerun` effect; the rerun itself is the next call of `Step`.
- sympy parsing, solving and evaluation: a foreign library with float results. The outcome is the per-pass `mathSolved` input, and a missing sympy counts as an unsolved attempt.
- `retrieve_answer` and `web_search_full` as called by the router: the document search is a per-pass input (`docReply`, an answer or an exception) and the web search is an effect (`WebSearch`) plus whether it raises. `retrieve_answer` itself is modelled in `Rag`.
- Router.Session.Run: an exception in the math branch is not modelled, because sympy errors are caught at app.py:168-170 and nothing else there can raise.
- Rag.Ingest: a raising `add_documents` call is assumed to store none of its own batch, since the embeddings are computed before Chroma writes. Exceptions from `vectorstore.get()` (rag.py:32), md5, the splitter and the first `_collection.count()` (rag.py:64) are not modelled; they raise before anything is stored. A raise of the second `_collection.count()` (rag.py:78) is not modelled either: it comes after every batch is stored, so the store is as on success, but the caller gets an exception instead of the count.
- The top-5 similarity search, the embeddings, the Chroma persistence and the LLM: foreign services. Retrieved texts and the LLM are parameters.
- md5 and `RecursiveCharacterTextSplitter`: foreign functions given as parameters. The only thing assumed about md5 is that it yields 32 lower-case hex digits, so a hash contains no `_`.
- Progress-bar percentages, `time.sleep` and all logging: UI and timing only.
- The yfinance quote lookup and its number formatting (prices, market cap, P/E, dividend yield, dates): network calls and float formatting. The lookup's result is a `Quote` value.
- The DuckDuckGo call, the two regular-expression scans for URLs and source names, and the LLM prompt of `web_search_full`: network and regex-engine details. Their results are the fields of `SearchOutcome`.
- Tools.WebSearchSources: the "Based on sources" names are kept as a set, because `", ".join(set(sources))` has no specified order.
- `finance_advisor_tool`: prompt building around an LLM call, and never called by the router.
- `lower()` and `upper()` act on ASCII letters only; Python's full Unicode case mapping is not modelled.
- Router.Session.Run: the effects name what happens, not what is printed; the message texts are not modelled. `WebSearch(q)` stands for the search and the display of its answer (app.py:181-183 and 220-222), because the web answer's text is not an input of the pass; only the document answer, which the router tests for "NOT_FOUND", is.
