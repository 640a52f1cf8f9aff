# ScalerAssist core, modelled in Dafny

ScalerAssist is a retrieval-augmented chatbot. It answers questions about an
academic institution's documents. Most of it is glue around hosted services: a
vector index, an embedding model, an LLM and an evaluation framework. This
project models the parts of its own logic that can be stated precisely, and
proves properties of them.

- **Text normaliser** (`clean_text`, src/text_cleaner.py). It is a fixed chain of
  `re.sub` passes followed by `strip()`.
  - `Sub(p, s)` models one `re.sub`: a left-to-right scan that replaces each
    non-overlapping match of pattern `p`.
  - `MatchLen(p, s)` is the match the regex engine finds when it tries `p` at the
    first character. It is worked out per pattern, including backtracking. For
    example, `\n\s*\n` ends at the last line break of the whitespace run.
  - The model proves:
    - the boilerplate and non-ASCII passes only delete characters;
    - what each pattern removes and what it keeps;
    - the whitespace pass leaves single plain spaces, so the blank-line pass
      never applies;
    - the result is ASCII, holds no whitespace other than plain spaces, and is
      stripped at both ends;
    - after the tag pass no tag is left anywhere in the text.
  - Each pass runs once, in the order written. The repeated-character pass does
    not look again at what its deletions bring together, so a run such as "----"
    can remain in the output. `CleanNormalizedLeavesDashRun` proves that k + 1
    dashes with a doubled dot between each two come out as k + 1 dashes; for
    k = 3 (`DashDotsThree`) that is "-..-..-..-" cleaned to "----".
- **Conversation memory.**
  - `RAGChainWrapper` (src/hist_rag_chain.py) keeps one buffer.
  - `HybridMemory` and `HybridRAGChainWrapper` (src/hist_rag_chain_v2.py) keep a
    summary memory and a window memory. Each has its own log, and every turn is
    appended to both.
  - These are classes with `seq<Message>` fields, whose methods are proved against
    pure functions (`Step`, `CombinedHistory`, `LogsAfterCall`, `BufferAfter`).
    The lemma `LockStep` is about runs of operations, replayed by `Replay`.
  - The retrieval chain is a function parameter; its outcome may be an exception.
  - What the LangChain memories derive from their logs is a `MemoryBackend` of
    functions: the summary variable, the window contents for a given `k`, and the
    `str` of a message list.
- **Context formatting** (`format_inputs`, src/rag_chain.py). It joins the page
  contents with a blank line and passes the question through.
- **Upsert records** (src/pinecone_utils.py lines 18-23). They have ids
  "doc-<i>", the embedding vectors and the text as metadata. The ids are proved
  distinct.

On clearing the hybrid memory: a combined history that is empty right after
`clear` depends on the library. `ClearedHistory` proves it is empty exactly when
the summary memory's variable for an empty log is falsy and the window of an
empty log is empty. A summary memory created with `return_messages=True` reports
a one-element list for an empty summary, and that list is truthy. With such a
memory, the history after `clear` is that one message.

## Model

| member | source | states |
|---|---|---|
| `TextCleaner.PageMarkerLen` | src/text_cleaner.py:18 | a match length within the text, and a match only where "page" (any case) begins it |
| `TextCleaner.CopyrightLen` | src/text_cleaner.py:19 | a match only where the copyright sign begins the text |
| `TextCleaner.UrlLen` | src/text_cleaner.py:20 | a match only where 'w' or 'h' begins the text |
| `TextCleaner.HtmlTagLen` | src/text_cleaner.py:21 | a match fits in the text, is at least three characters, begins with '<' and ends with '>' |
| `TextCleaner.RepeatedSpecialLen` | src/text_cleaner.py:22 | a match fits in the text, is at least two characters, begins with a special character and stops where the copies of that character stop |
| `TextCleaner.BlankLineLen` | src/text_cleaner.py:24 | a match is either absent or at least two characters, beginning and ending with a line break |
| `TextCleaner.MatchLen` | src/text_cleaner.py:18-25 | every match fits in the text, begins with a character its pattern can begin with, and is at least as long as its replacement |
| `TextCleaner.Sub` | src/text_cleaner.py:18-25 | no pass lengthens the text (no replacement is longer than its match) |
| `TextCleaner.Strip` | src/text_cleaner.py:26 | the result neither begins nor ends with whitespace, is no longer than its input, and uses only its input's characters |
| `TextCleaner.RemoveBoilerplate` | src/text_cleaner.py:18-22 | the five boilerplate passes never lengthen the text |
| `TextCleaner.CleanNormalized` | src/text_cleaner.py:18-26 | the passes and the strip give a text no longer than their input that neither begins nor ends with whitespace |
| `TextCleaner.CleanText` | src/text_cleaner.py:4-26 | `clean_text` is no longer than the normalised text and neither begins nor ends with whitespace |
| `TextCleanerProperties.SpanFromIsRun` | src/text_cleaner.py:18-25 | a greedy repetition from i ends at j exactly when s[i..j] is a maximal run of its class |
| `TextCleanerProperties.SubDeletes` | src/text_cleaner.py:18-25 | every pass with an empty replacement (lines 18-22 and 25) yields a subsequence of its input |
| `TextCleanerProperties.SubUntouched` | src/text_cleaner.py:18-25 | a pass leaves a text unchanged when no character of it can begin a match |
| `TextCleanerProperties.PageMarkerRemoved` | src/text_cleaner.py:18 | "page" with its whitespace, number, whitespace, optional "of", whitespace and trailing digits is matched whole and the scan resumes after it |
| `TextCleanerProperties.PageMarkerNeedsNumber` | src/text_cleaner.py:18 | "page" begins a match if and only if a digit follows its whitespace |
| `TextCleanerProperties.PageMarkerExample` | src/text_cleaner.py:18 | "Page 3 of 10 Intro" becomes " Intro" |
| `TextCleanerProperties.CopyrightRemoved` | src/text_cleaner.py:19 | the sign, a four-digit year, the whitespace after it and the rest of the line where that whitespace stops are removed; what follows is empty or a line break |
| `TextCleanerProperties.CopyrightNeedsYear` | src/text_cleaner.py:19 | the sign begins a match if and only if four digits follow its whitespace |
| `TextCleanerProperties.CopyrightExample` | src/text_cleaner.py:19 | the whitespace after the year crosses a line break: "©2023\nNext\nKeep" becomes "\nKeep" |
| `TextCleanerProperties.UrlRemoved` | src/text_cleaner.py:20 | "www.", "http://" or "https://" with the non-space run after it is removed up to the next whitespace |
| `TextCleanerProperties.BareSchemeKept` | src/text_cleaner.py:20 | a scheme followed by whitespace or by the end of the text is not matched |
| `TextCleanerProperties.HtmlTagRemoved` | src/text_cleaner.py:21 | a '<', a non-empty body without '>' and its '>' are removed and the scan resumes after them |
| `TextCleanerProperties.HtmlTagMatches` | src/text_cleaner.py:21 | a '<' begins a match if and only if a '>' comes later but not straight after it |
| `TextCleanerProperties.NoTagLeft` | src/text_cleaner.py:21 | the output of the tag pass contains no '<', non-empty body without '>', '>' anywhere |
| `TextCleanerProperties.SpecialRunRemoved` | src/text_cleaner.py:22 | a maximal run of two or more copies of one special character is removed whole |
| `TextCleanerProperties.SpecialRunMatches` | src/text_cleaner.py:22 | a match begins if and only if a special character is followed by a copy of itself, so a single occurrence is kept |
| `TextCleanerProperties.SpecialRunExample` | src/text_cleaner.py:22 | the pass does not look back: "-.--." becomes "-..", a new doubled special |
| `TextCleanerProperties.SpecialPassJoinsDashes` | src/text_cleaner.py:22 | for every k, the pass turns k + 1 dashes separated by doubled dots into k + 1 dashes side by side |
| `TextCleanerProperties.WhitespaceCollapsed` | src/text_cleaner.py:23 | only single plain spaces remain, the other characters are kept in order, the result is empty only for an empty text, and it begins with a space exactly when the text begins with whitespace |
| `TextCleanerProperties.BlankLineNoop` | src/text_cleaner.py:23-24 | the blank-line pass changes nothing in a text without line breaks |
| `TextCleanerProperties.NonAsciiRemoved` | src/text_cleaner.py:25 | the pass keeps exactly the ASCII characters, in order |
| `TextCleanerProperties.AsciiOnlyChars` | src/text_cleaner.py:25 | the ASCII filter keeps no character its input lacks |
| `TextCleanerProperties.StripKeepsMiddle` | src/text_cleaner.py:26 | the stripped text is a contiguous slice with only whitespace before and after it |
| `TextCleanerProperties.StripFramed` | src/text_cleaner.py:26 | a text that neither begins nor ends with whitespace is unchanged |
| `TextCleanerProperties.StripIdempotent` | src/text_cleaner.py:26 | stripping twice equals stripping once |
| `TextCleanerProperties.RemoveBoilerplateDeletes` | src/text_cleaner.py:18-22 | the five boilerplate passes together yield a subsequence of the text |
| `TextCleanerProperties.CleanNormalizedProperties` | src/text_cleaner.py:18-26 | after normalisation: the boilerplate passes only delete, the blank-line pass is a no-op, and the result is ASCII, holds only plain spaces as whitespace, is stripped, and is no longer than its input |
| `TextCleanerProperties.CleanTextProperties` | src/text_cleaner.py:4-26 | `clean_text` is ASCII, holds only plain spaces as whitespace, is stripped, and is no longer than the normalised input |
| `TextCleanerProperties.DashesAndDotsCleaned` | src/text_cleaner.py:18-26 | a text of dashes and dots leaves the cleaner as the repeated-character pass leaves it, when that is a non-empty run of dashes |
| `TextCleanerProperties.CleanNormalizedLeavesDashRun` | src/text_cleaner.py:18-26 | as written, for every k the whole cleaner turns k + 1 dashes separated by doubled dots into a run of k + 1 dashes, so a run of repeated special characters survives |
| `Chains.QuestionOf` | src/hist_rag_chain.py:71 | the question is the "question" value, else the "query" value, else "", and is always one of the input values or "" |
| `Chains.QuestionOverridesQuery` | src/hist_rag_chain_v2.py:155 | a "question" key decides the question whatever "query" holds; without it, "query" does |
| `Chains.ResultOf` | src/hist_rag_chain.py:77-86 | a call answers if and only if the chain returned an "answer"; it returns that answer, and the "context" documents or none |
| `HistRagChain.BufferMemory.constructor` | src/hist_rag_chain.py:42-46 | a new buffer is empty |
| `HistRagChain.BufferMemory.AddUserMessage` | src/hist_rag_chain.py:79 | the buffer gains exactly the user message at its end |
| `HistRagChain.BufferMemory.AddAiMessage` | src/hist_rag_chain.py:80 | the buffer gains exactly the AI message at its end |
| `HistRagChain.BufferAfter` | src/hist_rag_chain.py:70-80 | after a raise or a missing answer the buffer is unchanged; after an answer it is the old buffer plus the question and then that answer |
| `HistRagChain.BufferGrowsByAnsweredTurns` | src/hist_rag_chain.py:65-86 | over any run of calls the buffer keeps its old messages as a prefix and grows by two messages per answered call |
| `HistRagChain.RAGChainWrapper.constructor` | src/hist_rag_chain.py:61-63 | the wrapper holds the given chain and memory |
| `HistRagChain.RAGChainWrapper.Call` | src/hist_rag_chain.py:65-86 | the chain sees the question and the buffer as it was before the call; the result and the new buffer are as `ResultOf` and `BufferAfter` state |
| `HistRagChain.RAGChainWrapper.Invoke` | src/hist_rag_chain.py:88-89 | `invoke` has exactly the contract of a direct call |
| `HistRagChain.CreateRagChain` | src/hist_rag_chain.py:38-46 | a supplied memory is used as it is; without one, a fresh empty buffer is made |
| `HistRagChainV2.SummaryPart` | src/hist_rag_chain_v2.py:90-98 | a falsy summary contributes nothing, a list is used as it is, and a text becomes one AI message with the prefix "Previous conversation summary: " |
| `HistRagChainV2.CombinedHistory` | src/hist_rag_chain_v2.py:87-109 | the combined history is the summary part followed by the window messages, unchanged and in order; its length is the sum of the two; a falsy summary gives the window alone |
| `HistRagChainV2.Step` | src/hist_rag_chain_v2.py:72-114 | an add appends the same message to both logs; clear empties both |
| `HistRagChainV2.LockStep` | src/hist_rag_chain_v2.py:57-80 | from two equal logs, any run of adds and clears leaves both logs equal to the same transcript |
| `HistRagChainV2.LogsAfterCall` | src/hist_rag_chain_v2.py:159-164 | an answered call appends the question and then the answer to both logs; a call that raised leaves them unchanged |
| `HistRagChainV2.ClearedHistory` | src/hist_rag_chain_v2.py:111-114 | after clear, the combined history is empty if and only if the library's views of empty logs are empty |
| `HistRagChainV2.SummaryLength` | src/hist_rag_chain_v2.py:185 | an absent summary has length 0 and a text summary its own length |
| `HistRagChainV2.HybridMemory.constructor` | src/hist_rag_chain_v2.py:47-70 | both logs start empty, with the given window size (4 by default) and backend |
| `HistRagChainV2.HybridMemory.AddUserMessage` | src/hist_rag_chain_v2.py:72-75 | both logs gain the same user message, and equal logs stay equal |
| `HistRagChainV2.HybridMemory.AddAiMessage` | src/hist_rag_chain_v2.py:77-80 | both logs gain the same AI message, and equal logs stay equal |
| `HistRagChainV2.HybridMemory.GetCombinedHistory` | src/hist_rag_chain_v2.py:82-109 | the list built step by step equals the combined history of the current state; no state changes, so two reads in a row agree |
| `HistRagChainV2.HybridMemory.Clear` | src/hist_rag_chain_v2.py:111-114 | both logs become empty |
| `HistRagChainV2.HybridRAGChainWrapper.constructor` | src/hist_rag_chain_v2.py:145-147 | the wrapper holds the given chain and hybrid memory |
| `HistRagChainV2.HybridRAGChainWrapper.Call` | src/hist_rag_chain_v2.py:149-170 | the chain sees the history read before it runs; on an answer, both logs gain the question and then that answer, and it is returned with the "context" documents or none; on a raise or a missing answer, memory is unchanged |
| `HistRagChainV2.HybridRAGChainWrapper.Invoke` | src/hist_rag_chain_v2.py:172-173 | `invoke` has exactly the contract of a direct call |
| `HistRagChainV2.HybridRAGChainWrapper.ClearMemory` | src/hist_rag_chain_v2.py:175-177 | both logs become empty |
| `HistRagChainV2.HybridRAGChainWrapper.GetMemoryStats` | src/hist_rag_chain_v2.py:179-189 | four figures: the summary's rendered length, the window's message count, the summary log's length, and the window size |
| `HistRagChainV2.CreateRagChain` | src/hist_rag_chain_v2.py:116-130 | a fresh hybrid memory with empty logs and the given window size (4 by default), never the memory passed in |
| `RagChain.Join` | src/rag_chain.py:8 | a join of at least one part opens with the first part |
| `RagChain.JoinAppend` | src/rag_chain.py:8 | joining one more part appends a separator and that part |
| `RagChain.JoinLength` | src/rag_chain.py:8 | a join's length is its parts' lengths plus one separator between each pair of neighbours |
| `RagChain.JoinEnds` | src/rag_chain.py:8 | the last part ends the join |
| `Schema.PageContents` | src/rag_chain.py:8 | one page content per document, in document order (also src/pinecone_utils.py line 18) |
| `RagChain.FormatInputs` | src/rag_chain.py:6-10 | exactly the keys "context" and "question"; the question is passed through; the context is the page contents joined by "\n\n", "" for no documents and the content itself for one document |
| `RagChain.FormatInputsAppend` | src/rag_chain.py:8 | one more document adds "\n\n" and its content at the end of the context |
| `PineconeUtils.Decimal` | src/pinecone_utils.py:21 | a non-empty string of ASCII digits with no leading zero |
| `PineconeUtils.DecimalRoundTrip` | src/pinecone_utils.py:21 | reading back the decimal form gives the number |
| `PineconeUtils.RecordId` | src/pinecone_utils.py:21 | an id is "doc-" followed by the decimal form of the index: digits only, no leading zero, reading back as the index |
| `PineconeUtils.RecordIdInjective` | src/pinecone_utils.py:21 | two ids "doc-i" and "doc-j" are equal if and only if i = j |
| `PineconeUtils.UpsertData` | src/pinecone_utils.py:19-23 | the comprehension fails (an IndexError) if and only if there are fewer vectors than texts; otherwise record i is ("doc-i", vectors[i], {"text": texts[i]}) |
| `PineconeUtils.DocumentRecords` | src/pinecone_utils.py:18-23 | no records (an IndexError) exactly when there are fewer vectors than documents; otherwise one record per document, record i carrying document i's text |
| `PineconeUtils.RecordsWellFormed` | src/pinecone_utils.py:18-23 | with enough vectors: one record per document, pairwise distinct ids that read back as their positions, document i's text and vector i in record i |

## Left out

- Line 17 of src/text_cleaner.py, the NFKC normalisation, is a library call. `CleanText` takes it as a function parameter.
- `\d` is modelled as the ten ASCII digits. Python's `\d` on `str` also matches other Unicode decimal digits.
- `\s` and `strip()` are modelled exactly, as the set of code points for which `str.isspace()` holds. Case-insensitive matching is modelled as ASCII lower-casing, which is exact for the letters of "page" and "of".
- `clean_corpus_file` (src/text_cleaner.py:29-39) only reads and writes files.
- The window memory's truncation, and what its `k` counts, are library-defined. They are the abstract `windowOf`. So the property "after N+1 exchanges the window holds exactly the last N turns" is not stated.
- The summary text the LLM writes is the abstract `summaryOf`. So is whether the summary memory ever refreshes its summary when messages are added to its log directly. Whether a summarisation failure propagates is not modelled either.
- `str()` of a list of messages in `get_memory_stats` is the abstract `renderList`.
- The config keys `summary_memory_key` and `window_memory_key` are not parameters. The model reads one value per memory.
- `chain.invoke` is modelled as a deterministic function of its input. The LLM calls, the prompts, `create_history_aware_retriever`, `create_retrieval_chain` and `create_stuff_documents_chain` are not modelled, and neither is the answer content.
- `HistRagChain.RAGChainWrapper.Call`: the chat history handed to the chain is the buffer's own list object, which is appended after the chain returns. The model passes the value as it was before the call, so it does not capture a chain that keeps and reads that list later.
- The wrapper's `inputs` dictionary is modelled as a map from strings to strings. Callers also pass other keys, such as a `chat_history` list; the wrappers read only "question" and "query", so other keys and non-string values are not modelled.
- The `answer` and `context` values are strings and document lists. Other Python values a chain could return there are not modelled.
- The `RunnableMap` and the rest of `create_rag_chain` in src/rag_chain.py are not part of this model. `format_inputs` gets its two keys from the map, so a missing key is not modelled.
- `embed_documents`, `setup_pinecone` and `index.upsert` are foreign network calls. The vectors are a parameter of any type.
- Embeddings, retrievers, PDF extraction, splitters, evaluation scripts and the Streamlit UI are outside the core.
