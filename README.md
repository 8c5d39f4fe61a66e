# Meeting Miner, modelled in Dafny

Meeting Miner turns meeting transcripts into structured project
intelligence. A transcript, given as plain text, a JSON string or a dict,
is parsed into one canonical form. A text generator then extracts:

- a project name and an executive summary;
- project records, health signals, a sentiment pulse and pain points;
- external ideas.

Everything is stored in three tables: meetings, extracted data and
project rows. The transcript is cut into overlapping chunks and indexed
in a vector store. A chatbot answers questions by retrieving chunks for
a meeting or a project and prompting the generator with them.

This project models that core:

- the transcript parser (`transcript.dfy`);
- the chunker and the vector-store bookkeeping (`chunker.dfy`, `vector_store.dfy`);
- the extractors (`extraction.dfy`, `project_extractor.dfy`, `ideas_extractors.dfy`, `record_extractors.dfy`);
- the deterministic parts of the two generator clients (`llm_clients.dfy`);
- the chatbot (`chatbot.dfy`);
- the processing pipeline (`pipeline.dfy`).

The shared helpers model Python behaviour:

- `strings.dfy` covers `str.strip`, `split`, `lower`, `capitalize`, `join`, integer rendering and slicing.
- `json.dfy` covers JSON values, truthiness, `dict.get` and iteration.
- `wrappers.dfy` provides `Option` and `Result`. `Result` carries the exception a Python call raises.

Some things become parameters of the model, so the model captures what
the code does with their answers:

- The text generator: what it answered each extractor, or the exception it raised.
- `json.loads`, as `decode`: the value a text denotes, or `None` where `JSONDecodeError` is raised.
- `str()` of a non-string value, as `render`.
- `float()` on text, as `parse`.
- The nearest-neighbour index, as `index`: a request answered with candidates in rank order.
- The chatbot's database lookup, `search`, `generate` and `generate_stream`.
- The clock, as `now`.

Code that updates state in place is written as classes:

- The pipeline's tables become the fields of `Pipeline.MeetingPipeline`.
- The vector collection becomes `VectorStore.EmbeddingStore.collection`.
- The chat history becomes `Chatbot.MeetingChatbot.history`.

Loops become methods proved against a specification function:

- the chunk window loop;
- the plain-text line loop and the segment loop of the parser;
- the extractor item loop;
- the stream line loop;
- the row replacement and the listing loop of the pipeline.

## Model

| member | source | states |
|---|---|---|
| TranscriptParser.Parse | backend/transcript_parser.py:12-39 | Equals `ParseSpec`. A dict is parsed as a dict. A string is decoded as JSON first, and a string that does not decode is plain text. A decoded value that is not a dict raises. Any other input type raises `ValueError`. |
| TranscriptParser.ParseOutcome | backend/transcript_parser.py:12-39 | `parse` fails only on an unsupported type, a decoded non-dict, or a segment item that raises, whether the dict was given or decoded from a string. Undecodable text is always parsed as plain text. Every result is well formed: segment texts are clean, and every speaker comes from a segment. |
| TranscriptParser.Clean | backend/transcript_parser.py:252-266 | `_clean_text` returns clean text: stripped, single-spaced, with no newline. Empty input gives "". |
| TranscriptParser.CleanIsJoinedWords | backend/transcript_parser.py:252-266 | Reference definition: `_clean_text(s)` equals `" ".join(s.split())`. |
| TranscriptParser.CleanIdempotent | backend/transcript_parser.py:252-266 | Cleaning a cleaned text changes nothing. |
| TranscriptParser.MatchSpeaker | backend/transcript_parser.py:52 | A match of the speaker pattern gives a name of two or more letters and spaces, followed by the line's first colon. |
| TranscriptParser.ClassifyLine | backend/transcript_parser.py:60-91 | A line is blank exactly when it strips to nothing. Title and meta lines occur only among the first three lines. Stored texts are clean. |
| TranscriptParser.TailGroup | backend/transcript_parser.py:52 | The text group after the speaker's colon is present exactly when the rest of the line is non-empty. |
| TranscriptParser.PlainStep | backend/transcript_parser.py:59-113 | One step of the line loop keeps at least as many text lines as segments. |
| TranscriptParser.ParsePlainText | backend/transcript_parser.py:42-137 | The line loop, proved equal to `PlainTextSpec`. |
| TranscriptParser.ScanLines | backend/transcript_parser.py:59-113 | After the loop, the state is the fold of `PlainStep` over all the lines. |
| TranscriptParser.ScanLine | backend/transcript_parser.py:59-113 | One pass of the line loop advances the state from the fold over `i` lines to the fold over `i+1` lines. |
| TranscriptParser.PlainTextWellFormed | backend/transcript_parser.py:42-137 | Every plain-text result is well formed. |
| TranscriptParser.ApplyLine | backend/transcript_parser.py:86-113 | One loop body: a speaker line opens a segment. Any other line extends the last segment, or is kept as a plain line before the first segment. |
| TranscriptParser.PlainScanInv | backend/transcript_parser.py:59-113 | The loop keeps these true: segment texts are non-empty and clean; the speaker set equals the set of segment speakers; the full text ends with one `speaker: text` line per segment. |
| TranscriptParser.PlainTextTagged | backend/transcript_parser.py:115-125 | A speaker-tagged result has at least one segment, clean non-empty texts, and exactly the segment speakers. Its text is some plain lines followed by every segment's `speaker: text` line. |
| TranscriptParser.PlainTextWithoutSpeakers | backend/transcript_parser.py:126-137 | With no speaker line, the result is the whole input cleaned, as one segment of speaker Unknown with no speakers. |
| TranscriptParser.PlainTitleFromFirstLines | backend/transcript_parser.py:68-84 | Only the first three lines decide the title, and a title always comes from one of them. |
| TranscriptParser.PlainScanTagsNeedSpeakerTurn | backend/transcript_parser.py:88-89 | Speaker tags are detected only after a speaker line. |
| TranscriptParser.CleanValue | backend/transcript_parser.py:252-266 | A falsy value gives "". A string is cleaned. Any other truthy value makes `_clean_text` raise. |
| TranscriptParser.KeepIfTruthy | backend/transcript_parser.py:200-223 | A timestamp, start or end is kept exactly when it is truthy, and unchanged. |
| TranscriptParser.SegmentOf | backend/transcript_parser.py:196-227 | A kept segment has clean, non-empty text. Its speaker is `speaker`, else `name`, else Unknown. Timestamp, start and end are present exactly when truthy. A non-dict item becomes an Unknown segment of its string form. |
| TranscriptParser.SegmentsSource | backend/transcript_parser.py:174-180 | The segments come from `segments`, else `transcript`, else the dict itself. |
| TranscriptParser.ParseSpeakerTagged | backend/transcript_parser.py:162-249 | Equals `SpeakerTaggedSpec`. |
| TranscriptParser.ScanSegments | backend/transcript_parser.py:196-227 | The segment loop equals the fold of its per-item outcomes, and it stops at the first exception. |
| TranscriptParser.AddSegment | backend/transcript_parser.py:211-227 | One item's segment, speaker and line are appended, or the item's exception is returned. |
| TranscriptParser.TaggedScanErr | backend/transcript_parser.py:196-227 | The scan fails exactly when one of the items raises. |
| TranscriptParser.TaggedScanInv | backend/transcript_parser.py:196-227 | The loop keeps its invariant, and keeps exactly the segments whose text is non-empty once cleaned, in order. |
| TranscriptParser.TaggedScanAll | backend/transcript_parser.py:196-227 | Over all items, the scan fails exactly when an item raises. Otherwise it keeps its invariant and exactly the kept segments. |
| TranscriptParser.SpeakerTaggedList | backend/transcript_parser.py:182-249 | A list fails exactly when an item raises. Otherwise the result holds the kept segments in order, their lines joined by newlines, and exactly their speakers. |
| TranscriptParser.SpeakerTaggedEmptyList | backend/transcript_parser.py:183-194 | An empty segments list gives an empty result with every metadata key present. |
| TranscriptParser.SpeakerTaggedWellFormed | backend/transcript_parser.py:162-249 | Every speaker-tagged result is well formed. |
| TranscriptParser.ParseDict | backend/transcript_parser.py:140-159 | Equals `DictSpec`. |
| TranscriptParser.DictWithoutSegments | backend/transcript_parser.py:148-159 | A dict without segments, speakers or transcript keys gives JSON format. Its text is the cleaned `text`, else `content`, else "", as one Unknown segment. Meeting id and title are None. |
| TranscriptParser.DictOutcome | backend/transcript_parser.py:140-159 | `_parse_dict` fails only on a segment list whose item raises. Every result is well formed. |
| TranscriptParser.ItemSpeakerKept | backend/transcript_parser.py:196-227 | The speaker of an item whose text is kept reaches the parsed speakers as it is, whatever its type. |
| TranscriptParser.GetTitle | backend/transcript_parser.py:289-291 | None when the key is absent, else the stored value. |
| TranscriptParser.GetMeetingId | backend/transcript_parser.py:284-286 | None when the key is absent, else the stored value. |
| TranscriptParser.GetLanguageHint | backend/transcript_parser.py:294-296 | "auto" when the key is absent, else the stored value. |
| TranscriptParser.PlainTextLanguageHint | backend/transcript_parser.py:294-296 | A plain-text result reads back the language hint "auto". |
| Chunker.RFind | backend/embeddings.py:173 | `rfind` with Python bounds: a found index lies wholly inside the normalised window. |
| Chunker.RFindIsLast | backend/embeddings.py:173 | The index found is the last occurrence. -1 means there is none. |
| Chunker.LastOccurrenceIsLast | backend/embeddings.py:173 | The occurrence found lies inside the window, and no later one does. None means the window holds no occurrence. |
| Chunker.PySlice | backend/embeddings.py:178 | Python slicing agrees with Dafny slicing on in-range bounds, and is clamped at the end of the text. |
| Chunker.BreakCutFirstFound | backend/embeddings.py:172-176 | The first delimiter, in list order, that occurs decides the cut, 2 characters after its last occurrence. |
| Chunker.BreakCutNoBreak | backend/embeddings.py:170-176 | With no delimiter in the window, the cut stays at the window end. |
| Chunker.FindWindowEnd | backend/embeddings.py:167-176 | The inner delimiter loop computes the window end. |
| Chunker.FixedStartNeverEnds | backend/embeddings.py:166-182 | A start that the loop maps back to itself is never left: the loop runs forever. |
| Chunker.StallingTextNeverEnds | backend/embeddings.py:166-182 | The loop as written never ends on a 550-character text whose only sentence break ends at position 50. |
| Chunker.NoBreakAdvances | backend/embeddings.py:182 | Without a break, the next start is 450 characters further on. |
| Chunker.NextStart | backend/embeddings.py:182 | The corrected next start is strictly after the current start and no later than the window end. |
| Chunker.ChunkText | backend/embeddings.py:148-184 | The corrected chunker equals `ChunkSpec`. The window loop terminates because the start always moves forward. |
| Chunker.NextWindow | backend/embeddings.py:167-182 | One loop pass: the window's chunk, if kept, then the chunks from a strictly later start. |
| Chunker.ChunksFromNext | backend/embeddings.py:166-182 | The chunks from a start are the window's chunk, if kept, followed by the chunks from the next start. |
| Chunker.ChunkWindows | backend/embeddings.py:163-182 | For a text longer than 500 characters, the window loop gives exactly the chunks from position 0. |
| Chunker.SliceChunkOfText | backend/embeddings.py:178-180 | A kept window chunk is the strip of a slice of the text. |
| Chunker.ChunkSpecWellFormed | backend/embeddings.py:160-184 | A text of up to 500 characters is its own single chunk. Otherwise every chunk is non-empty, stripped, at most 500 characters long, and the strip of a slice of the text. |
| Chunker.WindowsWellFormed | backend/embeddings.py:163-182 | The windows are non-empty and at most 500 long. They start at 0, end at the end of the text, and follow each other without gaps, so they cover the whole text. |
| Chunker.WindowEndBounds | backend/embeddings.py:167-176 | A window ends after its start, and at most 500 characters later. |
| Chunker.WindowsCover | backend/embeddings.py:163-182 | Every character of the text lies in a window of the loop with the start forced forward, so no text is skipped. |
| Chunker.LastOccurrence | backend/embeddings.py:173 | An occurrence found lies wholly inside the searched window. |
| Chunker.ChunkTextAsWritten | backend/embeddings.py:148-184 | The `while` loop exactly as written, cut off after `fuel` windows, gives `ChunkAsWritten`: the chunks, or None while the loop is still running. |
| Chunker.StepWindow | backend/embeddings.py:167-182 | One pass of the loop as written: the window end, the stripped window kept when non-empty, and a next start `overlap` characters before the end, wherever that end is. |
| Chunker.Advance | backend/embeddings.py:166-182 | One pass of the loop as written moves the window's chunk, if kept, from the rest of the run to the chunks made so far, and spends one window of the budget. |
| Chunker.RunStep | backend/embeddings.py:166-182 | While the budget lasts, the loop as written gives the window's chunk, if kept, then what the loop gives from the next start. |
| Chunker.RunStops | backend/embeddings.py:166 | The loop as written gives no more chunks once the start has reached the end of the text, and is still running when the budget is spent before that. |
| Chunker.RunAsWrittenAgrees | backend/embeddings.py:166-182 | Where every window moves the start forward, the loop as written ends within one window per character and gives the chunks of the loop with the start forced forward. |
| Chunker.ChunkAsWrittenAgrees | backend/embeddings.py:148-184 | `_chunk_text` as written ends and equals `ChunkSpec` on every text whose windows all move the start forward. |
| Chunker.FirstBoundaryCut | backend/embeddings.py:170-176 | A window whose last ". " ends at `cut`, with no '.' after it, is cut at `cut`. |
| Chunker.BackwardsWindow | backend/embeddings.py:166-182 | A start below zero is read from the end of a text longer than 500. No break is found, the window ends 500 later, and its slice is empty, so nothing is kept. |
| Chunker.SkippingTextLosesText | backend/embeddings.py:166-182 | On a 600-character text whose only sentence break ends at 10, the loop as written ends with two chunks. Characters 10 to 409 are in neither of them. |
| VectorStore.ChunkIdInjective | backend/embeddings.py:49 | Chunk ids are distinct: two ids agree exactly when meeting and index do. |
| VectorStore.Preview | backend/embeddings.py:54 | The metadata preview is the first at most 200 characters of the chunk. |
| VectorStore.MeetingEntryAt | backend/embeddings.py:49-65 | Chunk `i` is stored under its id, with the chunk as document, the meeting id, index `i` and the preview. |
| VectorStore.MeetingEntriesCount | backend/embeddings.py:49 | A meeting with `n` chunks gets exactly `n` ids. |
| VectorStore.MeetingEntries | backend/embeddings.py:49-57 | There is an entry for the id of every chunk, and for nothing else. |
| VectorStore.MeetingEntriesOfMeeting | backend/embeddings.py:50-57 | Every entry added for a meeting carries that meeting's id in its metadata. |
| VectorStore.ChunkIdParts | backend/embeddings.py:49 | Equal chunk ids have equal meeting and index parts. |
| VectorStore.Added | backend/embeddings.py:60-65 | An add keeps every existing entry, adds the new ids and removes nothing. |
| VectorStore.EmbeddingStore.AddMeeting | backend/embeddings.py:33-65 | The collection gains the given chunks, or the transcript's own chunks when none are given, under the meeting's ids. Where every window of the loop as written moves forward, those are the chunks `_chunk_text` as written gives. |
| VectorStore.AddedKeepsIds | backend/embeddings.py:49-65 | After an add, every id is still the one its entry's meeting and index call for. |
| VectorStore.SearchRequest | backend/embeddings.py:85-99 | The request asks for 3×`top_k` neighbours when more than one meeting id is listed, else `top_k`. A single meeting id becomes the equality filter. |
| VectorStore.AllowedMeetings | backend/embeddings.py:104 | Results are filtered to the listed ids, or not at all when the list is absent or empty. |
| VectorStore.Admitted | backend/embeddings.py:103-112 | The admitted candidates are candidates that pass the filter. |
| VectorStore.EnoughResults | backend/embeddings.py:121-122 | Once `top_k` results are kept, the loop stops, and what it has is the result. |
| VectorStore.FilterHits | backend/embeddings.py:102-122 | The filter loop equals `SearchResults`: admitted candidates in rank order, cut off once `top_k` are kept. |
| VectorStore.SearchResultsShape | backend/embeddings.py:102-124 | Results are a prefix of the admitted candidates: at most `top_k` of them, or one when `top_k` is below one, and fewer only when candidates run out. |
| VectorStore.Search | backend/embeddings.py:67-124 | `search` sends the request built from the arguments, then filters and cuts off the candidates. |
| VectorStore.SearchScope | backend/embeddings.py:86-112 | With a list of ids, every result belongs to one of them. With a single id and a filter the index honours, every result belongs to that meeting. |
| VectorStore.EmbeddingStore.DeleteMeeting | backend/embeddings.py:126-146 | Every entry of the meeting goes and every other entry stays. A database failure is swallowed and changes nothing. |
| VectorStore.IdsOfMeeting | backend/embeddings.py:137-141 | The ids looked up for a meeting are exactly the ids whose metadata names it. |
| VectorStore.Deleted | backend/embeddings.py:142 | A delete removes exactly the given ids and leaves every other entry as it was. |
| VectorStore.EmbeddingStore.constructor | backend/embeddings.py:14-31 | A new store starts with an empty collection. |
| VectorStore.DeleteMeetingExact | backend/embeddings.py:137-142 | Deleting a meeting removes exactly its entries. |
| VectorStore.DeleteUndoesAdd | backend/embeddings.py:33-146 | Deleting a meeting right after adding it leaves what deleting it before would have. |
| Extraction.FirstPresent | backend/extractors/project_extractor.py:79-85 | The position of the first key present, with every earlier key absent. None means no key is present. |
| Extraction.Selected | backend/extractors/external_ideas_scope_extractor.py:90-104 | A dict yields the value under its first listed key, else the fallback. A list yields itself. Anything else yields []. |
| Extraction.MapAllSpec | backend/extractors/project_extractor.py:93-121 | The run fails exactly when some item fails. Otherwise record `k` is the record of item `k`. |
| Extraction.NormaliseLoop | backend/extractors/project_extractor.py:92-123 | The item loop equals mapping the dict items in order, stopping at the first exception. |
| Extraction.Extract | backend/extractors/project_extractor.py:71-129 | Equals `Extracted`: every record, or [] once anything raised. |
| Extraction.ExtractedList | backend/extractors/project_extractor.py:86-123 | A list answer gives one record per dict item, in order. It gives [] as soon as one item fails. |
| Extraction.ExtractedKeyed | backend/extractors/project_extractor.py:79-83 | A dict holding a listed key is read through the first such key. A non-list value there gives nothing. |
| Extraction.ExtractedUnkeyed | backend/extractors/project_extractor.py:84-85 | A dict without a listed key is the single item when wrapping applies. Otherwise it gives nothing. |
| Extraction.ExtractedNothing | backend/extractors/project_extractor.py:86-129 | A failed call, or an answer that is neither a dict nor a list, gives []. |
| Extraction.DictItemsAllDicts | backend/extractors/project_extractor.py:93-94 | A list of dicts loses no item. |
| ProjectExtractor.NormaliseProjectFields | backend/extractors/project_extractor.py:94-121 | Fields are copied or defaulted, and a missing status reads "Proposed". A non-string status raises. |
| ProjectExtractor.ExtractProjects | backend/extractors/project_extractor.py:71-129 | Equals `ExtractSpec`: the generic extraction with keys `projects`, `data`, and a dict without them wrapped as one project. |
| ProjectExtractor.NormalizeStatusIdempotent | backend/extractors/project_extractor.py:97-113 | Normalising a normalised status changes nothing. |
| ProjectExtractor.NormalizeStatusStripped | backend/extractors/project_extractor.py:97-113 | A normalised status has no whitespace at either end. |
| ProjectExtractor.NormalizeStatusEmpty | backend/extractors/project_extractor.py:97-113 | A status normalises to "" exactly when, once stripped, it holds only `_` and whitespace. |
| ProjectExtractor.CanonicalOfJoin | backend/extractors/project_extractor.py:100-113 | On words joined by spaces, the four fixed spellings agree with capitalising each word. |
| ProjectExtractor.DefaultStatus | backend/extractors/project_extractor.py:95-106 | The default status "proposed" comes out "Proposed". |
| ExternalIdeasScope.NormaliseIdeaFields | backend/extractors/external_ideas_scope_extractor.py:108-118 | Every field is copied or defaulted. Feasibility defaults to "medium". |
| ExternalIdeasScope.ExtractIdeas | backend/extractors/external_ideas_scope_extractor.py:82-126 | Equals `ExtractSpec`: keys `ideas`, `scope`, `external_ideas`, `data`, and a dict without them gives []. |
| ExternalIdeasScope.ExtractList | backend/extractors/external_ideas_scope_extractor.py:101-120 | A list answer gives exactly one idea per dict item, in order. |
| IdeasProposals.NormaliseProposalFields | backend/extractors/ideas_proposals_extractor.py:97-106 | Every field is copied or defaulted. Feasibility defaults to "medium". |
| IdeasProposals.ExtractProposals | backend/extractors/ideas_proposals_extractor.py:73-114 | Equals `ExtractSpec`: keys `ideas`, `proposals`, `data`, and a dict without them gives []. |
| IdeasProposals.ExtractList | backend/extractors/ideas_proposals_extractor.py:90-108 | A list answer gives exactly one proposal per dict item, in order. |
| ProjectName.CleanName | backend/extractors/project_name_extractor.py:71-76 | The cleaned answer is at most 100 characters, and it never starts with a single quote. The single quotes are stripped last, so a leading double quote can remain. |
| ProjectName.ExtractName | backend/extractors/project_name_extractor.py:71-96 | The name is never empty and at most 100 characters long. |
| ProjectName.ExtractNameSource | backend/extractors/project_name_extractor.py:79-96 | The name is the cleaned answer unless that is unsure. An unsure answer or a failed call gives the title fallback. |
| ProjectName.FallbackToTitle | backend/extractors/project_name_extractor.py:81-85 | A non-blank title falls back to itself, stripped and cut to 100 characters. |
| ProjectName.Fallback | backend/extractors/project_name_extractor.py:81-85 | The fallback name is never empty and at most 100 characters long. |
| Pulse.ToFloat | backend/extractors/pulse_extractor.py:95 | `float()` keeps numbers and maps booleans to 0 or 1. It converts text through `parse`, and raises on anything else. |
| Pulse.Clamp | backend/extractors/pulse_extractor.py:95 | The score lies in [0, 1]: unchanged inside the range, and the nearest bound outside it. |
| Pulse.ExtractPulse | backend/extractors/pulse_extractor.py:85-110 | The sentiment score always lies in [0, 1]. |
| Pulse.ExtractPulseFields | backend/extractors/pulse_extractor.py:85-95 | A dict answer copies or defaults each field. The score is the converted value clamped, and 0.5 when missing. |
| Pulse.ExtractPulseFallback | backend/extractors/pulse_extractor.py:98-110 | A failed call, a non-dict answer or an unconvertible score gives the neutral pulse. |
| Health.ExtractHealth | backend/extractors/health_extractor.py:88-106 | A dict answer's four lists are copied or default to []. Anything else gives no signals. |
| PainPoints.ExtractPainPoints | backend/extractors/pain_points_extractor.py:78-92 | A dict answer's two lists are copied or default to []. Anything else gives none. |
| JsonReply.JsonPrompt | backend/llm/local_client.py:56 | The JSON prompt is the caller's prompt followed by the JSON instruction. |
| JsonReply.StripFences | backend/llm/local_client.py:67-74 | The fence-stripped reply has no whitespace at either end and is no longer than the reply. |
| JsonReply.Unfence | backend/llm/local_client.py:67-74 | Removing the fences never makes a reply longer. |
| JsonReply.UnfencedReply | backend/llm/local_client.py:67-74 | A reply without fences is only stripped. |
| JsonReply.FencedJsonReply | backend/llm/local_client.py:67-74 | "```json" + body + "```" gives the stripped body. |
| JsonReply.FencedPlainReply | backend/llm/local_client.py:67-74 | "```" + body + "```" gives the stripped body. |
| JsonReply.BraceSpanSpec | backend/llm/local_client.py:80 | The brace match exists exactly when some `{` precedes some `}`. It runs from the first `{` to the last `}`. |
| JsonReply.ParseReply | backend/llm/local_client.py:64-89 | Decode the stripped text; failing that, its brace span. It raises `ValueError` exactly when both fail, with the first 200 characters in the message. |
| JsonReply.ParseFencedReply | backend/llm/anthropic_client.py:52-61 | A fenced body that decodes is what `generate_json` returns. |
| LocalClient.ChatRequestFor | backend/llm/local_client.py:31-50 | A system message is sent exactly for a non-empty system prompt, and the user message comes last. `num_predict` is sent exactly for a non-zero limit. |
| LocalClient.ReplyContent | backend/llm/local_client.py:51 | Gives `message.content`, or "" when a key is missing. It raises exactly when a value is not a dict. |
| LocalClient.GenerateJson | backend/llm/local_client.py:53-89 | The request sets no token limit and no streaming, and a failed call's exception passes through. A result comes back only from a reply whose content is a string, and it is what `ParseReply` makes of that string. |
| LocalClient.GenerateJsonText | backend/llm/local_client.py:53-89 | A reply's text is parsed as `ParseReply` says, and the request never limits tokens. |
| LocalClient.StreamLines | backend/llm/local_client.py:112-119 | The line loop equals `StreamSpec`. |
| LocalClient.StreamSpec | backend/llm/local_client.py:112-119 | A stream yields at most one fragment per line. |
| LocalClient.SkippedLine | backend/llm/local_client.py:112-119 | Empty and undecodable lines yield nothing and do not stop the stream. |
| LocalClient.ContentLine | backend/llm/local_client.py:115-117 | A line carrying `message.content` yields that content, in order. |
| LocalClient.NoMessageLine | backend/llm/local_client.py:116 | A decoded dict without `message` is skipped. |
| LocalClient.StreamStops | backend/llm/local_client.py:112-119 | A stream that raises yields only what came before the raising line. |
| AnthropicClient.MessagesRequestFor | backend/llm/anthropic_client.py:23-35 | A zero or missing token limit becomes 4096, and a missing system prompt becomes "". One user message is sent. |
| AnthropicClient.GenerateJson | backend/llm/anthropic_client.py:37-74 | The request asks for 4096 tokens, and a failed call's exception passes through. A result comes back exactly when the call answers and `ParseReply` accepts the answer. |
| AnthropicClient.GenerateJsonRequest | backend/llm/anthropic_client.py:37-74 | The JSON request asks for 4096 tokens with the JSON instruction. Its answer goes through `ParseReply`, and a failed call's exception passes through. |
| Chatbot.ProjectMeetings | backend/chatbot.py:44-56 | Gives the project's meeting ids when a project is named and the lookup succeeds, else None. |
| Chatbot.NoMeetingsReply | backend/chatbot.py:51-52 | The reply for a project without meetings says that no meetings were found for the project. |
| Chatbot.FilterMeetingId | backend/chatbot.py:59 | The search filter is the given meeting, else the project's only meeting, else none. |
| Chatbot.HistoryMeetingId | backend/chatbot.py:121 | History is filed under the given meeting, else the project's first meeting. |
| Chatbot.ChooseTemplate | backend/chatbot.py:76-111 | The template is single-meeting for one meeting or a given id, project-wide for several meetings, else "various meetings". |
| Chatbot.Header | backend/chatbot.py:77-106 | The header starts with its fixed lead. Right after the lead it names the meeting in the single-meeting template, or the project in the project-wide one. |
| Chatbot.Prompt | backend/chatbot.py:77-111 | The prompt is the header, then the context verbatim, then the question framed as "Question: …\n\nAnswer:". |
| Chatbot.ContextParts | backend/chatbot.py:68-71 | Part `k` labels chunk `k` with its meeting and the number `k+1`. |
| Chatbot.Block | backend/chatbot.py:70-71 | A context block ends with its label's colon, a newline and the chunk text verbatim. |
| Chatbot.BuildContext | backend/chatbot.py:68-73 | The context loop equals the parts joined by blank lines. |
| Chatbot.OneMeetingProject | backend/chatbot.py:59-122 | A one-meeting project: filter, template and history all name that meeting. |
| Chatbot.ManyMeetingProject | backend/chatbot.py:59-122 | A multi-meeting project: no single filter, the project template, and history filed under the first meeting. |
| Chatbot.ConcatSplit | backend/chatbot.py:212-218 | The accumulated response splits at any point of the fragments. |
| Chatbot.ShownIsRecordedPrefix | backend/chatbot.py:212-223 | What the consumer has been shown after any number of fragments is the start of the recorded response; the rest of it is the remaining fragments. |
| Chatbot.Relay | backend/chatbot.py:212-219 | Every fragment is passed on in order, and the full response is their concatenation. |
| Chatbot.MeetingChatbot.StoreChatHistory | backend/chatbot.py:225-240 | Appends exactly one entry, or nothing when the write fails. |
| Chatbot.MeetingChatbot.Query | backend/chatbot.py:30-124 | Gives the fixed replies with nothing recorded. Otherwise the answer is `generate` of the prompt, and it is recorded once when it came back. |
| Chatbot.MeetingChatbot.Answer | backend/chatbot.py:68-122 | The answer is `generate` of the prompt built from the retrieved chunks. It is recorded once when it came back and the history write succeeds. |
| Chatbot.MeetingChatbot.QueryStream | backend/chatbot.py:126-223 | Yields the fixed replies alone. Otherwise it yields the generator's fragments and records their concatenation only once the generator is exhausted. |
| Chatbot.MeetingChatbot.StreamAnswer | backend/chatbot.py:166-223 | Every fragment of the stream is yielded, and so is its error. Their concatenation is recorded only when the stream ended without error and the write succeeds. |
| Chatbot.MeetingChatbot.constructor | backend/chatbot.py:25-28 | A new chatbot starts with no history. |
| Pipeline.ParseSource | backend/pipeline.py:50-55 | A non-empty dict is parsed when one is given, else the text. |
| Pipeline.ResolvedTitle | backend/pipeline.py:65-66 | The caller's title wins unless it is empty. The result is truthy exactly when either title is. |
| Pipeline.ResolvedProjectName | backend/pipeline.py:77-81 | A non-blank given name is used stripped. Otherwise the name extractor decides. The name is never empty. |
| Pipeline.LabelledSummary | backend/pipeline.py:98-99 | The summary is headed by the project name unless the name is empty or the default. |
| Pipeline.ExtractAll | backend/pipeline.py:96-111 | Fails exactly when the summary call raised, with its exception, or when some speaker is not a string, with the TypeError of the pulse extractor's join. The summary is the stripped answer under the project label, the overall sentiment is the pulse's, and the score lies in [0, 1]. |
| Pipeline.NonStringItemSpeakerRaises | backend/extractors/pulse_extractor.py:58-60 | A dict transcript whose kept item has a number, a boolean or null as speaker parses, and then the extractors raise once the summary is written. |
| Pipeline.RowStatusOfExtracted | backend/pipeline.py:147-162 | Re-normalising an extracted status for its row changes nothing. |
| Pipeline.RowStatusOfStripped | backend/pipeline.py:147-162 | On a stripped status, the row mapping is the extractor's normalisation. |
| Pipeline.RowsFor | backend/pipeline.py:145-173 | One row per extracted project, in order, carrying the meeting's blockers and risks. |
| Pipeline.ReplacedRows | backend/pipeline.py:142-173 | After replacement, the meeting has exactly the new rows and every other meeting keeps its rows. |
| Pipeline.RowsOfOwn | backend/pipeline.py:145-173 | The rows the meeting gets are exactly its new rows. |
| Pipeline.RowsOfOthers | backend/pipeline.py:142 | Every other meeting's rows are unchanged. |
| Pipeline.MeetingPipeline.ReplaceProjectRows | backend/pipeline.py:142-173 | The delete and the insert loop leave the other meetings' rows followed by the new rows. |
| Pipeline.MeetingPipeline.AddMeeting | backend/pipeline.py:84-93 | The meeting row is committed under a fresh id. |
| Pipeline.MeetingPipeline.constructor | backend/pipeline.py:24-34 | A new pipeline has empty tables, and ids start at 1. |
| Pipeline.MeetingPipeline.Process | backend/pipeline.py:36-196 | A parse exception stores nothing: no table, no id and no index entry changes. The meeting is committed before extraction. A summary exception, or a speaker that is not a string, leaves only the meeting, with nothing indexed. Otherwise it stores the data, replaces the rows and indexes the chunks. |
| Pipeline.MeetingPipeline.StoreExtraction | backend/pipeline.py:114-178 | Stores the extracted data, the rows and the index entries, and nothing else. Where every window of the loop as written moves forward, the index entries are those of `_chunk_text` as written. |
| Pipeline.MeetingViewOf | backend/pipeline.py:200-249 | None exactly for an unknown meeting. |
| Pipeline.ProjectDetails | backend/pipeline.py:220-233 | Project details are the extracted list when non-empty, else the meeting's rows. |
| Pipeline.ViewWithoutData | backend/pipeline.py:235-249 | Without extracted data, the defaults apply and the details are the stored rows. |
| Pipeline.ViewAfterProcess | backend/pipeline.py:84-249 | What `process` stores reads back through `get_meeting`. |
| Pipeline.MeetingPipeline.GetMeeting | backend/pipeline.py:200-256 | Reads the current tables, and returns the stored title. |
| Pipeline.Insert | backend/pipeline.py:267 | Inserting into a newest-first list keeps it newest-first, with one entry more. |
| Pipeline.MeetingPipeline.ListMeetings | backend/pipeline.py:258-283 | Lists every meeting exactly once, newest first. |

## Left out

- HTTP, databases, the embedding model and the vector database's nearest-neighbour search are left out. They are parameters or in-memory maps, and rollback is modelled only as "nothing is written".
- Logging, `print`, timing and `isoformat` rendering of timestamps are left out.
- Prompt texts and system prompts of the extractors are left out. Only what each extractor does with the answer is modelled.
- The generator's temperature and system prompt are not parameters of `generate` in the chatbot and the pipeline.
- Lower and upper case are modelled for ASCII letters only. Python maps all of Unicode.
- The speaker list of a parsed transcript is a set. Python's `list(set)` order is unspecified.
- `TranscriptParser.SpeakerTaggedList`: JSON numbers are one `real` (`JsonValues.JNum`), so Python's `int` and `float` are not told apart. `render` gives one string per value, so a speaker `1` and a speaker `1.0`, which Python writes as `1: …` and `1.0: …` in the full text, render alike. The speaker set uses the model's equality of values, so speakers Python's set merges (`1`, `1.0` and `True`) are kept apart. `NaN` and the infinities, which `json.loads` accepts, have no `Json` value.
- `get_full_text`, `get_speakers` and `get_segments` are read as the fields `text`, `speakers` and `segments` of a `TranscriptParser.Transcript`. Every result of `parse` holds those keys, so their `.get` defaults never apply.
- `Pipeline.ExtractAll`: the TypeError of the pulse extractor's join is one fixed message. Python's message names the position of the first non-string speaker in the list and its type, and both depend on the unspecified set order.
- `TranscriptParser`: `skip_next_empty` is left out. Both of its branches skip the empty line anyway, so it changes nothing.
- `_clean_text`'s last substitution is left out. It finds no newline after the collapse, so it is the identity.
- `ProjectExtractor`: the `in_progress` branch is left out. It is unreachable because `_` has already been replaced.
- A non-string status makes `strip` raise, which empties the whole project list. This is modelled as written.
- `Pipeline`: the pipeline's "Proposed" default for a missing row status is left out. Extracted projects always carry a status, so it is unreachable.
- `Pipeline`: the `existing_extracted_data` branch is modelled as a map update. A fresh meeting never has one.
- `Pipeline`: the duplicate keys `projects` and `ideas_proposals` of `get_meeting` are left out. They repeat `project_details` and `external_ideas_scope`.
- `Pipeline`: exceptions from the database are left out.
- `Pipeline.MeetingPipeline.ListMeetings`: meetings with the same creation time may come in any order. The database's tie order is not modelled.
- `Pipeline.ResolvedProjectName`: a non-string title that is truthy would make the name fallback raise in Python. The model treats a non-string title as absent.
- `Chatbot.ProjectMeetings`: a failure of `db.close()` after the lookup succeeded is not modelled.
- `VectorStore`: the vector database's `add` of an existing id keeps the old entry. Its behaviour on duplicate ids is otherwise not modelled.
- `VectorStore.Search`: the ranking itself is not modelled. It belongs to the index parameter.
- `VectorStore.EmbeddingStore.AddMeeting`: indexes the chunks of the loop with the start forced forward (`ChunkSpec`), not those of `_chunk_text` as written. On a text where the loop as written stalls (`Chunker.StallingText`), Python's `add_meeting` never returns. Where a sentence break ends fewer than 50 characters into a window, the start moves backwards. Python may then index other chunks, and near the beginning of the text it can skip text (`Chunker.SkippingText`). The two agree wherever every window moves the start forward (`Chunker.ChunkAsWrittenAgrees`).
- `Chunker.ChunkAsWritten`: the loop as written is followed for at most `fuel` windows, because a Dafny function must end. `None` stands for a loop that is still running after that many windows.
- `Pipeline.MeetingPipeline.StoreExtraction`: indexes the chunks of `ChunkSpec`, as `VectorStore.EmbeddingStore.AddMeeting` does. The stalling and skipping texts described there apply here too.
- `Pipeline.MeetingPipeline.Process`: indexes the chunks of `ChunkSpec`. On a stalling transcript, Python has already committed the meeting and the extracted data (backend/pipeline.py:175), and then `add_meeting` never returns. The model returns `Ok` there. On a skipping transcript, Python indexes chunks that leave text out.
- `Chatbot.MeetingChatbot.QueryStream`: a consumer that stops reading the stream early never reaches `_store_chat_history`, so Python records nothing. The model always follows the stream to its end. An exception raised by `embedding_store.search` is not modelled either; see the next line.
- `Chatbot.MeetingChatbot.Query`: an exception raised by `embedding_store.search` propagates out of `query` and `query_stream` in Python (backend/chatbot.py:62 and 159). In the model, `search` is a total function and cannot fail.
- `JsonReply.FencedPlainReply`: requires that the body does not start with `j`. A body starting `json` after a plain fence is the `json` fence case.
- Groq and the client factory are not part of this model, and neither are the summary extractor's prompt and the API layer. The summary's only effect, a stripped reply or the exception, is modelled in `Pipeline.ExtractAll`.

## Findings

| source | as written | input that shows it | evidently intended | confidence | as-written member | corrected member |
|---|---|---|---|---|---|---|
| backend/embeddings.py:182 | `start = end - overlap`, even when the sentence break found ends exactly 50 characters into the window | a 550-character text whose only sentence break is ". " at positions 48-49: the window is cut at 50, and the next start is 50 - 50 = 0 again | the next window starts after the current one, so the loop ends | high (not executed) | Chunker.StallingTextNeverEnds | Chunker.ChunkText |
| backend/embeddings.py:182 | `start = end - overlap`, even when the sentence break found ends fewer than 50 characters into the window, which sends the start back before the window and, below zero, to the end of the text | a 600-character text whose only sentence break is ". " at positions 8-9: the window is cut at 10, the next start is -40, which Python reads as 560, so that window is empty, and the start after it is 410; characters 10 to 409 are in no chunk | every character of the text is in some chunk | high (not executed) | Chunker.SkippingTextLosesText | Chunker.WindowsCover |
