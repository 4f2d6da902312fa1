# talentlens-bot screening core, in Dafny

A model of the logic of a Telegram HR-screening bot and proofs about it.
The bot does the following:
- It greets a candidate with rules.
- It asks six questions (`q1` … `q6`).
- It asks for a project link, which it classifies as a refusal, an
  `http(s)://` URL, the bare `nda` marker, or an NDA note of at least two
  words.
- It sends the answers to a language-model scorer, with one retry.
- It appends a 14-column row to a spreadsheet.
- It alerts the admin when the candidate is hot or when something failed.
- It gives the admin a panel: statistics over the stored rows (with an
  optional top-candidates filter and a top-3 ranking), plus a buffer of
  panel messages that "close" deletes, newest first.

The modules follow the source:

| file | module | models |
|---|---|---|
| wrappers.dfy | `Wrappers` | `Option` and `Result` |
| text.dfy | `Text` | the Python `str` operations the bot uses (`strip`, `lower`, `replace`, `split`, `startswith`, `str(int)`, `int(str)`, string `<=`) |
| models.dfy | `Models` | the pydantic models and their field constraints (`models.py`) |
| classifier.dfy | `Classifier` | `_norm`, `_is_decline`, `_is_valid_http_url`, `_is_reasonable_nda_note` and the link precedence of `link_handler` |
| rendering.dfy | `Rendering` | `_stars_0_10`, `_material_line`, `_shorten`, `_pick_signal` and the admin alert text |
| scoring.dfy | `Scoring` | `score_candidate`: language choice, prompts, one retry over an oracle |
| sheets.dfy | `Sheets` | `fetch_rows`' pad/trim loop and `append_row`'s validated value list |
| stats.dfy | `AdminStats` | `_render_admin_stats` (with `_to_int`, `_to_bool`) and the `/admin top` argument |
| admin_buffer.dfy | `AdminBuffer` | `_ADMIN_MSG_IDS` with `_track_admin_msg` and `_thanos_delete`, plus the admin callbacks |
| conversation.dfy | `Conversation` | the screening state machine (`bot/states.py`) and its handlers, and the completion pipeline of `link_handler` |

The code is imperative where the source changes things step by step:
- `AdminBuffer.AdminMessages` is a class over the module-level dictionary.
- `Conversation.Session` is a class holding the FSM state, the `answers`
  dictionary and the last prompt id.
- `Sheets.FetchRows`, `AdminStats.Normalise` and `AdminMessages.ThanosDelete`
  are loops.

The loops (`FetchRows`, `Normalise`, `ThanosDelete`) and the scorer's retry
are proved against specification functions whose properties are proved as
lemmas. The `Session` and `AdminMessages` methods state their new state
directly: which fields change, to what, and that nothing else does.

External services become parameters:
- The language model is an oracle `Request -> Reply`; a reply is a text or
  a raised exception.
- `json.loads` followed by the pydantic shape is a `decode` function.
- `json.dumps` is a function to strings.
- The spreadsheet failure is an optional exception text.
- The timestamp and the latency are plain inputs.

## Model

| member | source | states |
|---|---|---|
| Models.ValidCriterion | models.py:6 | a criterion score is an integer in 0..10 |
| Models.ValidScoreResult | models.py:10-12 | a scoring result has exactly three criteria, each valid, and an overall score in 0..10 |
| Models.ValidSheetRow | models.py:17-31 | a sheet row has a non-negative user id, a project link, an overall score in 0..10 and a non-negative latency |
| Classifier.Norm | bot/handlers.py:214-215 | `_norm` is empty exactly for a missing or all-whitespace text; otherwise it neither begins nor ends with whitespace |
| Classifier.ClassifyLink | bot/handlers.py:575-606 | each outcome's condition, tested in the handler's order: empty text; a refusal, which is always `Declined`; an http(s) URL kept verbatim; exactly `nda` in any case; a note of at least 8 characters containing a separator, which is always stored as that note; or rejection when none of these holds |
| Classifier.IsDecline | bot/handlers.py:218-220 | the text, lower-cased and with every space removed, is one of the refusal phrases; `SpacedRefusal` and `LongWordNotDecline` are its examples |
| Classifier.IsValidHttpUrl | bot/handlers.py:267-269 | the stripped text starts with `http://` or `https://`; `UrlBeatsNote` and `SchemeDomainExample` are its uses |
| Classifier.NonBlank | bot/handlers.py:260 | every kept word is one of the pieces and not blank, and every non-blank piece is kept |
| Classifier.NonBlankAppend | bot/handlers.py:260 | the word filter keeps the order: filtering two halves and joining equals filtering the whole |
| Classifier.IsReasonableNdaNote | bot/handlers.py:251-264 | an accepted note is at least 8 characters after stripping and contains a space or a newline |
| Classifier.OneWordWithoutSeparator | bot/handlers.py:260 | a text with neither a space nor a newline has at most one word, so it is never an NDA note |
| Classifier.UrlBeatsNote | bot/handlers.py:585-588 | a non-refusal text that starts with a scheme is stored as the URL, before the NDA tests |
| Classifier.NdaMarkerIgnoresCase | bot/handlers.py:583-591 | a text that lower-cases to `nda` is the NDA marker |
| Classifier.SingleTokenRejected | bot/handlers.py:592-606 | a single token that is not a refusal, URL or `nda` is rejected |
| Classifier.LongWordNotDecline | bot/handlers.py:218-220 | a space-free text longer than every refusal phrase is not a refusal |
| Classifier.BareDomainRejected | bot/handlers.py:251-264 | a bare domain (one word of more than eight characters, no scheme) is rejected; the domain detector is never consulted |
| Classifier.BareDomainExample | bot/handlers.py:585-606 | `github.com` is rejected |
| Classifier.SchemeDomainExample | bot/handlers.py:587-588 | `https://github.com` is stored as the link |
| Classifier.SpacedRefusal | bot/handlers.py:218-220 | `Не хочу` is a refusal: letter case and inner spaces are dropped before the lookup |
| Classifier.DeclineExample | bot/handlers.py:575-586 | ` Не хочу ` is classified as a refusal |
| Classifier.DetectorFlagsBareDomain | bot/handlers.py:229-248 | the domain detector, which the flow never calls, would have recognised `github.com` |
| Rendering.StarCount | bot/handlers.py:46-50 | the star count is ceil(s/2) of the score clamped to 0..10, so at most 5 |
| Rendering.Stars | bot/handlers.py:46-51 | `—` exactly when the score is at most 0; otherwise 1..5 star glyphs, ceil(s/2) of them |
| Rendering.MaterialLine | bot/handlers.py:54-62 | the material line is never empty; `MaterialLineOfDecision` gives its value for each accepted link |
| Rendering.MaterialLineOfDecision | bot/handlers.py:54-62 | for every accepted link, the alert shows the refusal line, the NDA line (marker or note) or the URL itself |
| Rendering.Shorten | bot/handlers.py:88-92 | the result has no newline; the flattened text when it fits; otherwise the flattened text's first `max_len - 3` characters, right-stripped (only whitespace is dropped), followed by `...`, within the length limit |
| Rendering.FlattenFlat | bot/handlers.py:89-107 | flattening an already flattened text changes nothing, so `_shorten` of the flattened rationale sees the same text |
| Rendering.PickSignal | bot/handlers.py:95-110 | the fallback when the criteria are not a list of three, the index is out of range, the entry is not a dictionary or its flattened rationale is empty; otherwise `_shorten(rationale, 110)`; so either the fallback or a non-empty single-line fragment of at most 110 characters |
| Rendering.AlertDisplayName | bot/handlers.py:688-692 | the alert's name for the candidate is never empty |
| Rendering.AlertDisplayNameShape | bot/handlers.py:688-692 | the name starts with the stripped full name, or `Кандидат` when that is blank; ` (@username)` is appended when the stripped username is non-empty, and nothing is appended otherwise |
| Rendering.TechDetails | bot/handlers.py:748-755 | the diagnostics block is present exactly when the sheet error or the scoring error is non-empty, or scoring failed |
| Rendering.AlertText | bot/handlers.py:694-757 | the alert starts with the top-candidate or the needs-attention header and ends with the `/admin top` line |
| Scoring.DetectLanguage | services/llm_scoring.py:20-28 | Russian exactly when some answer contains a letter from А-Я, а-я, Ё or ё |
| Scoring.JoinHasCyrillic | services/llm_scoring.py:24-27 | joining the answers with spaces neither adds nor hides a Cyrillic letter |
| Scoring.Validate | services/llm_scoring.py:82-83 | a parse succeeds exactly when the text decodes and satisfies the `ScoreResult` constraints |
| Scoring.Outcome | services/llm_scoring.py:80-89 | a successful call gives a valid result; a raised call gives its exception |
| Scoring.RetryRequest | services/llm_scoring.py:86-87 | the retry keeps the system prompt; its user prompt is the first one followed by the fixed suffix, and exactly that much longer |
| Scoring.ExpectedScore | services/llm_scoring.py:80-89 | every success is valid; a first reply that validates is the result; an exception from the first call is the result (no retry) |
| Scoring.ScoreCandidate | services/llm_scoring.py:12-89 | one or two calls, the first with the detected-language prompt and the second the retry; a single call exactly when the first reply raised or validated; the result is the last call's outcome and valid when it succeeds |
| Sheets.SheetValues | services/sheets.py:65-80 | a validated row becomes exactly 14 values, in column order |
| Sheets.AppendRow | services/sheets.py:50-81 | an invalid row is refused with a validation error before the sheet is touched; success exactly for a valid row and a working sheet, with the 14 values appended |
| Sheets.PadTrim | services/sheets.py:35 | the cells are padded with "" or cut to exactly the header length |
| Sheets.ZipDict | services/sheets.py:36 | the dictionary's keys are exactly the header names |
| Sheets.ZipDictLast | services/sheets.py:36 | a repeated header keeps the value of its last occurrence |
| Sheets.RowDictLookup | services/sheets.py:33-36 | with distinct headers, header i maps to cell i when it exists and to "" otherwise |
| Sheets.ColumnNamesDistinct | services/sheets.py:65-80 | the 14 column names are distinct |
| Sheets.CellReadBack | services/sheets.py:33-36 | a value list read back under the written header gives column i the i-th value |
| Sheets.KeysReadBack | services/sheets.py:33-80 | a written row read back has exactly the column names as keys |
| Sheets.RecordColumnsReadBack | services/sheets.py:65-73 | the timestamp, answers JSON and scores JSON read back as written |
| Sheets.LinkAndModelColumnsReadBack | services/sheets.py:71-76 | the project link and the model name read back as written |
| Sheets.NameColumnsReadBack | services/sheets.py:68-69 | the username and full name read back as written, or as "" where absent |
| Sheets.NoteAndErrorColumnsReadBack | services/sheets.py:72-79 | the project note and the error read back as written, or as "" where absent |
| Sheets.IntCellReadBack | services/sheets.py:67-77 | a cell holding `str(n)` parses back to `n` |
| Sheets.NumberColumnsReadBack | services/sheets.py:67-77 | the user id, overall score and latency parse back to their values |
| Sheets.FlagColumnsReadBack | services/sheets.py:75-78 | the top and failure flags read back as `TRUE` exactly when set |
| Sheets.FetchRows | services/sheets.py:23-37 | nothing without a header row or data rows; otherwise one padded dictionary per data row, in sheet order |
| AdminStats.StatsDisplay | bot/handlers.py:153-155 | `@username`, else the full name, else `unknown` |
| AdminStats.KeepMap | bot/handlers.py:146-165 | the comprehension has one entry per kept element |
| AdminStats.KeepMapComplete | bot/handlers.py:146-165 | each kept element's image sits after one entry per kept element before it |
| AdminStats.KeepMapSound | bot/handlers.py:146-165 | each entry is the image of some kept element |
| AdminStats.KeepMapAll | bot/handlers.py:146-165 | when every element is kept, the i-th entry is the i-th element's image |
| AdminStats.NormalisedRows | bot/handlers.py:146-165 | one entry per kept row (all rows without the filter, the top rows with it), so never more than the input |
| AdminStats.NormalisedRowsComplete | bot/handlers.py:146-165 | every kept row's normalisation is in `norm`, at the place the loop appends it |
| AdminStats.NormalisedRowsSound | bot/handlers.py:146-165 | every entry of `norm` is a kept row's normalisation, and a top candidate under the filter |
| AdminStats.NormalisedRowsUnfiltered | bot/handlers.py:146-165 | without the filter `norm` has one entry per row, the i-th being the i-th row's |
| AdminStats.Normalise | bot/handlers.py:146-165 | the loop builds exactly the normalised rows |
| AdminStats.CountsBounded | bot/handlers.py:170-172 | the top and failed counts never exceed the total |
| AdminStats.AllTopCounted | bot/handlers.py:149-171 | when every kept row is top, the top count equals the total |
| AdminStats.KeyGeTotal | bot/handlers.py:175 | any two rows are comparable by (overall, ts) |
| AdminStats.KeyGeTransitive | bot/handlers.py:175 | the (overall, ts) order is transitive |
| AdminStats.InsertSorted | bot/handlers.py:175 | inserting into a descending list keeps it descending and adds exactly that row |
| AdminStats.SortByKeyDesc | bot/handlers.py:175 | the sort gives a descending permutation of its input |
| AdminStats.Top3Best | bot/handlers.py:175 | top-3 has min(n, 3) rows, best first, drawn from the rows, and no left-out row ranks above a shown one |
| AdminStats.RenderAdminStats | bot/handlers.py:131-189 | "no passes" exactly for an empty sheet, even with the top filter; "no top candidates" exactly when the filter leaves nothing; otherwise the counts and top-3 of the filtered rows, with the top count equal to the total under the filter |
| AdminStats.ParseAdminTop | bot/handlers.py:389-394 | the filter is on only when the command text has a second part |
| AdminStats.AdminTopEnglish | bot/handlers.py:392-394 | `/admin top` turns the filter on |
| AdminStats.AdminTopRussian | bot/handlers.py:392-394 | `/admin ТОП` turns the filter on, case ignored |
| AdminStats.AdminBare | bot/handlers.py:390-394 | `/admin` alone leaves the filter off |
| AdminStats.ToInt | bot/handlers.py:136-140 | `int(x.strip())`, or 0 where that raises; `IntCellReadBack` is its round trip |
| AdminStats.ToBool | bot/handlers.py:142-144 | true only for the listed words after stripping and lower-casing; `BoolCellReadBack` is its round trip |
| AdminStats.BoolCellReadBack | bot/handlers.py:142-144 | `TRUE`/`FALSE` read back through `_to_bool` as the boolean written |
| AdminStats.IntCellReadBack | bot/handlers.py:136-140 | `str(n)` reads back through `_to_int` as `n` |
| AdminStats.ReadBack | services/sheets.py:74-78 | the written top flag, failure flag and overall score read back unchanged from the sheet row dictionary |
| Text.StripIdempotent | bot/handlers.py:214-215 | stripping twice equals stripping once |
| Text.ParseIntRoundTrip | bot/handlers.py:138 | `int(str(n)) == n` for every integer |
| AdminBuffer.LastN | bot/handlers.py:28-29 | at most `n` entries, the newest ones, in order |
| AdminBuffer.LastNOfHistory | bot/handlers.py:25-30 | cutting after every append keeps the same entries as cutting the whole history once |
| AdminBuffer.Reversed | bot/handlers.py:36 | the entries in reverse order |
| AdminBuffer.AdminMessages.Track | bot/handlers.py:25-30 | the buffer becomes the newest 6 of old buffer plus the new entry, is non-empty, ends with it, and other users' buffers are unchanged |
| AdminBuffer.AdminMessages.ThanosDelete | bot/handlers.py:33-43 | one delete attempt per remembered message, newest first, then an empty buffer |
| AdminBuffer.AdminMessages.ShowPanel | bot/handlers.py:413-454 | only the admin's callback remembers the sent panel message; others change nothing |
| AdminBuffer.AdminMessages.Close | bot/handlers.py:457-468 | the admin's close remembers the panel message, deletes everything newest first (the panel itself first) and empties the buffer; others change nothing |
| Conversation.RecordAnswer | bot/handlers.py:483-486 | storing answer n keeps the answers of the passed questions, and only them |
| Conversation.AnswerItems | bot/handlers.py:609-617 | the answers dictionary's items in `q1` … `q6` order |
| Conversation.BuildPayload | bot/handlers.py:608-617 | the payload carries the stored answers and the link as stored, and a user id exactly when the message has a sender |
| Conversation.Complete | bot/handlers.py:619-757 | a sheet error exactly when the append raised; an alert reports the stored link, the hot flag and whether scoring failed |
| Conversation.BuildRow | bot/handlers.py:621-671 | overall in 0..10 and a link always set; scoring failed exactly when scoring raised; a top candidate never has failed scoring |
| Conversation.AlertExactly | bot/handlers.py:679-680 | the admin alert is built exactly when scoring failed, the append raised with a non-empty message, or the result is hot |
| Conversation.RowValidExactly | bot/handlers.py:656-677 | the row is valid exactly when the user id and latency are not negative; an invalid row is reported as a sheet error and not appended |
| Conversation.StoredOutcome | bot/handlers.py:656-677 | when the sheet accepts the row, the admin statistics read back the overall score, the hot flag and the failure flag of this run |
| Conversation.Score | bot/handlers.py:641 | one or two scorer calls: the first built from the payload, the second the retry of the first; a single call exactly when the first reply raised or validated; the result is the last call's outcome and the one `score_candidate` arrives at |
| Conversation.Finish | bot/handlers.py:608-677 | the payload of this candidate's answers and link is scored (first request, retry, a single call exactly when the first reply raised or validated, result as in `Score`) and completed by `Complete` |
| Conversation.LanguageOfSession | bot/handlers.py:611-617 | the scorer is asked for Russian exactly when a stored answer contains a Cyrillic letter |
| Conversation.StepAfterQuestion | bot/states.py:4-12 | the i-th question state advances to the next one, q6 to `link` |
| Conversation.AnswerKeysDistinct | bot/handlers.py:485-560 | the six answer keys are distinct |
| Conversation.Session.constructor | bot/states.py:4-12 | a fresh session has no state, no answers and no prompt |
| Conversation.Session.Start | bot/handlers.py:337-341 | `/start` clears the data and enters `rules` |
| Conversation.Session.Restart | bot/handlers.py:345-349 | `/restart` clears the data and enters `rules` |
| Conversation.Session.Cancel | bot/handlers.py:471-474 | `/cancel` clears the state and the data |
| Conversation.Session.SendReplace | bot/handlers.py:290-307 | the previous prompt is deleted only when one is recorded and non-zero; the new one is recorded; the state and answers are unchanged |
| Conversation.Session.GoStart | bot/handlers.py:353-380 | outside `rules` nothing changes; from `rules` the state is `q1` with empty answers and the first question recorded |
| Conversation.Session.Answer | bot/handlers.py:477-570 | accepted exactly when the stripped text is non-empty; a blank answer changes nothing; otherwise only `q<n>` is set, to the stripped text, the state advances, the previous prompt is deleted when it is recorded and non-zero, and the new one is recorded |
| Conversation.Session.SubmitLink | bot/handlers.py:573-777 | a rejected link changes nothing; an accepted one is scored with a first request built from this session's answers and the link, and at most the retry of it, made exactly when the first reply neither raised nor validated; the result is the one `score_candidate` arrives at; it is completed by the row, append and alert of `Complete`; the previous prompt is deleted when recorded and non-zero; the session ends with the answers kept |
| Conversation.Interview | bot/handlers.py:337-777 | a full run ends with no state, every answer stored stripped under its key, and at most two scorer calls |

## Left out

- Telegram transport is not modelled: sending, editing and deleting messages, keyboards, chat actions, `asyncio.sleep`, and the edit in `_transition_accepted`. A deleted prompt appears only as a returned message id.
- The OpenAI client is an oracle function, and `json.loads`/`json.dumps` are abstract functions. The alert reads its criteria scores from the validated result directly, rather than from `json.loads(json.dumps(...))`.
- gspread, credentials and the worksheet lookup are left out. The spreadsheet is an optional failure text on append; on read it is the header row and the value grid.
- Clocks are inputs: the timestamp and the latency.
- Concurrency and the aiogram FSM storage are left out. One user's session is modelled sequentially.
- `config.py` and `main.py` have no logic. `settings.llm_model` and the admin id are parameters.
- The question texts, the rules text and the completion message are left out. They are constant strings shown to the user.
- `chatid_handler` and the sending part of `admin_handler` are left out; only the argument parse of `/admin top` is modelled.
- The pydantic error texts are not modelled: a validation failure carries a fixed placeholder message.
- `_ai_first_label` and `_top_strength_ru` are never called, and are not modelled.
- `_looks_like_domain_without_scheme` is modelled as a standalone predicate. It is never called, so the classifier does not use it.
- `_is_nda_word` is never called, and is not modelled.
- `_pick_signal` is never called, and `_shorten` is called only from inside it. Both are dead code in the source; they are modelled as `PickSignal` and `Shorten`.
- Conversation.AnswerItems: its `q1` … `q6` order is fixed by building the items from the key list. The source's order is the dictionary's insertion order, which equals it because each question handler stores its answer in turn; that equality is not proved.
- AdminStats.RenderAdminStats: the average is kept as the sum and the total, without Python's one-decimal float rounding, and the text layout of the view is not rendered.
- AdminStats.SortByKeyDesc: Python's sort is stable. The model's insertion sort is stable too, but the lemmas state only that the result is sorted and a permutation.
- Text.Lower: it lower-cases ASCII, Latin-1 and basic Cyrillic letters only. Python's `str.lower` maps more: for example U+212A KELVIN SIGN becomes `k`, so `S\u212AIP` is a refusal in the source but is rejected as a bad format by the model.
- Rendering.PickSignal: the rationale entry is given as the text `str()` makes of it. A `str()` that raises on an arbitrary object is not modelled.
- Text.ParseInt: it accepts ASCII digits, single underscores between digits, an optional sign and surrounding whitespace; other Unicode digits are not modelled.
- AdminStats.ParseAdminTop: its contract states only the necessary condition; the accepted words are shown by the example lemmas.
- Rendering.AlertText: its contract states the header and the footer; the body lines are given by `AlertBody` and `TechDetails`.

## Where the code and the stated design differ

The model follows the code in each of these cases:
- A bare domain such as `github.com` is rejected only because it is a single word. The domain detector exists but is not called.
- Only the exact lower-cased `nda` is an NDA marker. `n/a` and `под nda` are not markers, although `_material_line` would show `n/a` as NDA.
- Completing the link step sets the state to none but keeps the stored data. `/start`, `/restart` and `/cancel` clear it.
- An empty sheet gives the generic "no passes" view even under the top filter, because the emptiness test comes before the filter.
- The alert's display name is the full name (or "Кандидат") with ` (@username)` added. The statistics show `@username`, then the full name, then `unknown`.
