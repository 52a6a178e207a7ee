# Tuner: a verified model of its decision logic

Tuner is a web assistant for teaching robots new tasks. A React front end
holds two chat components and a marketplace of ready-made robot tasks. A
Python back end classifies a request and sends the user either to the
marketplace or to data recording. This project models the sequential logic
beneath the user interface in Dafny and proves what that logic promises:

- **The guided interview** (`TunerApp`) walks through task description,
  robot type, environment, constraints and media. Each answer fills in one
  field of a task summary. The interview ends at the upload prompt or at the
  summary. The summary message is guarded by the stage *before* the answer
  was processed, and the text box is hidden in the two final stages. So a
  summary message is never posted through the text box. The model keeps
  this behaviour and proves it (`SummaryMessageNeedsSummaryStage`).
- **The chat assistant** (`TunerChat`) has a send guard and a
  "marketplace short-circuit". When a text-only message matches a catalog
  title, the message is shown with an offer and no request is made. The
  chat also has "get from marketplace" and "record new" follow-ups. "Record
  new" sends whatever is in the input at the time (`ChatSession.RecordNew`).
  The short-circuit clears the input, and the text box stays usable while
  the offer is shown. So if nothing was typed since the offer, "record new"
  sends the fallback prompt "Autonomous Floor Cleaner" (`OfferThenRecordNew`).
  "Get from marketplace" ends with a note quoting the trimmed message
  (`OfferThenGetFromMarketplace`).
- **The marketplace page** (`Marketplace`, `MarketplaceData`): the filter,
  the result count, the empty state, the compatibility label and the static
  catalog.
- **The back end's pure parts:**
  - the helpers of `utils/helpers.py` (`Helpers`);
  - the text processor's entities and summary (`TextProcessor`);
  - the Groq client's sentence and object helpers (`GroqClient`);
  - the task classifier and the instructor's routing (`TaskClassifier`,
    `Instructor`);
  - the `update_task` query builder of the Neo4j client (`Neo4jClient`).

Shared modules:
- `Seqs`: filter, subsequence and take.
- `Chat`: the `user`/`bot` sender tag shared by both chat components.
- `Strings`: ASCII lowercasing, JavaScript `trim`, Python `split`/`strip`,
  and substring search.
- `Json`: the dynamically typed values. Dicts are insertion-ordered entry
  lists, as Python and JavaScript iterate them.
- `Wrappers`: `Option` and `Result`.

State that the source changes in place is modelled as a class:
- `TunerChat.ChatSession` holds the chat component's state.
- `TunerApp.Interview` holds the interview component's state.

Each state-changing method is specified by a pure function on a state
snapshot (`Send`, `Submit`), and the properties are proved about that
function. Loops are methods with invariants tied to a specification
function: `Helpers.MergeDictionaries` and `Neo4jClient.BuildUpdate`.

## Model

| member | source | states |
|---|---|---|
| TunerApp.Process | src/TunerApp.jsx:359-399 | Each of the first three stages stores the answer in its own field and moves on one stage, with the other fields unchanged. The constraints stage appends the answer. The media stage goes to upload iff the lowercased answer contains "yes", else to summary. The final stages reply "I didn't understand" and keep stage and summary. The stage rank always rises by one until the last rank. |
| TunerApp.ProcessMonotone | src/TunerApp.jsx:359-399 | No answer moves the interview backwards, and the constraints collected so far stay a prefix. |
| TunerApp.SummaryText | src/TunerApp.jsx:412-420 | The summary text contains the "**Task Summary:**" heading and the description, robot type and environment lines, each with its field verbatim. It also contains the constraints line, with the constraints joined by ", ". |
| TunerApp.Posted | src/TunerApp.jsx:338-345 | The posted messages are the untrimmed answer with id n+1, the stage's reply with id n+2 and, only when the stage was already the summary, the summary message with id n+3, where n is the number of messages so far. |
| TunerApp.Submit | src/TunerApp.jsx:334-352 | A blank input changes nothing. Otherwise the messages grow by exactly the posted ones, the stage and summary follow the transition, and the input is cleared. |
| TunerApp.SubmitKeepsIdsSequential | src/TunerApp.jsx:402-409 | Message ids 1, 2, 3, … stay sequential after a submission. |
| TunerApp.SummaryMessageNeedsSummaryStage | src/TunerApp.jsx:412-432 | A submission adds a summary message iff the stage before it was the summary. Where the text box is shown, no submission adds one. |
| TunerApp.Interview.constructor | src/TunerApp.jsx:304-321 | The initial state is the greeting with id 1, an empty input, the task-description stage and an empty summary. |
| TunerApp.Interview.SetInput | src/TunerApp.jsx:525 | Typing sets the input field. |
| TunerApp.Interview.Send | src/TunerApp.jsx:334-352 | Pressing send leaves the component in the state that `Submit` gives for the old state. |
| TunerApp.CompleteInterview | src/TunerApp.jsx:359-395 | Five answers from the start fill in description, robot type, environment and a one-entry constraint list. They end at upload iff the last answer says "yes", else at summary. |
| TunerChat.MatchingTitles | src/TunerChat.jsx:92-99 | Gives `None` iff no title contains the instruction, both lowercased. Otherwise it gives a non-empty subsequence of the catalog whose members are exactly the matching entries. |
| TunerChat.MatchingTitlesCounts | src/TunerChat.jsx:92-99 | When there are matches, each matching catalog entry occurs in them as many times as in the catalog, and any other entry not at all. |
| TunerChat.OfferFor | src/TunerChat.jsx:367-376 | An offer exists iff the trimmed text is non-empty, there is no media and the catalog has a match. The offer carries the trimmed text and exactly those matches. |
| TunerChat.MediaFileName | src/TunerChat.jsx:425-427 | The file name is "image.jpg" for an image and "<mediaType>.webm" otherwise. |
| TunerChat.FormFields | src/TunerChat.jsx:409-433 | The form has a text field iff the text is non-empty. It has a file part iff there is media given as a `data:` URL, and that part is named by the media type. It has a mediaType field iff there is media. The form has exactly those parts and no others, in the order text, file, media type. |
| TunerChat.MimePrefix | src/TunerChat.jsx:75 | The media type is a prefix of the MIME type that holds no '/', followed by '/' when it is shorter than the MIME type. |
| TunerChat.MimePrefixIsBeforeFirstSlash | src/TunerChat.jsx:75 | The media type is exactly the MIME type up to its first '/', or the whole string. |
| TunerChat.MimePrefixOfPng | src/TunerChat.jsx:75-76 | "image/png" gives the media type "image". |
| TunerChat.MimePrefixOfWebm | src/TunerChat.jsx:75-76 | "video/webm" gives the media type "video". |
| TunerChat.SendReply | src/TunerChat.jsx:458-485 | A failed request, or a JSON `null` reply, gives the single apology. A dict reply gives its `message` (or the default when that is missing or falsy), with media and mediaType defaulting to null. Any other value gives the default text. |
| TunerChat.RecordUserText | src/TunerChat.jsx:130-136 | The shown text is the trimmed input, or "Sending request to Groq..." when that is blank. |
| TunerChat.RecordPrompt | src/TunerChat.jsx:143 | The prompt is the trimmed input, or "Autonomous Floor Cleaner" when the input is blank. |
| TunerChat.RecordPromptNotBlank | src/TunerChat.jsx:143 | The prompt is never blank. |
| TunerChat.RecordReply | src/TunerChat.jsx:160-181 | A failure gives the Groq apology. A truthy reply is shown whole. A falsy reply gives the default text. |
| TunerChat.MarketplaceNote | src/TunerChat.jsx:110-116 | The bot note quotes the instruction in double quotes. |
| TunerChat.Send | src/TunerChat.jsx:364-404 | The send is ignored iff the guard holds, and then nothing changes. Otherwise exactly one user message with the untrimmed text is appended and the input is cleared. An offer is made iff one exists: it sets the options and touches neither loading nor media. Otherwise the request carries the text and the form, the message carries the media, loading starts, the media is cleared and the media buttons are hidden. |
| TunerChat.ChatSession.constructor | src/TunerChat.jsx:20-35 | The initial state is the welcome message only, with everything else empty or off. |
| TunerChat.ChatSession.SetInputText | src/TunerChat.jsx:1017 | Typing sets the input and nothing else. |
| TunerChat.ChatSession.ToggleMediaButtons | src/TunerChat.jsx:889 | The "+" button flips the media buttons. |
| TunerChat.ChatSession.ChooseFile | src/TunerChat.jsx:71-76 | Without a file nothing happens. With one, the media type becomes its MIME prefix. |
| TunerChat.ChatSession.PreviewLoaded | src/TunerChat.jsx:78-81 | The preview becomes the data URL read from the file. |
| TunerChat.ChatSession.ClearMediaPreview | src/TunerChat.jsx:340-343 | The preview and the media type are cleared. |
| TunerChat.ChatSession.SendMessage | src/TunerChat.jsx:364-404 | The new state and the outcome are those of `Send` on the old state. |
| TunerChat.ChatSession.ReceiveReply | src/TunerChat.jsx:457-488 | One bot message (`SendReply`) is appended and loading ends. |
| TunerChat.ChatSession.GetFromMarketplace | src/TunerChat.jsx:102-107 | Only possible while an offer is pending, as the button is only shown then. It returns the offer's query, which the button passes as the instruction. Loading starts and the offer is withdrawn. |
| TunerChat.ChatSession.MarketplaceFetched | src/TunerChat.jsx:110-120 | One note quoting the instruction is appended and loading ends. |
| TunerChat.SendWithOffer | src/TunerChat.jsx:364-380 | A send that leads to an offer shows the text without media and clears the input. Loading stays off, and the offer's query is the trimmed text. |
| TunerChat.TakeOffer | src/TunerChat.jsx:102-120 | Getting a pending offer from the marketplace appends one note quoting the offer's query. The offer is withdrawn and loading ends. |
| TunerChat.OfferThenGetFromMarketplace | src/TunerChat.jsx:846-848 | After a text-only send that leads to an offer, "get from marketplace" appends the user's message and then a note quoting the trimmed text. |
| TunerChat.ChatSession.RecordNew | src/TunerChat.jsx:123-143 | The offer is withdrawn, one user message is appended, loading starts, and the prompt is computed from the input at that moment. |
| TunerChat.ChatSession.ReceiveRecordReply | src/TunerChat.jsx:160-185 | One bot message is appended. A success clears the input. Loading ends. |
| TunerChat.OfferThenRecordNew | src/TunerChat.jsx:385 | After a text-only send that leads to an offer, with nothing typed in between, "record new" sends "Autonomous Floor Cleaner", whatever the sent text was. |
| TunerChat.RecordOfEmptyInput | src/TunerChat.jsx:130-143 | With nothing typed, "record new" shows the placeholder and sends the fallback prompt. |
| TunerChat.SorterMatches | src/assets/marketplacedata.js:4-88 | A title search for "sorter" gives exactly entries 1 and 7, in that order. |
| TunerChat.FallbackPromptMatches | src/assets/marketplacedata.js:32 | The fallback prompt matches exactly entry 3, "Autonomous Floor Cleaner". |
| Marketplace.OptionIds | src/components/Markeplace.jsx:9-27 | The ids a drop-down offers, one per option, in order. What the drop-downs promise about the catalog is stated by `CatalogRobotTypesSelectable` and `CatalogCategoriesSelectable`. |
| Marketplace.FilteredItemsMembership | src/components/Markeplace.jsx:30-41 | An entry is listed iff it is in the catalog and matches the search (title, description or a tag, all lowercased), the category and the robot type. |
| Marketplace.FilteredItems | src/components/Markeplace.jsx:30-41 | Every listed entry is from the catalog and meets all three conditions. Every catalog entry that meets them is listed, as many times as it occurs in the catalog. |
| Marketplace.FilteredItemsOrderPreserving | src/components/Markeplace.jsx:30 | The list is an order-preserving subsequence of the catalog, so it is no longer. |
| Marketplace.InitialStateListsEverything | src/components/Markeplace.jsx:31-38 | An empty query with both filters on "all" lists every entry. |
| Marketplace.SelectedFiltersHold | src/components/Markeplace.jsx:36-38 | With a category (or robot type) selected, every listed entry has it. |
| Marketplace.Results | src/components/Markeplace.jsx:127-139 | The count shows the number of listed entries of the catalog's total, and that number is at most the total. The empty state appears iff nothing is listed, that is iff no entry matches. |
| Marketplace.CompatibilityLabel | src/components/Markeplace.jsx:191 | The label is the first two platforms joined by ", ", followed by "..." iff there are more than two. |
| Marketplace.RobotImageColor | src/components/Markeplace.jsx:47-61 | A known image key gets its colour, and any other key gets "#bdc3c7". |
| Marketplace.CatalogRobotTypesSelectable | src/assets/marketplacedata.js:7 | Every robot type is "arm" or "mobile", and both are drop-down ids. |
| Marketplace.CatalogCategoriesSelectable | src/assets/marketplacedata.js:6 | Every category is a drop-down id other than "all". |
| Marketplace.CatalogImagesHaveColours | src/assets/marketplacedata.js:13 | Every image key has a colour, so no card falls back to grey. |
| Marketplace.CatalogCompatibilityLabels | src/components/Markeplace.jsx:191 | Every card's label is its first two platforms followed by "...". |
| MarketplaceData.CatalogShape | src/assets/marketplacedata.js:1-114 | The catalog has 8 entries with ids 1 to 8 in order, each with 3 tags and 3 platforms. |
| MarketplaceData.CatalogIdsDistinct | src/assets/marketplacedata.js:1-114 | No two entries share an id. |
| Helpers.ValidateMimeType | Backend/utils/helpers.py:32-43 | True iff the MIME type is in the allowed list. |
| Helpers.SafeChars | Backend/utils/helpers.py:82 | Every kept character is alphanumeric or one of "._- ". The result is a subsequence of the name. Each allowed character occurs in it exactly as often as in the name, and each other character never occurs. The result equals the name when every character is allowed. |
| Helpers.SafeCharsIdempotent | Backend/utils/helpers.py:82 | Filtering twice equals filtering once. |
| Helpers.SanitizeFilename | Backend/utils/helpers.py:71-87 | A filtered name of at most 255 characters is returned unchanged. A longer one raises `NameError`, because `os` is not imported. |
| Helpers.SanitizeFilenameFailsOnLongName | Backend/utils/helpers.py:84-85 | 256 letters raise the error. |
| Helpers.SplitExt | Backend/utils/helpers.py:85 | `os.path.splitext` splits the name into stem and extension that concatenate back to it. The extension is empty, or starts with its only '.' and has no '/'. |
| Helpers.SanitizeFilenameFixed | Backend/utils/helpers.py:84-86 | With `os` imported, a long name becomes its first 250 stem characters plus its extension, keeping only allowed characters. A short name is unchanged. |
| Helpers.SanitizeFilenameFixedLength | Backend/utils/helpers.py:84-86 | With an extension of at most five characters, the fixed name has at most 255 characters. |
| Helpers.PySliceTo | Backend/utils/helpers.py:117 | Python's `s[:n]` is a prefix of length min(n, len). A negative n counts from the end. |
| Helpers.TruncateText | Backend/utils/helpers.py:104-117 | Text within the limit is unchanged. Longer text is cut to the limit and followed by "...". For a non-negative limit the result has length limit + 3 and starts with the first limit characters. |
| Helpers.MergeValue | Backend/utils/helpers.py:133-136 | Unless both values are dicts, `dict2`'s value wins. |
| Helpers.MergeWithEmpty | Backend/utils/helpers.py:130-138 | Merging an empty `dict2` gives `dict1`. |
| Helpers.Merged | Backend/utils/helpers.py:119-138 | `MergeInto` (the loop, run on a copy of `dict1`) satisfies this contract, via the `MergeInto*` lemmas. The merged keys are those of either dict, with `dict1`'s keys first and in order. The keys only in `dict2` follow, in `dict2`'s order. Distinct keys in `dict1` stay distinct. A key only in `dict1` keeps its value. A key of `dict2` gets the recursive merge when both values are dicts, otherwise `dict2`'s value. |
| Helpers.MergeIntoHasKey | Backend/utils/helpers.py:130-136 | A key is in the merge iff it is in either dict. |
| Helpers.MergeIntoKeysPrefix | Backend/utils/helpers.py:130-136 | `dict1`'s keys keep their order at the front. |
| Helpers.MergeIntoKeyOrder | Backend/utils/helpers.py:130-136 | For a `dict2` with distinct keys, the merged keys are `dict1`'s followed by those of `dict2` that `dict1` lacks, in `dict2`'s order, as `result[key] = value` appends them. |
| Helpers.MergeIntoDistinct | Backend/utils/helpers.py:130-136 | Merging into a dict with distinct keys keeps its keys distinct. |
| Helpers.MergeIntoOutside | Backend/utils/helpers.py:130-136 | A key only in `dict1` keeps its `dict1` value. |
| Helpers.MergeIntoInside | Backend/utils/helpers.py:132-136 | A key of `dict2` gets the recursive merge when both values are dicts, otherwise `dict2`'s value. |
| Helpers.MergeDictionaries | Backend/utils/helpers.py:119-138 | The loop with its recursive calls computes the merge. |
| TextProcessor.ExtractEntities | Backend/multimodal/text_processor.py:60-74 | The entities are a prefix of the words longer than five characters, in text order, of length min(10, their number). |
| TextProcessor.EntitiesOfJoinedWords | Backend/multimodal/text_processor.py:71-74 | For space-separated words, the entities are the first ten long words of the list. |
| TextProcessor.GenerateSummary | Backend/multimodal/text_processor.py:76-89 | A text of at most 100 characters is its own summary. Otherwise the summary is its first 100 characters plus "...", 103 in all. |
| TextProcessor.SummaryIsTruncation | Backend/multimodal/text_processor.py:87-89 | The summary agrees with `truncate_text` at limit 100. |
| TextProcessor.Process | Backend/multimodal/text_processor.py:19-46 | The result carries the text, its length, the number of whitespace-separated words, the entities, the summary and the placeholder features. |
| TextProcessor.WordCountOfJoinedWords | Backend/multimodal/text_processor.py:45 | For space-separated words the word count is their number. |
| GroqClient.ExtractMainDescription | Backend/api/groq_client.py:217-230 | The result ends with '.'. Before it is a dot-free prefix of the summary, followed there by '.' unless it is the whole summary. A summary without '.' gives itself plus '.'. |
| GroqClient.FirstSentence | Backend/api/groq_client.py:228-230 | A summary whose first '.' follows `first` gives `first.`. |
| GroqClient.ObjectCandidates | Backend/api/groq_client.py:210-212 | One candidate per word longer than four characters, in order, each stripped of ",.!?():;". |
| GroqClient.CandidateFromLongWord | Backend/api/groq_client.py:212 | Every candidate is a stripped long word. |
| GroqClient.LongWordIsCandidate | Backend/api/groq_client.py:212 | Every stripped long word is a candidate. |
| GroqClient.UniqueObjects | Backend/api/groq_client.py:214 | The chosen objects are distinct candidates, min(10, number of distinct candidates) of them. When there are at most ten, they are exactly the set of candidates. |
| GroqClient.ExtractObjects | Backend/api/groq_client.py:198-215 | Every chosen object appears in the comma-separated result. |
| GroqClient.ExtractObjectsSplit | Backend/api/groq_client.py:215 | When at least one object is chosen, splitting the result at its spaces gives the chosen objects back, in order. Each but the last carries the ',' of the ", " separator. Joining these pieces with spaces gives the result again, so it is exactly the objects joined by ", ". |
| GroqClient.CandidateHasNoSpace | Backend/api/groq_client.py:210-212 | No candidate holds a space, since it is a stripped piece of a whitespace-split word. |
| GroqClient.ExtractObjectsEmpty | Backend/api/groq_client.py:214-215 | The joined list is empty iff no candidate is left other than an empty one. |
| TaskClassifier.TextOf | Backend/Instructor/task_classifier.py:38 | A missing "text" gives "". A string gives itself. Any other value raises `AttributeError`. |
| TaskClassifier.Classify | Backend/Instructor/task_classifier.py:21-48 | "urgent" in the lowercased text gives urgent_task at 0.9, whatever the similar tasks. Otherwise similar tasks give similar_task at 0.8, and none gives unknown at 0.0. The confidence is one of these three. |
| TaskClassifier.MissingTextIsNotUrgent | Backend/Instructor/task_classifier.py:38 | Without a text the task is never urgent. |
| TaskClassifier.ConfidenceNamesTheType | Backend/Instructor/task_classifier.py:34-44 | Each task type comes with its own confidence, and the other way round. |
| Instructor.Route | Backend/Instructor/instructor.py:73-87 | The marketplace is chosen iff there are similar tasks and the confidence is above 0.8. It carries the first task's id and the confidence, and a missing id raises `KeyError`. Otherwise the response records new data and carries the processed data. |
| Instructor.Decide | Backend/Instructor/instructor.py:70-87 | A text that is not a string fails in the classifier with `AttributeError`. Otherwise the marketplace is chosen iff the text is urgent and there are similar tasks, with confidence 0.9. A missing id of the first task raises `KeyError`. Every other request records new data. |
| Instructor.MarketplaceNeedsUrgency | Backend/Instructor/instructor.py:73 | With the classifier in front, the marketplace is chosen iff there are similar tasks and the text says "urgent". |
| Instructor.SimilarAloneRecords | Backend/Instructor/task_classifier.py:41-44 | A similar-task classification (0.8) always leads to recording. |
| Neo4jClient.BuildUpdate | Backend/database/neo4j_client.py:152-166 | The loop and the early return build the plan: no query, or the query and its parameters. |
| Neo4jClient.ClauseInjective | Backend/database/neo4j_client.py:158 | Different keys give different clauses. |
| Neo4jClient.SetClausesAreFiltered | Backend/database/neo4j_client.py:156-158 | The clauses are exactly one `t.<key> = $<key>` per permitted entry, in iteration order. |
| Neo4jClient.NoClauseForProtected | Backend/database/neo4j_client.py:157 | No clause updates `id` or `created_at`. |
| Neo4jClient.ParamsKeepTaskId | Backend/database/neo4j_client.py:154 | `params["id"]` is always the task id. |
| Neo4jClient.ParamsCarryUpdates | Backend/database/neo4j_client.py:156-159 | Every permitted entry is passed as the parameter of its name. |
| Neo4jClient.ParamsKeys | Backend/database/neo4j_client.py:153-159 | The parameters hold `id` and the keys of the permitted entries, and no other key. |
| Neo4jClient.NoClausesIffAllProtected | Backend/database/neo4j_client.py:156-157 | No clause is built iff every key is protected. |
| Neo4jClient.NoUpdateIffAllProtected | Backend/database/neo4j_client.py:161-162 | The method returns without a query iff every key is protected. |
| Neo4jClient.QuerySetsClausesThenTime | Backend/database/neo4j_client.py:164-166 | The query sets the joined clauses and then `t.updated_at = datetime()`. |
| Json.PutLookupSame | Backend/utils/helpers.py:136 | After `d[k] = v`, `d[k]` is `v`. |
| Json.PutLookupOther | Backend/utils/helpers.py:136 | `d[k] = v` leaves every other key's value alone. |
| Json.PutKeys | Backend/database/neo4j_client.py:159 | `d[k] = v` keeps the key order and appends a new key at the end. |

## Left out

- Rendering, styling, scrolling, suggestion chips and the hand tracker: view code only.
- Media capture is left out: camera, microphone, recorder callbacks, canvas photos and their timers. These are browser APIs.
- `FileReader` is reduced to `ChatSession.PreviewLoaded`, which takes the data URL as a parameter.
- HTTP: every `fetch`, including the conversion of a `data:` URL into a blob, becomes a `Result` parameter of the continuation method (`Err` covers a failed request, a non-2xx status and an unparsable body). `encodeURIComponent` is not modelled: the prompt is carried as typed.
- The form built by the send handler is returned as `Outbound.unsentForm`. The source builds it but never transmits it.
- Timers and React's batched state updates: each handler's steps before and after a wait run as one method each. The interview's 700 ms and 500 ms timers are assumed to fire before the next answer. Interleavings of several pending timers are not modelled.
- `Date.now()` ids and `new Date()` timestamps: ids are a `now` parameter, and timestamps are dropped.
- Lowercasing (`toLowerCase`, `lower`) and `isalnum` are modelled on ASCII only: Unicode case mapping and non-ASCII letters and digits are not modelled. `trim` and `split()` follow each language's full whitespace table: ECMA-262 WhiteSpace and LineTerminator for `trim`, and Python's `str.isspace` for `split()`.
- Floating point is not modelled: classifier confidences are exact tenths, and the text processor's placeholder features and the catalog ratings are `real`s.
- TunerChat.CheckMarketplace searches the static catalog only, as the source does. Its properties are stated on `MatchingTitles`, which takes the catalog as a parameter.
- The `robotType` state of the interview component is declared but never used, so it is not modelled.
- GroqClient.ExtractMainDescription: the final `return summary` is unreachable, because `split` never returns an empty list. It is kept in the function but has no property.
- GroqClient.UniqueObjects: Python set iteration order is arbitrary. The model receives it as any duplicate-free listing of the candidate set, so its contract speaks of the chosen set, not of an order.
- Helpers.SplitExt follows POSIX `os.path.splitext`. The Windows variant is not modelled.
- `setup_logging`, `calculate_hash`, `format_timestamp` and `encode_file_to_base64` are left out: logging, a hashing library, the clock and file I/O.
- `TextProcessor.process`: its exception branch (lines 48-58) cannot be reached for a string input, so it is not modelled. The Groq feature call is its fixed placeholder.
- The back end's other methods are left out: the multimodal processor, embeddings, similar-task search, the FastAPI routes, settings, the schema, and the Neo4j driver calls that run the query. These are I/O. The instructor's routing takes their results as inputs.
- Json.Lookup returns the first entry stored under a key. `JSON.parse` keeps the last of duplicated keys, so a gateway reply with duplicated keys is not modelled. Python dicts never have duplicate keys.
- Json.Num holds integers only. A fractional number in a gateway reply is not modelled; the modelled code only tests it for truthiness or passes it on.
- Marketplace.RobotImageColor gives grey for every unknown key. In JavaScript, an `imageColors[key]` lookup with a key such as "constructor" finds a prototype member instead. No catalog image key is such a name.
- Neo4jClient.BuildUpdate stops where the source hands the query to the driver. The `True`/`False` of a successful run is not modelled.

## Findings

| source | as written | input that shows it | evidently intended | confidence | as-written member | corrected member |
|---|---|---|---|---|---|---|
| Backend/utils/helpers.py:85 | A filtered name longer than 255 characters reaches `os.path.splitext`, but the module never imports `os` (lines 5-11), so `sanitize_filename` raises `NameError` instead of shortening the name. | a file name of 256 letters `a` | import `os` and shorten the stem to 250 characters, keeping the extension | high; not executed | Helpers.SanitizeFilename (shown by Helpers.SanitizeFilenameFailsOnLongName) | Helpers.SanitizeFilenameFixed (with Helpers.SanitizeFilenameFixedLength) |
