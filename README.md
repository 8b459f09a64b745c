# SignLang agent core — a Dafny model

SignLang is a Vietnamese sign-language learning assistant. A Streamlit front end has a chat page and a
flash-card practice page. The chat page talks to a FastAPI back end, which runs a LangGraph agent. The agent:

- classifies whether a question is about sign language;
- sanitises the conversation before each model call;
- calls a retrieval tool (`search_sign_language_knowledge`) and a practice tool (`start_practice_tool`);
- compacts long conversations into a running summary.

After the graph has run, the endpoint post-processes the new messages:

- It fixes the window of messages that belong to the current turn.
- It extracts the search results and the practice action from the tool messages.
- It flattens list-shaped model content into text.
- It resolves the `[[ID:n]]` reference tag the model writes into its answer to the media of the n-th search result, falling back to the first-ranked result.

This project models that deterministic logic. It covers:

- the current graph (`agent_graph.py`) and its endpoint (`app.py`);
- the earlier single-file back end (`agent_backend.py`), which packs the top three documents into one text and has a judge node;
- the tolerant metadata accessor `safe_get_url` (`rag_service.py`);
- the two front-end pages' session-state machines (`pages/Chat.py`, `pages/Practice.py`);
- the sign lookup tables (`utils/sign_dict.py`).

The model never calls a language model, a retriever or a JSON parser. Each of them is a function-typed parameter:

- a model call: `seq<Message> -> Outcome<Message>`;
- the intent classifier: `string -> Outcome<bool>`;
- the summariser and the judge: `string -> Outcome<string>`;
- the retriever: `string -> seq<Doc>`;
- `json.loads`: `string -> Outcome<Json>`;
- `ast.literal_eval`: `string -> Outcome<Literal>`.

`Fail` stands for an exception raised by the call. Each operation is stated against these parameters for every possible behaviour of them.

Modules follow the source files:

- **Common**: Python string and list built-ins the code relies on: `strip`, `split()`/`join`, `list.index`, slicing, `capitalize`.
- **Json**: parsed JSON values, with Python truthiness and `dict.get`.
- **Messages**: the LangChain message kinds. These are `User | Assistant(content, toolCalls) | Tool(name, payload) | System`, each with an optional id.
- **AgentGraph**: `agent_graph.py`.
- **ChatEndpoint**: `app.py`.
- **RagService**: `rag_service.py`.
- **AgentBackend**: `agent_backend.py`.
- **ChatPage**: `pages/Chat.py`.
- **PracticePage**: `pages/Practice.py`.
- **SignDict**: `utils/sign_dict.py`.

Loops in the source are written as methods with loops. Each method is proved equal to a specification function, and the lemmas state the properties of that function. The two Streamlit pages keep their state in `st.session_state`, so they are classes whose methods update fields:

- **ChatPage.ChatState** holds `chat_sessions` as a map plus its key insertion order, `active_session_id` and `sign_to_practice`.
- **PracticePage.PracticeState** holds `current_day` and `current_card_index`, where `None` stands for a key that is not set yet.

Places where the code and its own comments disagree; the model follows the code:

- **Scan order in `app.py`.** The tool-output scan walks the turn backwards and never stops (`app.py:229-246`). So the search results and the practice action end up coming from the *earliest* qualifying tool message in the turn, not the newest one its comment promises. See `ChatEndpoint.SearchOutputIsEarliest`.
- **Media default in `agent_backend.py`.** The endpoint starts from `{image: None, video: None}` (`agent_backend.py:572`). This object, not null, is what comes back when no search payload parses.
- **Sign table size.** The docstring of `utils/sign_dict.py` counts 105 classes. The table has 103 entries, keys 0 to 102.

## Model

| member | source | states |
|---|---|---|
| AgentGraph.Sanitize | agent_graph.py:316-343 | the cleaned history is never longer than the raw one |
| AgentGraph.SanitizeHistory | agent_graph.py:316-343 | the loop that builds `clean_messages` computes exactly the cleaned history |
| AgentGraph.SanitizeIsSanitized | agent_graph.py:317-343 | every kept tool message follows a tool-calling assistant message or another tool message, and no empty assistant message without tool calls is kept |
| AgentGraph.SanitizedIsFixed | agent_graph.py:317-343 | a history already in that shape passes through unchanged |
| AgentGraph.SanitizeIdempotent | agent_graph.py:316-343 | sanitising twice gives the same list as sanitising once |
| AgentGraph.SanitizeIsSubsequence | agent_graph.py:316-343 | the cleaned history is an order-preserving subsequence of the input |
| AgentGraph.Conversation | agent_graph.py:335-343 | the user and system messages of a history, in order |
| AgentGraph.SanitizeKeepsConversation | agent_graph.py:335-343 | sanitising keeps every user and system message, in order |
| AgentGraph.ToolResultSurvival | agent_graph.py:319-334 | an appended tool message is kept exactly when the last kept message calls tools or is itself a tool message |
| AgentGraph.LeadingToolDropped | agent_graph.py:320-334 | a tool message with nothing kept before it is dropped |
| AgentGraph.MemoryText | agent_graph.py:356 | the summary is shown when non-empty, the fixed placeholder otherwise |
| AgentGraph.MemorySection | agent_graph.py:349-360 | the dynamic context contains the date and the memory text |
| AgentGraph.FullSystemPrompt | agent_graph.py:362 | the system prompt starts with the core instructions and contains the memory text |
| AgentGraph.LlmCall | agent_graph.py:282-371 | the model sees exactly the system prompt followed by the cleaned history; a failing model yields exactly one fixed apology message |
| AgentGraph.UserContents | agent_graph.py:242-244 | the contents of the user messages, one per user message, in order |
| AgentGraph.UserContentsAppend | agent_graph.py:242-244 | user contents distribute over concatenation |
| AgentGraph.ClassifierContext | agent_graph.py:246 | a history without user messages gives the fixed "no context" text |
| AgentGraph.ContextCarriesRecentTurns | agent_graph.py:242-246 | each of the last three earlier user contents appears in the context |
| AgentGraph.ContextIgnoresOtherMessages | agent_graph.py:242 | non-user messages do not change the context |
| AgentGraph.ContextForgetsOlderTurns | agent_graph.py:244 | once three earlier user messages exist, anything older does not change the context |
| AgentGraph.ClassificationPrompt | agent_graph.py:251-262 | the classifier prompt contains the context, the current input and the memory text |
| AgentGraph.ClassifyUserIntent | agent_graph.py:264-280 | the intent is one of the two labels, and NOT_RELATED exactly when the classifier answers "not related" |
| AgentGraph.ClassifierFailsOpen | agent_graph.py:276-278 | a failing classifier yields SIGN_LANGUAGE_RELATED |
| AgentGraph.RouteIntent | agent_graph.py:554-561 | only the NOT_RELATED intent goes to the refusal; a missing or other intent goes to the model call |
| AgentGraph.RouteCondition | agent_graph.py:639-648 | tool calls go to the tool node; otherwise ten or more user messages go to summarisation, fewer end the run |
| AgentGraph.CutPoint | agent_graph.py:454-465 | with more than three user messages the cut is at the first occurrence of the third-to-last user message |
| AgentGraph.ToolNames | agent_graph.py:482 | one name per tool call |
| AgentGraph.TranscriptAppend | agent_graph.py:475-489 | the transcript of a concatenation is the concatenation of the transcripts |
| AgentGraph.ToolPayloadNotTranscribed | agent_graph.py:487-488 | tool messages enter the transcript by name only; their payload never appears |
| AgentGraph.DeletionIds | agent_graph.py:515-520 | deletions are issued for exactly the cut messages with a non-empty id |
| AgentGraph.SummaryPrompt | agent_graph.py:491-505 | the summary prompt starts with its lead and the old summary and contains the transcript |
| AgentGraph.Compact | agent_graph.py:430-527 | three or fewer user messages, or a cut at 0, change nothing; otherwise the identified messages before the cut are deleted, with the old summary kept when the transcript is blank and the summariser's answer as the new summary when it succeeds; a failing summariser changes nothing |
| AgentGraph.BuildTranscript | agent_graph.py:475-489 | the transcript loop computes the transcript of the cut messages |
| AgentGraph.CollectDeletions | agent_graph.py:515-520 | the deletion loop computes the deletion ids of the cut messages |
| AgentGraph.SummarizeConversation | agent_graph.py:430-527 | the node returns exactly the compaction of the history |
| AgentGraph.RemoveIds | agent_graph.py:515-520 | applying deletions never lengthens the history |
| AgentGraph.RemoveIdsAppend | agent_graph.py:515-520 | applying deletions distributes over concatenation |
| AgentGraph.SplitAtPivot | agent_graph.py:454-469 | the user messages split at the pivot, and the kept part starts with the pivot |
| AgentGraph.KeptSuffixHoldsLastTurns | agent_graph.py:454-469 | the kept suffix starts with a user message and, for distinct messages, holds exactly three user messages |
| AgentGraph.SummarizeRouteCutsHistory | agent_graph.py:639-648 | whenever the router chooses summarisation, the cut leaves all but three user messages to summarise |
| AgentGraph.RemovePrefixIds | agent_graph.py:515-520 | when every stored message has a distinct id, applying the deletions leaves exactly the kept suffix |
| AgentGraph.SecondRunIsNoop | agent_graph.py:442-527 | after a compaction is applied, an immediate second run changes nothing |
| AgentGraph.RewrittenQuery | agent_graph.py:84-90 | a failing rewriter leaves the query unchanged |
| AgentGraph.ResultItem | agent_graph.py:98-108 | each result carries its 1-based rank as id, the content, and metadata whose image and video are null or a URL containing "http" |
| AgentGraph.SearchKnowledge | agent_graph.py:75-111 | not ready gives the error object; otherwise one result item per retrieved document, in rank order |
| AgentGraph.StartPracticeTool | agent_graph.py:114-120 | the payload's action is START_PRACTICE and its sign is the requested sign or null |
| ChatEndpoint.LastUser | app.py:209-214 | the index of the last user message, or none when there is none |
| ChatEndpoint.FindLastUserIndex | app.py:210-214 | the backward loop finds that index, or -1 |
| ChatEndpoint.TurnWindow | app.py:216-220 | the window runs from the last user message to the end, or is the last ten messages when there is no user message |
| ChatEndpoint.SearchPayload | app.py:234-237 | an unparseable search payload gives the empty list; otherwise the parsed value |
| ChatEndpoint.PracticePayload | app.py:241-246 | a practice payload is taken exactly when it parses to an object whose action is START_PRACTICE |
| ChatEndpoint.SearchOutput | app.py:226-237 | with no search tool message in the window the results are the empty list |
| ChatEndpoint.PracticeAction | app.py:227-246 | the action is null or an object whose action is START_PRACTICE |
| ChatEndpoint.ScanToolOutputs | app.py:229-246 | the backward scan computes both the search results and the action |
| ChatEndpoint.SearchOutputIsEarliest | app.py:229-237 | the results come from the earliest search tool message in the window |
| ChatEndpoint.LaterSearchIgnored | app.py:229-237 | search messages after the first one never change the results |
| ChatEndpoint.PracticeActionIsEarliest | app.py:239-246 | the action comes from the earliest accepted practice payload in the window |
| ChatEndpoint.PracticeToolPayloadAccepted | app.py:241-244 | the practice tool's own payload is always accepted |
| ChatEndpoint.PartText | app.py:263-267 | a list item contributes one text exactly when it is a text dict or a bare string |
| ChatEndpoint.TextParts | app.py:262-267 | the text parts are empty exactly when no item is a text dict or a string |
| ChatEndpoint.CollectTextParts | app.py:262-267 | the item loop computes the text parts |
| ChatEndpoint.Flattened | app.py:260-293 | string content always yields a text; list content yields none exactly when it has no text part |
| ChatEndpoint.FlattenedKeepsTextParts | app.py:268-269 | every text part appears in the flattened text |
| ChatEndpoint.FlattenContent | app.py:258-293 | the flattening branches compute the contribution of one message |
| ChatEndpoint.ExtractResponse | app.py:254-297 | the backward scan computes the response text |
| ChatEndpoint.ReplyComesFromAnswer | app.py:254-297 | for any way of flattening one message (the app's is `Flattened`), the response is "" or what some assistant message with content flattens to |
| ChatEndpoint.NoAnswerMeansEmptyReply | app.py:254 | without an assistant message with content the response is "", whatever the flattening |
| ChatEndpoint.PassOver | app.py:296-297 | a message that yields only blank text does not stop the scan |
| ChatEndpoint.ScanStep | app.py:255-297 | stepping past such a message keeps the response blank |
| ChatEndpoint.NewestNonBlankAnswerWins | app.py:255-297 | for any flattening, the response is what the newest assistant message with a non-blank flattened text flattens to; newer blank or text-less ones are passed over |
| ChatEndpoint.TagFrom | app.py:335 | the first position at or after p where an `[[ID:digits]]` tag starts, or none |
| ChatEndpoint.TagText | app.py:335 | the tag written for an id starts with `[[ID:` |
| ChatEndpoint.TagDigits | app.py:338 | the captured id is a non-empty run of ASCII digits |
| ChatEndpoint.TagMatch | app.py:340 | the matched text starts with `[[ID:` |
| ChatEndpoint.ResolveTag | app.py:335-340 | without a tag the response is unchanged and no id is selected; otherwise the id is the value of the first tag's digits, and the response is the text with every copy of that tag cut out, then stripped |
| ChatEndpoint.DigitRunOfDigits | app.py:335 | the digit run stops exactly at the end of the digits |
| ChatEndpoint.TagFromFinds | app.py:335 | the search finds a tag when no tag opens before it |
| ChatEndpoint.FirstTagAt | app.py:335 | the first tag is found when no `[` precedes it |
| ChatEndpoint.TagInside | app.py:335-338 | a written tag is recognised and yields its own digits |
| ChatEndpoint.TagRoundTrip | app.py:335-340 | a tag written for n with no tag before it (a markdown link may precede it) resolves to id n; the text before it is kept, it and its later copies are cut out, and the result is stripped |
| ChatEndpoint.FirstTagResolved | app.py:335-340 | the same for a tag written with any digit string: the id is the digits' value |
| ChatEndpoint.FirstTagFound | app.py:335 | a written tag with no tag before it is the leftmost match |
| ChatEndpoint.TagCopiesAfter | app.py:340 | removing the tag keeps the text before it unchanged |
| ChatEndpoint.OccurrenceIsTag | app.py:335-340 | every occurrence of a written tag is a match of the pattern |
| Common.RemoveAllAtFirst | app.py:340 | `replace` keeps the text before the leftmost occurrence, drops the occurrence and carries on after it |
| Common.RemoveAllWithoutOccurrence | app.py:340 | with no occurrence `replace` returns the string unchanged |
| ChatEndpoint.MediaOf | app.py:347-349 | an item without metadata gives null media; non-dict metadata fails like `.get` on it; otherwise image and video are read with `.get` |
| ChatEndpoint.FirstWithId | app.py:344-351 | the first result item whose id equals the selected one, or none |
| ChatEndpoint.ReferencedMedia | app.py:343 | without a selected id or a result list the media stays null |
| ChatEndpoint.ChosenMedia | app.py:343-362 | found non-null media is kept; otherwise it falls back to the first result item, even when the matched item had null media |
| ChatEndpoint.LookUpMedia | app.py:343-362 | the lookup and fallback loops compute that choice |
| ChatEndpoint.RankedIdFound | app.py:344-351 | in a list numbered 1, 2, … the id k selects item k-1 |
| ChatEndpoint.ResultItemMedia | app.py:347-349 | the media read from a search result item is the accessor's image and video URL |
| ChatEndpoint.CitedIdPicksRankedDoc | app.py:343-351 | a cited id k picks the media of the k-th ranked document |
| ChatEndpoint.Endpoint | app.py:210-362 | the reply carries the turn's practice action and the tag-stripped response; it fails only when the search output is a list |
| ChatEndpoint.ChatEndpoint | app.py:210-362 | the post-processing computes that reply |
| ChatEndpoint.NoSearchNoMedia | app.py:330 | with no search output this turn the reply has null image and video |
| ChatEndpoint.CitedDocumentMediaReturned | app.py:335-362 | citing document k whose metadata has a URL returns exactly that document's media with the stripped response |
| Common.Lowered | rag_service.py:145 | same length, and each character is lower-cased on its own |
| RagService.RawUrlValue | rag_service.py:145 | the value under the key, or under the lower-cased key when that is missing or falsy |
| RagService.UnwrapListString | rag_service.py:156 | two characters are removed from each end |
| RagService.SafeGetUrl | rag_service.py:143-158 | a result always contains "http"; falsy or other-typed values give none; a list gives its first element only when it is an http string; a `['…']` string is unwrapped before the check |
| RagService.SafeGetUrlPlainAndList | rag_service.py:150-157 | a plain URL and a one-element URL list both give the URL |
| RagService.SafeGetUrlOldFormat | rag_service.py:154-157 | a URL written as a list-shaped string gives the URL |
| RagService.SafeGetUrlFallbacks | rag_service.py:145-158 | an empty string gives none unless the lower-cased key holds a URL; a number gives none |
| AgentBackend.FormatOffset | agent_backend.py:82-85 | a five-character offset gets ':' inserted after the hours, other lengths are unchanged |
| AgentBackend.FormatOffsetIdempotent | agent_backend.py:82-85 | rewriting an already rewritten offset changes nothing |
| AgentBackend.FormatOffsetShape | agent_backend.py:82-85 | `±HHMM` becomes `±HH:MM` |
| AgentBackend.MediaNotes | agent_backend.py:137-143 | the image marker is noted exactly when there is an image URL, the video marker exactly when there is a video URL |
| AgentBackend.MediaTag | agent_backend.py:144-145 | the tag is empty exactly when there is no media, and bracketed otherwise |
| AgentBackend.Chunk | agent_backend.py:147-148 | each chunk starts with its 1-based rank and ends with the document text |
| AgentBackend.Chunks | agent_backend.py:131-154 | one chunk per packed document |
| AgentBackend.PrimaryMedia | agent_backend.py:150-154 | the media object has exactly image and video, each null or an http URL |
| AgentBackend.SearchKnowledgeTopThree | agent_backend.py:100-163 | not ready gives the error with null media; no documents give the not-found text; otherwise the packed text of the top three and the media of rank 1 |
| AgentBackend.PackTopDocuments | agent_backend.py:131-154 | the packing loop computes all chunks and the rank-1 image and video |
| AgentBackend.OnlyTopThreePacked | agent_backend.py:131 | documents after the third never change the packed text |
| AgentBackend.PackedDocumentsAppear | agent_backend.py:131-156 | each of the top three documents and its chunk appear in the packed text |
| AgentBackend.DynamicPrompt | agent_backend.py:262-289 | the prompt starts with the marker that identifies old prompts |
| AgentBackend.WithoutOldPrompts | agent_backend.py:291-297 | every kept message comes from the history and is not an old prompt |
| AgentBackend.PromptedHistory | agent_backend.py:291-297 | the model input is the fresh prompt followed by the history without old prompts |
| AgentBackend.WithoutOldPromptsAppend | agent_backend.py:293-297 | the filter distributes over concatenation, so order is preserved |
| AgentBackend.OtherMessagesKept | agent_backend.py:294-297 | every message that is not an old prompt is kept |
| AgentBackend.PromptsDoNotAccumulate | agent_backend.py:291-297 | the next call removes this call's prompt again |
| AgentBackend.WithoutOldPromptsIdempotent | agent_backend.py:293-297 | filtering twice is filtering once |
| AgentBackend.ShouldContinue | agent_backend.py:355-365 | the tool node exactly when the last message calls tools, the judge otherwise |
| AgentBackend.JudgeNode | agent_backend.py:302-353 | tool calls change nothing; a failing judge fails; a verdict of exactly SAFE adds nothing; any other verdict adds one assistant message holding it |
| AgentBackend.JudgeFollowsRoute | agent_backend.py:302-365 | the judge never acts on a tool-calling turn, and an added message ends the loop as a final answer |
| AgentBackend.NewMessages | agent_backend.py:569 | the messages after the start length, none when it is past the end |
| AgentBackend.MediaField | agent_backend.py:578-580 | the payload's media when it has that key, the default `{image: None, video: None}` otherwise |
| AgentBackend.NewestMedia | agent_backend.py:571-586 | with no parseable search payload the media stays at its default |
| AgentBackend.NewestAction | agent_backend.py:588-597 | the action is null or an object whose action is START_PRACTICE |
| AgentBackend.ExtractTurnOutputs | agent_backend.py:569-597 | the two backward loops over the new messages compute the media and the action |
| AgentBackend.ScanMedia | agent_backend.py:575-586 | the media loop stops at the newest parseable search payload |
| AgentBackend.ScanAction | agent_backend.py:588-597 | the action loop stops at the newest practice message |
| AgentBackend.HistoryNotScanned | agent_backend.py:547-569 | messages from before the turn never affect media or action |
| AgentBackend.NewestParsedSearchWins | agent_backend.py:575-586 | the newest parseable search payload decides the media |
| AgentBackend.NewestPracticeDecides | agent_backend.py:588-597 | the newest practice message decides the action, whatever its content |
| ChatPage.DisplayTitle | pages/Chat.py:560 | never more than 35 characters: shorter titles unchanged, others their first 32 characters plus "..." |
| ChatPage.DisplayTitleIdempotent | pages/Chat.py:560 | shortening a shown title again changes nothing |
| ChatPage.DerivedTitle | pages/Chat.py:653-656 | the title is the first-words title plus three characters exactly when the prompt is longer than 25 |
| ChatPage.TitleKeepsFirstWords | pages/Chat.py:654 | the title's words are exactly the prompt's first five words |
| Common.Capitalize | pages/Chat.py:656 | same length; the first character is upper-cased, every other one lower-cased, and whitespace stays whitespace |
| ChatPage.LongPromptTitleEllipsis | pages/Chat.py:655-656 | a prompt longer than 25 characters gives a title ending in "..." |
| ChatPage.BotTurn | pages/Chat.py:671-692 | a reply is shown exactly when the body is a dict and nothing raises: an action, or a truthy media value, that is not a dict, or a non-string response on a practice reply, leaves only the user entry; the practice sign is set exactly when the action is START_PRACTICE, even when a later step raises; the entry carries the response (plus the practice link on a practice reply) and the media, which defaults to `{}` |
| ChatPage.ReplyBody | app.py:387-391 | the endpoint's reply serialised as a dict carrying the response |
| ChatPage.EndpointReplyShown | pages/Chat.py:671-692 | a reply from the endpoint becomes exactly one bot message with its media, and a practice action adds the link and sets the sign |
| ChatPage.Reversed | pages/Chat.py:554 | the sessions listed back to front |
| ChatPage.ReversedTwice | pages/Chat.py:554 | reversing twice restores the order |
| ChatPage.Without | pages/Chat.py:584-587 | a key is in the remaining order exactly when it was in the order and is not the deleted id |
| ChatPage.WithoutDistinct | pages/Chat.py:584-587 | removing a key from an order without repeats leaves an order without repeats |
| ChatPage.DeletionKeepsAgreement | pages/Chat.py:579-594 | deleting a key keeps the order and the table in agreement, and the order empties exactly when no other key existed |
| ChatPage.ChatState.Sidebar | pages/Chat.py:554-560 | the sidebar has one entry per session, newest first |
| ChatPage.ChatState.constructor | pages/Chat.py:530-535 | one default session, active, and no sign to practise |
| ChatPage.ChatState.NewChat | pages/Chat.py:545-549 | a fresh default session under the new id, made active, other sessions untouched, shown first in the sidebar |
| ChatPage.ChatState.SelectSession | pages/Chat.py:567-569 | the chosen session becomes active and nothing else changes |
| ChatPage.DeletionOutcome | pages/Chat.py:579-594 | when other sessions exist, exactly the active one is removed, the others keep their order and the oldest becomes active; otherwise a single fresh default session replaces it; the order and table stay in agreement and the active id names a session |
| ChatPage.ChatState.DeleteActive | pages/Chat.py:579-594 | the new order, table and active id are the deletion outcome of the old ones, the practice sign is untouched, and the state stays valid with a known active id |
| ChatPage.ChatState.EnsureActive | pages/Chat.py:602-605 | a missing active id is reset to the first key; a known one is kept |
| ChatPage.ChatState.SendPrompt | pages/Chat.py:653-692 | the title is derived only while it is the default; the user message and then the bot turn are appended; the sign changes only on a practice reply |
| PracticePage.ClampedIndex | pages/Practice.py:49-55 | the index ends in range, is unchanged exactly when it was in range, and is 0 otherwise |
| PracticePage.ClampIdempotent | pages/Practice.py:49-55 | clamping twice is clamping once |
| PracticePage.GoalLabel | pages/Practice.py:169 | "Học từ mới" exactly when the goal is "Study new signs", "Ôn tập" otherwise |
| PracticePage.LessonOptions | pages/Practice.py:150 | one option per lesson, in schedule order |
| PracticePage.FirstTermIndex | pages/Practice.py:58 | the position of the first matching term, or the length when none matches |
| PracticePage.FindSignData | pages/Practice.py:58 | the first term whose name equals the sign, or none exactly when no term matches |
| PracticePage.CardDescription | pages/Practice.py:72 | the term's description, a placeholder when it has none, "..." when the sign is unknown |
| PracticePage.PracticeState.constructor | pages/Practice.py:31-36 | neither key is set |
| PracticePage.PracticeState.InitializeApp | pages/Practice.py:33-36 | each key is set to 0 only when absent |
| PracticePage.PracticeState.RenderCards | pages/Practice.py:40-55 | an empty lesson leaves the index alone; otherwise the index is clamped |
| PracticePage.PracticeState.PressPrev | pages/Practice.py:108-110 | the index decreases by one and stays in range |
| PracticePage.PracticeState.PressNext | pages/Practice.py:126-128 | the index increases by one and stays in range |
| PracticePage.PracticeState.SelectSign | pages/Practice.py:114-123 | a different sign moves to its first position; the shown card is the selected sign |
| PracticePage.PracticeState.ChangeLesson | pages/Practice.py:159-165 | a different lesson becomes current and the index resets to 0; the same lesson changes nothing |
| SignDict.Table | utils/sign_dict.py:10-53 | the table's keys are exactly 0..n-1, each mapped to its label |
| SignDict.InverseEntries | utils/sign_dict.py:95 | every inverse entry points back to a key holding that value |
| SignDict.InverseKeepsLast | utils/sign_dict.py:95 | every value is in the inverse, at its last key |
| SignDict.InverseOfInjective | utils/sign_dict.py:95 | for distinct values the inverse gives each key back and has one entry per key |
| SignDict.RepeatedValueLosesEarlierKey | utils/sign_dict.py:95 | a repeated value loses its earlier key |
| SignDict.SignLabelsDistinct | utils/sign_dict.py:10-53 | the 103 labels are pairwise distinct |
| SignDict.SignRoundTrip | utils/sign_dict.py:95 | every key round-trips through the inverse, which has 103 entries |
| SignDict.IndexRoundTrip | utils/sign_dict.py:95 | every label round-trips through the table |
| SignDict.UnknownClassLabel | utils/sign_dict.py:52 | key 102 is "UNKNOWN" and maps back to 102 |
| SignDict.NoAccentSameKeys | utils/sign_dict.py:55-91 | the accent-free table has the same 103 keys |
| SignDict.NoAccentInverseLosesNam | utils/sign_dict.py:65 | "Nam" appears at 43 and 70, so the accent-free table is not injective and its inverse loses 43 |
| SignDict.NoAccentInverseLosesYeu | utils/sign_dict.py:76 | "Yeu" appears at 59 and 94 and its inverse loses 59 |

## Left out

- Language-model calls, the retriever and the query rewriter are opaque parameters. Their prompts are kept only as far as their structure matters. The classifier's and summariser's prompts are reproduced; the judge's prompt, the back end's instruction body (`guide`) and the core instructions (`core`) are parameters.
- Retriever construction, BM25/Chroma fusion and cross-encoder rerank are not part of this model. They live in libraries and use floating-point scores.
- `json.loads`, `json.dumps` and `ast.literal_eval` are not modelled byte by byte. Parsing is a parameter. A serialised tool payload is the `Json` value itself.
- Clocks are parameters: `datetime.now`, `strftime` and `isoformat`. The date text is an input, and `get_current_time_tool` is modelled only through its offset rewrite.
- Identifiers from `uuid4` are parameters: the new session id is an argument.
- The `agent_backend.py` response-text cleanup is not modelled. The same flattening of `app.py` is.
- Langfuse tracing, `background_safety_check`, SQLite thread deletion, `requests` calls, MCP start-up and FastAPI lifespan are left out. They are I/O and asynchronous plumbing.
- Streamlit rendering is left out: CSS/HTML, `render_media`, video and image widgets. The recognition page, the recognition model, the home page and the image helper are not part of this model.
- Concurrency between browser sessions is not modelled: each `ChatState` and `PracticeState` is one session's state.
- The commented-out revisions of `llm_call` and `summarize_conversation` are dead code and are not modelled.
- Common.Lowered: lower-cases ASCII letters only, like Common.Capitalize. The keys the code passes ("Image", "Video") are ASCII.
- ChatEndpoint.Flattened: a list element is a dict with a string "text", a bare string, or anything else, which is skipped. A dict whose "text" is not a string is not modelled. In the source its value is appended anyway and `"\n".join` raises. For list content the endpoint then answers with an error. In the `literal_eval` branch the raw text is kept.
- AgentGraph.SearchKnowledge: the retriever is a total parameter. An exception from `RAG_RETRIEVER.invoke` is not modelled; the source does not catch it.
- AgentBackend.SearchKnowledgeTopThree: as for AgentGraph.SearchKnowledge, a retriever exception is not modelled.
- Common.Capitalize: follows Python's `str.capitalize` only for ASCII letters. Other characters are kept, so Vietnamese letters with diacritics are not case-mapped.
- Common.DigitRun: the tag's `\d` is taken as ASCII digits only. Python's `re` also accepts other Unicode decimal digits.
- ChatPage.BotTurn: a non-string `response` together with a practice action is modelled as failing the request. In Python, `list += str` would extend the list instead.
- A lesson's `Day` in the schedule is a natural number. A non-integer or negative day from the schedule file is not modelled.
- AgentGraph.Compact: the cut point and the kept suffix are exact only when messages are distinct. This holds for stored messages, which carry ids. Without distinctness `list.index` may find an earlier equal message, and the lemmas state only what holds then.
