/** The earlier, single-file revision of the agent: its search tool, prompt filtering, judge
    routing, per-turn extraction of media and action, and the time-zone offset rewrite. */
module AgentBackend {
  import opened Common
  import opened Json
  import opened Messages
  import opened RagService
  import opened AgentGraph
  import opened ChatEndpoint

  // ------------------------------------------------------------------ get_current_time_tool

  /** The `%z` offset in extended form: a five-character `±HHMM` gains a colon after the hours;
      any other length (an empty offset for a naive clock) is kept as it is. */
  function FormatOffset(offset: string): (r: string)
    ensures |offset| == 5 ==> |r| == 6 && r[3] == ':' && r[..3] + r[4..] == offset
    ensures |offset| != 5 ==> r == offset
  {
    if |offset| == 5 then offset[..3] + ":" + offset[3..] else offset
  }

  /** Rewriting twice changes nothing more: the rewritten offset has six characters. */
  lemma FormatOffsetIdempotent(offset: string)
    ensures FormatOffset(FormatOffset(offset)) == FormatOffset(offset)
  {
  }

  /** `+0700` becomes `+07:00`, and the sign and all four digits survive in order. */
  lemma FormatOffsetShape(sign: char, h1: char, h2: char, m1: char, m2: char)
    ensures FormatOffset([sign, h1, h2, m1, m2]) == [sign, h1, h2, ':', m1, m2]
  {
    var off := [sign, h1, h2, m1, m2];
    assert off[..3] == [sign, h1, h2] && off[3..] == [m1, m2];
  }

  // ------------------------------------------------------------------ search_sign_language_knowledge

  const NotReadyText := "Lỗi: DB chưa sẵn sàng."
  const NotFoundText := "Xin lỗi, tôi không tìm thấy thông tin nào trong dữ liệu."

  /** The answer while the retriever or the rewriter is missing: an error text and null media. */
  const NotReadyOutput: Json := JObj(map["text_content" := JStr(NotReadyText), "media" := JNull])

  /** Media with both fields null. */
  const NoMediaFields: Json := JObj(map["image" := JNull, "video" := JNull])

  /** The answer when retrieval finds nothing. */
  const NotFoundOutput: Json := JObj(map["text_content" := JStr(NotFoundText), "media" := NoMediaFields])

  /** How many ranked documents are packed into the text. */
  const PackedDocs: nat := 3

  const ImageMarker := "CÓ ẢNH"
  const VideoMarker := "CÓ VIDEO"

  /** `if url:` on a result of `safe_get_url`. */
  predicate Present(url: Option<string>) {
    url.Some? && url.value != ""
  }

  /** The `media_note` list of one chunk: the image marker, then the video marker, each only when
      the document has that kind of media. */
  function MediaNotes(image: Option<string>, video: Option<string>): (notes: seq<string>)
    ensures ImageMarker in notes <==> Present(image)
    ensures VideoMarker in notes <==> Present(video)
    ensures forall k | 0 <= k < |notes| :: notes[k] in {ImageMarker, VideoMarker}
  {
    (if Present(image) then [ImageMarker] else []) + (if Present(video) then [VideoMarker] else [])
  }

  /** `media_str`: the notes in brackets, or nothing when there are none. */
  function MediaTag(image: Option<string>, video: Option<string>): (tag: string)
    ensures tag == "" <==> !Present(image) && !Present(video)
    ensures tag != "" ==> tag[0] == '[' && tag[|tag| - 1] == ']'
  {
    var notes := MediaNotes(image, video);
    if notes == [] then ""
    else
      assert notes[0] in notes;
      "[" + Join(", ", notes) + "]"
  }

  const ChunkOpen := "--- KẾT QUẢ "
  const ChunkRank := " (Độ tin cậy cao thứ "
  const ChunkRankEnd := ") "
  const ChunkBody := " ---\nNội dung: "

  /** The header of the chunk at zero-based position `i`, before the document text. */
  function ChunkHeader(i: nat, tag: string): string {
    ChunkOpen + DecimalString(i + 1) + ChunkRank + DecimalString(i + 1) + ChunkRankEnd + tag + ChunkBody
  }

  /** `content_chunk` for the document at zero-based position `i`. */
  function Chunk(i: nat, d: Doc): (chunk: string)
    ensures StartsWith(chunk, ChunkOpen + DecimalString(i + 1))
    ensures EndsWith(chunk, d.content)
  {
    var tag := MediaTag(SafeGetUrl(d.metadata, "Image"), SafeGetUrl(d.metadata, "Video"));
    var header := ChunkHeader(i, tag);
    assert (header + d.content)[..|ChunkOpen + DecimalString(i + 1)|] == ChunkOpen + DecimalString(i + 1);
    header + d.content
  }

  /** The chunks of the packed documents, in rank order. */
  function Chunks(top: seq<Doc>): (chunks: seq<string>)
    ensures |chunks| == |top|
  {
    seq(|top|, i requires 0 <= i < |top| => Chunk(i, top[i]))
  }

  /** `text_content`: the chunks of the first three documents separated by blank lines. */
  function PackedText(docs: seq<Doc>): string {
    Join("\n\n", Chunks(FirstN(docs, PackedDocs)))
  }

  /** `primary_media`: both URLs of the given document, null where `safe_get_url` found none. */
  function PrimaryMedia(d: Doc): (media: Json)
    ensures media.JObj? && media.fields.Keys == {"image", "video"}
    ensures forall key | key in media.fields ::
              media.fields[key] == JNull || (media.fields[key].JStr? && Contains(media.fields[key].s, "http"))
  {
    JObj(map["image" := OptStr(SafeGetUrl(d.metadata, "Image")),
             "video" := OptStr(SafeGetUrl(d.metadata, "Video"))])
  }

  /** `search_sign_language_knowledge` of this revision: the packed text of the top three documents
      and the media of the first one only; fixed answers when not ready or nothing was found. */
  method SearchKnowledgeTopThree(query: string, ready: bool, rewrite: string -> Outcome<string>,
                                 retrieve: string -> seq<Doc>)
    returns (output: Json)
    ensures !ready ==> output == NotReadyOutput
    ensures ready ==> var docs := retrieve(RewrittenQuery(query, rewrite));
              (docs == [] ==> output == NotFoundOutput)
              && (docs != [] ==>
                    output == JObj(map["text_content" := JStr(PackedText(docs)),
                                       "media" := PrimaryMedia(docs[0])]))
  {
    if !ready {
      return NotReadyOutput;
    }
    var optimized := RewrittenQuery(query, rewrite);
    var docs := retrieve(optimized);
    if docs == [] {
      return NotFoundOutput;
    }
    var combined, image, video := PackTopDocuments(FirstN(docs, PackedDocs));
    output := JObj(map["text_content" := JStr(Join("\n\n", combined)),
                       "media" := JObj(map["image" := OptStr(image), "video" := OptStr(video)])]);
  }

  /** The loop over the top documents: one chunk per document, and the URLs of the first. */
  method PackTopDocuments(top: seq<Doc>) returns (combined: seq<string>, image: Option<string>, video: Option<string>)
    requires top != []
    ensures combined == Chunks(top)
    ensures image == SafeGetUrl(top[0].metadata, "Image") && video == SafeGetUrl(top[0].metadata, "Video")
  {
    combined := [];
    image, video := None, None;
    var i := 0;
    while i < |top|
      invariant 0 <= i <= |top|
      invariant combined == Chunks(top)[..i]
      invariant i > 0 ==> image == SafeGetUrl(top[0].metadata, "Image") && video == SafeGetUrl(top[0].metadata, "Video")
    {
      PrefixSnoc(Chunks(top), i);
      combined := combined + [Chunk(i, top[i])];
      if i == 0 {
        image := SafeGetUrl(top[i].metadata, "Image");
        video := SafeGetUrl(top[i].metadata, "Video");
      }
      i := i + 1;
    }
  }

  /** Documents ranked below the third never reach the packed text. */
  lemma OnlyTopThreePacked(docs: seq<Doc>, more: seq<Doc>)
    requires |docs| >= PackedDocs
    ensures PackedText(docs + more) == PackedText(docs)
  {
    assert FirstN(docs + more, PackedDocs) == FirstN(docs, PackedDocs);
  }

  /** Every packed document's text occurs in `text_content`, under a header naming its rank. */
  lemma PackedDocumentsAppear(docs: seq<Doc>, k: nat)
    requires k < |docs| && k < PackedDocs
    ensures Contains(PackedText(docs), docs[k].content)
    ensures Contains(PackedText(docs), Chunk(k, docs[k]))
  {
    var top := FirstN(docs, PackedDocs);
    var chunks := Chunks(top);
    assert chunks[k] == Chunk(k, docs[k]);
    JoinContainsParts("\n\n", chunks, k);
    var c := Chunk(k, docs[k]);
    assert c == ChunkHeader(k, MediaTag(SafeGetUrl(docs[k].metadata, "Image"), SafeGetUrl(docs[k].metadata, "Video"))) + docs[k].content;
    ContainsEnd(c[..|c| - |docs[k].content|], docs[k].content);
    assert c[..|c| - |docs[k].content|] + docs[k].content == c;
    ContainsWithin(PackedText(docs), c, docs[k].content);
  }

  /** An occurrence inside an occurrence is an occurrence. */
  lemma {:induction false} ContainsWithin(s: string, t: string, p: string)
    requires Contains(s, t) && Contains(t, p)
    ensures Contains(s, p)
    decreases |s|
  {
    if StartsWith(s, t) {
      assert s == t + s[|t|..];
      ContainsExtended(t, p, s[|t|..]);
    } else {
      ContainsWithin(s[1..], t, p);
      assert s == [s[0]] + s[1..];
      ContainsAfter([s[0]], s[1..], p);
    }
  }

  // ------------------------------------------------------------------ llm_call

  /** The phrase that identifies a prompt message of this revision. */
  const PromptMarker := "Bạn là trợ lý ảo"
  const PromptOpening := " thông minh đa năng. Hôm nay là ngày "

  /** The prompt sent as the first user message: the opening line with today's date, followed by
      the fixed instructions `guide`. */
  function DynamicPrompt(today: string, guide: string): (prompt: string)
    ensures StartsWith(prompt, PromptMarker)
  {
    var rest := PromptOpening + today + ".\n" + guide;
    assert (PromptMarker + rest)[..|PromptMarker|] == PromptMarker;
    PromptMarker + rest
  }

  /** A user message carrying an old prompt; `llm_call` skips these. */
  predicate IsOldPrompt(m: Message) {
    m.User? && Contains(m.text, PromptMarker)
  }

  /** The history with every old prompt removed, other messages in their order. */
  function WithoutOldPrompts(ms: seq<Message>): (kept: seq<Message>)
    ensures |kept| <= |ms|
    ensures forall k | 0 <= k < |kept| :: kept[k] in ms && !IsOldPrompt(kept[k])
  {
    if ms == [] then []
    else
      var init := WithoutOldPrompts(ms[..|ms| - 1]);
      var m := ms[|ms| - 1];
      assert forall k | 0 <= k < |init| :: init[k] in ms[..|ms| - 1];
      if IsOldPrompt(m) then init else init + [m]
  }

  /** `llm_call`'s loop: the new prompt first, then the history without old prompts. */
  method PromptedHistory(messages: seq<Message>, today: string, guide: string)
    returns (withPrompt: seq<Message>)
    ensures withPrompt == [User(None, DynamicPrompt(today, guide))] + WithoutOldPrompts(messages)
  {
    withPrompt := [User(None, DynamicPrompt(today, guide))];
    var i := 0;
    while i < |messages|
      invariant 0 <= i <= |messages|
      invariant withPrompt == [User(None, DynamicPrompt(today, guide))] + WithoutOldPrompts(messages[..i])
    {
      assert messages[..i + 1][..i] == messages[..i];
      if !IsOldPrompt(messages[i]) {
        withPrompt := withPrompt + [messages[i]];
      }
      i := i + 1;
    }
    assert messages[..i] == messages;
  }

  /** Filtering distributes over concatenation, so it keeps relative order. */
  lemma {:induction false} WithoutOldPromptsAppend(a: seq<Message>, b: seq<Message>)
    ensures WithoutOldPrompts(a + b) == WithoutOldPrompts(a) + WithoutOldPrompts(b)
    decreases |b|
  {
    if b == [] {
      assert a + b == a;
    } else {
      var init := b[..|b| - 1];
      WithoutOldPromptsAppend(a, init);
      assert (a + b)[..|a + b| - 1] == a + init;
      assert (a + b)[|a + b| - 1] == b[|b| - 1];
    }
  }

  /** Every message that is not an old prompt reaches the model. */
  lemma {:induction false} OtherMessagesKept(ms: seq<Message>, k: nat)
    requires k < |ms| && !IsOldPrompt(ms[k])
    ensures ms[k] in WithoutOldPrompts(ms)
  {
    assert ms == ms[..k] + [ms[k]] + ms[k + 1..];
    WithoutOldPromptsAppend(ms[..k] + [ms[k]], ms[k + 1..]);
    WithoutOldPromptsAppend(ms[..k], [ms[k]]);
    assert WithoutOldPrompts([ms[k]]) == [ms[k]] by {
      assert [ms[k]][..0] == [];
    }
  }

  /** The prompt of this call is itself an old prompt for the next call, so prompts never pile up
      and filtering the model input again gives the filtered history. */
  lemma PromptsDoNotAccumulate(messages: seq<Message>, today: string, guide: string)
    ensures WithoutOldPrompts([User(None, DynamicPrompt(today, guide))] + WithoutOldPrompts(messages))
            == WithoutOldPrompts(messages)
  {
    var p := User(None, DynamicPrompt(today, guide));
    ContainsFront(PromptMarker, p.text[|PromptMarker|..]);
    assert p.text == PromptMarker + p.text[|PromptMarker|..];
    WithoutOldPromptsAppend([p], WithoutOldPrompts(messages));
    assert WithoutOldPrompts([p]) == [] by {
      assert [p][..0] == [];
    }
    WithoutOldPromptsIdempotent(messages);
  }

  /** Filtering a filtered history changes nothing. */
  lemma {:induction false} WithoutOldPromptsIdempotent(ms: seq<Message>)
    ensures WithoutOldPrompts(WithoutOldPrompts(ms)) == WithoutOldPrompts(ms)
    decreases |ms|
  {
    if ms != [] {
      var init := ms[..|ms| - 1];
      WithoutOldPromptsIdempotent(init);
      if !IsOldPrompt(ms[|ms| - 1]) {
        WithoutOldPromptsAppend(WithoutOldPrompts(init), [ms[|ms| - 1]]);
        assert [ms[|ms| - 1]][..0] == [];
      }
    }
  }

  // ------------------------------------------------------------------ should_continue and judge_node

  /** Where the graph goes after a model turn in this revision. */
  datatype Step = RunTools | Judge

  /** `should_continue`: the tools the model asked for, otherwise the judge. */
  function ShouldContinue(messages: seq<Message>): (next: Step)
    requires messages != [] && messages[|messages| - 1].Assistant?
    ensures next == RunTools <==> CallsTools(messages[|messages| - 1])
  {
    if messages[|messages| - 1].toolCalls != [] then RunTools else Judge
  }

  const SafeVerdict := "SAFE"

  /** `judge_node`: no change for a tool-calling turn or a stripped verdict of exactly "SAFE";
      otherwise one assistant message holding the verdict. A failing judge call propagates. */
  function JudgeNode(messages: seq<Message>, judge: string -> Outcome<string>): (added: Outcome<seq<Message>>)
    requires messages != [] && messages[|messages| - 1].Assistant?
    ensures CallsTools(messages[|messages| - 1]) ==> added == Ok([])
    ensures !CallsTools(messages[|messages| - 1]) ==>
              var verdict := judge(ContentString(messages[|messages| - 1].content));
              (verdict.Fail? <==> added.Fail?)
              && (verdict.Ok? ==>
                    (added.value == [] <==> Strip(verdict.value) == SafeVerdict)
                    && (added.value != [] ==> added.value == [Assistant(None, Text(Strip(verdict.value)), [])]))
  {
    var last := messages[|messages| - 1];
    if last.toolCalls != [] then Ok([])
    else
      match judge(ContentString(last.content))
      case Fail => Fail
      case Ok(response) =>
        var decision := Strip(response);
        if decision == SafeVerdict then Ok([]) else Ok([Assistant(None, Text(decision), [])])
  }

  /** The judge runs only on the judge route: on the tool route it never consults the judge model,
      and on the judge route a rewrite ends the turn with a plain answer. */
  lemma JudgeFollowsRoute(messages: seq<Message>, judge: string -> Outcome<string>)
    requires messages != [] && messages[|messages| - 1].Assistant?
    ensures ShouldContinue(messages) == RunTools ==> JudgeNode(messages, judge) == Ok([])
    ensures JudgeNode(messages, judge).Ok? && JudgeNode(messages, judge).value != [] ==>
              ShouldContinue(messages) == Judge
              && var after := messages + JudgeNode(messages, judge).value;
                 after[|after| - 1].Assistant? && !CallsTools(after[|after| - 1])
                 && after[|after| - 1].content.Text? && after[|after| - 1].content.s != SafeVerdict
  {
  }

  // ------------------------------------------------------------------ chat_endpoint extraction

  /** `all_messages[start_len:]`, with Python's clamping of a start past the end. */
  function NewMessages(all: seq<Message>, startLen: nat): (recent: seq<Message>)
    ensures |recent| == if startLen <= |all| then |all| - startLen else 0
  {
    if startLen <= |all| then all[startLen..] else []
  }

  /** A search tool message whose payload `json.loads` accepts. */
  predicate ParsedSearch(m: Message, parse: string -> Outcome<Json>) {
    IsToolNamed(m, SearchToolName) && parse(m.payload).Ok?
  }

  /** What a parsed search payload contributes: its "media" value when it is a dict that has one;
      otherwise the initial media with both fields null. */
  function MediaField(data: Json): (media: Json)
    ensures data.JObj? && "media" in data.fields ==> media == data.fields["media"]
    ensures !(data.JObj? && "media" in data.fields) ==> media == NoMediaFields
  {
    if data.JObj? && "media" in data.fields then data.fields["media"] else NoMediaFields
  }

  /** `extracted_media` after the reversed scan that stops at the first parsed search payload. */
  function NewestMedia(ms: seq<Message>, parse: string -> Outcome<Json>): (media: Json)
    ensures (forall j | 0 <= j < |ms| :: !ParsedSearch(ms[j], parse)) ==> media == NoMediaFields
    decreases |ms|
  {
    if ms == [] then NoMediaFields
    else if ParsedSearch(ms[|ms| - 1], parse) then MediaField(parse(ms[|ms| - 1].payload).value)
    else NewestMedia(ms[..|ms| - 1], parse)
  }

  /** `action_payload` after the reversed scan that stops at the first practice tool message,
      whether or not its payload counts. */
  function NewestAction(ms: seq<Message>, parse: string -> Outcome<Json>): (action: Json)
    ensures action == JNull || (action.JObj? && Get(action.fields, "action") == JStr(StartPractice))
    decreases |ms|
  {
    if ms == [] then JNull
    else if IsToolNamed(ms[|ms| - 1], PracticeToolName) then
      PracticePayload(ms[|ms| - 1].payload, parse).GetOr(JNull)
    else NewestAction(ms[..|ms| - 1], parse)
  }

  /** Steps 6 to 8 of `chat_endpoint`: both scans run over the messages of this turn only, newest
      first, and each stops at its first hit. */
  method ExtractTurnOutputs(all: seq<Message>, startLen: nat, parse: string -> Outcome<Json>)
    returns (media: Json, action: Json)
    ensures media == NewestMedia(NewMessages(all, startLen), parse)
    ensures action == NewestAction(NewMessages(all, startLen), parse)
  {
    var recent := if startLen <= |all| then all[startLen..] else [];
    media := ScanMedia(recent, parse);
    action := ScanAction(recent, parse);
  }

  /** The media loop: newest first, stopping at the first search payload that parses. */
  method ScanMedia(recent: seq<Message>, parse: string -> Outcome<Json>) returns (media: Json)
    ensures media == NewestMedia(recent, parse)
  {
    media := NoMediaFields;
    var i := |recent|;
    assert recent[..i] == recent;
    while i > 0
      invariant 0 <= i <= |recent|
      invariant NewestMedia(recent, parse) == NewestMedia(recent[..i], parse)
      invariant media == NoMediaFields
    {
      var msg := recent[i - 1];
      assert recent[..i][..i - 1] == recent[..i - 1];
      if IsToolNamed(msg, SearchToolName) {
        match parse(msg.payload) {
          case Ok(data) =>
            if data.JObj? && "media" in data.fields {
              media := data.fields["media"];
            }
            return;
          case Fail =>
        }
      }
      i := i - 1;
    }
  }

  /** The action loop: newest first, stopping at the first practice tool message. */
  method ScanAction(recent: seq<Message>, parse: string -> Outcome<Json>) returns (action: Json)
    ensures action == NewestAction(recent, parse)
  {
    action := JNull;
    var j := |recent|;
    assert recent[..j] == recent;
    while j > 0
      invariant 0 <= j <= |recent|
      invariant NewestAction(recent, parse) == NewestAction(recent[..j], parse)
      invariant action == JNull
    {
      var msg := recent[j - 1];
      assert recent[..j][..j - 1] == recent[..j - 1];
      if IsToolNamed(msg, PracticeToolName) {
        match parse(msg.payload) {
          case Ok(data) =>
            if data.JObj? && Get(data.fields, "action") == JStr(StartPractice) {
              action := data;
            }
          case Fail =>
        }
        return;
      }
      j := j - 1;
    }
  }

  /** Messages from before this turn are never scanned. */
  lemma HistoryNotScanned(history: seq<Message>, turn: seq<Message>, parse: string -> Outcome<Json>)
    ensures NewestMedia(NewMessages(history + turn, |history|), parse) == NewestMedia(turn, parse)
    ensures NewestAction(NewMessages(history + turn, |history|), parse) == NewestAction(turn, parse)
  {
    assert (history + turn)[|history|..] == turn;
  }

  /** The newest parsed search payload decides the media; newer search messages whose payload does
      not parse are skipped, and older ones are never reached. */
  lemma {:induction false} NewestParsedSearchWins(ms: seq<Message>, m: Message, later: seq<Message>,
                                                   parse: string -> Outcome<Json>)
    requires ParsedSearch(m, parse)
    requires forall j | 0 <= j < |later| :: !ParsedSearch(later[j], parse)
    ensures NewestMedia(ms + [m] + later, parse) == MediaField(parse(m.payload).value)
    decreases |later|
  {
    var all := ms + [m] + later;
    if later == [] {
      MediaStep(ms, m, parse);
    } else {
      var init := later[..|later| - 1];
      assert all == ms + [m] + init + [later[|later| - 1]];
      MediaStep(ms + [m] + init, later[|later| - 1], parse);
      NewestParsedSearchWins(ms, m, init, parse);
    }
  }

  /** One more message at the end: it decides the media when it is a parsed search payload, and
      is passed over otherwise. */
  lemma MediaStep(ms: seq<Message>, m: Message, parse: string -> Outcome<Json>)
    ensures NewestMedia(ms + [m], parse)
            == if ParsedSearch(m, parse) then MediaField(parse(m.payload).value) else NewestMedia(ms, parse)
  {
    assert (ms + [m])[..|ms|] == ms;
  }

  /** The newest practice message decides the action whatever its payload: an unusable payload
      leaves the action null even when an older practice message would have counted. */
  lemma {:induction false} NewestPracticeDecides(ms: seq<Message>, m: Message, later: seq<Message>,
                                                  parse: string -> Outcome<Json>)
    requires IsToolNamed(m, PracticeToolName)
    requires forall j | 0 <= j < |later| :: !IsToolNamed(later[j], PracticeToolName)
    ensures NewestAction(ms + [m] + later, parse) == PracticePayload(m.payload, parse).GetOr(JNull)
    decreases |later|
  {
    var all := ms + [m] + later;
    if later == [] {
      assert all[|all| - 1] == m;
    } else {
      var init := later[..|later| - 1];
      assert all[|all| - 1] == later[|later| - 1];
      assert all[..|all| - 1] == ms + [m] + init;
      NewestPracticeDecides(ms, m, init, parse);
    }
  }
}
