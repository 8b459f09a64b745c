/** The LangGraph agent of the chat service: history sanitisation before each model call,
    intent classification, the two routing functions, conversation compaction and the two local
    tools whose outputs the chat endpoint reads back. */
module AgentGraph {
  import opened Common
  import opened Json
  import opened Messages
  import opened RagService

  // ------------------------------------------------------------------ sanitisation (llm_call)

  /** Whether `llm_call` keeps message `m` after having kept `kept`: a tool result needs an
      assistant turn with tool calls, or another tool result, right before it; an assistant turn
      needs content or tool calls; everything else stays. */
  predicate Keeps(kept: seq<Message>, m: Message) {
    match m
    case Tool(_, _, _) => kept != [] && (CallsTools(kept[|kept| - 1]) || kept[|kept| - 1].Tool?)
    case Assistant(_, content, calls) => ContentTruthy(content) || calls != []
    case _ => true
  }

  /** The history `llm_call` sends on: `ms` filtered left to right by `Keeps`. */
  function Sanitize(ms: seq<Message>): (clean: seq<Message>)
    ensures |clean| <= |ms|
  {
    if ms == [] then []
    else
      var kept := Sanitize(ms[..|ms| - 1]);
      if Keeps(kept, ms[|ms| - 1]) then kept + [ms[|ms| - 1]] else kept
  }

  /** The sanitisation loop of `llm_call`: builds a fresh list and leaves `messages` alone. */
  method SanitizeHistory(messages: seq<Message>) returns (clean: seq<Message>)
    ensures clean == Sanitize(messages)
  {
    clean := [];
    var i := 0;
    while i < |messages|
      invariant 0 <= i <= |messages|
      invariant clean == Sanitize(messages[..i])
    {
      var msg := messages[i];
      assert messages[..i + 1][..i] == messages[..i];
      match msg {
        case Tool(_, _, _) =>
          if clean != [] {
            var last := clean[|clean| - 1];
            var isPrevAiCalling := last.Assistant? && last.toolCalls != [];
            var isPrevTool := last.Tool?;
            if isPrevAiCalling || isPrevTool {
              clean := clean + [msg];
            }
          }
        case Assistant(_, content, calls) =>
          if ContentTruthy(content) || calls != [] {
            clean := clean + [msg];
          }
        case _ =>
          clean := clean + [msg];
      }
      i := i + 1;
    }
    assert messages[..i] == messages;
  }

  /** Every tool result directly follows an assistant turn with tool calls or another tool result. */
  predicate NoOrphanTools(c: seq<Message>) {
    forall i | 0 <= i < |c| && c[i].Tool? :: i > 0 && (CallsTools(c[i - 1]) || c[i - 1].Tool?)
  }

  /** No assistant turn is empty: each has content or tool calls. */
  predicate NoEmptyAssistant(c: seq<Message>) {
    forall i | 0 <= i < |c| && c[i].Assistant? :: ContentTruthy(c[i].content) || c[i].toolCalls != []
  }

  predicate Sanitized(c: seq<Message>) {
    NoOrphanTools(c) && NoEmptyAssistant(c)
  }

  /** The model never sees an orphaned tool result or an empty assistant turn. */
  lemma {:induction false} SanitizeIsSanitized(ms: seq<Message>)
    ensures Sanitized(Sanitize(ms))
    decreases |ms|
  {
    if ms != [] {
      var init := ms[..|ms| - 1];
      SanitizeIsSanitized(init);
      var kept := Sanitize(init);
      var m := ms[|ms| - 1];
      if Keeps(kept, m) {
        var c := kept + [m];
        assert forall i | 0 <= i < |kept| :: c[i] == kept[i];
      }
    }
  }

  /** A history that already satisfies both rules passes through unchanged. */
  lemma {:induction false} SanitizedIsFixed(c: seq<Message>)
    requires Sanitized(c)
    ensures Sanitize(c) == c
    decreases |c|
  {
    if c != [] {
      var init := c[..|c| - 1];
      assert forall i | 0 <= i < |init| :: init[i] == c[i];
      assert Sanitized(init);
      SanitizedIsFixed(init);
      assert c == init + [c[|c| - 1]];
    }
  }

  /** Sanitising twice is sanitising once. */
  lemma SanitizeIdempotent(ms: seq<Message>)
    ensures Sanitize(Sanitize(ms)) == Sanitize(ms)
  {
    SanitizeIsSanitized(ms);
    SanitizedIsFixed(Sanitize(ms));
  }

  /** `idx` lists, in increasing order, positions of `ys` that hold the elements of `xs`. */
  predicate Embedding(xs: seq<Message>, ys: seq<Message>, idx: seq<nat>) {
    |idx| == |xs|
    && (forall k | 0 <= k < |idx| :: idx[k] < |ys| && ys[idx[k]] == xs[k])
    && (forall k, l | 0 <= k < l < |idx| :: idx[k] < idx[l])
  }

  ghost predicate IsSubsequence(xs: seq<Message>, ys: seq<Message>) {
    exists idx :: Embedding(xs, ys, idx)
  }

  /** Sanitisation only removes messages: what remains keeps its original order. */
  lemma {:induction false} SanitizeIsSubsequence(ms: seq<Message>)
    ensures IsSubsequence(Sanitize(ms), ms)
    decreases |ms|
  {
    if ms == [] {
      assert Embedding([], [], []);
    } else {
      var init := ms[..|ms| - 1];
      SanitizeIsSubsequence(init);
      var idx: seq<nat> :| Embedding(Sanitize(init), init, idx);
      var kept := Sanitize(init);
      var m := ms[|ms| - 1];
      if Keeps(kept, m) {
        var lastIndex: nat := |ms| - 1;
        assert Embedding(kept + [m], ms, idx + [lastIndex]);
      } else {
        assert Embedding(kept, ms, idx);
      }
    }
  }

  /** The user and system messages of a history, in order. */
  function Conversation(ms: seq<Message>): (cs: seq<Message>)
    ensures |cs| <= |ms|
  {
    if ms == [] then []
    else
      var rest := Conversation(ms[..|ms| - 1]);
      var m := ms[|ms| - 1];
      if m.User? || m.System? then rest + [m] else rest
  }

  /** Every user and system message survives sanitisation, in its original order. */
  lemma {:induction false} SanitizeKeepsConversation(ms: seq<Message>)
    ensures Conversation(Sanitize(ms)) == Conversation(ms)
    decreases |ms|
  {
    if ms != [] {
      var init := ms[..|ms| - 1];
      SanitizeKeepsConversation(init);
      var kept := Sanitize(init);
      var m := ms[|ms| - 1];
      if Keeps(kept, m) {
        assert (kept + [m])[..|kept|] == kept;
      }
    }
  }

  /** A new tool result is kept exactly when the last message kept so far is an assistant turn
      with tool calls or another tool result; otherwise sanitisation ignores it. */
  lemma ToolResultSurvival(ms: seq<Message>, t: Message)
    requires t.Tool?
    ensures var kept := Sanitize(ms);
            Sanitize(ms + [t]) ==
              if kept != [] && (CallsTools(kept[|kept| - 1]) || kept[|kept| - 1].Tool?) then kept + [t] else kept
  {
    SanitizeSnoc(ms, t);
  }

  /** Sanitising one more message: it is appended exactly when `Keeps` accepts it. */
  lemma SanitizeSnoc(ms: seq<Message>, m: Message)
    ensures Sanitize(ms + [m]) == if Keeps(Sanitize(ms), m) then Sanitize(ms) + [m] else Sanitize(ms)
  {
    assert (ms + [m])[..|ms|] == ms;
  }

  /** A tool result at the very start of the history is always dropped, and it changes nothing
      about what is kept after it. */
  lemma {:induction false} LeadingToolDropped(t: Message, rest: seq<Message>)
    requires t.Tool?
    ensures Sanitize([t] + rest) == Sanitize(rest)
    decreases |rest|
  {
    if rest == [] {
      assert [t] + rest == [t];
      assert [t][..0] == [];
    } else {
      var init := rest[..|rest| - 1];
      LeadingToolDropped(t, init);
      assert ([t] + rest)[..|rest|] == [t] + init;
      assert ([t] + rest)[|rest|] == rest[|rest| - 1];
    }
  }

  // ------------------------------------------------------------------ model call (llm_call)

  const NoMemory := "Chưa có ký ức nào được lưu trữ."

  /** The summary as the prompts show it: the text, or a placeholder when it is empty. */
  function MemoryText(summary: string, placeholder: string): (r: string)
    ensures summary != "" ==> r == summary
    ensures summary == "" ==> r == placeholder
  {
    if summary == "" then placeholder else summary
  }

  // The fixed text of the memory section around the date and the summary.
  const MemoryHead := "\n    =================================================================\n    ### BỐI CẢNH HIỆN TẠI (DYNAMIC CONTEXT) ###\n    \n    1. THỜI GIAN HỆ THỐNG: "
  const MemoryMid := "\n    \n    2. TÓM TẮT HỘI THOẠI TRƯỚC ĐÓ (LONG-TERM MEMORY):\n    "
  const MemoryTail := "\n    \n    (Hãy sử dụng thông tin trên để duy trì mạch chuyện, nhưng không cần nhắc lại nếu không được hỏi).\n    =================================================================\n    "

  /** `dynamic_memory_section`: today's date and the long-term memory. */
  function MemorySection(today: string, summary: string): (r: string)
    ensures Contains(r, today)
    ensures Contains(r, MemoryText(summary, NoMemory))
  {
    var s := MemoryText(summary, NoMemory);
    ContainsEnd(MemoryHead, today);
    ContainsExtended(MemoryHead + today, today, MemoryMid);
    ContainsExtended(MemoryHead + today + MemoryMid, today, s);
    ContainsExtended(MemoryHead + today + MemoryMid + s, today, MemoryTail);
    ContainsMiddle(MemoryHead + today + MemoryMid, s, MemoryTail);
    MemoryHead + today + MemoryMid + s + MemoryTail
  }

  /** `FULL_SYSTEM_PROMPT`: the fixed instructions, a newline, then the dynamic section. */
  function FullSystemPrompt(core: string, today: string, summary: string): (r: string)
    ensures StartsWith(r, core)
    ensures Contains(r, MemoryText(summary, NoMemory))
  {
    var section := MemorySection(today, summary);
    ContainsAfter(core + "\n", section, MemoryText(summary, NoMemory));
    assert (core + "\n" + section)[..|core|] == core;
    core + "\n" + section
  }

  const Apology := "Xin lỗi, hệ thống đang gặp gián đoạn. Bạn vui lòng thử lại sau nhé."

  /** `llm_call`: the model sees exactly the system prompt followed by the sanitised history, and
      the node adds one message: the model's reply, or a fixed apology when the call raised. */
  method LlmCall(messages: seq<Message>, summary: string, core: string, today: string,
                 model: seq<Message> -> Outcome<Message>)
    returns (modelInput: seq<Message>, added: seq<Message>)
    ensures modelInput == [System(None, FullSystemPrompt(core, today, summary))] + Sanitize(messages)
    ensures model(modelInput).Ok? ==> added == [model(modelInput).value]
    ensures model(modelInput).Fail? ==> added == [Assistant(None, Text(Apology), [])]
  {
    var clean := SanitizeHistory(messages);
    modelInput := [System(None, FullSystemPrompt(core, today, summary))] + clean;
    match model(modelInput) {
      case Ok(response) => added := [response];
      case Fail => added := [Assistant(None, Text(Apology), [])];
    }
  }

  // ------------------------------------------------------------------ classify_user_intent

  const Related := "SIGN_LANGUAGE_RELATED"
  const NotRelated := "NOT_RELATED"
  const NoContext := "(Chưa có ngữ cảnh)"
  const ContextTurns: nat := 3

  /** The contents of the user messages of a history, in order. */
  function UserContents(ms: seq<Message>): (ts: seq<string>)
    ensures |ts| == |UserMessages(ms)|
    ensures forall i | 0 <= i < |ts| :: ts[i] == UserMessages(ms)[i].text
  {
    var us := UserMessages(ms);
    seq(|us|, i requires 0 <= i < |us| => us[i].text)
  }

  lemma UserContentsAppend(a: seq<Message>, b: seq<Message>)
    ensures UserContents(a + b) == UserContents(a) + UserContents(b)
  {
    UserMessagesAppend(a, b);
  }

  /** The classifier's context: the last three user messages before the current one, one per
      line, or a placeholder when there are none. */
  function ClassifierContext(history: seq<Message>): (ctx: string)
    ensures UserMessages(history) == [] ==> ctx == NoContext
  {
    var prev := LastN(UserContents(history), ContextTurns);
    if prev == [] then NoContext else Join("\n", prev)
  }

  /** Each of the last three earlier user messages appears in the context. */
  lemma ContextCarriesRecentTurns(history: seq<Message>, k: nat)
    requires k < |LastN(UserContents(history), ContextTurns)|
    ensures Contains(ClassifierContext(history), LastN(UserContents(history), ContextTurns)[k])
  {
    JoinContainsParts("\n", LastN(UserContents(history), ContextTurns), k);
  }

  /** Assistant, tool and system messages do not change the context. */
  lemma ContextIgnoresOtherMessages(history: seq<Message>, m: Message)
    requires !m.User?
    ensures ClassifierContext(history + [m]) == ClassifierContext(history)
  {
    assert (history + [m])[..|history|] == history;
  }

  /** Once three user messages follow, anything older is out of the context. */
  lemma ContextForgetsOlderTurns(older: seq<Message>, history: seq<Message>)
    requires |UserMessages(history)| >= ContextTurns
    ensures ClassifierContext(older + history) == ClassifierContext(history)
  {
    UserContentsAppend(older, history);
    LastNOfLongSuffix(UserContents(older), UserContents(history), ContextTurns);
  }

  // The fixed text of the classification prompt around the summary, context and message.
  const ClassifyHead := "\n    --- Ký ức hội thoại (Summary) ---\n    "
  const ClassifyMid1 := "\n\n    --- 3 câu nói gần nhất của User ---\n    "
  const ClassifyMid2 := "\n\n    --- Input hiện tại ---\n    "
  const ClassifyTail := "\n    \n    Yêu cầu: Dựa vào Ký ức và 3 câu gần nhất để hiểu các từ nối (ví dụ: \"còn cái này\", \"thêm nữa\", \"vậy thì\").\n    "

  /** `classification_prompt`: the summary (or a placeholder), the context and the current message. */
  function ClassificationPrompt(summary: string, context: string, current: string): (r: string)
    ensures Contains(r, context)
    ensures Contains(r, current)
    ensures Contains(r, MemoryText(summary, "Chưa có ký ức."))
  {
    var s := MemoryText(summary, "Chưa có ký ức.");
    ContainsEnd(ClassifyHead, s);
    ContainsExtended(ClassifyHead + s, s, ClassifyMid1);
    ContainsExtended(ClassifyHead + s + ClassifyMid1, s, context);
    ContainsExtended(ClassifyHead + s + ClassifyMid1 + context, s, ClassifyMid2);
    ContainsExtended(ClassifyHead + s + ClassifyMid1 + context + ClassifyMid2, s, current);
    ContainsExtended(ClassifyHead + s + ClassifyMid1 + context + ClassifyMid2 + current, s, ClassifyTail);
    ContainsEnd(ClassifyHead + s + ClassifyMid1, context);
    ContainsExtended(ClassifyHead + s + ClassifyMid1 + context, context, ClassifyMid2);
    ContainsExtended(ClassifyHead + s + ClassifyMid1 + context + ClassifyMid2, context, current);
    ContainsExtended(ClassifyHead + s + ClassifyMid1 + context + ClassifyMid2 + current, context, ClassifyTail);
    ContainsMiddle(ClassifyHead + s + ClassifyMid1 + context + ClassifyMid2, current, ClassifyTail);
    ClassifyHead + s + ClassifyMid1 + context + ClassifyMid2 + current + ClassifyTail
  }

  /** The prompt the classifier is given for the last message of `messages`. */
  function ClassifierInput(messages: seq<Message>, summary: string): string
    requires messages != []
  {
    ClassificationPrompt(summary, ClassifierContext(messages[..|messages| - 1]), TextOf(messages[|messages| - 1]))
  }

  /** `classify_user_intent`: "NOT_RELATED" exactly when the classifier answered "not related";
      a classifier that raises lets the message through as related. */
  function ClassifyUserIntent(messages: seq<Message>, summary: string, classifier: string -> Outcome<bool>): (intent: string)
    requires messages != []
    ensures intent == Related || intent == NotRelated
    ensures intent == NotRelated <==> classifier(ClassifierInput(messages, summary)) == Ok(false)
  {
    match classifier(ClassifierInput(messages, summary))
    case Ok(isRelated) => if isRelated then Related else NotRelated
    case Fail => Related
  }

  /** The classifier failing never refuses a message. */
  lemma ClassifierFailsOpen(messages: seq<Message>, summary: string, classifier: string -> Outcome<bool>)
    requires messages != []
    requires classifier(ClassifierInput(messages, summary)) == Fail
    ensures ClassifyUserIntent(messages, summary, classifier) == Related
  {
  }

  // ------------------------------------------------------------------ routing

  /** The graph's nodes, as the routing functions name them. */
  datatype Node = LlmCallNode | RefuseNode | ToolNode | SummarizeNode | EndNode

  /** `route_intent`: only an explicit "NOT_RELATED" is refused; a missing intent counts as related. */
  function RouteIntent(intent: Option<string>): (next: Node)
    ensures next == RefuseNode || next == LlmCallNode
    ensures next == RefuseNode <==> intent == Some(NotRelated)
  {
    if intent.GetOr(Related) == NotRelated then RefuseNode else LlmCallNode
  }

  const SummarizeThreshold: nat := 10

  /** `route_condition` after a model turn: run the tools the model asked for; otherwise
      summarise once ten user messages have accumulated; otherwise stop. */
  method RouteCondition(messages: seq<Message>) returns (next: Node)
    requires messages != [] && messages[|messages| - 1].Assistant?
    ensures CallsTools(messages[|messages| - 1]) ==> next == ToolNode
    ensures !CallsTools(messages[|messages| - 1]) ==>
              next == if |UserMessages(messages)| >= SummarizeThreshold then SummarizeNode else EndNode
  {
    if messages[|messages| - 1].toolCalls != [] {
      return ToolNode;
    }
    var count := 0;
    var i := 0;
    while i < |messages|
      invariant 0 <= i <= |messages|
      invariant count == |UserMessages(messages[..i])|
    {
      assert messages[..i + 1][..i] == messages[..i];
      if messages[i].User? {
        count := count + 1;
      }
      i := i + 1;
    }
    assert messages[..i] == messages;
    if count >= SummarizeThreshold {
      return SummarizeNode;
    }
    return EndNode;
  }

  // ------------------------------------------------------------------ summarize_conversation

  const KeepLastTurns: nat := 3

  /** What the node returns: nothing, or a new summary with the ids to remove. */
  datatype Compaction = NoChange | Compacted(summary: string, deletions: seq<string>)

  /** Index of the first message equal to the third-to-last user message; 0 (keep everything)
      when there are at most three user messages. */
  function CutPoint(ms: seq<Message>): (c: nat)
    ensures c <= |ms|
    ensures |UserMessages(ms)| > KeepLastTurns ==>
              c < |ms| && ms[c] == UserMessages(ms)[|UserMessages(ms)| - KeepLastTurns]
              && ms[c] !in ms[..c]
  {
    var users := UserMessages(ms);
    if |users| <= KeepLastTurns then 0 else IndexOf(ms, users[|users| - KeepLastTurns])
  }

  function ToolNames(calls: seq<ToolCall>): (names: seq<string>)
    ensures |names| == |calls|
  {
    seq(|calls|, i requires 0 <= i < |calls| => calls[i].name)
  }

  /** The transcript line(s) of one message; tool results appear by tool name only. */
  function TranscriptLine(m: Message): string {
    match m
    case User(_, text) => "User: " + text + "\n"
    case Assistant(_, content, calls) =>
      (if calls != [] then "AI (Action): Đã gọi công cụ [" + Join(", ", ToolNames(calls)) + "]\n" else "")
      + (if ContentTruthy(content) then "AI (Say): " + ContentString(content) + "\n" else "")
    case Tool(_, name, _) => "System (Tool Output): Kết quả từ tool [" + name + "] đã trả về thành công.\n"
    case System(_, _) => ""
  }

  /** `conversation_text` for a run of messages. */
  function Transcript(ms: seq<Message>): string {
    if ms == [] then "" else Transcript(ms[..|ms| - 1]) + TranscriptLine(ms[|ms| - 1])
  }

  lemma {:induction false} TranscriptAppend(a: seq<Message>, b: seq<Message>)
    ensures Transcript(a + b) == Transcript(a) + Transcript(b)
    decreases |b|
  {
    if b == [] {
      assert a + b == a;
    } else {
      var init, last := b[..|b| - 1], b[|b| - 1];
      assert b == init + [last];
      assert a + b == (a + init) + [last];
      TranscriptAppend(a, init);
      TranscriptSnoc(a + init, last);
      TranscriptSnoc(init, last);
      AppendAssoc(Transcript(a), Transcript(init), TranscriptLine(last));
    }
  }

  lemma TranscriptSnoc(ms: seq<Message>, m: Message)
    ensures Transcript(ms + [m]) == Transcript(ms) + TranscriptLine(m)
  {
    assert (ms + [m])[..|ms|] == ms;
  }

  /** A tool result's payload and id never reach the summariser: swapping them leaves the
      transcript unchanged. */
  lemma ToolPayloadNotTranscribed(a: seq<Message>, b: seq<Message>, name: string,
                                  id1: Option<string>, payload1: string, id2: Option<string>, payload2: string)
    ensures Transcript(a + [Tool(id1, name, payload1)] + b) == Transcript(a + [Tool(id2, name, payload2)] + b)
  {
    var t1 := Tool(id1, name, payload1);
    var t2 := Tool(id2, name, payload2);
    TranscriptAppend(a + [t1], b);
    TranscriptAppend(a, [t1]);
    TranscriptAppend(a + [t2], b);
    TranscriptAppend(a, [t2]);
    assert [t1][..0] == [] && [t2][..0] == [];
  }

  /** The ids of the messages that carry one, in order: the `RemoveMessage` operations issued. */
  function DeletionIds(ms: seq<Message>): (ids: seq<string>)
    ensures |ids| <= |ms|
    ensures forall x | x in ids :: x != "" && exists i | 0 <= i < |ms| :: ms[i].id == Some(x)
    ensures forall i | 0 <= i < |ms| && HasId(ms[i]) :: ms[i].id.value in ids
  {
    if ms == [] then []
    else
      var init := ms[..|ms| - 1];
      var rest := DeletionIds(init);
      var m := ms[|ms| - 1];
      assert forall i | 0 <= i < |init| :: init[i] == ms[i];
      if HasId(m) then rest + [m.id.value] else rest
  }

  // The fixed text of the summarisation prompt around the stored summary and the transcript.
  const SummaryLead := "Ký ức hiện tại: "
  const SummaryMiddle := "\n\nNội dung hội thoại cũ vừa trôi qua (cần lưu trữ vào ký ức dài hạn):\n"
  const SummaryTail := "\nYêu cầu: Hãy cập nhật Ký ức hiện tại dựa trên nội dung cũ ở trên. 1. Giữ lại thông tin quan trọng: Lịch hẹn đã tạo, Tên riêng, Sở thích, Kết quả tra cứu quan trọng.\n2. Bỏ qua các câu chào hỏi xã giao hoặc chi tiết kỹ thuật thừa.\n3. Tóm tắt ngắn gọn dưới dạng gạch đầu dòng.\n4. Thêm câu query gần nhất của người dùng vào cuối bản tóm tắt.\nKý ức mới:"

  /** The prompt sent to the summarisation model: the stored summary first, then the transcript. */
  function SummaryPrompt(existing: string, transcript: string): (r: string)
    ensures StartsWith(r, SummaryLead + existing)
    ensures Contains(r, transcript)
  {
    var lead := SummaryLead + existing;
    StartsWithExtended(lead, lead, "");
    assert lead + "" == lead;
    StartsWithExtended(lead, lead, SummaryMiddle);
    StartsWithExtended(lead + SummaryMiddle, lead, transcript);
    StartsWithExtended(lead + SummaryMiddle + transcript, lead, SummaryTail);
    ContainsEnd(lead + SummaryMiddle, transcript);
    ContainsExtended(lead + SummaryMiddle + transcript, transcript, SummaryTail);
    lead + SummaryMiddle + transcript + SummaryTail
  }

  /** `summarize_conversation`, as a function of the history, the stored summary and the
      summarisation model. */
  function Compact(ms: seq<Message>, existing: string, summarizer: string -> Outcome<string>): (u: Compaction)
    ensures |UserMessages(ms)| <= KeepLastTurns ==> u == NoChange
    ensures u.Compacted? ==> 0 < CutPoint(ms) && u.deletions == DeletionIds(ms[..CutPoint(ms)])
    ensures 0 < CutPoint(ms) && !Blank(Transcript(ms[..CutPoint(ms)])) ==>
              (u == NoChange <==> summarizer(SummaryPrompt(existing, Transcript(ms[..CutPoint(ms)]))).Fail?)
    ensures CutPoint(ms) == 0 ==> u == NoChange
    ensures 0 < CutPoint(ms) && Blank(Transcript(ms[..CutPoint(ms)])) ==>
              u == Compacted(existing, DeletionIds(ms[..CutPoint(ms)]))
    ensures 0 < CutPoint(ms) && !Blank(Transcript(ms[..CutPoint(ms)]))
            && summarizer(SummaryPrompt(existing, Transcript(ms[..CutPoint(ms)]))).Ok? ==>
              u == Compacted(summarizer(SummaryPrompt(existing, Transcript(ms[..CutPoint(ms)]))).value,
                             DeletionIds(ms[..CutPoint(ms)]))
  {
    var cut := CutPoint(ms);
    if cut == 0 then NoChange
    else
      var text := Transcript(ms[..cut]);
      if Blank(text) then Compacted(existing, DeletionIds(ms[..cut]))
      else match summarizer(SummaryPrompt(existing, text))
        case Fail => NoChange
        case Ok(s) => Compacted(s, DeletionIds(ms[..cut]))
  }

  /** The transcript loop of `summarize_conversation`. */
  method BuildTranscript(toSummarize: seq<Message>) returns (text: string)
    ensures text == Transcript(toSummarize)
  {
    text := "";
    var i := 0;
    while i < |toSummarize|
      invariant 0 <= i <= |toSummarize|
      invariant text == Transcript(toSummarize[..i])
    {
      assert toSummarize[..i + 1][..i] == toSummarize[..i];
      text := text + TranscriptLine(toSummarize[i]);
      i := i + 1;
    }
    assert toSummarize[..i] == toSummarize;
  }

  /** The `delete_ops` loop of `summarize_conversation`. */
  method CollectDeletions(toSummarize: seq<Message>) returns (deletes: seq<string>)
    ensures deletes == DeletionIds(toSummarize)
  {
    deletes := [];
    var j := 0;
    while j < |toSummarize|
      invariant 0 <= j <= |toSummarize|
      invariant deletes == DeletionIds(toSummarize[..j])
    {
      assert toSummarize[..j + 1][..j] == toSummarize[..j];
      if HasId(toSummarize[j]) {
        deletes := deletes + [toSummarize[j].id.value];
      }
      j := j + 1;
    }
    assert toSummarize[..j] == toSummarize;
  }

  /** The node itself. */
  method SummarizeConversation(messages: seq<Message>, existing: string, summarizer: string -> Outcome<string>)
    returns (update: Compaction)
    ensures update == Compact(messages, existing, summarizer)
  {
    var cutoff := CutPoint(messages);
    if cutoff == 0 {
      return NoChange;
    }
    var toSummarize := messages[..cutoff];
    var text := BuildTranscript(toSummarize);
    var newSummary := existing;
    if !Blank(text) {
      match summarizer(SummaryPrompt(existing, text)) {
        case Fail => return NoChange;
        case Ok(s) => newSummary := s;
      }
    }
    var deletes := CollectDeletions(toSummarize);
    return Compacted(newSummary, deletes);
  }

  /** The history the checkpointer holds after applying the `RemoveMessage` operations. */
  function RemoveIds(ms: seq<Message>, ids: seq<string>): (r: seq<Message>)
    ensures |r| <= |ms|
  {
    if ms == [] then []
    else
      var rest := RemoveIds(ms[..|ms| - 1], ids);
      var m := ms[|ms| - 1];
      if m.id.Some? && m.id.value in ids then rest else rest + [m]
  }

  lemma {:induction false} RemoveIdsAppend(a: seq<Message>, b: seq<Message>, ids: seq<string>)
    ensures RemoveIds(a + b, ids) == RemoveIds(a, ids) + RemoveIds(b, ids)
    decreases |b|
  {
    if b == [] {
      assert a + b == a;
    } else {
      var init, last := b[..|b| - 1], b[|b| - 1];
      assert b == init + [last];
      assert a + b == (a + init) + [last];
      RemoveIdsAppend(a, init, ids);
      RemoveIdsSnoc(a + init, last, ids);
      RemoveIdsSnoc(init, last, ids);
      AppendAssoc(RemoveIds(a, ids), RemoveIds(init, ids), Surviving(last, ids));
    }
  }

  /** `[m]` when the deletions spare `m`, `[]` otherwise. */
  function Surviving(m: Message, ids: seq<string>): seq<Message> {
    if m.id.Some? && m.id.value in ids then [] else [m]
  }

  lemma RemoveIdsSnoc(ms: seq<Message>, m: Message, ids: seq<string>)
    ensures RemoveIds(ms + [m], ids) == RemoveIds(ms, ids) + Surviving(m, ids)
  {
    assert (ms + [m])[..|ms|] == ms;
  }

  lemma {:induction false} RemoveIdsAll(ms: seq<Message>, ids: seq<string>)
    requires forall i | 0 <= i < |ms| :: ms[i].id.Some? && ms[i].id.value in ids
    ensures RemoveIds(ms, ids) == []
    decreases |ms|
  {
    if ms != [] {
      RemoveIdsAll(ms[..|ms| - 1], ids);
    }
  }

  lemma {:induction false} RemoveIdsNone(ms: seq<Message>, ids: seq<string>)
    requires forall i | 0 <= i < |ms| :: !(ms[i].id.Some? && ms[i].id.value in ids)
    ensures RemoveIds(ms, ids) == ms
    decreases |ms|
  {
    if ms != [] {
      RemoveIdsNone(ms[..|ms| - 1], ids);
      assert ms[..|ms| - 1] + [ms[|ms| - 1]] == ms;
    }
  }

  /** Every message has an id and no two share one (as once the checkpointer has stored them). */
  predicate StoredWithIds(ms: seq<Message>) {
    (forall i | 0 <= i < |ms| :: HasId(ms[i]))
    && (forall i, j | 0 <= i < j < |ms| :: ms[i].id != ms[j].id)
  }

  /** Splitting a history at the first occurrence of a user message splits its user messages
      there too: none before the cut is that message, and it heads those after. */
  lemma SplitAtPivot(ms: seq<Message>, c: nat)
    requires c < |ms| && ms[c].User? && ms[c] !in ms[..c]
    ensures UserMessages(ms) == UserMessages(ms[..c]) + UserMessages(ms[c..])
    ensures ms[c] !in UserMessages(ms[..c])
    ensures UserMessages(ms[c..]) != [] && UserMessages(ms[c..])[0] == ms[c]
  {
    UserMessagesSplit(ms, c);
    UserMessagesOnlyFrom(ms[..c], ms[c]);
    UserMessagesFrom(ms, c);
  }

  /** The kept suffix always starts at a user message and holds at least the last three user
      messages; with no repeated message it holds exactly three. */
  lemma KeptSuffixHoldsLastTurns(ms: seq<Message>)
    requires |UserMessages(ms)| > KeepLastTurns
    ensures ms[CutPoint(ms)].User?
    ensures |UserMessages(ms[CutPoint(ms)..])| >= KeepLastTurns
    ensures Distinct(ms) ==> |UserMessages(ms[CutPoint(ms)..])| == KeepLastTurns
  {
    var us := UserMessages(ms);
    var k := |us| - KeepLastTurns;
    var c := CutPoint(ms);
    assert ms[c] == us[k] && us[k].User?;
    SplitAtPivot(ms, c);
    var pre, post := UserMessages(ms[..c]), UserMessages(ms[c..]);
    PositionPastPrefix(us, pre, post, k);
    if Distinct(ms) {
      UserMessagesDistinct(ms);
      PositionOfHead(us, pre, post, k);
    }
  }

  /** Once ten user messages route the graph to compaction, a history without repeats is
      actually cut: the messages before the third-to-last user message go, at least seven user
      turns among them. */
  lemma SummarizeRouteCutsHistory(ms: seq<Message>)
    requires |UserMessages(ms)| >= SummarizeThreshold
    requires Distinct(ms)
    ensures 0 < CutPoint(ms)
    ensures |UserMessages(ms[..CutPoint(ms)])| == |UserMessages(ms)| - KeepLastTurns
  {
    var c := CutPoint(ms);
    KeptSuffixHoldsLastTurns(ms);
    assert ms == ms[..c] + ms[c..];
    UserMessagesAppend(ms[..c], ms[c..]);
    assert |UserMessages(ms[..c])| > 0 ==> ms[..c] != [];
  }

  /** Removing the ids collected from a prefix of a stored history removes exactly that prefix. */
  lemma RemovePrefixIds(ms: seq<Message>, c: nat)
    requires StoredWithIds(ms) && c <= |ms|
    ensures RemoveIds(ms, DeletionIds(ms[..c])) == ms[c..]
  {
    PrefixIdsDeleted(ms, c);
    SuffixIdsKept(ms, c);
    RemoveIdsAtCut(ms, c, DeletionIds(ms[..c]));
  }

  /** Deletions that name every message before the cut and none after it leave the suffix. */
  lemma RemoveIdsAtCut(ms: seq<Message>, c: nat, d: seq<string>)
    requires c <= |ms|
    requires forall i | 0 <= i < |ms[..c]| :: ms[..c][i].id.Some? && ms[..c][i].id.value in d
    requires forall j | 0 <= j < |ms[c..]| :: !(ms[c..][j].id.Some? && ms[c..][j].id.value in d)
    ensures RemoveIds(ms, d) == ms[c..]
  {
    var pre, post := ms[..c], ms[c..];
    assert ms == pre + post;
    RemoveIdsAppend(pre, post, d);
    RemoveIdsAll(pre, d);
    RemoveIdsNone(post, d);
  }

  /** Every stored message before the cut has its id among the deletions. */
  lemma PrefixIdsDeleted(ms: seq<Message>, c: nat)
    requires StoredWithIds(ms) && c <= |ms|
    ensures forall i | 0 <= i < |ms[..c]| :: ms[..c][i].id.Some? && ms[..c][i].id.value in DeletionIds(ms[..c])
  {
    var pre := ms[..c];
    assert forall i | 0 <= i < |pre| :: HasId(pre[i]) by {
      forall i | 0 <= i < |pre| ensures HasId(pre[i]) {
        assert pre[i] == ms[i];
      }
    }
  }

  /** No stored message from the cut on has its id among the deletions. */
  lemma SuffixIdsKept(ms: seq<Message>, c: nat)
    requires StoredWithIds(ms) && c <= |ms|
    ensures forall j | 0 <= j < |ms[c..]| :: !(ms[c..][j].id.Some? && ms[c..][j].id.value in DeletionIds(ms[..c]))
  {
    forall j | 0 <= j < |ms[c..]|
      ensures !(ms[c..][j].id.Some? && ms[c..][j].id.value in DeletionIds(ms[..c]))
    {
      assert ms[c..][j] == ms[c + j];
      SuffixIdNotDeleted(ms, c, c + j);
    }
  }

  /** A stored message at or after the cut keeps its id out of the prefix's deletions. */
  lemma SuffixIdNotDeleted(ms: seq<Message>, c: nat, j: nat)
    requires StoredWithIds(ms) && c <= j < |ms|
    ensures ms[j].id.value !in DeletionIds(ms[..c])
  {
    var v := ms[j].id.value;
    forall i | 0 <= i < c
      ensures ms[..c][i].id != Some(v)
    {
      assert ms[..c][i] == ms[i];
    }
  }

  /** After a successful compaction has been applied, running the node again changes nothing:
      exactly the cut messages were removed and three user messages remain. */
  lemma SecondRunIsNoop(ms: seq<Message>, existing: string, summarizer: string -> Outcome<string>,
                        later: string -> Outcome<string>)
    requires StoredWithIds(ms)
    requires Compact(ms, existing, summarizer).Compacted?
    ensures var u := Compact(ms, existing, summarizer);
            RemoveIds(ms, u.deletions) == ms[CutPoint(ms)..]
            && Compact(RemoveIds(ms, u.deletions), u.summary, later) == NoChange
  {
    RemovePrefixIds(ms, CutPoint(ms));
    assert Distinct(ms);
    KeptSuffixHoldsLastTurns(ms);
  }

  // ------------------------------------------------------------------ local tools

  const SearchToolName := "search_sign_language_knowledge"
  const PracticeToolName := "start_practice_tool"

  /** The query the retriever sees: the rewritten one, or the original when rewriting raised. */
  function RewrittenQuery(query: string, rewrite: string -> Outcome<string>): (q: string)
    ensures rewrite(query).Fail? ==> q == query
  {
    match rewrite(query)
    case Ok(optimized) => optimized
    case Fail => query
  }

  /** One search result: rank-based id (1, 2, …), content and both media URLs. */
  function ResultItem(rank: nat, d: Doc): (item: Json)
    ensures item.JObj? && "id" in item.fields && "content" in item.fields && "metadata" in item.fields
    ensures item.fields["id"] == JNum(rank + 1)
    ensures item.fields["content"] == JStr(d.content)
    ensures item.fields["metadata"].JObj?
    ensures forall key | key in item.fields["metadata"].fields ::
              key in {"image", "video"}
              && (item.fields["metadata"].fields[key] == JNull
                  || (item.fields["metadata"].fields[key].JStr? && Contains(item.fields["metadata"].fields[key].s, "http")))
  {
    var media := map["image" := OptStr(SafeGetUrl(d.metadata, "Image")),
                     "video" := OptStr(SafeGetUrl(d.metadata, "Video"))];
    JObj(map["id" := JNum(rank + 1), "content" := JStr(d.content), "metadata" := JObj(media)])
  }

  const NotReadyError: Json := JObj(map["error" := JStr("DB chưa sẵn sàng.")])

  /** `items` are the search results for `docs`: one per document, numbered from 1 in order. */
  predicate NumberedResults(items: seq<Json>, docs: seq<Doc>) {
    |items| == |docs| && forall i | 0 <= i < |docs| :: items[i] == ResultItem(i, docs[i])
  }

  /** `search_sign_language_knowledge`: one result per retrieved document, numbered from 1 in
      retrieval order, or an error object while the retriever is not ready. */
  method SearchKnowledge(query: string, ready: bool, rewrite: string -> Outcome<string>,
                         retrieve: string -> seq<Doc>)
    returns (output: Json)
    ensures !ready ==> output == NotReadyError
    ensures ready ==> output.JArr? && NumberedResults(output.items, retrieve(RewrittenQuery(query, rewrite)))
  {
    if !ready {
      return NotReadyError;
    }
    var optimized := RewrittenQuery(query, rewrite);
    var docs := retrieve(optimized);
    if docs == [] {
      return JArr([]);
    }
    var results := [];
    var i := 0;
    while i < |docs|
      invariant 0 <= i <= |docs|
      invariant |results| == i
      invariant forall k | 0 <= k < i :: results[k] == ResultItem(k, docs[k])
    {
      results := results + [ResultItem(i, docs[i])];
      i := i + 1;
    }
    return JArr(results);
  }

  /** `start_practice_tool`: the action object the front end reacts to. */
  function StartPracticeTool(sign: Option<string>): (payload: Json)
    ensures payload.JObj? && Get(payload.fields, "action") == JStr("START_PRACTICE")
    ensures Get(payload.fields, "sign") == OptStr(sign)
  {
    JObj(map["action" := JStr("START_PRACTICE"), "sign" := OptStr(sign)])
  }
}
