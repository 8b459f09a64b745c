/** The post-processing the chat endpoint of the FastAPI app applies to the agent's final
    history: the window of the current turn, the search and practice payloads found in it, the
    reply text, the `[[ID:n]]` reference tag and the media it selects. */
module ChatEndpoint {
  import opened Common
  import opened Json
  import opened Messages
  import opened RagService
  import opened AgentGraph

  // ------------------------------------------------------------------ turn window

  /** Messages scanned when the history holds no user message at all. */
  const FallbackWindow: nat := 10

  /** Position of the newest user message, if there is one. */
  function LastUser(ms: seq<Message>): (r: Option<nat>)
    ensures r.Some? ==> r.value < |ms| && ms[r.value].User?
                        && forall j | r.value < j < |ms| :: !ms[j].User?
    ensures r.None? ==> forall j | 0 <= j < |ms| :: !ms[j].User?
  {
    if ms == [] then None
    else if ms[|ms| - 1].User? then Some(|ms| - 1)
    else LastUser(ms[..|ms| - 1])
  }

  /** The backwards search for `last_human_index` (-1 when there is no user message). */
  method FindLastUserIndex(ms: seq<Message>) returns (index: int)
    ensures LastUser(ms).Some? ==> index == LastUser(ms).value
    ensures LastUser(ms).None? ==> index == -1
  {
    index := -1;
    var i := |ms| - 1;
    while i >= 0
      invariant -1 <= i < |ms|
      invariant LastUser(ms) == LastUser(ms[..i + 1])
      invariant index == -1
      decreases i + 1
    {
      if ms[i].User? {
        index := i;
        break;
      }
      assert ms[..i + 1][..i] == ms[..i];
      i := i - 1;
    }
  }

  /** `messages_to_scan`: from the newest user message on, or the last ten messages. */
  function TurnWindow(ms: seq<Message>): (w: seq<Message>)
    ensures LastUser(ms).Some? ==> w != [] && w[0].User? && forall j | 0 < j < |w| :: !w[j].User?
    ensures LastUser(ms).Some? ==> w == ms[LastUser(ms).value..]
    ensures LastUser(ms).None? ==> w == LastN(ms, FallbackWindow)
  {
    match LastUser(ms)
    case Some(i) => ms[i..]
    case None => LastN(ms, FallbackWindow)
  }

  // ------------------------------------------------------------------ tool outputs

  predicate IsToolNamed(m: Message, name: string) {
    m.Tool? && m.name == name
  }

  /** `json.loads` of a search payload, or `[]` when parsing raises. */
  function SearchPayload(payload: string, parse: string -> Outcome<Json>): (rag: Json)
    ensures parse(payload).Fail? ==> rag == JArr([])
    ensures parse(payload).Ok? ==> rag == parse(payload).value
  {
    match parse(payload)
    case Ok(j) => j
    case Fail => JArr([])
  }

  const StartPractice := "START_PRACTICE"

  /** A practice payload that counts: it parses to a dict whose "action" is "START_PRACTICE".
      Parse errors and the `.get` of a non-dict raise inside the `try` and are ignored. */
  function PracticePayload(payload: string, parse: string -> Outcome<Json>): (action: Option<Json>)
    ensures action.Some? <==>
              parse(payload).Ok? && parse(payload).value.JObj?
              && Get(parse(payload).value.fields, "action") == JStr(StartPractice)
    ensures action.Some? ==> action.value == parse(payload).value
  {
    match parse(payload)
    case Ok(data) =>
      if data.JObj? && Get(data.fields, "action") == JStr(StartPractice) then Some(data) else None
    case Fail => None
  }

  /** `rag_tool_output` after the reversed scan: the scan never stops, so the earliest search
      message of the window is the one left standing. */
  function SearchOutput(w: seq<Message>, parse: string -> Outcome<Json>): (rag: Json)
    ensures (forall j | 0 <= j < |w| :: !IsToolNamed(w[j], SearchToolName)) ==> rag == JArr([])
  {
    if w == [] then JArr([])
    else if IsToolNamed(w[0], SearchToolName) then SearchPayload(w[0].payload, parse)
    else SearchOutput(w[1..], parse)
  }

  /** `action_payload` after the reversed scan: the earliest practice message whose payload counts,
      or None. */
  function PracticeAction(w: seq<Message>, parse: string -> Outcome<Json>): (action: Json)
    ensures action == JNull || (action.JObj? && Get(action.fields, "action") == JStr(StartPractice))
  {
    if w == [] then JNull
    else if IsToolNamed(w[0], PracticeToolName) && PracticePayload(w[0].payload, parse).Some? then
      PracticePayload(w[0].payload, parse).value
    else PracticeAction(w[1..], parse)
  }

  /** The scan over `reversed(messages_to_scan)`. */
  method ScanToolOutputs(w: seq<Message>, parse: string -> Outcome<Json>) returns (rag: Json, action: Json)
    ensures rag == SearchOutput(w, parse)
    ensures action == PracticeAction(w, parse)
  {
    rag := JArr([]);
    action := JNull;
    var i := |w|;
    while i > 0
      invariant 0 <= i <= |w|
      invariant rag == SearchOutput(w[i..], parse)
      invariant action == PracticeAction(w[i..], parse)
    {
      i := i - 1;
      var msg := w[i];
      assert w[i..][1..] == w[i + 1..];
      if msg.Tool? {
        if msg.name == SearchToolName {
          match parse(msg.payload) {
            case Ok(j) => rag := j;
            case Fail => rag := JArr([]);
          }
        } else if msg.name == PracticeToolName {
          match parse(msg.payload) {
            case Ok(data) =>
              if data.JObj? && Get(data.fields, "action") == JStr(StartPractice) {
                action := data;
              }
            case Fail =>
          }
        }
      }
    }
  }

  /** The earliest search message of the window decides `rag_tool_output`. */
  lemma {:induction false} SearchOutputIsEarliest(w: seq<Message>, k: nat, parse: string -> Outcome<Json>)
    requires k < |w| && IsToolNamed(w[k], SearchToolName)
    requires forall j | 0 <= j < k :: !IsToolNamed(w[j], SearchToolName)
    ensures SearchOutput(w, parse) == SearchPayload(w[k].payload, parse)
    decreases k
  {
    if k > 0 {
      SearchOutputIsEarliest(w[1..], k - 1, parse);
    }
  }

  /** Messages after a search message never change `rag_tool_output`: a second, newer search in
      the same turn is ignored. */
  lemma {:induction false} LaterSearchIgnored(w: seq<Message>, later: seq<Message>, parse: string -> Outcome<Json>)
    requires exists j | 0 <= j < |w| :: IsToolNamed(w[j], SearchToolName)
    ensures SearchOutput(w + later, parse) == SearchOutput(w, parse)
    decreases |w|
  {
    assert (w + later)[0] == w[0];
    if !IsToolNamed(w[0], SearchToolName) {
      assert (w + later)[1..] == w[1..] + later;
      var j :| 0 <= j < |w| && IsToolNamed(w[j], SearchToolName);
      assert w[1..][j - 1] == w[j];
      LaterSearchIgnored(w[1..], later, parse);
    }
  }

  /** The earliest practice message with a counting payload decides `action_payload`. */
  lemma {:induction false} PracticeActionIsEarliest(w: seq<Message>, k: nat, parse: string -> Outcome<Json>)
    requires k < |w| && IsToolNamed(w[k], PracticeToolName) && PracticePayload(w[k].payload, parse).Some?
    requires forall j | 0 <= j < k :: !(IsToolNamed(w[j], PracticeToolName) && PracticePayload(w[j].payload, parse).Some?)
    ensures PracticeAction(w, parse) == PracticePayload(w[k].payload, parse).value
    decreases k
  {
    if k > 0 {
      PracticeActionIsEarliest(w[1..], k - 1, parse);
    }
  }

  /** A payload produced by `start_practice_tool` is accepted as the action. */
  lemma PracticeToolPayloadAccepted(payload: string, sign: Option<string>, parse: string -> Outcome<Json>)
    requires parse(payload) == Ok(StartPracticeTool(sign))
    ensures PracticePayload(payload, parse) == Some(StartPracticeTool(sign))
  {
  }

  // ------------------------------------------------------------------ reply text

  /** What `ast.literal_eval` of a list-looking reply yields: a list of parts, or anything else. */
  datatype Literal = LitList(items: seq<Part>) | LitOther

  /** The text one element contributes: a dict's "text" field, a bare string, or nothing. */
  function PartText(p: Part): (texts: seq<string>)
    ensures |texts| <= 1
    ensures texts == [] <==> p.OtherItem?
  {
    match p
    case TextItem(t) => [t]
    case StrItem(s) => [s]
    case OtherItem => []
  }

  /** `text_parts` for a list of elements, in order. */
  function TextParts(items: seq<Part>): (texts: seq<string>)
    ensures |texts| <= |items|
    ensures texts == [] <==> forall k | 0 <= k < |items| :: items[k].OtherItem?
  {
    if items == [] then []
    else
      var init := items[..|items| - 1];
      assert forall k | 0 <= k < |init| :: init[k] == items[k];
      TextParts(init) + PartText(items[|items| - 1])
  }

  /** The loop that fills `text_parts`. */
  method CollectTextParts(items: seq<Part>) returns (texts: seq<string>)
    ensures texts == TextParts(items)
  {
    texts := [];
    var i := 0;
    while i < |items|
      invariant 0 <= i <= |items|
      invariant texts == TextParts(items[..i])
    {
      TextPartsStep(items, i);
      match items[i] {
        case TextItem(t) => texts := texts + [t];
        case StrItem(s) => texts := texts + [s];
        case OtherItem =>
      }
      i := i + 1;
    }
    assert items[..i] == items;
  }

  /** One more element adds its own text after the texts before it. */
  lemma TextPartsStep(items: seq<Part>, i: nat)
    requires i < |items|
    ensures TextParts(items[..i + 1]) == TextParts(items[..i]) + PartText(items[i])
  {
    assert items[..i + 1][..i] == items[..i];
  }

  /** What one non-empty assistant message turns `response_content` into: the joined text parts,
      the raw string, or no change (list content without any text part). */
  function Flattened(c: Content, literalEval: string -> Outcome<Literal>): (r: Option<string>)
    ensures c.Parts? ==> (r.None? <==> forall k | 0 <= k < |c.items| :: c.items[k].OtherItem?)
    ensures c.Text? ==> r.Some?
  {
    match c
    case Parts(items, _) =>
      var texts := TextParts(items);
      if texts == [] then None else Some(Join("\n", texts))
    case Text(raw) =>
      if StartsWith(Strip(raw), "[") then
        match literalEval(raw)
        case Ok(LitList(items)) =>
          var texts := TextParts(items);
          if texts == [] then Some(raw) else Some(Join("\n", texts))
        case _ => Some(raw)
      else Some(raw)
  }

  /** Every text part of list content shows up in the flattened reply. */
  lemma FlattenedKeepsTextParts(items: seq<Part>, repr: string, literalEval: string -> Outcome<Literal>, k: nat)
    requires k < |TextParts(items)|
    ensures Flattened(Parts(items, repr), literalEval).Some?
    ensures Contains(Flattened(Parts(items, repr), literalEval).value, TextParts(items)[k])
  {
    JoinContainsParts("\n", TextParts(items), k);
  }

  /** An assistant message the reply scan looks at: one with truthy content. */
  predicate IsAnswer(m: Message) {
    m.Assistant? && ContentTruthy(m.content)
  }

  /** How the reply scan reads one answer: its content flattened with the given `literal_eval`.
      The scan below is stated for any such reading and instantiated with this one. */
  function ReplyFlattener(literalEval: string -> Outcome<Literal>): Content -> Option<string> {
    c => Flattened(c, literalEval)
  }

  /** The reply scan over `ms[..i]`, newest first, with `cur` the current `response_content`:
      it stops at the first message whose contribution is not blank. */
  function ResponseFrom(ms: seq<Message>, i: nat, cur: string, flatten: Content -> Option<string>): (r: string)
    requires i <= |ms|
    decreases i
  {
    if i == 0 then cur
    else if IsAnswer(ms[i - 1]) then
      var next := Contribution(ms[i - 1].content, cur, flatten);
      if !Blank(next) then next else ResponseFrom(ms, i - 1, next, flatten)
    else ResponseFrom(ms, i - 1, cur, flatten)
  }

  /** `response_content` at the end of the reply scan. */
  function ResponseText(ms: seq<Message>, literalEval: string -> Outcome<Literal>): string {
    ResponseFrom(ms, |ms|, "", ReplyFlattener(literalEval))
  }

  /** The new `response_content` after one non-empty assistant message: its flattened content,
      or no change when it flattens to nothing. */
  function Contribution(c: Content, cur: string, flatten: Content -> Option<string>): string {
    flatten(c).GetOr(cur)
  }

  /** The body of the reply scan for one non-empty assistant message. */
  method FlattenContent(content: Content, cur: string, literalEval: string -> Outcome<Literal>)
    returns (response: string)
    ensures response == Contribution(content, cur, ReplyFlattener(literalEval))
  {
    response := cur;
    match content {
      case Parts(items, _) =>
        var texts := CollectTextParts(items);
        if texts != [] {
          response := Join("\n", texts);
        }
      case Text(raw) =>
        if StartsWith(Strip(raw), "[") {
          match literalEval(raw) {
            case Ok(LitList(items)) =>
              var texts := CollectTextParts(items);
              if texts != [] {
                response := Join("\n", texts);
              } else {
                response := raw;
              }
            case Ok(LitOther) => response := raw;
            case Fail => response := raw;
          }
        } else {
          response := raw;
        }
    }
    assert ReplyFlattener(literalEval)(content) == Flattened(content, literalEval);
  }

  /** The reply scan over `reversed(all_messages)`. */
  method ExtractResponse(ms: seq<Message>, literalEval: string -> Outcome<Literal>) returns (response: string)
    ensures response == ResponseText(ms, literalEval)
  {
    response := "";
    var i := |ms|;
    while i > 0
      invariant 0 <= i <= |ms|
      invariant ResponseFrom(ms, i, response, ReplyFlattener(literalEval)) == ResponseText(ms, literalEval)
    {
      var msg := ms[i - 1];
      ScanAdvance(ms, i, response, ReplyFlattener(literalEval));
      if msg.Assistant? && ContentTruthy(msg.content) {
        response := FlattenContent(msg.content, response, literalEval);
        if Strip(response) != [] {
          break;
        }
      }
      i := i - 1;
    }
  }

  /** One message of the reply scan: an answer whose contribution is not blank ends it, any
      other message hands the scan on to the older ones. */
  lemma ScanAdvance(ms: seq<Message>, i: nat, cur: string, flatten: Content -> Option<string>)
    requires 0 < i <= |ms|
    ensures !IsAnswer(ms[i - 1]) ==> ResponseFrom(ms, i, cur, flatten) == ResponseFrom(ms, i - 1, cur, flatten)
    ensures IsAnswer(ms[i - 1]) ==>
              var next := Contribution(ms[i - 1].content, cur, flatten);
              ResponseFrom(ms, i, cur, flatten) == if !Blank(next) then next else ResponseFrom(ms, i - 1, next, flatten)
  {
  }

  /** `r` is what one of the answers in `ms[..i]` flattens to. */
  predicate AnswerYields(ms: seq<Message>, i: nat, r: string, flatten: Content -> Option<string>)
    requires i <= |ms|
  {
    exists k | 0 <= k < i :: IsAnswer(ms[k]) && flatten(ms[k].content) == Some(r)
  }

  lemma AnswerYieldsWider(ms: seq<Message>, i: nat, r: string, flatten: Content -> Option<string>)
    requires i < |ms| && AnswerYields(ms, i, r, flatten)
    ensures AnswerYields(ms, i + 1, r, flatten)
  {
    var k :| 0 <= k < i && IsAnswer(ms[k]) && flatten(ms[k].content) == Some(r);
    assert 0 <= k < i + 1;
  }

  /** The reply scan ends with its starting value or with what one of the scanned answers
      flattens to: the reply text never comes from anywhere else. */
  lemma {:induction false} ReplyComesFromAnswer(ms: seq<Message>, i: nat, cur: string,
                                                flatten: Content -> Option<string>)
    requires i <= |ms|
    ensures var r := ResponseFrom(ms, i, cur, flatten);
            r == cur || AnswerYields(ms, i, r, flatten)
    decreases i
  {
    if i > 0 {
      var next := if IsAnswer(ms[i - 1]) then Contribution(ms[i - 1].content, cur, flatten) else cur;
      ReplyComesFromAnswer(ms, i - 1, next, flatten);
      ReplyStep(ms, i, cur, next, flatten);
    }
  }

  /** One step of the scan: what the newest message contributes, then the older ones. */
  lemma ReplyStep(ms: seq<Message>, i: nat, cur: string, next: string, flatten: Content -> Option<string>)
    requires 0 < i <= |ms|
    requires next == if IsAnswer(ms[i - 1]) then Contribution(ms[i - 1].content, cur, flatten) else cur
    requires var older := ResponseFrom(ms, i - 1, next, flatten);
             older == next || AnswerYields(ms, i - 1, older, flatten)
    ensures var r := ResponseFrom(ms, i, cur, flatten);
            r == cur || AnswerYields(ms, i, r, flatten)
  {
    var r := ResponseFrom(ms, i, cur, flatten);
    assert r == next || r == ResponseFrom(ms, i - 1, next, flatten);
    if IsAnswer(ms[i - 1]) && next != cur {
      assert flatten(ms[i - 1].content) == Some(next);
      assert AnswerYields(ms, i, next, flatten);
    }
    if r != next {
      AnswerYieldsWider(ms, i - 1, r, flatten);
    }
  }

  /** With no assistant message carrying content, the reply is empty. */
  lemma {:induction false} NoAnswerMeansEmptyReply(ms: seq<Message>, i: nat, cur: string, flatten: Content -> Option<string>)
    requires i <= |ms|
    requires forall j | 0 <= j < i :: !IsAnswer(ms[j])
    ensures ResponseFrom(ms, i, cur, flatten) == cur
    decreases i
  {
    if i > 0 {
      NoAnswerMeansEmptyReply(ms, i - 1, cur, flatten);
    }
  }

  /** Content whose contribution is a text that is not blank: the scan stops there. */
  predicate Substantive(c: Content, flatten: Content -> Option<string>) {
    flatten(c).Some? && !Blank(flatten(c).value)
  }

  /** Content that is not substantive leaves a blank `response_content` blank. */
  lemma PassOver(c: Content, cur: string, flatten: Content -> Option<string>)
    requires Blank(cur) && !Substantive(c, flatten)
    ensures Blank(Contribution(c, cur, flatten))
  {
  }

  /** The scan steps over one message when the message leaves the reply blank. */
  lemma ScanStep(ms: seq<Message>, i: nat, cur: string, flatten: Content -> Option<string>)
    requires 0 < i <= |ms| && Blank(cur)
    requires IsAnswer(ms[i - 1]) ==> !Substantive(ms[i - 1].content, flatten)
    ensures var next := if IsAnswer(ms[i - 1]) then Contribution(ms[i - 1].content, cur, flatten) else cur;
            Blank(next) && ResponseFrom(ms, i, cur, flatten) == ResponseFrom(ms, i - 1, next, flatten)
  {
    if IsAnswer(ms[i - 1]) {
      PassOver(ms[i - 1].content, cur, flatten);
    }
  }

  /** The reply is what the newest answer with a non-blank reading flattens to: newer answers
      that flatten to blanks or to nothing are passed over. */
  lemma {:induction false} NewestNonBlankAnswerWins(ms: seq<Message>, i: nat, cur: string, k: nat,
                                                   flatten: Content -> Option<string>)
    requires k < i <= |ms|
    requires Blank(cur)
    requires IsAnswer(ms[k]) && Substantive(ms[k].content, flatten)
    requires forall j | k < j < i :: IsAnswer(ms[j]) ==> !Substantive(ms[j].content, flatten)
    ensures ResponseFrom(ms, i, cur, flatten) == flatten(ms[k].content).value
    decreases i
  {
    if i - 1 > k {
      ScanStep(ms, i, cur, flatten);
      var next := if IsAnswer(ms[i - 1]) then Contribution(ms[i - 1].content, cur, flatten) else cur;
      NewestNonBlankAnswerWins(ms, i - 1, next, k, flatten);
    }
  }

  // ------------------------------------------------------------------ reference tag

  const TagOpen := "[[ID:"
  const TagClose := "]]"

  /** Whether `[[ID:` starts at position `p` of `s`. */
  predicate OpensTag(s: string, p: nat) {
    p + |TagOpen| <= |s| && s[p..p + |TagOpen|] == TagOpen
  }

  /** Whether a non-empty run of digits followed by `]]` starts at position `p` of `s`. */
  predicate DigitsThenClose(s: string, p: nat)
    requires p <= |s|
  {
    var n := DigitRun(s[p..]);
    n > 0 && StartsWith(s[p + n..], TagClose)
  }

  /** Whether `\[\[ID:(\d+)\]\]` matches at position `p` of `s` (the greedy digit run cannot
      back off, as a shorter run is followed by a digit rather than `]`). */
  predicate TagAt(s: string, p: nat) {
    OpensTag(s, p) && DigitsThenClose(s, p + |TagOpen|)
  }

  /** `re.search` from position `p`: the leftmost match at or after `p`. */
  function TagFrom(s: string, p: nat): (q: Option<nat>)
    ensures q.Some? ==> p <= q.value < |s| && TagAt(s, q.value) && forall r | p <= r < q.value :: !TagAt(s, r)
    ensures q.None? ==> forall r | p <= r < |s| :: !TagAt(s, r)
  {
    var found := Leftmost(TagMatcher(s), p, |s|);
    assert forall r: nat :: TagMatcher(s)(r) == TagAt(s, r);
    found
  }

  /** The regular expression `\[\[ID:(\d+)\]\]` as a test on positions of `s`. */
  function TagMatcher(s: string): nat -> bool {
    (r: nat) => TagAt(s, r)
  }

  /** The reply with its reference resolved, and the id it named. */
  datatype Tagged = Tagged(response: string, selected: Option<nat>)

  /** The tag a reply cites for id `n`. */
  function TagText(n: nat): (t: string)
    ensures StartsWith(t, TagOpen)
  {
    TagOpen + DecimalString(n) + TagClose
  }

  /** `match.group(1)`: the digits of the tag at `q`. */
  function TagDigits(s: string, q: nat): (d: string)
    requires TagAt(s, q)
    ensures d != [] && forall i | 0 <= i < |d| :: IsAsciiDigit(d[i])
  {
    s[q + |TagOpen|..q + |TagOpen| + DigitRun(s[q + |TagOpen|..])]
  }

  /** `match.group(0)`: the whole tag at `q`. */
  function TagMatch(s: string, q: nat): (t: string)
    requires TagAt(s, q)
    ensures StartsWith(t, TagOpen)
  {
    s[q..q + |TagOpen| + |TagDigits(s, q)| + |TagClose|]
  }

  /** Step A of the reference pattern: the first tag sets `selected_id`, and every copy of the
      matched text is cut out of the reply, which is then stripped. */
  function ResolveTag(s: string): (t: Tagged)
    ensures TagFrom(s, 0).None? ==> t == Tagged(s, None)
    ensures TagFrom(s, 0).Some? ==>
              var q := TagFrom(s, 0).value;
              t.selected == Some(DecimalValue(TagDigits(s, q)))
              && t.response == Strip(RemoveAll(s, TagMatch(s, q)))
              && |t.response| <= |s|
  {
    match TagFrom(s, 0)
    case None => Tagged(s, None)
    case Some(q) =>
      Tagged(Strip(RemoveAll(s, TagMatch(s, q))), Some(DecimalValue(TagDigits(s, q))))
  }

  lemma {:induction false} DigitRunOfDigits(d: string, rest: string)
    requires forall i | 0 <= i < |d| :: IsAsciiDigit(d[i])
    requires rest == [] || !IsAsciiDigit(rest[0])
    ensures DigitRun(d + rest) == |d|
    decreases |d|
  {
    if d == [] {
      assert d + rest == rest;
    } else {
      assert (d + rest)[1..] == d[1..] + rest;
      DigitRunOfDigits(d[1..], rest);
    }
  }

  /** No tag opens at a character other than '['. */
  lemma NoOpenWithout(s: string, r: nat)
    requires r < |s| && s[r] != '['
    ensures !OpensTag(s, r)
  {
    if r + |TagOpen| <= |s| {
      assert s[r..r + |TagOpen|][0] == s[r];
    }
  }

  /** The search from `from` finds a tag at `p` when none starts between them. */
  lemma TagFromFinds(s: string, from: nat, p: nat)
    requires from <= p < |s| && TagAt(s, p)
    requires forall r | from <= r < p :: !OpensTag(s, r)
    ensures TagFrom(s, from) == Some(p)
  {
    var q := TagFrom(s, from);
    assert q.Some? && q.value <= p;
    assert OpensTag(s, q.value);
  }

  lemma FirstTagAt(s: string, p: nat)
    requires p < |s| && TagAt(s, p)
    requires forall r | 0 <= r < p :: s[r] != '['
    ensures TagFrom(s, 0) == Some(p)
  {
    forall r | 0 <= r < p
      ensures !OpensTag(s, r)
    {
      NoOpenWithout(s, r);
    }
    TagFromFinds(s, 0, p);
  }

  /** Where a tag built from the digits `d` sits in the text around it. */
  lemma TagInside(pre: string, d: string, post: string)
    requires d != [] && forall i | 0 <= i < |d| :: IsAsciiDigit(d[i])
    ensures var s := pre + (TagOpen + d + TagClose) + post;
            TagAt(s, |pre|)
            && TagDigits(s, |pre|) == d
            && TagMatch(s, |pre|) == TagOpen + d + TagClose
  {
    var t := TagOpen + d + TagClose;
    var s := pre + t + post;
    var p := |pre|;
    assert s[p..p + |t|] == t;
    assert s[p..p + |TagOpen|] == TagOpen;
    assert s[p + |TagOpen|..] == d + (TagClose + post);
    DigitRunOfDigits(d, TagClose + post);
    assert s[p + |TagOpen|..][|d|..] == TagClose + post;
  }

  /** A reply citing `[[ID:n]]`, with no tag before it, resolves to id `n`; the text before the
      tag is kept and the tag and every later copy of it are cut out. */
  lemma TagRoundTrip(pre: string, n: nat, post: string)
    requires forall r | 0 <= r < |pre| :: !TagAt(pre + TagText(n) + post, r)
    ensures ResolveTag(pre + TagText(n) + post) == Tagged(Strip(pre + RemoveAll(post, TagText(n))), Some(n))
  {
    DecimalRoundTrip(n);
    assert TagText(n) == TagOpen + DecimalString(n) + TagClose;
    FirstTagResolved(pre, DecimalString(n), post);
  }

  /** The first tag of a reply, built from the digits `d`, is the one resolved. */
  lemma FirstTagResolved(pre: string, d: string, post: string)
    requires d != [] && forall i | 0 <= i < |d| :: IsAsciiDigit(d[i])
    requires forall r | 0 <= r < |pre| :: !TagAt(pre + (TagOpen + d + TagClose) + post, r)
    ensures var t := TagOpen + d + TagClose;
            ResolveTag(pre + t + post) == Tagged(Strip(pre + RemoveAll(post, t)), Some(DecimalValue(d)))
  {
    FirstTagFound(pre, d, post);
    TagInside(pre, d, post);
    TagCopiesAfter(pre, d, post);
  }

  /** With no tag before it, the tag is the leftmost match. */
  lemma FirstTagFound(pre: string, d: string, post: string)
    requires d != [] && forall i | 0 <= i < |d| :: IsAsciiDigit(d[i])
    requires forall r | 0 <= r < |pre| :: !TagAt(pre + (TagOpen + d + TagClose) + post, r)
    ensures TagFrom(pre + (TagOpen + d + TagClose) + post, 0) == Some(|pre|)
  {
    var s := pre + (TagOpen + d + TagClose) + post;
    TagInside(pre, d, post);
    var q := TagFrom(s, 0);
    assert q.Some? && q.value <= |pre|;
  }

  /** With no tag before it, removing the tag keeps the text before it. */
  lemma TagCopiesAfter(pre: string, d: string, post: string)
    requires d != [] && forall i | 0 <= i < |d| :: IsAsciiDigit(d[i])
    requires forall r | 0 <= r < |pre| :: !TagAt(pre + (TagOpen + d + TagClose) + post, r)
    ensures var t := TagOpen + d + TagClose;
            RemoveAll(pre + t + post, t) == pre + RemoveAll(post, t)
  {
    var t := TagOpen + d + TagClose;
    var s := pre + t + post;
    forall r | 0 <= r < |pre|
      ensures !OccursAt(s, t, r)
    {
      OccurrenceIsTag(s, d, r);
    }
    RemoveAllAtFirst(pre, t, post);
  }

  /** Every occurrence of a written tag is a match of the pattern. */
  lemma OccurrenceIsTag(s: string, d: string, r: nat)
    requires d != [] && forall i | 0 <= i < |d| :: IsAsciiDigit(d[i])
    ensures OccursAt(s, TagOpen + d + TagClose, r) ==> TagAt(s, r)
  {
    var t := TagOpen + d + TagClose;
    if OccursAt(s, t, r) {
      assert s == s[..r] + t + s[r + |t|..];
      TagInside(s[..r], d, s[r + |t|..]);
    }
  }

  // ------------------------------------------------------------------ media

  /** `extracted_media`. */
  datatype Media = Media(image: Json, video: Json)

  const NoMedia := Media(JNull, JNull)

  /** `item.get("metadata", {})` then `.get("image")` and `.get("video")`; None when the metadata
      value is not a dict, where the `.get` raises and the endpoint answers with an error. */
  function MediaOf(item: map<string, Json>): (m: Option<Media>)
    ensures "metadata" !in item ==> m == Some(NoMedia)
    ensures m.None? <==> "metadata" in item && !item["metadata"].JObj?
    ensures m.Some? && "metadata" in item ==>
              m.value == Media(Get(item["metadata"].fields, "image"), Get(item["metadata"].fields, "video"))
  {
    var md := GetOr(item, "metadata", JObj(map[]));
    if md.JObj? then Some(Media(Get(md.fields, "image"), Get(md.fields, "video"))) else None
  }

  /** A result item whose "id" equals `id` (with Python's `True == 1`). */
  predicate CarriesId(item: Json, id: nat) {
    item.JObj? && EqualsInt(Get(item.fields, "id"), id)
  }

  /** Position of the first result item carrying `id`. */
  function FirstWithId(items: seq<Json>, id: nat): (k: Option<nat>)
    ensures k.Some? ==> k.value < |items| && CarriesId(items[k.value], id)
                        && forall j | 0 <= j < k.value :: !CarriesId(items[j], id)
    ensures k.None? ==> forall j | 0 <= j < |items| :: !CarriesId(items[j], id)
  {
    if items == [] then None
    else if CarriesId(items[0], id) then Some(0)
    else match FirstWithId(items[1..], id)
      case Some(k) =>
        assert forall j | 1 <= j < k + 1 :: items[j] == items[1..][j - 1];
        Some(k + 1)
      case None =>
        assert forall j | 1 <= j < |items| :: items[j] == items[1..][j - 1];
        None
  }

  /** Whether `rag_tool_output` is a non-empty list (truthy and a list). */
  predicate IsResultList(rag: Json) {
    rag.JArr? && rag.items != []
  }

  /** Step B: the media of the item the reply cited, or none. */
  function ReferencedMedia(rag: Json, selected: Option<nat>): (m: Option<Media>)
    ensures selected.None? || !IsResultList(rag) ==> m == Some(NoMedia)
  {
    if selected.Some? && IsResultList(rag) then
      match FirstWithId(rag.items, selected.value)
      case Some(k) => MediaOf(rag.items[k].fields)
      case None => Some(NoMedia)
    else Some(NoMedia)
  }

  /** Steps B and C: the cited item's media, replaced by the first item's media when both fields
      are still None; None when a metadata lookup raises. */
  function ChosenMedia(rag: Json, selected: Option<nat>): (m: Option<Media>)
    ensures !IsResultList(rag) ==> m == Some(NoMedia)
    ensures ReferencedMedia(rag, selected).Some? && ReferencedMedia(rag, selected) != Some(NoMedia)
            ==> m == ReferencedMedia(rag, selected)
    ensures ReferencedMedia(rag, selected) == Some(NoMedia) && IsResultList(rag) && rag.items[0].JObj?
            ==> m == MediaOf(rag.items[0].fields)
  {
    match ReferencedMedia(rag, selected)
    case None => None
    case Some(found) =>
      if found.image == JNull && found.video == JNull && IsResultList(rag) && rag.items[0].JObj? then
        MediaOf(rag.items[0].fields)
      else Some(found)
  }

  /** Steps B and C as the endpoint runs them, updating `extracted_media` in place. */
  method LookUpMedia(rag: Json, selected: Option<nat>) returns (media: Option<Media>)
    ensures media == ChosenMedia(rag, selected)
  {
    var extracted := NoMedia;
    if selected.Some? && IsResultList(rag) {
      var i := 0;
      while i < |rag.items|
        invariant 0 <= i <= |rag.items|
        invariant forall j | 0 <= j < i :: !CarriesId(rag.items[j], selected.value)
      {
        var item := rag.items[i];
        if item.JObj? && EqualsInt(Get(item.fields, "id"), selected.value) {
          var mediaData := GetOr(item.fields, "metadata", JObj(map[]));
          if !mediaData.JObj? {
            return None;
          }
          extracted := Media(Get(mediaData.fields, "image"), Get(mediaData.fields, "video"));
          break;
        }
        i := i + 1;
      }
    }
    if extracted.image == JNull && extracted.video == JNull && IsResultList(rag) {
      var first := rag.items[0];
      if first.JObj? {
        var mediaData := GetOr(first.fields, "metadata", JObj(map[]));
        if !mediaData.JObj? {
          return None;
        }
        extracted := Media(Get(mediaData.fields, "image"), Get(mediaData.fields, "video"));
      }
    }
    return Some(extracted);
  }

  /** In items numbered 1, 2, … by position, id `k` is found at position `k - 1`. */
  lemma RankedIdFound(items: seq<Json>, k: nat)
    requires 1 <= k <= |items|
    requires forall i | 0 <= i < |items| :: items[i].JObj? && Get(items[i].fields, "id") == JNum(i + 1)
    ensures FirstWithId(items, k) == Some(k - 1)
  {
    assert CarriesId(items[k - 1], k);
    forall j | 0 <= j < k - 1
      ensures !CarriesId(items[j], k)
    {
    }
  }

  /** The media the endpoint reads from a search result item are the URLs `safe_get_url` found. */
  lemma ResultItemMedia(rank: nat, d: Doc)
    ensures MediaOf(ResultItem(rank, d).fields)
            == Some(Media(OptStr(SafeGetUrl(d.metadata, "Image")), OptStr(SafeGetUrl(d.metadata, "Video"))))
  {
  }

  /** Search results numbered by rank: the id `k` cited in the reply picks the k-th document, and
      its media are the URLs `safe_get_url` read from that document. */
  lemma CitedIdPicksRankedDoc(docs: seq<Doc>, items: seq<Json>, k: nat)
    requires 1 <= k <= |docs| && NumberedResults(items, docs)
    ensures FirstWithId(items, k) == Some(k - 1)
    ensures ReferencedMedia(JArr(items), Some(k))
            == Some(Media(OptStr(SafeGetUrl(docs[k - 1].metadata, "Image")),
                          OptStr(SafeGetUrl(docs[k - 1].metadata, "Video"))))
  {
    forall i | 0 <= i < |items|
      ensures items[i].JObj? && Get(items[i].fields, "id") == JNum(i + 1)
    {
      ResultItemId(i, docs[i]);
    }
    RankedCitation(items, k);
    ResultItemMedia(k - 1, docs[k - 1]);
  }

  /** In items numbered 1, 2, … by position, citing `k` reads the media of item `k - 1`. */
  lemma RankedCitation(items: seq<Json>, k: nat)
    requires 1 <= k <= |items|
    requires forall i | 0 <= i < |items| :: items[i].JObj? && Get(items[i].fields, "id") == JNum(i + 1)
    ensures FirstWithId(items, k) == Some(k - 1)
    ensures ReferencedMedia(JArr(items), Some(k)) == MediaOf(items[k - 1].fields)
  {
    RankedIdFound(items, k);
  }

  lemma ResultItemId(rank: nat, d: Doc)
    ensures ResultItem(rank, d).JObj? && Get(ResultItem(rank, d).fields, "id") == JNum(rank + 1)
  {
  }

  // ------------------------------------------------------------------ the endpoint

  /** The endpoint's answer: the cleaned reply, the media and the practice action, or a server
      error when a metadata lookup raised. */
  datatype Reply = Reply(response: string, media: Media, action: Json) | ServerError

  /** The post-processing of `chat_endpoint`, as a function of the final history and the parsers. */
  function Endpoint(all: seq<Message>, parse: string -> Outcome<Json>,
                    literalEval: string -> Outcome<Literal>): (r: Reply)
    ensures r.Reply? ==> r.action == PracticeAction(TurnWindow(all), parse)
    ensures r.Reply? ==> r.response == ResolveTag(ResponseText(all, literalEval)).response
    ensures r.ServerError? ==> IsResultList(SearchOutput(TurnWindow(all), parse))
  {
    var w := TurnWindow(all);
    var tagged := ResolveTag(ResponseText(all, literalEval));
    match ChosenMedia(SearchOutput(w, parse), tagged.selected)
    case None => ServerError
    case Some(m) => Reply(tagged.response, m, PracticeAction(w, parse))
  }

  /** `chat_endpoint` after the agent has run. */
  method ChatEndpoint(all: seq<Message>, parse: string -> Outcome<Json>,
                      literalEval: string -> Outcome<Literal>)
    returns (r: Reply)
    ensures r == Endpoint(all, parse, literalEval)
  {
    var lastHumanIndex := FindLastUserIndex(all);
    var toScan: seq<Message>;
    if lastHumanIndex != -1 {
      toScan := all[lastHumanIndex..];
    } else {
      toScan := LastN(all, FallbackWindow);
    }
    var rag, action := ScanToolOutputs(toScan, parse);
    var response := ExtractResponse(all, literalEval);
    var tagged := ResolveTag(response);
    var media := LookUpMedia(rag, tagged.selected);
    match media {
      case None => return ServerError;
      case Some(m) => return Reply(tagged.response, m, action);
    }
  }

  /** A turn without a search message answers with no media at all. */
  lemma NoSearchNoMedia(all: seq<Message>, parse: string -> Outcome<Json>, literalEval: string -> Outcome<Literal>)
    requires forall j | 0 <= j < |TurnWindow(all)| :: !IsToolNamed(TurnWindow(all)[j], SearchToolName)
    ensures Endpoint(all, parse, literalEval).Reply?
    ensures Endpoint(all, parse, literalEval).media == NoMedia
  {
  }

  /** When the turn's search returned ranked documents and the reply cites `[[ID:k]]`, the
      answer carries the k-th document's media, provided it has any. */
  lemma CitedDocumentMediaReturned(all: seq<Message>, parse: string -> Outcome<Json>,
                                   literalEval: string -> Outcome<Literal>, docs: seq<Doc>, k: nat)
    requires 1 <= k <= |docs|
    requires SearchOutput(TurnWindow(all), parse).JArr?
    requires NumberedResults(SearchOutput(TurnWindow(all), parse).items, docs)
    requires ResolveTag(ResponseText(all, literalEval)).selected == Some(k)
    requires SafeGetUrl(docs[k - 1].metadata, "Image").Some? || SafeGetUrl(docs[k - 1].metadata, "Video").Some?
    ensures Endpoint(all, parse, literalEval)
            == Reply(ResolveTag(ResponseText(all, literalEval)).response,
                     Media(OptStr(SafeGetUrl(docs[k - 1].metadata, "Image")),
                           OptStr(SafeGetUrl(docs[k - 1].metadata, "Video"))),
                     PracticeAction(TurnWindow(all), parse))
  {
    CitedIdPicksRankedDoc(docs, SearchOutput(TurnWindow(all), parse).items, k);
  }
}
