/** The chat history the agent graph keeps: user, assistant, tool and system messages. */
module Messages {
  import opened Common

  /** One entry of an assistant message's `tool_calls`; only the tool's name is read. */
  datatype ToolCall = ToolCall(name: string)

  /** One element of list-shaped model content: a dict with a string "text" field, a bare string,
      or anything else. */
  datatype Part = TextItem(text: string) | StrItem(s: string) | OtherItem

  /** Assistant content: a string, or a list of parts together with the text Python prints for
      that list (`str(content)`). */
  datatype Content = Text(s: string) | Parts(items: seq<Part>, repr: string)

  /** A message of the history; `id` is None until the checkpointer assigns one. */
  datatype Message =
    | User(id: Option<string>, text: string)
    | Assistant(id: Option<string>, content: Content, toolCalls: seq<ToolCall>)
    | Tool(id: Option<string>, name: string, payload: string)
    | System(id: Option<string>, text: string)

  /** Python truthiness of `msg.content`. */
  predicate ContentTruthy(c: Content) {
    match c
    case Text(s) => s != ""
    case Parts(items, _) => items != []
  }

  /** `msg.content` as an f-string renders it. */
  function ContentString(c: Content): string {
    match c
    case Text(s) => s
    case Parts(_, repr) => repr
  }

  /** `msg.content` of any message, rendered as text. */
  function TextOf(m: Message): string {
    match m
    case User(_, t) => t
    case Assistant(_, c, _) => ContentString(c)
    case Tool(_, _, p) => p
    case System(_, t) => t
  }

  /** An assistant message with a non-empty `tool_calls`; other messages have none. */
  predicate CallsTools(m: Message) {
    m.Assistant? && m.toolCalls != []
  }

  /** `if m.id:` */
  predicate HasId(m: Message) {
    m.id.Some? && m.id.value != ""
  }

  /** `[m for m in ms if isinstance(m, HumanMessage)]` */
  function UserMessages(ms: seq<Message>): (us: seq<Message>)
    ensures |us| <= |ms|
    ensures forall i | 0 <= i < |us| :: us[i].User? && us[i] in ms
  {
    if ms == [] then []
    else
      var rest := UserMessages(ms[..|ms| - 1]);
      var last := ms[|ms| - 1];
      assert forall m | m in ms[..|ms| - 1] :: m in ms;
      if last.User? then rest + [last] else rest
  }

  /** The user messages of a concatenation are those of its two halves. */
  lemma {:induction false} UserMessagesAppend(a: seq<Message>, b: seq<Message>)
    ensures UserMessages(a + b) == UserMessages(a) + UserMessages(b)
    decreases |b|
  {
    if b == [] {
      assert a + b == a;
    } else {
      var b' := b[..|b| - 1];
      UserMessagesAppend(a, b');
      assert (a + b)[..|a + b| - 1] == a + b';
    }
  }

  /** Cutting a history anywhere cuts its user messages at the same place. */
  lemma UserMessagesSplit(ms: seq<Message>, c: nat)
    requires c <= |ms|
    ensures UserMessages(ms) == UserMessages(ms[..c]) + UserMessages(ms[c..])
  {
    assert ms == ms[..c] + ms[c..];
    UserMessagesAppend(ms[..c], ms[c..]);
  }

  /** A history whose message at `c` is a user message lists it first among the user messages
      from `c` on. */
  lemma UserMessagesFrom(ms: seq<Message>, c: nat)
    requires c < |ms| && ms[c].User?
    ensures UserMessages(ms[c..]) != [] && UserMessages(ms[c..])[0] == ms[c]
  {
    UserMessagesStartingWithUser(ms[c..]);
  }

  /** A sequence that starts with a user message lists it first among its user messages. */
  lemma UserMessagesStartingWithUser(ms: seq<Message>)
    requires ms != [] && ms[0].User?
    ensures UserMessages(ms) != [] && UserMessages(ms)[0] == ms[0]
  {
    assert ms == [ms[0]] + ms[1..];
    UserMessagesAppend([ms[0]], ms[1..]);
    assert [ms[0]][..0] == [];
  }

  /** A message the sequence does not hold is not among its user messages. */
  lemma {:induction false} UserMessagesOnlyFrom(ms: seq<Message>, m: Message)
    requires m !in ms
    ensures m !in UserMessages(ms)
  {
  }

  /** A message sequence without repeats has user messages without repeats. */
  lemma {:induction false} UserMessagesDistinct(ms: seq<Message>)
    requires Distinct(ms)
    ensures Distinct(UserMessages(ms))
    decreases |ms|
  {
    if ms != [] {
      var init := ms[..|ms| - 1];
      assert Distinct(init);
      UserMessagesDistinct(init);
      if ms[|ms| - 1].User? {
        assert ms[|ms| - 1] !in init;
        UserMessagesOnlyFrom(init, ms[|ms| - 1]);
      }
    }
  }

  predicate Distinct<T(==)>(xs: seq<T>) {
    forall i, j | 0 <= i < j < |xs| :: xs[i] != xs[j]
  }
}
