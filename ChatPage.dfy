/** The chat page of the front end: the table of chat sessions kept across reruns, the active
    session, session titles, and what one prompt adds to the active session. */
module ChatPage {
  import opened Common
  import opened Json
  import opened Messages
  import opened ChatEndpoint

  const DefaultTitle := "Cuộc hội thoại mới"

  /** One line of a session's transcript: the user's prompt, or the assistant's text with the
      media the server sent. */
  datatype Entry = UserEntry(prompt: string) | BotEntry(text: Json, media: Json)

  datatype Session = Session(title: string, messages: seq<Entry>)

  const NewSession := Session(DefaultTitle, [])

  // ------------------------------------------------------------------ titles

  const DisplayLimit: nat := 35
  const DisplayKeep: nat := 32
  const Ellipsis := "..."

  /** The sidebar label of a title: short titles as they are, long ones cut to 32 characters
      followed by an ellipsis. */
  function DisplayTitle(title: string): (shown: string)
    ensures |shown| <= DisplayLimit
    ensures |title| < DisplayLimit ==> shown == title
    ensures |title| >= DisplayLimit ==>
              |shown| == DisplayLimit && StartsWith(shown, title[..DisplayKeep]) && EndsWith(shown, Ellipsis)
  {
    if |title| < DisplayLimit then title else title[..DisplayKeep] + Ellipsis
  }

  /** A label is its own label: cutting a cut title changes nothing. */
  lemma DisplayTitleIdempotent(title: string)
    ensures DisplayTitle(DisplayTitle(title)) == DisplayTitle(title)
  {
    if |title| >= DisplayLimit {
      var shown := DisplayTitle(title);
      assert shown[..DisplayKeep] == title[..DisplayKeep];
    }
  }

  const TitleWords: nat := 5
  const LongPrompt: nat := 25

  /** The first five words of the prompt joined by single spaces. */
  function TitleBase(prompt: string): string {
    Join(" ", FirstN(Words(prompt), TitleWords))
  }

  /** The title a first prompt gives its session: its first five words, an ellipsis when the
      prompt is longer than 25 characters, then `str.capitalize`. */
  function DerivedTitle(prompt: string): (title: string)
    ensures |title| == |TitleBase(prompt)| + (if |prompt| > LongPrompt then 3 else 0)
  {
    Capitalize(TitleBase(prompt) + (if |prompt| > LongPrompt then Ellipsis else ""))
  }

  /** The words kept in a title are the prompt's first five words, in order. */
  lemma TitleKeepsFirstWords(prompt: string)
    ensures Words(TitleBase(prompt)) == FirstN(Words(prompt), TitleWords)
    ensures |Words(TitleBase(prompt))| <= TitleWords
  {
    var ws := FirstN(Words(prompt), TitleWords);
    assert forall k | 0 <= k < |ws| :: IsWord(ws[k]) by {
      forall k | 0 <= k < |ws| ensures IsWord(ws[k]) {
        assert ws[k] == Words(prompt)[k];
      }
    }
    WordsOfJoin(ws);
  }

  /** A prompt longer than 25 characters gives a title that ends in an ellipsis. */
  lemma LongPromptTitleEllipsis(prompt: string)
    requires |prompt| > LongPrompt
    ensures EndsWith(DerivedTitle(prompt), Ellipsis)
  {
    var s := TitleBase(prompt) + Ellipsis;
    var t := Capitalize(s);
    var n := |s|;
    forall k | n - 3 <= k < n ensures t[k] == '.' {
      assert s[k] == '.';
      if k > 0 {
        assert t[k] == t[1..][k - 1] == Lowered(s[1..])[k - 1];
      }
    }
    assert t[n - 3..] == Ellipsis;
  }

  // ------------------------------------------------------------------ the reply of the server

  const PracticePageName := "Recognition"

  /** The link added under an answer that starts a practice session. */
  const PracticeLink := "\n\n\U{1F449} [Mở Camera Luyện tập](/" + PracticePageName + ")"

  /** What one server answer does to the page: the assistant entries it appends (none or one),
      and the new `sign_to_practice` when it changes. */
  datatype Turn = Turn(entries: seq<Entry>, sign: Option<Json>)

  /** The practice action of a reply body: a dict whose "action" is "START_PRACTICE". */
  predicate StartsPractice(act: Json) {
    act.JObj? && Get(act.fields, "action") == JStr(StartPractice)
  }

  /** The `try` block after the request. `reply` is Fail when the request raised or the status
      was not 200; `.get` on a body, an action or a truthy media value that is not a dict raises,
      and so does adding the link to a response that is not a string; every raise leaves only the
      user's entry, keeping a practice sign already set. */
  function BotTurn(reply: Outcome<Json>): (t: Turn)
    ensures |t.entries| <= 1
    ensures t.entries != [] || t.sign.Some? ==> reply.Ok? && reply.value.JObj?
    ensures t.sign.Some? <==>
              reply.Ok? && reply.value.JObj? && StartsPractice(Get(reply.value.fields, "action"))
    ensures t.sign.Some? ==> t.sign.value == Get(Get(reply.value.fields, "action").fields, "sign")
    ensures t.entries != [] <==>
              reply.Ok? && reply.value.JObj?
              && var d := reply.value.fields;
                 var act := Get(d, "action");
                 var med := GetOr(d, "media", JObj(map[]));
                 !(Truthy(act) && !act.JObj?)
                 && !(StartsPractice(act) && !GetOr(d, "response", JStr("")).JStr?)
                 && !(Truthy(med) && !med.JObj?)
    ensures t.entries != [] ==>
              t.entries[0].BotEntry? && t.entries[0].media == GetOr(reply.value.fields, "media", JObj(map[]))
    ensures t.entries != [] && t.sign.None? ==>
              t.entries[0].text == GetOr(reply.value.fields, "response", JStr(""))
    ensures t.entries != [] && t.sign.Some? ==>
              t.entries[0].text == JStr(GetOr(reply.value.fields, "response", JStr("")).s + PracticeLink)
              && EndsWith(t.entries[0].text.s, PracticeLink)
  {
    match reply
    case Fail => Turn([], None)
    case Ok(d) =>
      if !d.JObj? then Turn([], None)
      else
        var txt := GetOr(d.fields, "response", JStr(""));
        var med := GetOr(d.fields, "media", JObj(map[]));
        var act := Get(d.fields, "action");
        var mediaRaises := Truthy(med) && !med.JObj?;
        if Truthy(act) && !act.JObj? then Turn([], None)
        else if StartsPractice(act) then
          var sign := Get(act.fields, "sign");
          if !txt.JStr? || mediaRaises then Turn([], Some(sign))
          else
            var s := txt.s + PracticeLink;
            assert s[|s| - |PracticeLink|..] == PracticeLink;
            Turn([BotEntry(JStr(s), med)], Some(sign))
        else if mediaRaises then Turn([], None)
        else Turn([BotEntry(txt, med)], None)
  }

  /** The JSON body the chat endpoint sends for a reply. */
  function ReplyBody(r: Reply): (body: Json)
    requires r.Reply?
    ensures body.JObj? && Get(body.fields, "response") == JStr(r.response)
  {
    JObj(map["response" := JStr(r.response),
             "media" := JObj(map["image" := r.media.image, "video" := r.media.video]),
             "action" := r.action])
  }

  /** Every answer of the chat endpoint is shown: the page appends one assistant entry holding the
      response (with the practice link exactly when the endpoint sent a practice action) and the
      endpoint's media. */
  lemma EndpointReplyShown(all: seq<Message>, parse: string -> Outcome<Json>,
                           literalEval: string -> Outcome<Literal>)
    requires Endpoint(all, parse, literalEval).Reply?
    ensures var r := Endpoint(all, parse, literalEval);
            var t := BotTurn(Ok(ReplyBody(r)));
            |t.entries| == 1
            && t.entries[0].media == JObj(map["image" := r.media.image, "video" := r.media.video])
            && (t.sign.Some? <==> r.action != JNull)
            && (r.action == JNull ==> t.entries[0].text == JStr(r.response))
            && (r.action != JNull ==> t.entries[0].text == JStr(r.response + PracticeLink))
  {
    var r := Endpoint(all, parse, literalEval);
    var body := ReplyBody(r);
    assert Get(body.fields, "action") == r.action;
    assert GetOr(body.fields, "response", JStr("")) == JStr(r.response);
    assert GetOr(body.fields, "media", JObj(map[])) == JObj(map["image" := r.media.image, "video" := r.media.video]);
  }

  // ------------------------------------------------------------------ the sidebar order

  /** `xs[::-1]` */
  function Reversed<T>(xs: seq<T>): (r: seq<T>)
    ensures |r| == |xs|
    ensures forall i | 0 <= i < |xs| :: r[i] == xs[|xs| - 1 - i]
  {
    if xs == [] then [] else Reversed(xs[1..]) + [xs[0]]
  }

  /** Reversing the sidebar order again gives back the insertion order. */
  lemma ReversedTwice<T>(xs: seq<T>)
    ensures Reversed(Reversed(xs)) == xs
  {
  }

  /** `del sessions[id]` on the key list: every other key, in its order. */
  function Without(order: seq<string>, id: string): (r: seq<string>)
    ensures forall x {:trigger x in r} :: x in r <==> x in order && x != id
  {
    if order == [] then []
    else if order[0] == id then Without(order[1..], id)
    else [order[0]] + Without(order[1..], id)
  }

  /** Removing a key from a list without repeats leaves a list without repeats. */
  lemma {:induction false} WithoutDistinct(order: seq<string>, id: string)
    requires Distinct(order)
    ensures Distinct(Without(order, id))
    decreases |order|
  {
    if order != [] {
      var rest := Without(order[1..], id);
      WithoutDistinct(order[1..], id);
      if order[0] != id {
        assert order[0] !in order[1..];
        assert order[0] !in rest;
        var r := [order[0]] + rest;
        forall i, j | 0 <= i < j < |r| ensures r[i] != r[j] {
          if i == 0 {
            assert r[j] == rest[j - 1];
          } else {
            assert r[i] == rest[i - 1] && r[j] == rest[j - 1];
          }
        }
      }
    }
  }

  // ------------------------------------------------------------------ the session table

  /** A key list in insertion order that lists every key of the table exactly once. */
  predicate Agree(order: seq<string>, sessions: map<string, Session>) {
    Distinct(order)
    && (forall i | 0 <= i < |order| :: order[i] in sessions)
    && (forall k | k in sessions :: k in order)
  }

  /** Deleting a key from both keeps them in agreement, and leaves the list empty exactly when
      the deleted key was the only one. */
  lemma DeletionKeepsAgreement(order: seq<string>, sessions: map<string, Session>, id: string)
    requires Agree(order, sessions)
    ensures Agree(Without(order, id), sessions - {id})
    ensures Without(order, id) == [] <==> sessions.Keys <= {id}
  {
    var rest := Without(order, id);
    WithoutDistinct(order, id);
    forall i | 0 <= i < |rest| ensures rest[i] in sessions - {id} {
      assert rest[i] in rest;
    }
    if rest != [] {
      assert rest[0] in order && rest[0] != id;
    }
    if !(sessions.Keys <= {id}) {
      var k :| k in sessions && k != id;
      assert k in rest;
    }
  }

  /** The key list, the table and the active id, as one value. */
  datatype Deletion = Deletion(order: seq<string>, sessions: map<string, Session>, active: string)

  /** The state after "Delete this chat" removes `current`: the oldest remaining session becomes
      active, or a fresh default session when none remains. */
  function AfterDeletion(order: seq<string>, sessions: map<string, Session>, current: string, newId: string): Deletion {
    var table := if current in sessions then sessions - {current} else sessions;
    var remaining := Without(order, current);
    if remaining == [] then Deletion([newId], map[newId := NewSession], newId)
    else Deletion(remaining, table, remaining[0])
  }

  /** Deleting the active session removes exactly that session and keeps the order of the others;
      the oldest remaining one becomes active, and only when no other session exists is a fresh
      default one created. The table and key list stay in agreement and the active id stays
      known. */
  lemma DeletionOutcome(order: seq<string>, sessions: map<string, Session>, current: string, newId: string)
    requires Agree(order, sessions)
    ensures var d := AfterDeletion(order, sessions, current, newId);
            (sessions.Keys <= {current} ==> d == Deletion([newId], map[newId := NewSession], newId))
            && (!(sessions.Keys <= {current}) ==>
                  d.sessions == sessions - {current} && d.order == Without(order, current) && d.active == d.order[0])
            && d.order != [] && Agree(d.order, d.sessions) && d.active in d.sessions
  {
    DeletionKeepsAgreement(order, sessions, current);
    var remaining := Without(order, current);
    if remaining == [] {
      FreshTableAgrees(newId);
    } else {
      assert current !in sessions ==> sessions == sessions - {current};
      assert remaining[0] in sessions - {current};
    }
  }

  /** A table holding one fresh session agrees with the key list naming it. */
  lemma FreshTableAgrees(id: string)
    ensures Agree([id], map[id := NewSession])
  {
  }

  /** `st.session_state` as the chat page uses it. `order` lists the keys of `chat_sessions` in
      insertion order. */
  class ChatState {
    var order: seq<string>
    var sessions: map<string, Session>
    var active: string
    var signToPractice: Json

    /** The key list and the table agree and the table is never empty. */
    predicate Valid()
      reads this
    {
      order != [] && Agree(order, sessions)
    }

    /** The active id names a session. */
    predicate ActiveKnown()
      reads this
    {
      active in sessions
    }

    /** The session ids as the sidebar lists them, newest first. */
    function Sidebar(): (ids: seq<string>)
      reads this
      ensures |ids| == |order|
      ensures order != [] ==> ids[0] == order[|order| - 1]
    {
      Reversed(order)
    }

    /** The first run of the page: one empty session with the default title, and it is active. */
    constructor (newId: string)
      ensures order == [newId] && sessions == map[newId := NewSession] && active == newId
      ensures signToPractice == JNull
      ensures Valid() && ActiveKnown()
    {
      order := [newId];
      sessions := map[newId := NewSession];
      active := newId;
      signToPractice := JNull;
    }

    /** "New chat": a fresh default session becomes active; every other session is untouched. */
    method NewChat(newId: string)
      requires Valid()
      modifies this
      ensures sessions == old(sessions)[newId := NewSession]
      ensures order == if newId in old(sessions) then old(order) else old(order) + [newId]
      ensures active == newId && signToPractice == old(signToPractice)
      ensures Valid() && ActiveKnown()
      ensures newId !in old(sessions) ==> Sidebar()[0] == newId
    {
      if newId !in sessions {
        order := order + [newId];
      }
      sessions := sessions[newId := NewSession];
      active := newId;
    }

    /** A click on a session in the sidebar. */
    method SelectSession(id: string)
      requires Valid() && id in sessions
      modifies this
      ensures active == id
      ensures order == old(order) && sessions == old(sessions) && signToPractice == old(signToPractice)
      ensures Valid() && ActiveKnown()
    {
      active := id;
    }

    /** "Delete this chat" on the active session. */
    method DeleteActive(newId: string)
      requires Valid()
      modifies this
      ensures Deletion(order, sessions, active) == AfterDeletion(old(order), old(sessions), old(active), newId)
      ensures signToPractice == old(signToPractice)
      ensures Valid() && ActiveKnown()
    {
      var current := active;
      DeletionOutcome(order, sessions, current, newId);
      var table := sessions;
      if current in table {
        table := table - {current};
      }
      var remaining := Without(order, current);
      var next := if remaining == [] then Deletion([newId], map[newId := NewSession], newId)
                  else Deletion(remaining, table, remaining[0]);
      order, sessions, active := next.order, next.sessions, next.active;
    }

    /** The guard before the main area: an active id that names no session is reset to the
        oldest session. */
    method EnsureActive()
      requires Valid()
      modifies this
      ensures order == old(order) && sessions == old(sessions) && signToPractice == old(signToPractice)
      ensures old(active) in old(sessions) ==> active == old(active)
      ensures old(active) !in old(sessions) ==> active == order[0]
      ensures Valid() && ActiveKnown()
    {
      if active !in sessions {
        active := order[0];
      }
    }

    /** A prompt typed into the active session: the title is derived from it while the session
        still has the default title; the prompt is appended, then the assistant entry of a usable
        answer. */
    method SendPrompt(prompt: string, reply: Outcome<Json>)
      requires Valid() && ActiveKnown()
      modifies this
      ensures order == old(order) && active == old(active)
      ensures var s := old(sessions)[old(active)];
              sessions == old(sessions)[active := Session(
                if s.title == DefaultTitle then DerivedTitle(prompt) else s.title,
                s.messages + [UserEntry(prompt)] + BotTurn(reply).entries)]
      ensures signToPractice == BotTurn(reply).sign.GetOr(old(signToPractice))
      ensures Valid() && ActiveKnown()
    {
      var session := sessions[active];
      if session.title == DefaultTitle {
        session := session.(title := DerivedTitle(prompt));
      }
      session := session.(messages := session.messages + [UserEntry(prompt)]);
      var turn := BotTurn(reply);
      if turn.sign.Some? {
        signToPractice := turn.sign.value;
      }
      session := session.(messages := session.messages + turn.entries);
      sessions := sessions[active := session];
    }
  }
}
