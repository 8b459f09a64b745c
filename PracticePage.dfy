/** The practice page of the front end: the current lesson and the flash-card index kept across
    reruns, and the handlers that move them. */
module PracticePage {
  import opened Common

  /** One entry of the learning schedule: its day number, title, goal and signs. */
  datatype Lesson = Lesson(day: nat, title: string, goal: Option<string>, signs: seq<string>)

  /** One entry of the sign dictionary file; each field may be missing. */
  datatype Term = Term(term: Option<string>, description: Option<string>, videos: Option<string>)

  // ------------------------------------------------------------------ pure helpers

  /** `index` made valid for a lesson of `total` cards: out-of-range values become 0. */
  function ClampedIndex(index: int, total: nat): (r: int)
    requires total > 0
    ensures 0 <= r < total
    ensures r == index <==> 0 <= index < total
    ensures r != index ==> r == 0
  {
    if index >= total then 0 else if index < 0 then 0 else index
  }

  /** Clamping a clamped index changes nothing. */
  lemma ClampIdempotent(index: int, total: nat)
    requires total > 0
    ensures ClampedIndex(ClampedIndex(index, total), total) == ClampedIndex(index, total)
  {
  }

  const StudyGoal := "Study new signs"
  const StudyLabel := "Học từ mới"
  const ReviewLabel := "Ôn tập"

  /** The goal shown for a lesson: "new signs" for the study goal, "review" for anything else,
      a missing goal included. */
  function GoalLabel(goal: Option<string>): (shown: string)
    ensures shown == StudyLabel <==> goal == Some(StudyGoal)
    ensures shown == ReviewLabel <==> goal != Some(StudyGoal)
  {
    if goal == Some(StudyGoal) then StudyLabel else ReviewLabel
  }

  /** The label of a lesson in the lesson picker. */
  function LessonOption(l: Lesson): string {
    "Ngày " + DecimalString(l.day) + ": " + l.title
  }

  /** The picker's options, one per lesson, in schedule order. */
  function LessonOptions(schedule: seq<Lesson>): (options: seq<string>)
    ensures |options| == |schedule|
    ensures forall i | 0 <= i < |schedule| :: options[i] == LessonOption(schedule[i])
  {
    seq(|schedule|, i requires 0 <= i < |schedule| => LessonOption(schedule[i]))
  }

  /** The position of the first term whose "term" equals `sign`, or `|terms|` when none does. */
  function FirstTermIndex(terms: seq<Term>, sign: string): (k: nat)
    ensures k <= |terms|
    ensures forall j | 0 <= j < k :: terms[j].term != Some(sign)
    ensures k < |terms| ==> terms[k].term == Some(sign)
  {
    if terms == [] then 0
    else if terms[0].term == Some(sign) then 0
    else 1 + FirstTermIndex(terms[1..], sign)
  }

  /** The detail record of a sign: `next(...)` over the terms, the first whose "term" equals it,
      or None. */
  function FindSignData(terms: seq<Term>, sign: string): (found: Option<Term>)
    ensures found.None? <==> forall k | 0 <= k < |terms| :: terms[k].term != Some(sign)
    ensures found.Some? ==>
              exists k | 0 <= k < |terms| :: terms[k] == found.value && forall j | 0 <= j < k :: terms[j].term != Some(sign)
    ensures found.Some? ==> found.value.term == Some(sign)
  {
    var k := FirstTermIndex(terms, sign);
    if k < |terms| then Some(terms[k]) else None
  }

  const NoDescription := "Chưa có mô tả."

  /** The description beside the card: the term's own, a placeholder when it has none, and
      "..." when the sign has no detail record. */
  function CardDescription(found: Option<Term>): (text: string)
    ensures found.None? ==> text == "..."
    ensures found.Some? ==> text == found.value.description.GetOr(NoDescription)
  {
    match found
    case None => "..."
    case Some(t) => t.description.GetOr(NoDescription)
  }

  // ------------------------------------------------------------------ session state

  /** `st.session_state` as the practice page uses it; None means the key is absent. */
  class PracticeState {
    var day: Option<int>
    var cardIndex: Option<int>

    /** A new browser session: neither key is set yet. */
    constructor ()
      ensures day == None && cardIndex == None
    {
      day := None;
      cardIndex := None;
    }

    /** `initialize_app`: each key is set to 0 only when it is absent. */
    method InitializeApp()
      modifies this
      ensures day == if old(day).None? then Some(0) else old(day)
      ensures cardIndex == if old(cardIndex).None? then Some(0) else old(cardIndex)
    {
      if day.None? {
        day := Some(0);
      }
      if cardIndex.None? {
        cardIndex := Some(0);
      }
    }

    /** The index check at the top of `render_card_viewer`. A lesson without signs returns first
        and leaves the index alone; otherwise the index ends in range. */
    method RenderCards(signs: seq<string>)
      requires cardIndex.Some?
      modifies this
      ensures signs == [] ==> cardIndex == old(cardIndex)
      ensures signs != [] ==> cardIndex == Some(ClampedIndex(old(cardIndex).value, |signs|))
      ensures day == old(day)
    {
      if signs == [] {
        return;
      }
      var total := |signs|;
      if cardIndex.value >= total {
        cardIndex := Some(0);
      }
      if cardIndex.value < 0 {
        cardIndex := Some(0);
      }
    }

    /** "Previous", which is disabled on the first card. */
    method PressPrev(total: nat)
      requires cardIndex.Some? && 0 < cardIndex.value < total
      modifies this
      ensures cardIndex == Some(old(cardIndex).value - 1)
      ensures 0 <= cardIndex.value < total
      ensures day == old(day)
    {
      cardIndex := Some(cardIndex.value - 1);
    }

    /** "Next", which is disabled on the last card. */
    method PressNext(total: nat)
      requires cardIndex.Some? && 0 <= cardIndex.value < total - 1
      modifies this
      ensures cardIndex == Some(old(cardIndex).value + 1)
      ensures 0 <= cardIndex.value < total
      ensures day == old(day)
    {
      cardIndex := Some(cardIndex.value + 1);
    }

    /** The quick-pick dropdown: choosing a sign other than the one shown jumps to the first
        card holding it. */
    method SelectSign(signs: seq<string>, selected: string)
      requires cardIndex.Some? && 0 <= cardIndex.value < |signs| && selected in signs
      modifies this
      ensures selected == signs[old(cardIndex).value] ==> cardIndex == old(cardIndex)
      ensures selected != signs[old(cardIndex).value] ==> cardIndex == Some(IndexOf(signs, selected))
      ensures 0 <= cardIndex.value < |signs| && signs[cardIndex.value] == selected
      ensures day == old(day)
    {
      if selected != signs[cardIndex.value] {
        cardIndex := Some(IndexOf(signs, selected));
      }
    }

    /** The lesson picker: a different lesson becomes current and its first card is shown. */
    method ChangeLesson(schedule: seq<Lesson>, selected: string)
      requires day.Some? && selected in LessonOptions(schedule)
      modifies this
      ensures var position := IndexOf(LessonOptions(schedule), selected);
              if position != old(day).value then day == Some(position) && cardIndex == Some(0)
              else day == old(day) && cardIndex == old(cardIndex)
      ensures 0 <= day.value < |schedule| || day == old(day)
    {
      var position := IndexOf(LessonOptions(schedule), selected);
      if position != day.value {
        day := Some(position);
        cardIndex := Some(0);
      }
    }
  }
}
