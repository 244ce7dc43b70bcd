/**
 * The overlay that puts the questions of a `request_user_input` call to the
 * user: one answer state per question, the question in view, whether keys
 * go to the option list or to the notes field, the requests queued behind
 * the one on screen, and the events it sends back to the session.
 */
module RequestUserInput {
  import opened Wrappers
  import opened Text

  /** A question, with its options given by their labels. */
  datatype Question = Question(id: string, options: Option<seq<string>>, isOther: bool)

  datatype Request = Request(turnId: string, questions: seq<Question>)

  datatype Focus = Options | Notes

  /** Per question: the highlighted option, whether it was chosen, and the free-text note. */
  datatype AnswerState = AnswerState(selected: Option<nat>, committed: bool, note: string)

  /** What the overlay sends to the session. */
  datatype AppEvent =
    | UserInputAnswer(id: string, answers: map<string, seq<string>>)
    | Interrupt

  datatype KeyCode = Char(c: char) | Up | Down | Tab | Enter | Backspace | Delete | OtherKey

  datatype Modifiers = Modifiers(control: bool, alt: bool, shift: bool)

  const NoModifiers: Modifiers := Modifiers(false, false, false)
  const ControlOnly: Modifiers := Modifiers(true, false, false)

  /** A key event; `release` marks the key-up events the overlay ignores. */
  datatype KeyEvent = KeyEvent(code: KeyCode, modifiers: Modifiers, release: bool)

  // ---------------------------------------------------------------------------
  // Options and selection

  /** The option labels of a question: its own, then the "Other" option when it allows one. */
  function OptionLabels(q: Question, otherLabel: string): (r: seq<string>)
    ensures |r| > 0 <==> (q.options.Some? && q.options.value != []) || q.isOther
    ensures q.isOther ==> r[|r| - 1] == otherLabel
    ensures !q.isOther ==> r == q.options.UnwrapOr([])
  {
    q.options.UnwrapOr([]) + if q.isOther then [otherLabel] else []
  }

  /** The highlighted option after moving up a list of `len` options, wrapping from the first to the last. */
  function WrapUp(selected: Option<nat>, len: nat): (r: Option<nat>)
    ensures len == 0 <==> r.None?
    ensures r.Some? && (selected.None? || selected.value < len) ==> r.value < len
  {
    if len == 0 then None
    else match selected
      case Some(i) => if i > 0 then Some(i - 1) else Some(len - 1)
      case None => Some(0)
  }

  /** The highlighted option after moving down a list of `len` options, wrapping from the last to the first. */
  function WrapDown(selected: Option<nat>, len: nat): (r: Option<nat>)
    ensures len == 0 <==> r.None?
    ensures r.Some? ==> r.value < len
  {
    if len == 0 then None
    else match selected
      case Some(i) => if i + 1 < len then Some(i + 1) else Some(0)
      case None => Some(0)
  }

  /** Moving down undoes moving up, and moving up undoes moving down. */
  lemma WrapMovesAreInverse(i: nat, len: nat)
    requires i < len
    ensures WrapDown(WrapUp(Some(i), len), len) == Some(i)
    ensures WrapUp(WrapDown(Some(i), len), len) == Some(i)
  {
  }

  /** The question in view after moving to the next or previous one among `count`, wrapping at both ends. */
  function StepQuestion(idx: nat, count: nat, next: bool): (r: nat)
    ensures count == 0 ==> r == idx
    ensures idx < count ==> r < count
    ensures 0 < count && next ==> r == (idx + 1) % count
    ensures 0 < count && !next && idx < count ==> r + 1 == idx || (idx == 0 && r + 1 == count)
  {
    if count == 0 then idx
    else if next then (idx + 1) % count
    else if idx == 0 then count - 1
    else idx - 1
  }

  /** Moving back undoes moving forward, and the other way round. */
  lemma StepQuestionInverse(idx: nat, count: nat)
    requires idx < count
    ensures StepQuestion(StepQuestion(idx, count, true), count, false) == idx
    ensures StepQuestion(StepQuestion(idx, count, false), count, true) == idx
  {
    if idx + 1 < count {
      assert (idx + 1) % count == idx + 1;
    } else {
      assert (idx + 1) % count == 0;
    }
    if idx > 0 {
      assert (idx - 1 + 1) % count == idx;
    } else {
      assert (count - 1 + 1) % count == 0;
    }
  }

  /** The digit a character stands for, when it is an ASCII digit. */
  function DigitValue(c: char): (r: Option<nat>)
    ensures r.Some? <==> IsAsciiDigit(c)
    ensures r.Some? ==> r.value < 10
  {
    if IsAsciiDigit(c) then Some((c as int - '0' as int) as nat) else None
  }

  // ---------------------------------------------------------------------------
  // Answer states

  /** A fresh answer: the first option highlighted when there are options, nothing chosen, no note. */
  function FreshAnswer(q: Question, otherLabel: string): AnswerState {
    AnswerState(if |OptionLabels(q, otherLabel)| > 0 then Some(0) else None, false, [])
  }

  function FreshAnswers(qs: seq<Question>, otherLabel: string): seq<AnswerState> {
    seq(|qs|, i requires 0 <= i < |qs| => FreshAnswer(qs[i], otherLabel))
  }

  /**
   * An answer state fits its question: an option is highlighted exactly
   * when there are options, and it is one of them; only a question with
   * options can have a chosen answer.
   */
  predicate Fits(q: Question, a: AnswerState, otherLabel: string) {
    var len := |OptionLabels(q, otherLabel)|;
    (a.selected.Some? <==> len > 0)
    && (a.selected.Some? ==> a.selected.value < len)
    && (a.committed ==> len > 0)
  }

  function AnswerAt(answers: seq<AnswerState>, i: nat): Option<AnswerState> {
    if i < |answers| then Some(answers[i]) else None
  }

  /**
   * A question still waiting for an answer: with options, nothing chosen and
   * a blank note; without options, a blank note.
   */
  predicate IsUnanswered(q: Question, a: Option<AnswerState>, otherLabel: string) {
    var noteEmpty := a.None? || IsBlank(a.value.note);
    if |OptionLabels(q, otherLabel)| > 0 then !(a.Some? && a.value.committed) && noteEmpty
    else noteEmpty
  }

  /** The number of unanswered questions among the first `k`. */
  function CountUnanswered(qs: seq<Question>, answers: seq<AnswerState>, otherLabel: string, k: nat): (r: nat)
    requires k <= |qs|
    ensures r <= k
    ensures r == 0 <==> forall i :: 0 <= i < k ==> !IsUnanswered(qs[i], AnswerAt(answers, i), otherLabel)
    ensures r == k <==> forall i :: 0 <= i < k ==> IsUnanswered(qs[i], AnswerAt(answers, i), otherLabel)
  {
    if k == 0 then 0
    else
      CountUnanswered(qs, answers, otherLabel, k - 1)
      + if IsUnanswered(qs[k - 1], AnswerAt(answers, k - 1), otherLabel) then 1 else 0
  }

  /** Right after a reset every question is unanswered. */
  lemma FreshAnswersAllUnanswered(qs: seq<Question>, otherLabel: string)
    ensures CountUnanswered(qs, FreshAnswers(qs, otherLabel), otherLabel, |qs|) == |qs|
  {
    forall i | 0 <= i < |qs|
      ensures IsUnanswered(qs[i], AnswerAt(FreshAnswers(qs, otherLabel), i), otherLabel)
    {
      assert AnswerAt(FreshAnswers(qs, otherLabel), i) == Some(FreshAnswer(qs[i], otherLabel));
    }
  }

  /** The values sent for one question: the chosen option's label, then the trimmed note when not empty. */
  function AnswerValues(q: Question, a: AnswerState, otherLabel: string): (r: seq<string>)
    ensures |r| <= 2
    ensures Trim(a.note) != [] ==> r != [] && r[|r| - 1] == Trim(a.note)
    ensures a.committed && a.selected.Some? && a.selected.value < |OptionLabels(q, otherLabel)| ==>
      r != [] && r[0] == OptionLabels(q, otherLabel)[a.selected.value]
    ensures r == [] <==>
      !(a.committed && a.selected.Some? && a.selected.value < |OptionLabels(q, otherLabel)|) && IsBlank(a.note)
  {
    var options := OptionLabels(q, otherLabel);
    var chosen :=
      if a.committed && a.selected.Some? && a.selected.value < |options| then [options[a.selected.value]] else [];
    var note := Trim(a.note);
    chosen + if note != [] then [note] else []
  }

  /** For an answer that fits its question, nothing is sent exactly when the question counts as unanswered. */
  lemma UnansweredIffNoValues(q: Question, a: AnswerState, otherLabel: string)
    requires Fits(q, a, otherLabel)
    ensures IsUnanswered(q, Some(a), otherLabel) <==> AnswerValues(q, a, otherLabel) == []
  {
  }

  function ValuesAt(qs: seq<Question>, answers: seq<AnswerState>, otherLabel: string, i: nat): seq<string>
    requires i < |qs|
  {
    match AnswerAt(answers, i)
    case None => []
    case Some(a) => AnswerValues(qs[i], a, otherLabel)
  }

  /** The answers map after inserting the first `k` questions in order; a later id overwrites an earlier one. */
  function ResultAnswers(qs: seq<Question>, answers: seq<AnswerState>, otherLabel: string, k: nat): map<string, seq<string>>
    requires k <= |qs|
  {
    if k == 0 then map[]
    else ResultAnswers(qs, answers, otherLabel, k - 1)[qs[k - 1].id := ValuesAt(qs, answers, otherLabel, k - 1)]
  }

  /** The answers map has one entry per question id. */
  lemma {:induction false} ResultAnswersKeys(qs: seq<Question>, answers: seq<AnswerState>, otherLabel: string, k: nat)
    requires k <= |qs|
    ensures ResultAnswers(qs, answers, otherLabel, k).Keys == set i | 0 <= i < k :: qs[i].id
  {
    if k > 0 {
      ResultAnswersKeys(qs, answers, otherLabel, k - 1);
      var before := set i | 0 <= i < k - 1 :: qs[i].id;
      var after := set i | 0 <= i < k :: qs[i].id;
      assert after == before + {qs[k - 1].id} by {
        forall x | x in after
          ensures x in before + {qs[k - 1].id}
        {
          var i :| 0 <= i < k && qs[i].id == x;
          if i < k - 1 {
            assert x in before;
          }
        }
      }
    }
  }

  /** A question whose id no later question reuses is answered with its own values. */
  lemma {:induction false} ResultAnswerOfQuestion(qs: seq<Question>, answers: seq<AnswerState>, otherLabel: string,
                                                 k: nat, i: nat)
    requires i < k <= |qs|
    requires forall j :: i < j < k ==> qs[j].id != qs[i].id
    ensures qs[i].id in ResultAnswers(qs, answers, otherLabel, k)
    ensures ResultAnswers(qs, answers, otherLabel, k)[qs[i].id] == ValuesAt(qs, answers, otherLabel, i)
  {
    if i < k - 1 {
      ResultAnswerOfQuestion(qs, answers, otherLabel, k - 1, i);
    }
  }

  /** The answer states with the one at `idx` chosen, when its question has options. */
  function CommitAt(qs: seq<Question>, answers: seq<AnswerState>, idx: nat, otherLabel: string): seq<AnswerState> {
    if idx < |qs| && idx < |answers| && |OptionLabels(qs[idx], otherLabel)| > 0 then
      answers[idx := answers[idx].(committed := true)]
    else answers
  }

  /** Committing an answer to a question with options makes it answered, and keeps every answer fitting. */
  lemma CommitAnswers(qs: seq<Question>, answers: seq<AnswerState>, idx: nat, otherLabel: string)
    requires |answers| == |qs| && idx < |qs|
    requires forall i :: 0 <= i < |qs| ==> Fits(qs[i], answers[i], otherLabel)
    ensures forall i :: 0 <= i < |qs| ==> Fits(qs[i], CommitAt(qs, answers, idx, otherLabel)[i], otherLabel)
    ensures |OptionLabels(qs[idx], otherLabel)| > 0 ==>
      !IsUnanswered(qs[idx], AnswerAt(CommitAt(qs, answers, idx, otherLabel), idx), otherLabel)
  {
  }

  // ---------------------------------------------------------------------------
  // Key dispatch

  /** What a key press does to the overlay. */
  datatype KeyAction =
    | NoAction
    | NextQuestion
    | PreviousQuestion
    | SelectionUp
    | SelectionDown
    | SwitchFocus
    | Advance
    | TypeOption(c: char)
    | EditNote

  /**
   * The arms of `handle_key_event`, in order: releases are ignored; Ctrl-N
   * and Ctrl-P move between questions; Up and Down move the highlight while
   * the options have focus, or from the notes when the question has options;
   * a plain Tab switches focus and a plain Enter advances; an unmodified
   * character goes to the options while they have focus; any other key goes
   * to the notes while they have focus, and is ignored otherwise.
   */
  function KeyActionFor(key: KeyEvent, focus: Focus, hasOptions: bool): (a: KeyAction)
    ensures key.release ==> a == NoAction
    ensures !key.release && key.modifiers == ControlOnly && key.code == Char('n') ==> a == NextQuestion
    ensures !key.release && key.modifiers == ControlOnly && key.code == Char('p') ==> a == PreviousQuestion
    ensures a.SelectionUp? || a.SelectionDown? ==> focus == Options || hasOptions
    ensures a.TypeOption? ==> focus == Options && key.code == Char(a.c) && !key.modifiers.control && !key.modifiers.alt
    ensures a == EditNote ==> focus == Notes
    ensures a == NoAction ==> key.release || focus.Options?
  {
    if key.release then NoAction
    else if key.code == Char('n') && key.modifiers == ControlOnly then NextQuestion
    else if key.code == Char('p') && key.modifiers == ControlOnly then PreviousQuestion
    else if key.code == Up && (focus == Options || hasOptions) then SelectionUp
    else if key.code == Down && (focus == Options || hasOptions) then SelectionDown
    else if key.code == Tab && key.modifiers == NoModifiers then SwitchFocus
    else if key.code == Enter && key.modifiers == NoModifiers then Advance
    else if key.code.Char? && focus == Options && !key.modifiers.control && !key.modifiers.alt then TypeOption(key.code.c)
    else if focus == Notes then EditNote
    else NoAction
  }

  // ---------------------------------------------------------------------------
  // The overlay

  class Overlay {
    var request: Request
    var queue: seq<Request>
    var answers: seq<AnswerState>
    var currentIdx: nat
    var focus: Focus
    var done: bool
    /** The events sent to the session, oldest first. */
    var sent: seq<AppEvent>
    /** The label of the "Other" option in the interface language. */
    const otherLabel: string

    function CurrentOptionsLen(): nat
      reads this
    {
      if currentIdx < |request.questions| then |OptionLabels(request.questions[currentIdx], otherLabel)| else 0
    }

    predicate HasOptions()
      reads this
    {
      CurrentOptionsLen() > 0
    }

    predicate Valid()
      reads this
    {
      var count := |request.questions|;
      |answers| == count
      && (count == 0 ==> currentIdx == 0)
      && (count > 0 ==> currentIdx < count)
      && (forall i :: 0 <= i < count ==> Fits(request.questions[i], answers[i], otherLabel))
      && (focus == Options ==> HasOptions())
    }

    /** The state right after a request is put on screen. */
    predicate IsFresh()
      reads this
    {
      currentIdx == 0
      && answers == FreshAnswers(request.questions, otherLabel)
      && focus == (if HasOptions() then Options else Notes)
    }

    /** Ctrl-N / Ctrl-P: the question steps with wrap-around; the focus leaves options the new question lacks. */
    twostate predicate QuestionMoved(next: bool)
      reads this
    {
      && currentIdx == StepQuestion(old(currentIdx), |old(request).questions|, next)
      && focus == (if |old(request).questions| == 0 || HasOptions() then old(focus) else Notes)
      && request == old(request) && queue == old(queue) && answers == old(answers)
      && done == old(done) && sent == old(sent)
    }

    /** Up / Down: the current answer's highlight wraps within its options and is no longer chosen. */
    twostate predicate SelectionMoved(up: bool)
      requires old(Valid())
      reads this
    {
      && answers == old(
           if CurrentOptionsLen() == 0 then answers
           else answers[currentIdx := AnswerState(if up then WrapUp(answers[currentIdx].selected, CurrentOptionsLen())
                                                  else WrapDown(answers[currentIdx].selected, CurrentOptionsLen()),
                                                  false, answers[currentIdx].note)])
      && request == old(request) && queue == old(queue) && currentIdx == old(currentIdx)
      && focus == old(focus) && done == old(done) && sent == old(sent)
    }

    /** Tab: from the options to the notes, and back when the question has options. */
    twostate predicate FocusSwitched()
      reads this
    {
      && focus == (if old(focus) == Options then Notes else if HasOptions() then Options else Notes)
      && request == old(request) && queue == old(queue) && answers == old(answers)
      && currentIdx == old(currentIdx) && done == old(done) && sent == old(sent)
    }

    /**
     * An editing key on the notes: Backspace drops the note's last
     * character, Delete clears it, an unmodified character is appended, and
     * any other key changes nothing.
     */
    twostate predicate NoteEdited(code: KeyCode, modifiers: Modifiers)
      requires old(Valid())
      reads this
    {
      && answers == old(
           if currentIdx >= |answers| then answers
           else if code.Backspace? then
             (if answers[currentIdx].note == [] then answers
              else answers[currentIdx := answers[currentIdx].(note := answers[currentIdx].note[..|answers[currentIdx].note| - 1])])
           else if code.Delete? then answers[currentIdx := answers[currentIdx].(note := [])]
           else if code.Char? && !modifiers.control && !modifiers.alt then
             answers[currentIdx := answers[currentIdx].(note := answers[currentIdx].note + [code.c])]
           else answers)
      && request == old(request) && queue == old(queue) && currentIdx == old(currentIdx)
      && focus == old(focus) && done == old(done) && sent == old(sent)
    }

    /**
     * Enter, starting from the answers `start`: the current answer is
     * chosen; after the last question the answers are sent and the next
     * queued request shown (or the overlay finishes), otherwise the next
     * question is shown.
     */
    twostate predicate AdvancedFrom(start: seq<AnswerState>)
      reads this
    {
      var qs := old(request).questions;
      var committed := CommitAt(qs, start, old(currentIdx), otherLabel);
      if old(currentIdx) + 1 >= |qs| then
        && sent == old(sent) + [UserInputAnswer(old(request).turnId, ResultAnswers(qs, committed, otherLabel, |qs|))]
        && (old(queue) == [] ==>
              done && request == old(request) && queue == [] && answers == committed
              && currentIdx == old(currentIdx) && focus == old(focus))
        && (old(queue) != [] ==>
              done == old(done) && request == old(queue)[0] && queue == old(queue)[1..] && IsFresh())
      else
        && currentIdx == old(currentIdx) + 1 && answers == committed
        && request == old(request) && queue == old(queue) && done == old(done) && sent == old(sent)
        && focus == (if HasOptions() then old(focus) else Notes)
    }

    /**
     * A character on the options: a digit naming an option chooses it and
     * advances; anything else moves the focus to the notes and starts a note.
     */
    twostate predicate TypedOnOptions(c: char)
      requires old(Valid()) && old(focus) == Options
      reads this
    {
      var digit := DigitValue(c);
      if digit.Some? && 1 <= digit.value && digit.value - 1 < old(CurrentOptionsLen()) then
        AdvancedFrom(old(answers[currentIdx := AnswerState(Some(digit.value - 1), true, answers[currentIdx].note)]))
      else
        && focus == Notes && currentIdx == old(currentIdx) && sent == old(sent) && done == old(done)
        && request == old(request) && queue == old(queue)
        && answers == old(answers[currentIdx := answers[currentIdx].(note := answers[currentIdx].note + [c])])
    }

    function Unanswered(): nat
      reads this
      requires |answers| == |request.questions|
    {
      CountUnanswered(request.questions, answers, otherLabel, |request.questions|)
    }

    constructor(request: Request, otherLabel: string)
      ensures this.request == request && this.otherLabel == otherLabel
      ensures queue == [] && !done && sent == []
      ensures IsFresh() && Valid()
    {
      this.request := request;
      this.otherLabel := otherLabel;
      queue := [];
      answers := [];
      currentIdx := 0;
      focus := Options;
      done := false;
      sent := [];
      new;
      ResetForRequest();
    }

    /** Puts the current request on screen: the first question, fresh answers, and focus where there is something to focus. */
    method ResetForRequest()
      modifies this
      ensures IsFresh() && Valid()
      ensures request == old(request) && queue == old(queue) && done == old(done) && sent == old(sent)
    {
      currentIdx := 0;
      focus := Options;
      answers := FreshAnswers(request.questions, otherLabel);
      EnsureFocusAvailable();
    }

    /** Moves the focus to the notes when the current question has no options. */
    method EnsureFocusAvailable()
      modifies this
      ensures focus == if HasOptions() then old(focus) else Notes
      ensures request == old(request) && queue == old(queue) && answers == old(answers)
      ensures currentIdx == old(currentIdx) && done == old(done) && sent == old(sent)
    {
      if !HasOptions() {
        focus := Notes;
      }
    }

    method MoveSelectionUp()
      requires Valid()
      modifies this
      ensures Valid()
      ensures SelectionMoved(true)
    {
      var len := CurrentOptionsLen();
      if len == 0 {
        return;
      }
      var a := answers[currentIdx];
      answers := answers[currentIdx := AnswerState(WrapUp(a.selected, len), false, a.note)];
    }

    method MoveSelectionDown()
      requires Valid()
      modifies this
      ensures Valid()
      ensures SelectionMoved(false)
    {
      var len := CurrentOptionsLen();
      if len == 0 {
        return;
      }
      var a := answers[currentIdx];
      answers := answers[currentIdx := AnswerState(WrapDown(a.selected, len), false, a.note)];
    }

    /** Shows the next or the previous question, wrapping around; nothing happens without questions. */
    method MoveQuestion(next: bool)
      requires Valid()
      modifies this
      ensures Valid()
      ensures QuestionMoved(next)
    {
      var count := |request.questions|;
      if count == 0 {
        return;
      }
      if next {
        currentIdx := (currentIdx + 1) % count;
      } else if currentIdx == 0 {
        currentIdx := count - 1;
      } else {
        currentIdx := currentIdx - 1;
      }
      EnsureFocusAvailable();
    }

    method ClearCurrentNote()
      requires Valid()
      modifies this
      ensures Valid()
      ensures answers == old(if currentIdx < |answers| then answers[currentIdx := answers[currentIdx].(note := [])] else answers)
      ensures request == old(request) && queue == old(queue) && currentIdx == old(currentIdx)
      ensures focus == old(focus) && done == old(done) && sent == old(sent)
    {
      if currentIdx < |answers| {
        answers := answers[currentIdx := answers[currentIdx].(note := [])];
      }
    }

    method AppendNote(s: string)
      requires Valid()
      modifies this
      ensures Valid()
      ensures answers == old(
        if currentIdx < |answers| then answers[currentIdx := answers[currentIdx].(note := answers[currentIdx].note + s)]
        else answers)
      ensures request == old(request) && queue == old(queue) && currentIdx == old(currentIdx)
      ensures focus == old(focus) && done == old(done) && sent == old(sent)
    {
      if currentIdx < |answers| {
        answers := answers[currentIdx := answers[currentIdx].(note := answers[currentIdx].note + s)];
      }
    }

    /** Removes the last character of the current note, if any. */
    method PopNoteChar()
      requires Valid()
      modifies this
      ensures Valid()
      ensures answers == old(
        if currentIdx < |answers| && answers[currentIdx].note != [] then
          answers[currentIdx := answers[currentIdx].(note := answers[currentIdx].note[..|answers[currentIdx].note| - 1])]
        else answers)
      ensures request == old(request) && queue == old(queue) && currentIdx == old(currentIdx)
      ensures focus == old(focus) && done == old(done) && sent == old(sent)
    {
      if currentIdx < |answers| && answers[currentIdx].note != [] {
        var note := answers[currentIdx].note;
        answers := answers[currentIdx := answers[currentIdx].(note := note[..|note| - 1])];
      }
    }

    /** Marks the current answer as chosen when its question has options. */
    method CommitCurrentAnswer()
      requires Valid()
      modifies this
      ensures Valid()
      ensures answers == CommitAt(request.questions, old(answers), currentIdx, otherLabel)
      ensures request == old(request) && queue == old(queue) && currentIdx == old(currentIdx)
      ensures focus == old(focus) && done == old(done) && sent == old(sent)
    {
      if HasOptions() {
        CommitAnswers(request.questions, answers, currentIdx, otherLabel);
        answers := answers[currentIdx := answers[currentIdx].(committed := true)];
      }
    }

    /** The answers map, built by inserting each question's values in question order. */
    method BuildResultAnswers() returns (r: map<string, seq<string>>)
      ensures r == ResultAnswers(request.questions, answers, otherLabel, |request.questions|)
    {
      var qs, states := request.questions, answers;
      r := map[];
      var i := 0;
      while i < |qs|
        invariant i <= |qs|
        invariant r == ResultAnswers(qs, states, otherLabel, i)
      {
        var values := ValuesAt(qs, states, otherLabel, i);
        r := r[qs[i].id := values];
        i := i + 1;
      }
    }

    /**
     * Sends the answers for the current request, then puts the oldest queued
     * request on screen, or finishes when none is queued.
     */
    method SubmitAnswers()
      requires Valid()
      modifies this
      ensures Valid()
      ensures sent == old(sent) + [UserInputAnswer(old(request).turnId,
                                                   ResultAnswers(old(request).questions, old(answers), otherLabel,
                                                                 |old(request).questions|))]
      ensures old(queue) == [] ==>
        done && request == old(request) && queue == [] && answers == old(answers)
        && currentIdx == old(currentIdx) && focus == old(focus)
      ensures old(queue) != [] ==>
        done == old(done) && request == old(queue)[0] && queue == old(queue)[1..] && IsFresh()
    {
      var answerMap := BuildResultAnswers();
      sent := sent + [UserInputAnswer(request.turnId, answerMap)];
      if queue != [] {
        request := queue[0];
        queue := queue[1..];
        ResetForRequest();
      } else {
        done := true;
      }
    }

    /** Enter: chooses the current answer, then shows the next question or, after the last, submits. */
    method GoNextOrSubmit()
      requires Valid()
      modifies this
      ensures Valid()
      ensures AdvancedFrom(old(answers))
    {
      if |request.questions| == 0 {
        SubmitAnswers();
        return;
      }
      CommitCurrentAnswer();
      if currentIdx + 1 >= |request.questions| {
        SubmitAnswers();
      } else {
        currentIdx := currentIdx + 1;
        EnsureFocusAvailable();
      }
    }

    /** Tab: from the options to the notes, and back when the question has options. */
    method ToggleFocus()
      requires Valid()
      modifies this
      ensures Valid()
      ensures FocusSwitched()
    {
      if focus == Options {
        focus := Notes;
      } else if HasOptions() {
        focus := Options;
      }
    }

    /** Editing keys for the notes field; the result says whether the key was used. */
    method HandleNoteKey(code: KeyCode, modifiers: Modifiers) returns (handled: bool)
      requires Valid()
      modifies this
      ensures Valid()
      ensures handled <==> code.Backspace? || code.Delete? || (code.Char? && !modifiers.control && !modifiers.alt)
      ensures NoteEdited(code, modifiers)
    {
      match code
      case Backspace =>
        PopNoteChar();
        handled := true;
      case Delete =>
        ClearCurrentNote();
        handled := true;
      case Char(c) =>
        if !modifiers.control && !modifiers.alt {
          AppendNote([c]);
          handled := true;
        } else {
          handled := false;
        }
      case _ =>
        handled := false;
    }

    /**
     * A character typed while the options have focus: a digit naming an
     * option chooses it and moves on; anything else starts a note.
     */
    method TypeOnOptions(c: char, modifiers: Modifiers)
      requires Valid() && focus == Options && !modifiers.control && !modifiers.alt
      modifies this
      ensures Valid()
      ensures old(sent) <= sent
      ensures TypedOnOptions(c)
    {
      var digit := DigitValue(c);
      if digit.Some? && 1 <= digit.value {
        var idx := digit.value - 1;
        if idx < CurrentOptionsLen() {
          answers := answers[currentIdx := answers[currentIdx].(selected := Some(idx), committed := true)];
          GoNextOrSubmit();
          return;
        }
      }
      focus := Notes;
      var _ := HandleNoteKey(Char(c), modifiers);
    }

    /** A key press, dispatched as the overlay does: the action taken and its effect. */
    method HandleKey(key: KeyEvent) returns (action: KeyAction)
      requires Valid()
      modifies this
      ensures Valid()
      ensures action == KeyActionFor(key, old(focus), old(HasOptions()))
      ensures action == NoAction ==> unchanged(this)
      ensures action == NextQuestion ==> QuestionMoved(true)
      ensures action == PreviousQuestion ==> QuestionMoved(false)
      ensures action == SelectionUp ==> SelectionMoved(true)
      ensures action == SelectionDown ==> SelectionMoved(false)
      ensures action == SwitchFocus ==> FocusSwitched()
      ensures action == Advance ==> AdvancedFrom(old(answers))
      ensures action.TypeOption? ==> old(focus) == Options && TypedOnOptions(action.c)
      ensures action == EditNote ==> NoteEdited(key.code, key.modifiers)
      ensures old(sent) <= sent
    {
      action := KeyActionFor(key, focus, HasOptions());
      match action
      case NoAction =>
      case NextQuestion => MoveQuestion(true);
      case PreviousQuestion => MoveQuestion(false);
      case SelectionUp => MoveSelectionUp();
      case SelectionDown => MoveSelectionDown();
      case SwitchFocus => ToggleFocus();
      case Advance => GoNextOrSubmit();
      case TypeOption(c) => TypeOnOptions(c, key.modifiers);
      case EditNote =>
        var _ := HandleNoteKey(key.code, key.modifiers);
    }

    /**
     * Ctrl-C or Esc: a non-blank note in focus is cleared first; otherwise
     * the turn is interrupted and the overlay finishes.
     */
    method OnCtrlC()
      requires Valid()
      modifies this
      ensures Valid()
      ensures if old(focus == Notes && currentIdx < |answers| && !IsBlank(answers[currentIdx].note)) then
          answers == old(answers[currentIdx := answers[currentIdx].(note := [])])
          && done == old(done) && sent == old(sent)
        else
          answers == old(answers) && done && sent == old(sent) + [Interrupt]
      ensures request == old(request) && queue == old(queue) && currentIdx == old(currentIdx) && focus == old(focus)
    {
      if focus == Notes && currentIdx < |answers| && !IsBlank(answers[currentIdx].note) {
        ClearCurrentNote();
        return;
      }
      sent := sent + [Interrupt];
      done := true;
    }

    /** A paste goes into the current note, moving the focus there; an empty paste is not taken. */
    method HandlePaste(pasted: string) returns (taken: bool)
      requires Valid()
      modifies this
      ensures Valid()
      ensures taken <==> pasted != [] && currentIdx < |answers|
      ensures pasted == [] ==> unchanged(this)
      ensures pasted != [] ==> focus == Notes
      ensures taken ==> answers == old(
        if currentIdx < |answers| then answers[currentIdx := answers[currentIdx].(note := answers[currentIdx].note + pasted)]
        else answers)
      ensures !taken ==> answers == old(answers)
      ensures request == old(request) && queue == old(queue) && currentIdx == old(currentIdx)
      ensures done == old(done) && sent == old(sent)
    {
      if pasted == [] {
        return false;
      }
      if focus == Options {
        focus := Notes;
      }
      if currentIdx < |answers| {
        AppendNote(pasted);
        return true;
      }
      return false;
    }

    /** A further request arriving while this one is on screen waits at the back of the queue. */
    method TryConsumeUserInputRequest(next: Request) returns (rejected: Option<Request>)
      requires Valid()
      modifies this
      ensures Valid()
      ensures rejected == None
      ensures queue == old(queue) + [next]
      ensures request == old(request) && answers == old(answers) && currentIdx == old(currentIdx)
      ensures focus == old(focus) && done == old(done) && sent == old(sent)
    {
      queue := queue + [next];
      rejected := None;
    }

    function IsComplete(): bool
      reads this
    {
      done
    }
  }
}
