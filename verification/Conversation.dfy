/** The session's conversation log: appends, queries and the structure every log keeps. */
module Conversation {
  import opened Wrappers
  import opened Utterances

  /** `floor` is 0 in a fresh log; a rebuilt log puts the largest number it saw there. */
  datatype Log = Log(utterances: seq<Utterance>, floor: int)

  datatype AppendError = NumberGap | MissingRoot | OtherBranch | NoQuestion | Schema(error: SchemaError)

  // ------------------------------------------------------------------ queries

  /** A question has a number; a closing remark has none. */
  predicate IsQuestion(u: Utterance) {
    u.speaker.Interviewer? && u.questionNumber.Some?
  }

  predicate IsAnswer(u: Utterance) {
    u.speaker.Candidate?
  }

  predicate IsClosing(u: Utterance) {
    u.questionType == Some(Closing)
  }

  predicate IsFinal(u: Utterance) {
    u.questionType == Some(Final)
  }

  predicate IsRootQuestion(u: Utterance) {
    u.questionType == Some(Initial) || u.questionType == Some(Topic)
  }

  predicate IsFollowUp(u: Utterance) {
    u.questionType == Some(FollowUp)
  }

  function LastQuestion(us: seq<Utterance>): (q: Option<Utterance>)
    ensures q.Some? ==> q.value in us && IsQuestion(q.value)
    ensures q.None? ==> forall u | u in us :: !IsQuestion(u)
  {
    if us == [] then None
    else if IsQuestion(us[|us| - 1]) then Some(us[|us| - 1])
    else LastQuestion(us[..|us| - 1])
  }

  function LastNumber(l: Log): int {
    var q := LastQuestion(l.utterances);
    Max(l.floor, if q.Some? then q.value.questionNumber.value else 0)
  }

  function CurrentRoot(us: seq<Utterance>): Option<int> {
    var q := LastQuestion(us);
    if q.Some? then q.value.parent else None
  }

  /** The branch of a root: every utterance that carries it as parent, in log order. */
  function Branch(us: seq<Utterance>, root: int): (b: seq<Utterance>)
    ensures forall u :: u in b <==> u in us && u.parent == Some(root)
  {
    if us == [] then []
    else Branch(us[..|us| - 1], root)
         + (if us[|us| - 1].parent == Some(root) then [us[|us| - 1]] else [])
  }

  /** Branch roots in order of first appearance. */
  function BranchRoots(us: seq<Utterance>): (roots: seq<int>)
    ensures forall r :: r in roots <==> exists u | u in us :: u.parent == Some(r)
  {
    if us == [] then [] else
    var before := BranchRoots(us[..|us| - 1]);
    var p := us[|us| - 1].parent;
    if p.Some? && p.value !in before then before + [p.value] else before
  }

  /** Follow-up questions hanging on a root. */
  function FollowUps(us: seq<Utterance>, root: int): nat {
    if us == [] then 0
    else FollowUps(us[..|us| - 1], root)
         + (if us[|us| - 1].parent == Some(root) && IsFollowUp(us[|us| - 1]) then 1 else 0)
  }

  function FollowUpsInCurrentBranch(us: seq<Utterance>): nat {
    var root := CurrentRoot(us);
    if root.Some? then FollowUps(us, root.value) else 0
  }

  /** The first question with a number. */
  function QuestionFor(us: seq<Utterance>, number: int): (q: Option<Utterance>)
    ensures q.Some? ==> q.value in us && q.value.speaker.Interviewer? && q.value.questionNumber == Some(number)
    ensures q.None? ==> forall u | u in us :: !(u.speaker.Interviewer? && u.questionNumber == Some(number))
  {
    if us == [] then None
    else if us[0].speaker.Interviewer? && us[0].questionNumber == Some(number) then Some(us[0])
    else QuestionFor(us[1..], number)
  }

  predicate HasTopicOrFollowUp(us: seq<Utterance>) {
    exists u | u in us :: u.questionType == Some(Topic) || u.questionType == Some(FollowUp)
  }

  /** The current branch still has its root question (a gap may have lost it). */
  predicate HasValidCurrentRoot(us: seq<Utterance>) {
    var root := CurrentRoot(us);
    root.Some? ==>
      var q := QuestionFor(us, root.value);
      q.Some? && IsRootQuestion(q.value)
  }

  // ------------------------------------------------------------------ appends

  datatype QuestionDraft = QuestionDraft(
    number: int, parent: int, kind: QuestionType, content: string, spokenAt: Time,
    followUpType: Option<FollowUpType>, reason: Option<string>, ref: Option<int>)

  function QuestionOf(d: QuestionDraft): Utterance {
    Utterance(Some(d.number), Some(d.parent), Interviewer, d.content, d.spokenAt,
              Some(d.kind), d.followUpType, d.reason, d.ref)
  }

  function Adopt(u: Utterance): Result<Utterance, AppendError> {
    match Make(u)
    case Ok(v) => Ok(v)
    case Err(e) => Err(Schema(e))
  }

  /** The question an append would add, or why it is refused. */
  function CheckQuestion(l: Log, d: QuestionDraft): Result<Utterance, AppendError> {
    var root := QuestionFor(l.utterances, d.parent);
    if d.number != LastNumber(l) + 1 then Err(NumberGap)
    else if d.kind.FollowUp? && (root.None? || !IsRootQuestion(root.value)) then Err(MissingRoot)
    else if d.kind.FollowUp? && Some(d.parent) != CurrentRoot(l.utterances) then Err(OtherBranch)
    else Adopt(QuestionOf(d))
  }

  function CheckAnswer(l: Log, content: string, spokenAt: Time): Result<Utterance, AppendError> {
    var q := LastQuestion(l.utterances);
    if q.None? then Err(NoQuestion)
    else Adopt(Utterance(q.value.questionNumber, q.value.parent, Candidate, content, spokenAt,
                         None, None, None, None))
  }

  function CheckClosing(content: string, spokenAt: Time, reason: Option<string>): Result<Utterance, AppendError> {
    Adopt(Utterance(None, None, Interviewer, content, spokenAt, Some(Closing), None, reason, None))
  }

  function Extend(l: Log, r: Result<Utterance, AppendError>): Log {
    if r.Ok? then l.(utterances := l.utterances + [r.value]) else l
  }

  // ------------------------------------------------------------------ the log object

  class ConversationLog {
    var utterances: seq<Utterance>
    var numberFloor: int

    constructor ()
      ensures View() == Log([], 0)
    {
      utterances, numberFloor := [], 0;
    }

    function View(): Log
      reads this
    {
      Log(utterances, numberFloor)
    }

    method AppendQuestion(d: QuestionDraft) returns (r: Result<Utterance, AppendError>)
      modifies this
      ensures r == CheckQuestion(old(View()), d)
      ensures View() == Extend(old(View()), r)
    {
      var last := LastQuestionNumber();
      if d.number != last + 1 { return Err(NumberGap); }
      if d.kind == FollowUp {
        var root := QuestionFor(utterances, d.parent);
        if root.None? || !IsRootQuestion(root.value) { return Err(MissingRoot); }
        if Some(d.parent) != CurrentRoot(utterances) { return Err(OtherBranch); }
      }
      r := Adopt(QuestionOf(d));
      if r.Ok? { utterances := utterances + [r.value]; }
    }

    method AppendClosing(content: string, spokenAt: Time, reason: Option<string>)
        returns (r: Result<Utterance, AppendError>)
      modifies this
      ensures r == CheckClosing(content, spokenAt, reason)
      ensures View() == Extend(old(View()), r)
    {
      r := Adopt(Utterance(None, None, Interviewer, content, spokenAt, Some(Closing), None, reason, None));
      if r.Ok? { utterances := utterances + [r.value]; }
    }

    method AppendAnswer(content: string, spokenAt: Time) returns (r: Result<Utterance, AppendError>)
      modifies this
      ensures r == CheckAnswer(old(View()), content, spokenAt)
      ensures View() == Extend(old(View()), r)
    {
      var q := FindLastQuestion();
      if q.None? { return Err(NoQuestion); }
      r := Adopt(Utterance(q.value.questionNumber, q.value.parent, Candidate, content, spokenAt,
                           None, None, None, None));
      if r.Ok? { utterances := utterances + [r.value]; }
    }

    method FindLastQuestion() returns (q: Option<Utterance>)
      ensures q == LastQuestion(utterances)
    {
      var i := |utterances|;
      assert utterances[..i] == utterances;
      while i > 0
        invariant 0 <= i <= |utterances|
        invariant LastQuestion(utterances) == LastQuestion(utterances[..i])
      {
        i := i - 1;
        assert utterances[..i + 1][..i] == utterances[..i];
        if IsQuestion(utterances[i]) { return Some(utterances[i]); }
      }
      return None;
    }

    method LastQuestionNumber() returns (n: int)
      ensures n == LastNumber(View())
    {
      var q := FindLastQuestion();
      n := Max(numberFloor, if q.Some? then q.value.questionNumber.value else 0);
    }

    method CollectBranchRoots() returns (roots: seq<int>)
      ensures roots == BranchRoots(utterances)
    {
      roots := [];
      for i := 0 to |utterances|
        invariant roots == BranchRoots(utterances[..i])
      {
        assert utterances[..i + 1][..i] == utterances[..i];
        var root := utterances[i].parent;
        if root.Some? && root.value !in roots { roots := roots + [root.value]; }
      }
      assert utterances[..|utterances|] == utterances;
    }
  }

  // ------------------------------------------------------------------ structure

  predicate HasFinal(us: seq<Utterance>) {
    exists u | u in us :: IsFinal(u)
  }

  predicate HasClosing(us: seq<Utterance>) {
    exists u | u in us :: IsClosing(u)
  }

  /** What may follow a log: nothing after a closing; a question only with a larger number than
      anything before it and never after the final question; one answer to the final question. */
  ghost predicate Fits(us: seq<Utterance>, u: Utterance) {
    && Valid(u)
    && !HasClosing(us)
    && (IsQuestion(u) ==> !HasFinal(us))
    && (IsQuestion(u) ==>
          forall x | x in us && x.questionNumber.Some? :: x.questionNumber.value < u.questionNumber.value)
    && (IsAnswer(u) && HasFinal(us) ==>
          IsFinal(us[|us| - 1]) && us[|us| - 1].questionNumber == u.questionNumber)
  }

  ghost predicate WellFormed(us: seq<Utterance>) {
    us == [] || (WellFormed(us[..|us| - 1]) && Fits(us[..|us| - 1], us[|us| - 1]))
  }

  /** No number in the log is above the one new questions count from. */
  ghost predicate Bounded(l: Log) {
    && l.floor >= 0
    && forall u | u in l.utterances && u.questionNumber.Some? :: u.questionNumber.value <= LastNumber(l)
  }

  lemma WellFormedAppend(us: seq<Utterance>, u: Utterance)
    requires WellFormed(us) && Fits(us, u)
    ensures WellFormed(us + [u])
  {
    assert (us + [u])[..|us|] == us;
  }

  lemma LastQuestionAppend(us: seq<Utterance>, u: Utterance)
    ensures LastQuestion(us + [u]) == if IsQuestion(u) then Some(u) else LastQuestion(us)
  {
    assert (us + [u])[..|us|] == us;
  }

  lemma {:induction false} WellFormedValid(us: seq<Utterance>)
    requires WellFormed(us)
    ensures forall u | u in us :: Valid(u)
  {
    if us != [] {
      WellFormedValid(us[..|us| - 1]);
      assert us == us[..|us| - 1] + [us[|us| - 1]];
    }
  }

  lemma {:induction false} WellFormedPrefix(us: seq<Utterance>, n: nat)
    requires WellFormed(us) && n <= |us|
    ensures WellFormed(us[..n])
    decreases |us|
  {
    if n < |us| {
      WellFormedPrefix(us[..|us| - 1], n);
      assert us[..|us| - 1][..n] == us[..n];
    } else {
      assert us[..n] == us;
    }
  }

  /** At every position the log obeys Fits: the structure in its pointwise form. */
  lemma WellFormedAt(us: seq<Utterance>, i: nat)
    requires WellFormed(us) && i < |us|
    ensures Fits(us[..i], us[i])
  {
    WellFormedPrefix(us, i + 1);
    assert us[..i + 1][..i] == us[..i];
  }

  /** A closing is last; after a final question come no other question and at most one answer, which
      carries the final question's number; question numbers grow past everything before them. */
  lemma WellFormedMeans(us: seq<Utterance>)
    requires WellFormed(us)
    ensures forall i | 0 <= i < |us| && IsClosing(us[i]) :: i == |us| - 1
    ensures forall i, j | 0 <= i < j < |us| && IsQuestion(us[j]) && us[i].questionNumber.Some? ::
              us[i].questionNumber.value < us[j].questionNumber.value
    ensures forall i, j | 0 <= i < j < |us| && IsFinal(us[i]) && (IsQuestion(us[j]) || IsFinal(us[j])) :: false
    ensures forall i, j | 0 <= i < j < |us| && IsFinal(us[i]) && IsAnswer(us[j]) ::
              j == i + 1 && us[j].questionNumber == us[i].questionNumber
  {
    forall i, j | 0 <= i < j < |us|
      ensures !IsClosing(us[i])
      ensures IsQuestion(us[j]) && us[i].questionNumber.Some? ==>
                us[i].questionNumber.value < us[j].questionNumber.value
      ensures !(IsFinal(us[i]) && (IsQuestion(us[j]) || IsFinal(us[j])))
      ensures IsFinal(us[i]) && IsAnswer(us[j]) ==>
                j == i + 1 && us[j].questionNumber == us[i].questionNumber
    {
      WellFormedAt(us, j);
      assert us[..j][i] == us[i] && us[i] in us[..j];
      if IsFinal(us[i]) && i < j - 1 {
        WellFormedAt(us, j - 1);
        assert us[..j - 1][i] == us[i] && us[i] in us[..j - 1];
        assert us[..j][|us[..j]| - 1] == us[j - 1];
      }
    }
  }

  // ------------------------------------------------------------------ when an append is refused

  /** The number a question has to carry: one more than the floor or the last question, whichever is
      larger. */
  predicate IsNext(l: Log, n: int) {
    && n > l.floor && (n == l.floor + 1 || Asked(l.utterances, n - 1))
    && (LastQuestion(l.utterances).Some? ==> n > LastQuestion(l.utterances).value.questionNumber.value)
  }

  predicate Asked(us: seq<Utterance>, n: int) {
    LastQuestion(us).Some? && LastQuestion(us).value.questionNumber == Some(n)
  }

  /** A question enters the log exactly if it obeys the schema, carries the next number and, when it
      follows up, hangs on the root question of the branch under way. */
  lemma QuestionAcceptedIff(l: Log, d: QuestionDraft, u: Utterance)
    requires l.floor >= 0
    requires u == Utterance(Some(d.number), Some(d.parent), Interviewer, d.content, d.spokenAt,
                            Some(d.kind), d.followUpType, d.reason, d.ref)
    ensures CheckQuestion(l, d) == Ok(u) <==>
              && ObeysSchema(u) && IsNext(l, d.number)
              && (d.kind == FollowUp ==>
                    && CurrentRoot(l.utterances) == Some(d.parent)
                    && var root := QuestionFor(l.utterances, d.parent);
                       root.Some? && (root.value.questionType == Some(Initial) || root.value.questionType == Some(Topic)))
    ensures CheckQuestion(l, d).Ok? ==> CheckQuestion(l, d) == Ok(u)
  {
    ValidMeans(u);
  }

  /** An answer belongs to the last question: it carries that one's number and branch. Without a
      question there is nothing to answer. */
  lemma AnswerAcceptedIff(l: Log, content: string, spokenAt: Time)
    ensures var q, r := LastQuestion(l.utterances), CheckAnswer(l, content, spokenAt);
            && (r == Err(NoQuestion) <==> forall u | u in l.utterances :: !IsQuestion(u))
            && (q.Some? && Valid(q.value) ==> (r.Ok? <==> content != "" && spokenAt.offset == Some(0)))
            && (r.Ok? ==>
                  && r.value.speaker.Candidate? && r.value.content == content && r.value.spokenAt == spokenAt
                  && q.Some? && r.value.questionNumber == q.value.questionNumber && r.value.parent == q.value.parent)
  {
  }

  /** A closing remark is refused only for being empty or not in UTC, and stands outside all branches. */
  lemma ClosingAcceptedIff(content: string, spokenAt: Time, reason: Option<string>)
    ensures var r := CheckClosing(content, spokenAt, reason);
            && (r.Ok? <==> content != "" && spokenAt.offset == Some(0))
            && (r.Ok? ==> IsClosing(r.value) && r.value.content == content && r.value.spokenAt == spokenAt
                          && r.value.reason == reason && r.value.questionNumber.None? && r.value.parent.None?)
  {
  }
}
