/** What becomes of the orchestrator's structured reply, and the contract on every decision. */
module Orchestrator {
  import opened Wrappers
  import opened Utterances
  import opened Conversation

  datatype Action = FOLLOW_UP | NEXT_TOPIC | FINAL_QUESTION | END
  datatype Source = ORCHESTRATOR | FORCED | FALLBACK

  datatype Decision = Decision(
    action: Action, source: Source, followUpType: Option<FollowUpType>, reason: Option<string>, ref: Option<int>)

  /** The parsed tool call; `reason` is already stripped of surrounding white space. */
  datatype Reply = Reply(reason: string, action: Action, followUpType: Option<FollowUpType>, ref: Option<int>)

  function Plain(action: Action, source: Source): Decision {
    Decision(action, source, None, None, None)
  }

  /** The direction that is safe without an evaluation: a new topic, or the last question. */
  function SafeDecision(wrapUp: bool, source: Source): Decision {
    Plain(if wrapUp then FINAL_QUESTION else NEXT_TOPIC, source)
  }

  /** The two response schemas allow different actions. */
  predicate Allowed(wrapUp: bool, action: Action) {
    if wrapUp then action != NEXT_TOPIC else action == FOLLOW_UP || action == NEXT_TOPIC
  }

  /** A contradiction must point at a question that exists outside the current branch. */
  predicate IsValidRef(us: seq<Utterance>, ref: Option<int>) {
    && ref.Some?
    && var q := QuestionFor(us, ref.value);
       q.Some? && q.value.parent != CurrentRoot(us)
  }

  /** decide(): `reply` is None when the call, the parsing or the schema validation failed. */
  function Decide(us: seq<Utterance>, wrapUp: bool, reply: Option<Reply>): Decision {
    if reply.None? || !Allowed(wrapUp, reply.value.action) then SafeDecision(wrapUp, FALLBACK) else
    var r := reply.value;
    if r.reason == "" then SafeDecision(wrapUp, FALLBACK)
    else if r.action != FOLLOW_UP then Decision(r.action, ORCHESTRATOR, None, Some(r.reason), None)
    else if r.followUpType.None? then SafeDecision(wrapUp, FALLBACK)
    else if r.followUpType.value != Consistency then
      Decision(FOLLOW_UP, ORCHESTRATOR, r.followUpType, Some(r.reason), None)
    else if !IsValidRef(us, r.ref) then Decision(FOLLOW_UP, ORCHESTRATOR, Some(Deepen), Some(r.reason), None)
    else Decision(FOLLOW_UP, ORCHESTRATOR, Some(Consistency), Some(r.reason), r.ref)
  }

  /** The contract on a decision: whatever the model answered, the reason is there exactly when
      the orchestrator judged, wrap-up opens no topic, and a reference is there exactly for a
      CONSISTENCY follow-up, where it names an existing question of another branch. */
  ghost predicate Contract(us: seq<Utterance>, wrapUp: bool, d: Decision) {
    && Allowed(wrapUp, d.action)
    && (d.reason.Some? <==> d.source == ORCHESTRATOR)
    && (d.reason.Some? ==> d.reason.value != "")
    && (d.followUpType.Some? <==> d.action == FOLLOW_UP)
    && (d.ref.Some? <==> d.followUpType == Some(Consistency))
    && (d.ref.Some? ==>
          exists u | u in us :: IsQuestion(u) && u.questionNumber == d.ref && u.parent != CurrentRoot(us))
    && (d.action == FOLLOW_UP || d.action == END ==> d.source == ORCHESTRATOR)
  }

  lemma DecideKeepsContract(us: seq<Utterance>, wrapUp: bool, reply: Option<Reply>)
    ensures Contract(us, wrapUp, Decide(us, wrapUp, reply))
  {
    var d := Decide(us, wrapUp, reply);
    if d.ref.Some? {
      var q := QuestionFor(us, d.ref.value).value;
      assert q in us && IsQuestion(q) && q.questionNumber == d.ref;
    }
  }

  /** A reply that can be acted on. */
  predicate Usable(wrapUp: bool, reply: Option<Reply>) {
    && reply.Some? && Allowed(wrapUp, reply.value.action) && reply.value.reason != ""
    && (reply.value.action == FOLLOW_UP ==> reply.value.followUpType.Some?)
  }

  /** A usable reply is followed, with its reason; the one thing changed is a contradiction that
      points nowhere, which is asked as a deepening question. Any other reply gets the safe direction. */
  lemma DecideFollowsReply(us: seq<Utterance>, wrapUp: bool, reply: Option<Reply>)
    ensures var d := Decide(us, wrapUp, reply);
            if !Usable(wrapUp, reply) then
              d.source == FALLBACK && d.action == (if wrapUp then FINAL_QUESTION else NEXT_TOPIC)
            else
              && d.source == ORCHESTRATOR && d.action == reply.value.action && d.reason == Some(reply.value.reason)
              && (d.ref.Some? <==> d.action == FOLLOW_UP && reply.value.followUpType == Some(Consistency)
                                   && IsValidRef(us, reply.value.ref))
              && (d.ref.Some? ==> d.ref == reply.value.ref)
              && (d.action == FOLLOW_UP && d.followUpType != reply.value.followUpType ==>
                    d.followUpType == Some(Deepen) && reply.value.followUpType == Some(Consistency) && d.ref.None?)
  {
  }

  // ------------------------------------------------------------------ code-first decisions

  /** Cases the code decides without asking the orchestrator. */
  predicate Forced(us: seq<Utterance>, maxFollowUps: nat) {
    || !HasValidCurrentRoot(us)
    || !HasTopicOrFollowUp(us)
    || FollowUpsInCurrentBranch(us) >= maxFollowUps
  }

  /** Every decision a turn can act on, given the log it was taken on. */
  ghost predicate Legal(us: seq<Utterance>, maxFollowUps: nat, wrapUp: bool, d: Decision) {
    && Contract(us, wrapUp, d)
    && (d.source == ORCHESTRATOR ==> !Forced(us, maxFollowUps))
  }

  /** A contradiction that points at a question of another branch is asked as one, about that question,
      as long as numbers are not used in two branches. */
  lemma ContradictionIsKept(us: seq<Utterance>, wrapUp: bool, reply: Reply, u: Utterance)
    requires reply.action == FOLLOW_UP && reply.followUpType == Some(Consistency) && reply.reason != ""
    requires u in us && IsQuestion(u) && reply.ref == u.questionNumber && u.parent != CurrentRoot(us)
    requires forall v | v in us && IsQuestion(v) && v.questionNumber == u.questionNumber :: v.parent == u.parent
    ensures Decide(us, wrapUp, Some(reply))
            == Decision(FOLLOW_UP, ORCHESTRATOR, Some(Consistency), Some(reply.reason), u.questionNumber)
  {
    var q := QuestionFor(us, u.questionNumber.value);
    assert q.Some? && q.value in us && IsQuestion(q.value);
  }
}
