/** What a session that started fresh can look like: numbering, follow-ups, references, times. */
module FreshSession {
  import opened Wrappers
  import opened Utterances
  import opened Conversation
  import opened Orchestrator
  import opened TurnProtocol
  import opened TurnInvariant
  import opened TurnFrame
  import opened TurnTheorems

  function FreshRun(maxFollowUps: nat, now: int, es: seq<Event>): State {
    Session(Log([], 0), maxFollowUps, now, es)
  }

  /** The history of a log that grew from nothing. */
  ghost predicate Grown(us: seq<Utterance>, os: seq<Origin>, maxFollowUps: nat) {
    WellFormed(us) && OriginsInv(Log(us, 0), os, 0, maxFollowUps)
  }

  lemma FreshRunGrown(maxFollowUps: nat, now: int, es: seq<Event>)
    ensures var s := FreshRun(maxFollowUps, now, es);
            Grown(Said(s), s.origins, maxFollowUps) && s.log.floor == 0 && s.kept == 0
  {
    GoodSession(Log([], 0), maxFollowUps, now, es);
    SessionFrame(Log([], 0), maxFollowUps, now, es);
  }

  /** Where one utterance of a grown log comes from. */
  lemma GrownAt(us: seq<Utterance>, os: seq<Origin>, m: nat, i: nat)
    requires Grown(us, os, m) && i < |us|
    ensures Valid(us[i]) && |os| == |us|
    ensures OriginOk(Log(us[..i], 0), us[i], os[i], m) && os[i] != Recovered
  {
    WellFormedValid(us);
    assert us[i] in us;
    assert Before(Log(us, 0), i) == Log(us[..i], 0);
    assert OriginAt(Log(us, 0), os, i, m);
  }

  /** The origin of an utterance, read off its type. */
  lemma OriginTells(before: Log, u: Utterance, o: Origin, m: nat)
    requires OriginOk(before, u, o, m) && Valid(u) && o != Recovered
    ensures IsQuestion(u) <==> o.Opening? || o.Asked?
    ensures IsQuestion(u) ==> u.questionNumber == Some(LastNumber(before) + 1)
    ensures o.Opening? <==> u.questionType == Some(Initial)
    ensures o.Opening? ==> before.utterances == []
    ensures o.Asked? ==> before.utterances != [] && o.basis == before.utterances
  {
  }

  lemma FollowUpTells(before: Log, u: Utterance, o: Origin, m: nat)
    requires OriginOk(before, u, o, m) && Valid(u) && o != Recovered && IsFollowUp(u)
    ensures o.Asked? && u.parent == CurrentRoot(before.utterances)
    ensures !Forced(before.utterances, m) && Contract(before.utterances, o.wrapUp, o.decision)
    ensures u.ref == o.decision.ref && u.followUpType == o.decision.followUpType
  {
  }

  /** A log's first utterance is its opening question, or its closing; no opening comes later. */
  lemma GrownOpening(us: seq<Utterance>, os: seq<Origin>, m: nat, i: nat)
    requires Grown(us, os, m) && i < |us|
    ensures us[i].questionType == Some(Initial) ==> i == 0
    ensures i == 0 ==> us[0].questionType == Some(Initial) || IsClosing(us[0])
  {
    GrownAt(us, os, m, i);
    OriginTells(Log(us[..i], 0), us[i], os[i], m);
    if i == 0 { assert LastQuestion(us[..0]).None?; }
  }

  lemma GrownFollowUp(us: seq<Utterance>, os: seq<Origin>, m: nat, i: nat)
    requires Grown(us, os, m) && i < |us| && IsFollowUp(us[i])
    ensures us[i].parent == CurrentRoot(us[..i])
    ensures HasTopicOrFollowUp(us[..i]) && FollowUpsInCurrentBranch(us[..i]) < m
    ensures us[i].followUpType == Some(Consistency) ==>
              exists u | u in us[..i] :: IsQuestion(u) && u.questionNumber == us[i].ref && u.parent != us[i].parent
  {
    GrownAt(us, os, m, i);
    FollowUpTells(Log(us[..i], 0), us[i], os[i], m);
  }

  // ------------------------------------------------------------------ numbers

  function Questions(us: seq<Utterance>): nat {
    if us == [] then 0 else Questions(us[..|us| - 1]) + (if IsQuestion(us[|us| - 1]) then 1 else 0)
  }

  lemma {:induction false} GrownCounts(us: seq<Utterance>, os: seq<Origin>, m: nat, n: nat)
    requires Grown(us, os, m) && n <= |us|
    ensures LastNumber(Log(us[..n], 0)) == Questions(us[..n])
  {
    if n > 0 {
      GrownCounts(us, os, m, n - 1);
      GrownAt(us, os, m, n - 1);
      OriginTells(Log(us[..n - 1], 0), us[n - 1], os[n - 1], m);
      CountOne(us[..n - 1], us[n - 1]);
      assert us[..n] == us[..n - 1] + [us[n - 1]];
    }
  }

  lemma CountOne(us: seq<Utterance>, u: Utterance)
    requires LastNumber(Log(us, 0)) == Questions(us)
    requires IsQuestion(u) ==> u.questionNumber == Some(LastNumber(Log(us, 0)) + 1)
    ensures LastNumber(Log(us + [u], 0)) == Questions(us + [u])
  {
    LastQuestionAppend(us, u);
    assert (us + [u])[..|us|] == us;
  }

  lemma GrownNumbers(us: seq<Utterance>, os: seq<Origin>, m: nat, i: nat)
    requires Grown(us, os, m) && i < |us| && IsQuestion(us[i])
    ensures us[i].questionNumber == Some(Questions(us[..i]) + 1)
  {
    GrownAt(us, os, m, i);
    OriginTells(Log(us[..i], 0), us[i], os[i], m);
    GrownCounts(us, os, m, i);
  }

  // ------------------------------------------------------------------ follow-ups

  lemma {:induction false} GrownFollowUps(us: seq<Utterance>, os: seq<Origin>, m: nat, n: nat, root: int)
    requires Grown(us, os, m) && n <= |us|
    ensures FollowUps(us[..n], root) <= m
  {
    if n > 0 {
      GrownFollowUps(us, os, m, n - 1, root);
      if IsFollowUp(us[n - 1]) { GrownFollowUp(us, os, m, n - 1); }
      assert us[..n][..n - 1] == us[..n - 1];
    }
  }

  lemma {:induction false} LastQuestionIndex(us: seq<Utterance>) returns (j: nat)
    requires LastQuestion(us).Some?
    ensures j < |us| && LastQuestion(us) == Some(us[j]) && IsQuestion(us[j])
    ensures forall k | j < k < |us| :: !IsQuestion(us[k])
  {
    if IsQuestion(us[|us| - 1]) {
      j := |us| - 1;
    } else {
      j := LastQuestionIndex(us[..|us| - 1]);
    }
  }

  /** A follow-up continues the branch of the last question before it, and that is not the
      opening question: a topic was opened first. */
  lemma ContinuedQuestion(us: seq<Utterance>, os: seq<Origin>, m: nat, i: nat) returns (j: nat)
    requires Grown(us, os, m) && i < |us| && IsFollowUp(us[i])
    ensures 0 < j < i && IsQuestion(us[j]) && us[j].parent == us[i].parent
  {
    GrownFollowUp(us, os, m, i);
    var k := TopicBefore(us, i);
    GrownAt(us, os, m, k);
    GrownOpening(us, os, m, 0);
    j := LastQuestionIndex(us[..i]);
    assert us[..i][j] == us[j] && us[..i][k] == us[k];
  }

  lemma TopicBefore(us: seq<Utterance>, i: nat) returns (k: nat)
    requires i <= |us| && HasTopicOrFollowUp(us[..i])
    ensures k < i && (us[k].questionType == Some(Topic) || us[k].questionType == Some(FollowUp))
  {
    var u :| u in us[..i] && (u.questionType == Some(Topic) || u.questionType == Some(FollowUp));
    k :| 0 <= k < i && us[..i][k] == u;
  }

  lemma {:induction false} GrownFollowUpRoot(us: seq<Utterance>, os: seq<Origin>, m: nat, i: nat)
    requires Grown(us, os, m) && i < |us| && IsFollowUp(us[i])
    ensures us[i].parent.Some? && us[0].questionNumber.Some? && us[0].questionNumber.value < us[i].parent.value
  {
    var j := ContinuedQuestion(us, os, m, i);
    if IsFollowUp(us[j]) {
      GrownFollowUpRoot(us, os, m, j);
    } else {
      RootIsLater(us, os, m, j);
    }
  }

  lemma RootIsLater(us: seq<Utterance>, os: seq<Origin>, m: nat, j: nat)
    requires Grown(us, os, m) && 0 < j < |us| && IsQuestion(us[j]) && !IsFollowUp(us[j])
    ensures us[j].parent.Some? && us[0].questionNumber.Some? && us[0].questionNumber.value < us[j].parent.value
  {
    GrownAt(us, os, m, j);
    GrownAt(us, os, m, 0);
    GrownOpening(us, os, m, 0);
    WellFormedMeans(us);
  }

  lemma GrownReference(us: seq<Utterance>, os: seq<Origin>, m: nat, i: nat) returns (j: nat)
    requires Grown(us, os, m) && i < |us| && IsFollowUp(us[i]) && us[i].followUpType == Some(Consistency)
    ensures j < i && IsQuestion(us[j]) && us[j].questionNumber == us[i].ref && us[j].parent != us[i].parent
  {
    GrownFollowUp(us, os, m, i);
    var q :| q in us[..i] && IsQuestion(q) && q.questionNumber == us[i].ref && q.parent != us[i].parent;
    j :| 0 <= j < i && us[..i][j] == q;
  }

  /** No branch gets more than M follow-ups, none hangs on the opening question, and a CONSISTENCY
      question refers to an earlier question of another branch. */
  lemma FreshFollowUps(maxFollowUps: nat, now: int, es: seq<Event>, root: int, i: nat)
    requires i < |Said(FreshRun(maxFollowUps, now, es))|
    requires IsFollowUp(Said(FreshRun(maxFollowUps, now, es))[i])
    ensures var us := Said(FreshRun(maxFollowUps, now, es));
            && FollowUps(us, root) <= maxFollowUps
            && us[0].questionType == Some(Initial) && us[i].parent != us[0].questionNumber
            && (us[i].followUpType == Some(Consistency) ==>
                  exists j :: 0 <= j < i && IsQuestion(us[j]) && us[j].questionNumber == us[i].ref
                              && us[j].parent != us[i].parent)
  {
    var s := FreshRun(maxFollowUps, now, es);
    FreshRunGrown(maxFollowUps, now, es);
    GrownBranches(Said(s), s.origins, maxFollowUps, root, i);
  }

  lemma GrownBranches(us: seq<Utterance>, os: seq<Origin>, m: nat, root: int, i: nat)
    requires Grown(us, os, m) && i < |us| && IsFollowUp(us[i])
    ensures FollowUps(us, root) <= m
    ensures us[0].questionType == Some(Initial) && us[i].parent != us[0].questionNumber
    ensures us[i].followUpType == Some(Consistency) ==>
              exists j :: 0 <= j < i && IsQuestion(us[j]) && us[j].questionNumber == us[i].ref
                          && us[j].parent != us[i].parent
  {
    GrownFollowUps(us, os, m, |us|, root);
    assert us[..|us|] == us;
    GrownFollowUpRoot(us, os, m, i);
    GrownOpening(us, os, m, 0);
    GrownAt(us, os, m, 0);
    if us[i].followUpType == Some(Consistency) {
      var j := GrownReference(us, os, m, i);
    }
  }

  /** The questions of a fresh session are numbered 1, 2, 3, ... in the order they were said. */
  lemma FreshNumbers(maxFollowUps: nat, now: int, es: seq<Event>, i: nat)
    requires i < |Said(FreshRun(maxFollowUps, now, es))|
    requires IsQuestion(Said(FreshRun(maxFollowUps, now, es))[i])
    ensures var us := Said(FreshRun(maxFollowUps, now, es));
            us[i].questionNumber == Some(Questions(us[..i]) + 1)
  {
    FreshRunGrown(maxFollowUps, now, es);
    var s := FreshRun(maxFollowUps, now, es);
    GrownNumbers(Said(s), s.origins, maxFollowUps, i);
  }

  // ------------------------------------------------------------------ branches

  /** The branch that was opened last is the current one, and numbers bound all roots. */
  ghost predicate Rooted(us: seq<Utterance>) {
    var roots := BranchRoots(us);
    && (roots == [] <==> LastQuestion(us).None?)
    && (roots != [] ==> CurrentRoot(us) == Some(roots[|roots| - 1]))
    && (forall r | r in roots :: r <= LastNumber(Log(us, 0)))
  }

  lemma RootsAppend(us: seq<Utterance>, u: Utterance)
    ensures BranchRoots(us + [u]) ==
              BranchRoots(us) + (if u.parent.Some? && u.parent.value !in BranchRoots(us) then [u.parent.value] else [])
  {
    assert (us + [u])[..|us|] == us;
  }

  lemma CurrentRootIsRoot(us: seq<Utterance>)
    requires CurrentRoot(us).Some?
    ensures CurrentRoot(us).value in BranchRoots(us)
  {
    var q := LastQuestion(us).value;
    assert q in us && q.parent == CurrentRoot(us);
  }

  /** A question opens a branch under a new, larger root; everything else stays in the current one. */
  predicate OpensOrStays(us: seq<Utterance>, u: Utterance) {
    if IsQuestion(u) && u.parent == Some(LastNumber(Log(us, 0)) + 1)
    then u.questionNumber == u.parent
    else (u.parent.None? && !IsQuestion(u))
         || (u.parent.Some? && u.parent == CurrentRoot(us)
             && (IsQuestion(u) ==> u.questionNumber.value > LastNumber(Log(us, 0))))
  }

  lemma OriginOpensOrStays(us: seq<Utterance>, u: Utterance, o: Origin, m: nat)
    requires Valid(u) && o != Recovered && OriginOk(Log(us, 0), u, o, m)
    ensures OpensOrStays(us, u)
  {
    OriginTells(Log(us, 0), u, o, m);
    if IsFollowUp(u) { FollowUpTells(Log(us, 0), u, o, m); }
  }

  lemma RootedAppend(us: seq<Utterance>, u: Utterance)
    requires Rooted(us) && OpensOrStays(us, u)
    ensures Rooted(us + [u])
  {
    RootsAppend(us, u);
    LastQuestionAppend(us, u);
    if CurrentRoot(us).Some? { CurrentRootIsRoot(us); }
  }

  lemma {:induction false} GrownRooted(us: seq<Utterance>, os: seq<Origin>, m: nat, n: nat)
    requires Grown(us, os, m) && n <= |us|
    ensures Rooted(us[..n])
  {
    if n > 0 {
      GrownRooted(us, os, m, n - 1);
      GrownAt(us, os, m, n - 1);
      OriginOpensOrStays(us[..n - 1], us[n - 1], os[n - 1], m);
      RootedAppend(us[..n - 1], us[n - 1]);
      assert us[..n] == us[..n - 1] + [us[n - 1]];
    }
  }

  lemma FreshRooted(maxFollowUps: nat, now: int, es: seq<Event>)
    ensures Rooted(Said(FreshRun(maxFollowUps, now, es)))
  {
    FreshRunGrown(maxFollowUps, now, es);
    var s := FreshRun(maxFollowUps, now, es);
    GrownRooted(Said(s), s.origins, maxFollowUps, |Said(s)|);
    assert Said(s)[..|Said(s)|] == Said(s);
  }

  // ------------------------------------------------------------------ times

  /** Answers are stamped at commit, so nothing said before them carries a later time. */
  ghost predicate Timely(us: seq<Utterance>, clock: int) {
    && (forall u | u in us :: u.spokenAt.micros <= clock)
    && (forall i, j | 0 <= i < j < |us| && IsAnswer(us[j]) :: us[i].spokenAt.micros <= us[j].spokenAt.micros)
  }

  lemma {:induction false} RunTimely(s: State, es: seq<Event>)
    requires Timely(Said(s), s.clock)
    ensures Timely(Said(Exec(s, es)), Exec(s, es).clock)
  {
    if es != [] {
      RunTimely(s, es[..|es| - 1]);
      var b := Exec(s, es[..|es| - 1]);
      var t := Exec(s, es);
      StepFollows(b, es[|es| - 1]);
      if Said(t) != Said(b) {
        var n := |Said(b)|;
        assert Said(t) == Said(b) + [Said(t)[n]];
        forall i, j | 0 <= i < j < |Said(t)| && IsAnswer(Said(t)[j])
          ensures Said(t)[i].spokenAt.micros <= Said(t)[j].spokenAt.micros
        {
          assert i < n && Said(t)[i] == Said(b)[i] && Said(b)[i] in Said(b);
          if j < n { assert Said(t)[j] == Said(b)[j]; }
        }
      }
    }
  }

  lemma FreshRunTimely(maxFollowUps: nat, now: int, es: seq<Event>)
    ensures Timely(Said(FreshRun(maxFollowUps, now, es)), FreshRun(maxFollowUps, now, es).clock)
  {
    RunTimely(SessionStart(Log([], 0), maxFollowUps, now), es);
  }
}
