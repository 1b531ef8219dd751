/** The orchestrator's context on the logs sessions really have. */
module ContextOnSessions {
  import opened Wrappers
  import opened Utterances
  import opened Conversation
  import opened TurnProtocol
  import opened FreshSession
  import opened Restore
  import Context

  lemma BranchAppend(us: seq<Utterance>, u: Utterance, root: int)
    ensures u.parent != Some(root) ==> Branch(us + [u], root) == Branch(us, root)
    ensures u.parent == Some(root) ==>
              && Branch(us + [u], root) == Branch(us, root) + [u]
              && Context.LastInterviewer(Branch(us, root) + [u]) ==
                   (if u.speaker.Interviewer? then Some(|Branch(us, root)|) else Context.LastInterviewer(Branch(us, root)))
  {
    assert (us + [u])[..|us|] == us;
    var b := Branch(us, root);
    assert (b + [u])[..|b|] == b;
  }

  /** In the current branch the last interviewer line is the last question asked. */
  lemma {:induction false} TailStartsAtLastQuestion(us: seq<Utterance>, root: int)
    requires (forall u | u in us :: Valid(u)) && CurrentRoot(us) == Some(root)
    ensures var i := Context.LastInterviewer(Branch(us, root));
            i.Some? && Some(Branch(us, root)[i.value]) == LastQuestion(us)
  {
    var front, u := us[..|us| - 1], us[|us| - 1];
    assert us == front + [u] && Valid(u) by { assert u in us; }
    BranchAppend(front, u, root);
    if !IsQuestion(u) {
      assert forall v | v in front :: v in us;
      TailStartsAtLastQuestion(front, root);
      assert u.parent == Some(root) ==> !u.speaker.Interviewer?;
    }
  }

  /** On the log of a fresh session the context is always found: its last branch is the current one
      and the shortest candidate starts at the last question asked. */
  lemma FreshContextIsFound(maxFollowUps: nat, now: int, es: seq<Event>)
    ensures var us := Said(FreshRun(maxFollowUps, now, es)); var roots := BranchRoots(us);
            roots != [] ==>
              var last := Context.LastInterviewer(Branch(us, roots[|roots| - 1]));
              && last.Some? && Some(Branch(us, roots[|roots| - 1])[last.value]) == LastQuestion(us)
              && CurrentRoot(us) == Some(roots[|roots| - 1])
  {
    var us := Said(FreshRun(maxFollowUps, now, es));
    FreshRooted(maxFollowUps, now, es);
    FreshRunGrown(maxFollowUps, now, es);
    WellFormedValid(us);
    var roots := BranchRoots(us);
    if roots != [] { TailStartsAtLastQuestion(us, roots[|roots| - 1]); }
  }

  /** A rebuilt log need not have that question: here only an answer survived, and with a budget
      of nothing there is no context to show. */
  lemma RebuiltContextExample(at: int)
    ensures var a := Utterance(Some(1), Some(1), Candidate, "yes", Utc(at), None, None, None, None);
            var us := RebuiltLog([ToJson(a)]).utterances;
            && us == [Stored(a)] && BranchRoots(us) == [1]
            && Context.LastInterviewer(Branch(us, 1)).None?
            && forall r | Context.Shown(Context.BranchLines(us, [1], 10), 0, None, r) :: r.None?
  {
    var a := Utterance(Some(1), Some(1), Candidate, "yes", Utc(at), None, None, None, None);
    var us := [Stored(a)];
    OneIsStored(a);
    LoneBranch(Stored(a));
    NothingFits(Stored(a));
  }

  lemma LoneBranch(a: Utterance)
    requires a.parent == Some(1) && IsAnswer(a)
    ensures BranchRoots([a]) == [1] && Branch([a], 1) == [a] && Context.LastInterviewer([a]).None?
  {
    assert [a][..0] == [];
  }

  lemma NothingFits(a: Utterance)
    requires Branch([a], 1) == [a]
    ensures !Context.Fits(Context.BranchLines([a], [1], 10), 0, 0)
  {
    var line := Context.TaggedLine(a, 10);
    var branches := Context.BranchLines([a], [1], 10);
    assert |branches| == 1 && branches[0] == Context.LinesOf([a], 10) && Context.LinesOf([a], 10) == [line];
    assert branches == [[line]];
    Context.WholeBranch(branches);
    Context.FlatOne([line]);
    assert Context.Candidate(branches, 0) == line;
    assert |line| >= 2;
  }
}
