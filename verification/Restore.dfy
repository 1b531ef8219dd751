/** Rebuilding a session from its Redis copy and deriving where it stood. */
module Restore {
  import opened Wrappers
  import opened Utterances
  import opened Conversation
  import opened EndStates
  import opened Subsequences

  datatype ResumeMode = ResumeRunning | ResumeWaitingFinalAnswer | CloseFinalAnswered | CloseRecovered

  // ------------------------------------------------------------------ rebuilding

  /** The items that parse, in order; the others are dropped. */
  function Parsed(items: seq<Dict>): seq<Utterance> {
    if items == [] then [] else
    var r := FromJson(items[|items| - 1]);
    Parsed(items[..|items| - 1]) + (if r.Ok? then [r.value] else [])
  }

  /** The largest number in a log, 0 when there is none. */
  function LargestNumber(us: seq<Utterance>): (n: int)
    ensures n >= 0
    ensures forall u | u in us && u.questionNumber.Some? :: u.questionNumber.value <= n
    ensures n == 0 || exists u | u in us :: u.questionNumber == Some(n)
  {
    if us == [] then 0 else
    var m := LargestNumber(us[..|us| - 1]);
    var u := us[|us| - 1];
    assert us == us[..|us| - 1] + [u];
    if u.questionNumber.Some? then Max(m, u.questionNumber.value) else m
  }

  function RebuiltLog(items: seq<Dict>): Log {
    Log(Parsed(items), LargestNumber(Parsed(items)))
  }

  /** One more item, and what the reading of it was. */
  lemma ParsedOneMore(items: seq<Dict>, i: nat, r: Result<Utterance, ParseError>)
    requires i < |items| && r == FromJson(items[i])
    ensures r.Err? ==> Parsed(items[..i + 1]) == Parsed(items[..i])
    ensures r.Ok? ==> Parsed(items[..i + 1]) == Parsed(items[..i]) + [r.value]
    ensures r.Ok? ==> var n := LargestNumber(Parsed(items[..i]));
                      LargestNumber(Parsed(items[..i + 1]))
                      == if r.value.questionNumber.Some? then Max(n, r.value.questionNumber.value) else n
  {
    assert items[..i + 1][..i] == items[..i];
    var us := Parsed(items[..i]);
    if r.Ok? { assert (us + [r.value])[..|us|] == us; }
  }

  method CollectItems(items: seq<Dict>) returns (us: seq<Utterance>, largest: int, dropped: nat)
    ensures us == Parsed(items) && largest == LargestNumber(us)
    ensures dropped == |items| - |us|
  {
    us, largest, dropped := [], 0, 0;
    for i := 0 to |items|
      invariant us == Parsed(items[..i])
      invariant largest == LargestNumber(Parsed(items[..i]))
      invariant dropped == i - |us|
    {
      var r := FromJson(items[i]);
      ParsedOneMore(items, i, r);
      if r.Ok? {
        us := us + [r.value];
        if r.value.questionNumber.Some? { largest := Max(largest, r.value.questionNumber.value); }
      } else {
        dropped := dropped + 1;
      }
    }
    assert items[..|items|] == items;
  }

  method RebuildConversationLog(items: seq<Dict>) returns (log: ConversationLog, dropped: nat)
    ensures fresh(log) && log.View() == RebuiltLog(items)
    ensures dropped == |items| - |Parsed(items)|
  {
    log := new ConversationLog();
    var us, largest;
    us, largest, dropped := CollectItems(items);
    log.utterances, log.numberFloor := us, largest;
  }

  // ------------------------------------------------------------------ deriving the mode

  /** The closest preceding question with a number. */
  function NearestQuestion(us: seq<Utterance>, number: Option<int>): (q: Option<Utterance>)
    ensures q.Some? ==> q.value in us && q.value.speaker.Interviewer? && q.value.questionNumber == number
  {
    if us == [] then None
    else if us[|us| - 1].speaker.Interviewer? && us[|us| - 1].questionNumber == number then Some(us[|us| - 1])
    else NearestQuestion(us[..|us| - 1], number)
  }

  function DeriveMode(us: seq<Utterance>): (ResumeMode, Option<EndCause>) {
    if us == [] then (ResumeRunning, None) else
    var last := us[|us| - 1];
    if last.questionType == Some(Closing) then (CloseRecovered, Some(RECOVERED_CLOSING)) else
    var q := NearestQuestion(us[..|us| - 1], last.questionNumber);
    if last.speaker.Candidate? && last.questionNumber.Some? && q.Some? && q.value.questionType == Some(Final)
    then (CloseFinalAnswered, Some(EndCause.FINAL_QUESTION))
    else if last.speaker.Interviewer? && last.questionType == Some(Final)
    then (ResumeWaitingFinalAnswer, None)
    else (ResumeRunning, None)
  }

  /** How far along a mode is. */
  function ModeRank(m: ResumeMode): nat {
    match m
    case ResumeRunning => 0 case ResumeWaitingFinalAnswer => 1
    case CloseFinalAnswered => 2 case CloseRecovered => 3
  }

  /** The structural meaning of the modes on well-formed logs. */
  function StructuralMode(us: seq<Utterance>): ResumeMode {
    if HasClosing(us) then CloseRecovered
    else if !HasFinal(us) then ResumeRunning
    else if IsFinal(us[|us| - 1]) then ResumeWaitingFinalAnswer
    else CloseFinalAnswered
  }

  /** After a final question only its answer or a closing can stand. */
  lemma FinalIsNearTheEnd(us: seq<Utterance>)
    requires WellFormed(us) && HasFinal(us) && !HasClosing(us)
    ensures us != []
    ensures var n := |us| - 1;
            IsFinal(us[n]) || (n > 0 && IsFinal(us[n - 1]) && IsAnswer(us[n]) && us[n].questionNumber == us[n - 1].questionNumber)
  {
    WellFormedMeans(us);
    WellFormedValid(us);
    var f :| f in us && IsFinal(f);
    var i :| 0 <= i < |us| && us[i] == f;
    var n := |us| - 1;
    assert us[n] in us && !IsClosing(us[n]);
    if i < n { assert IsQuestion(us[n]) || IsAnswer(us[n]); }
  }

  lemma NoFinalNearby(us: seq<Utterance>, number: Option<int>)
    requires !HasFinal(us)
    ensures var q := NearestQuestion(us, number); q.Some? ==> !IsFinal(q.value)
  {
  }

  function CauseOf(m: ResumeMode): Option<EndCause> {
    match m
    case CloseRecovered => Some(RECOVERED_CLOSING)
    case CloseFinalAnswered => Some(EndCause.FINAL_QUESTION)
    case _ => None
  }

  lemma ClosingIsLast(us: seq<Utterance>)
    requires WellFormed(us) && HasClosing(us)
    ensures us != [] && IsClosing(us[|us| - 1])
  {
    WellFormedMeans(us);
    var c :| c in us && IsClosing(c);
    var i :| 0 <= i < |us| && us[i] == c;
  }

  lemma LastIsIn(us: seq<Utterance>)
    requires us != []
    ensures us[|us| - 1] in us
  {
  }

  lemma FinalDecides(us: seq<Utterance>)
    requires WellFormed(us) && HasFinal(us) && !HasClosing(us)
    ensures us != [] && DeriveMode(us) == (StructuralMode(us), CauseOf(StructuralMode(us)))
  {
    FinalIsNearTheEnd(us);
    WellFormedValid(us);
    LastIsIn(us);
    if !IsFinal(us[|us| - 1]) {
      var front := us[..|us| - 1];
      assert front[|front| - 1] == us[|us| - 2] && us[|us| - 2] in us;
    }
  }

  /** On a well-formed log only the last utterances need to be looked at. */
  lemma ModeIsStructural(us: seq<Utterance>)
    requires WellFormed(us)
    ensures DeriveMode(us) == (StructuralMode(us), CauseOf(StructuralMode(us)))
  {
    if HasClosing(us) {
      ClosingIsLast(us);
    } else if HasFinal(us) {
      FinalDecides(us);
    } else if us != [] {
      LastIsIn(us);
      var front := us[..|us| - 1];
      assert forall u | u in front :: u in us;
      NoFinalNearby(front, us[|us| - 1].questionNumber);
    }
  }

  // ------------------------------------------------------------------ what a lossy copy keeps

  lemma {:induction false} SubKeepsWellFormed(ks: seq<Utterance>, us: seq<Utterance>)
    requires WellFormed(us) && Sub(ks, us)
    ensures WellFormed(ks)
    decreases |us|
  {
    if ks != [] {
      var front := us[..|us| - 1];
      if Sub(ks, front) {
        SubKeepsWellFormed(ks, front);
      } else {
        var kept := ks[..|ks| - 1];
        var u := us[|us| - 1];
        SubKeepsWellFormed(kept, front);
        SubIn(kept, front);
        if IsAnswer(u) && HasFinal(kept) {
          FinalSurvivesLast(kept, front);
        }
        assert Fits(kept, u);
      }
    }
  }

  /** In a log that ends with its final question, a copy that has the final question ends with it. */
  lemma FinalSurvivesLast(ks: seq<Utterance>, us: seq<Utterance>)
    requires WellFormed(us) && Sub(ks, us) && HasFinal(ks) && us != [] && IsFinal(us[|us| - 1])
    ensures ks != [] && ks[|ks| - 1] == us[|us| - 1]
  {
    if Sub(ks, us[..|us| - 1]) {
      SubIn(ks, us[..|us| - 1]);
    }
  }

  /** A gap can only make the session look less far along, never further. */
  lemma GapsNeverAdvance(ks: seq<Utterance>, us: seq<Utterance>)
    requires WellFormed(us) && Sub(ks, us)
    ensures ModeRank(DeriveMode(ks).0) <= ModeRank(DeriveMode(us).0)
  {
    SubKeepsWellFormed(ks, us);
    ModeIsStructural(ks);
    ModeIsStructural(us);
    SubIn(ks, us);
    if us != [] && HasFinal(ks) && !HasClosing(us) && IsFinal(us[|us| - 1]) {
      FinalSurvivesLast(ks, us);
    }
  }

  // ------------------------------------------------------------------ through JSON and back

  /** What an utterance is after a trip through its JSON form. */
  function Stored(u: Utterance): Utterance {
    u.(spokenAt := WholeSeconds(u.spokenAt))
  }

  lemma WrittenIsRead(items: seq<Dict>, u: Utterance)
    requires Valid(u)
    ensures Parsed(items + [ToJson(u)]) == Parsed(items) + [Stored(u)]
  {
    assert (items + [ToJson(u)])[..|items|] == items;
    RoundTrip(u);
  }

  lemma MapOneMore<S, T>(f: S -> T, a: seq<S>)
    requires a != []
    ensures Map(f, a) == Map(f, a[..|a| - 1]) + [f(a[|a| - 1])]
  {
  }

  lemma {:induction false} ParsedIsStored(items: seq<Dict>, us: seq<Utterance>)
    requires (forall u | u in us :: Valid(u)) && items == Map(ToJson, us)
    ensures Parsed(items) == Map(Stored, us)
    decreases |us|
  {
    if us != [] {
      var front, u := us[..|us| - 1], us[|us| - 1];
      assert u in us && forall v | v in front :: v in us;
      ParsedIsStored(Map(ToJson, front), front);
      WrittenIsRead(Map(ToJson, front), u);
      MapOneMore(ToJson, us);
      MapOneMore(Stored, us);
    }
  }

  lemma OneIsStored(u: Utterance)
    requires Valid(u)
    ensures Parsed([ToJson(u)]) == [Stored(u)]
  {
    assert Map(ToJson, [u]) == [ToJson(u)] && Map(Stored, [u]) == [Stored(u)];
    ParsedIsStored([ToJson(u)], [u]);
  }

  lemma {:induction false} SubParsed(a: seq<Dict>, b: seq<Dict>)
    requires Sub(a, b)
    ensures Sub(Parsed(a), Parsed(b))
    decreases |b|
  {
    if a != [] {
      var x := FromJson(b[|b| - 1]);
      var pb := Parsed(b[..|b| - 1]);
      assert pb + [] == pb;
      if Sub(a, b[..|b| - 1]) {
        SubParsed(a, b[..|b| - 1]);
        if x.Ok? { SubExtend(Parsed(a), pb, x.value); }
      } else {
        SubParsed(a[..|a| - 1], b[..|b| - 1]);
        assert Parsed(a[..|a| - 1]) + [] == Parsed(a[..|a| - 1]);
        if x.Ok? { SubExtend(Parsed(a[..|a| - 1]), pb, x.value); }
      }
    }
  }

  lemma {:induction false} StoredKeepsWellFormed(us: seq<Utterance>)
    requires WellFormed(us)
    ensures WellFormed(Map(Stored, us))
  {
    if us != [] {
      var front := us[..|us| - 1];
      var u := us[|us| - 1];
      StoredKeepsWellFormed(front);
      var m := Map(Stored, us);
      assert m[..|m| - 1] == Map(Stored, front);
      StoredKeepsMembers(front);
      assert Violation(Stored(u)) == Violation(u);
      assert Fits(Map(Stored, front), Stored(u));
    }
  }

  lemma StoredKeepsMembers(us: seq<Utterance>)
    ensures HasFinal(Map(Stored, us)) <==> HasFinal(us)
    ensures HasClosing(Map(Stored, us)) <==> HasClosing(us)
    ensures forall x | x in Map(Stored, us) :: exists u | u in us :: x == Stored(u)
  {
    forall u | u in us
      ensures Stored(u) in Map(Stored, us)
    {
      var i :| 0 <= i < |us| && us[i] == u;
      assert Map(Stored, us)[i] == Stored(u);
    }
  }

  lemma ParsedIsSub(items: seq<Dict>, us: seq<Utterance>)
    requires WellFormed(us) && Sub(items, Map(ToJson, us))
    ensures Sub(Parsed(items), Map(Stored, us))
  {
    WellFormedValid(us);
    ParsedIsStored(Map(ToJson, us), us);
    SubParsed(items, Map(ToJson, us));
  }

  /** The rebuilt log of any lossy copy is well formed and counts from above every number it has. */
  lemma RebuiltIsSound(items: seq<Dict>, us: seq<Utterance>)
    requires WellFormed(us) && Sub(items, Map(ToJson, us))
    ensures WellFormed(RebuiltLog(items).utterances) && Bounded(RebuiltLog(items))
    ensures Sub(RebuiltLog(items).utterances, Map(Stored, us))
    ensures ModeRank(DeriveMode(Parsed(items)).0) <= ModeRank(DeriveMode(us).0)
  {
    ParsedIsSub(items, us);
    GapsOfStored(Parsed(items), us);
    LargestBounds(Parsed(items));
  }

  lemma LargestBounds(us: seq<Utterance>)
    ensures Bounded(Log(us, LargestNumber(us)))
  {
  }

  lemma GapsOfStored(kept: seq<Utterance>, us: seq<Utterance>)
    requires WellFormed(us) && Sub(kept, Map(Stored, us))
    ensures WellFormed(kept) && ModeRank(DeriveMode(kept).0) <= ModeRank(DeriveMode(us).0)
  {
    StoredKeepsWellFormed(us);
    SubKeepsWellFormed(kept, Map(Stored, us));
    GapsNeverAdvance(kept, Map(Stored, us));
    StoredKeepsMode(us);
  }

  lemma StoredKeepsMode(us: seq<Utterance>)
    requires WellFormed(us)
    ensures DeriveMode(Map(Stored, us)).0 == DeriveMode(us).0
  {
    StoredKeepsWellFormed(us);
    ModeIsStructural(us);
    ModeIsStructural(Map(Stored, us));
    StoredKeepsMembers(us);
  }

  /** Writing a rebuilt log out again gives back the items it was built from, so the list a second
      session goes on appending to is still the copy of its log. */
  lemma {:induction false} RewrittenCopyIsTheSame(items: seq<Dict>, us: seq<Utterance>)
    requires (forall u | u in us :: Valid(u)) && Sub(items, Map(ToJson, us))
    ensures Map(ToJson, Parsed(items)) == items
  {
    if items == [] {
    } else {
      SubIn(items, Map(ToJson, us));
      var front := items[..|items| - 1];
      SubDrop(items, |items| - 1);
      assert items[..|items| - 1] + items[|items| - 1 + 1..] == front;
      SubTrans(front, items, Map(ToJson, us));
      RewrittenCopyIsTheSame(front, us);
      var d := items[|items| - 1];
      assert d in items;
      var i :| 0 <= i < |us| && Map(ToJson, us)[i] == d;
      RoundTrip(us[i]);
      WrittenTwice(us[i]);
      assert Parsed(items) == Parsed(front) + [Stored(us[i])];
      assert Map(ToJson, Parsed(items)) == Map(ToJson, Parsed(front)) + [ToJson(Stored(us[i]))];
    }
  }

  lemma WrittenTwice(u: Utterance)
    ensures ToJson(Stored(u)) == ToJson(u)
  {
    assert WholeSeconds(WholeSeconds(u.spokenAt)) == WholeSeconds(u.spokenAt);
    forall k: Key
      ensures Entry(Stored(u), k) == Entry(u, k)
    {
    }
  }
}
