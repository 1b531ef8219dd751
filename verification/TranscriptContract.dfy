/** What the worker makes of the transcript an agent session leaves behind. */
module TranscriptContract {
  import opened Wrappers
  import opened Utterances
  import opened Conversation
  import opened Integers
  import opened TurnProtocol
  import opened TurnTheorems
  import opened FreshSession
  import opened Subsequences
  import opened Texts
  import opened Lives
  import T = Transcripts

  // ------------------------------------------------------------------ normalisation

  function RoleOf(s: string): Option<T.Role> {
    if s == "CANDIDATE" || s == "USER" then Some(T.User)
    else if s == "INTERVIEWER" then Some(T.Interviewer)
    else None
  }

  /** Only follow-ups are tails; unknown kinds count as main questions. */
  function KindOf(j: Json): T.Kind {
    if j.Str? && (j.s == "followup" || j.s == "TAIL") then T.Tail else T.Main
  }

  /** A stored utterance in the worker's terms; None when it does not validate. */
  function Normalized(d: Dict): Option<T.Line> {
    var speaker := Lookup(d, SpeakerKey);
    var number, parent := Lookup(d, QuestionNumberKey), Lookup(d, ParentQuestionNumberKey);
    var content, at := Lookup(d, ContentKey), Lookup(d, SpokenAtKey);
    if !speaker.Str? || RoleOf(speaker.s).None? || !number.Num? || !parent.Num? || !content.Str? || !at.Stamp? then None
    else Some(T.Line(number.n, parent.n, RoleOf(speaker.s).value, KindOf(Lookup(d, QuestionTypeKey)), content.s, at.at.micros))
  }

  /** Utterances without a number belong to no pair and are left out; the rest has to validate. */
  function Loaded(items: seq<Dict>): Option<seq<T.Line>> {
    if items == [] then Some([]) else
    var front, d := Loaded(items[..|items| - 1]), items[|items| - 1];
    if front.None? then None
    else if Lookup(d, QuestionNumberKey) == Null then front
    else if Normalized(d).None? then None
    else Some(front.value + [Normalized(d).value])
  }

  method LoadTranscript(items: seq<Dict>) returns (r: Option<seq<T.Line>>)
    ensures r == Loaded(items)
  {
    var lines: seq<T.Line> := [];
    for i := 0 to |items|
      invariant Loaded(items[..i]) == Some(lines)
    {
      assert items[..i + 1][..i] == items[..i];
      if Lookup(items[i], QuestionNumberKey) == Null { continue; }
      var l := Normalized(items[i]);
      if l.None? {
        LoadedFails(items, i + 1);
        return None;
      }
      lines := lines + [l.value];
    }
    assert items[..|items|] == items;
    return Some(lines);
  }

  lemma {:induction false} LoadedFails(items: seq<Dict>, n: nat)
    requires n <= |items| && Loaded(items[..n]).None?
    ensures Loaded(items).None?
    decreases |items|
  {
    if n < |items| {
      assert items[..|items| - 1][..n] == items[..n];
      LoadedFails(items[..|items| - 1], n);
    } else {
      assert items[..n] == items;
    }
  }

  function LineOf(u: Utterance): T.Line
    requires u.questionNumber.Some? && u.parent.Some?
  {
    T.Line(u.questionNumber.value, u.parent.value, if u.speaker.Interviewer? then T.Interviewer else T.User,
           if IsFollowUp(u) then T.Tail else T.Main, u.content, WholeSeconds(u.spokenAt).micros)
  }

  /** The utterances of a log that take part in pairs. */
  function Lines(us: seq<Utterance>): seq<T.Line> {
    if us == [] then [] else
    var u := us[|us| - 1];
    Lines(us[..|us| - 1]) + (if u.questionNumber.Some? && u.parent.Some? then [LineOf(u)] else [])
  }

  lemma OneNormalized(u: Utterance)
    requires Valid(u)
    ensures IsClosing(u) ==> Lookup(ToJson(u), QuestionNumberKey) == Null
    ensures !IsClosing(u) ==> u.questionNumber.Some? && u.parent.Some? && Normalized(ToJson(u)) == Some(LineOf(u))
    ensures !IsClosing(u) ==> Lookup(ToJson(u), QuestionNumberKey) != Null
  {
    if !IsClosing(u) {
      assert QuestionTypeName(Topic) != "followup" by { assert "topic"[0] != "followup"[0]; }
    }
  }

  /** What the worker reads back from the stored copy of a log. */
  lemma {:induction false} CopyLoads(us: seq<Utterance>)
    requires forall i | 0 <= i < |us| :: Valid(us[i])
    ensures Loaded(Map(ToJson, us)) == Some(Lines(us))
  {
    if us != [] {
      var front := us[..|us| - 1];
      CopyLoads(front);
      OneNormalized(us[|us| - 1]);
      var items := Map(ToJson, us);
      assert items[..|us| - 1] == Map(ToJson, front) && items[|us| - 1] == ToJson(us[|us| - 1]);
      assert IsClosing(us[|us| - 1]) ==> us[|us| - 1].questionNumber.None?;
      assert Lines(front) + [] == Lines(front);
    }
  }

  lemma LinesOneMore(us: seq<Utterance>, u: Utterance)
    ensures Lines(us + [u]) == Lines(us) + (if u.questionNumber.Some? && u.parent.Some? then [LineOf(u)] else [])
  {
    assert (us + [u])[..|us|] == us;
  }

  // ------------------------------------------------------------------ exchanges, as the log tells them

  /** Everything said under one number, in log order. */
  function Under(us: seq<Utterance>, n: int): (vs: seq<Utterance>)
    ensures forall u :: u in vs <==> u in us && u.questionNumber == Some(n)
  {
    if us == [] then [] else
    assert us == us[..|us| - 1] + [us[|us| - 1]];
    Under(us[..|us| - 1], n) + (if us[|us| - 1].questionNumber == Some(n) then [us[|us| - 1]] else [])
  }

  function Words(us: seq<Utterance>, speaker: Speaker): seq<string> {
    if us == [] then []
    else Words(us[..|us| - 1], speaker) + (if us[|us| - 1].speaker == speaker then [us[|us| - 1].content] else [])
  }

  predicate AsksOn(us: seq<Utterance>) {
    exists u | u in us :: IsFollowUp(u)
  }

  /** One exchange of a branch: what was asked under a number, nothing if a gap took the question, and
      all that was answered under it, in log order. */
  function Exchange(us: seq<Utterance>, n: int, root: int): T.Pair {
    var vs := Under(us, n);
    T.Pair(n, root, if AsksOn(vs) then T.Tail else T.Main, Words(vs, Interviewer), Words(vs, Candidate))
  }

  function Exchanges(us: seq<Utterance>, root: int, ns: seq<int>): (ps: seq<T.Pair>)
    ensures |ps| == |ns|
  {
    seq(|ns|, i requires 0 <= i < |ns| => Exchange(us, ns[i], root))
  }

  // ------------------------------------------------------------------ the worker's pairs are exchanges

  lemma UnderOneMore(us: seq<Utterance>, u: Utterance, n: int)
    ensures Under(us + [u], n) == Under(us, n) + (if u.questionNumber == Some(n) then [u] else [])
  {
    assert (us + [u])[..|us|] == us;
  }

  lemma GroupStep(us: seq<Utterance>, u: Utterance, n: int)
    requires T.Group(Lines(us), n) == Lines(Under(us, n)) && (u.questionNumber.Some? ==> u.parent.Some?)
    ensures T.Group(Lines(us + [u]), n) == Lines(Under(us + [u], n))
  {
    LinesOneMore(us, u);
    UnderOneMore(us, u, n);
    if u.questionNumber.Some? { T.GroupWith(Lines(us), LineOf(u), n); }
    if u.questionNumber == Some(n) {
      LinesOneMore(Under(us, n), u);
    } else {
      assert Lines(us) + [] == Lines(us) && Under(us, n) + [] == Under(us, n);
    }
  }

  lemma {:induction false} GroupIsUnder(us: seq<Utterance>, n: int)
    requires forall u | u in us && u.questionNumber.Some? :: u.parent.Some?
    ensures T.Group(Lines(us), n) == Lines(Under(us, n))
  {
    if us != [] {
      var front, u := us[..|us| - 1], us[|us| - 1];
      assert us == front + [u] && u in us;
      GroupIsUnder(front, n);
      GroupStep(front, u, n);
    }
  }

  ghost predicate Numbered(us: seq<Utterance>) {
    forall u | u in us :: u.questionNumber.Some? && u.parent.Some?
  }

  lemma {:induction false} LinesOfNumbered(us: seq<Utterance>)
    requires Numbered(us)
    ensures |Lines(us)| == |us| && forall i | 0 <= i < |us| :: us[i] in us && Lines(us)[i] == LineOf(us[i])
  {
    if us != [] {
      var front, u := us[..|us| - 1], us[|us| - 1];
      assert us == front + [u] && u in us;
      LinesOfNumbered(front);
    }
  }

  lemma {:induction false} ContentsAreWords(us: seq<Utterance>)
    requires Numbered(us)
    ensures T.Contents(Lines(us), T.Interviewer) == Words(us, Interviewer)
    ensures T.Contents(Lines(us), T.User) == Words(us, Candidate)
  {
    if us != [] {
      var front, u := us[..|us| - 1], us[|us| - 1];
      assert us == front + [u] && u in us;
      ContentsAreWords(front);
      assert Lines(us)[..|Lines(us)| - 1] == Lines(front);
    }
  }

  lemma {:induction false} UnderIsSub(us: seq<Utterance>, n: int)
    ensures Sub(Under(us, n), us)
  {
    if us != [] {
      var front, u := us[..|us| - 1], us[|us| - 1];
      UnderIsSub(front, n);
      assert us == front + [u];
      SubExtend(Under(front, n), front, u);
      assert Under(front, n) + [] == Under(front, n);
    }
  }

  lemma ValidNumbered(u: Utterance)
    requires Valid(u)
    ensures u.questionNumber.Some? <==> u.parent.Some?
    ensures u.questionNumber.Some? ==> IsQuestion(u) || IsAnswer(u)
    ensures IsFollowUp(u) ==> IsQuestion(u)
  {
  }

  /** Under one number only the first utterance can be a question. */
  lemma OnlyFirstAsks(us: seq<Utterance>, clock: int, n: int, i: nat, j: nat)
    requires Tidy(us, clock) && i < j < |Under(us, n)|
    ensures var vs := Under(us, n);
            IsAnswer(vs[j]) && !IsFollowUp(vs[j]) && vs[i].spokenAt.micros <= vs[j].spokenAt.micros
  {
    var vs := Under(us, n);
    UnderIsSub(us, n);
    var k, m := SubPair(vs, us, i, j);
    assert vs[i] in vs && vs[j] in vs;
    WellFormedMeans(us);
    WellFormedValid(us);
    ValidNumbered(vs[j]);
  }

  lemma UnderInTime(us: seq<Utterance>, clock: int, n: int)
    requires Tidy(us, clock) && Numbered(Under(us, n))
    ensures T.TimeSorted(Lines(Under(us, n)))
  {
    var vs := Under(us, n);
    LinesOfNumbered(vs);
    forall i, j | 0 <= i < j < |vs|
      ensures Lines(vs)[i].at <= Lines(vs)[j].at
    {
      OnlyFirstAsks(us, clock, n, i, j);
      WholeSecondsOrder(vs[i].spokenAt.micros, vs[j].spokenAt.micros);
    }
  }

  lemma FirstTellsKind(us: seq<Utterance>, clock: int, n: int)
    requires Tidy(us, clock) && Under(us, n) != []
    ensures AsksOn(Under(us, n)) <==> IsFollowUp(Under(us, n)[0])
  {
    var vs := Under(us, n);
    assert vs[0] in vs;
    forall u | u in vs && IsFollowUp(u)
      ensures IsFollowUp(vs[0])
    {
      var j :| 0 <= j < |vs| && vs[j] == u;
      if j > 0 { OnlyFirstAsks(us, clock, n, 0, j); }
    }
  }

  lemma TidyNumbered(us: seq<Utterance>, clock: int, n: int)
    requires Tidy(us, clock)
    ensures Numbered(Under(us, n)) && forall u | u in us && u.questionNumber.Some? :: u.parent.Some?
  {
    WellFormedValid(us);
    forall u | u in us
      ensures u.questionNumber.Some? <==> u.parent.Some?
    {
      ValidNumbered(u);
    }
  }

  lemma {:induction false} NumbersAreSeen(us: seq<Utterance>, n: int)
    requires forall u | u in us && u.questionNumber.Some? :: u.parent.Some?
    ensures n in T.NumbersOf(Lines(us)) <==> Under(us, n) != []
  {
    if us != [] {
      var front, u := us[..|us| - 1], us[|us| - 1];
      assert us == front + [u] && u in us;
      NumbersAreSeen(front, n);
      LinesOneMore(front, u);
      if u.questionNumber.Some? { T.NumbersOneMore(Lines(front), LineOf(u)); }
      assert Lines(front) + [] == Lines(front);
    }
  }

  /** What the worker collects under a number is what the log says under it. */
  lemma PairIsExchange(us: seq<Utterance>, clock: int, n: int)
    requires Tidy(us, clock) && n in T.NumbersOf(Lines(us))
    ensures Under(us, n) != [] && Under(us, n)[0].parent.Some?
    ensures T.PairUnder(Lines(us), n) == Exchange(us, n, Under(us, n)[0].parent.value)
  {
    var vs := Under(us, n);
    TidyNumbered(us, clock, n);
    NumbersAreSeen(us, n);
    assert vs[0] in vs;
    GroupIsUnder(us, n);
    UnderInTime(us, clock, n);
    T.ByTimeKeepsSorted(Lines(vs));
    LinesOfNumbered(vs);
    ContentsAreWords(vs);
    FirstTellsKind(us, clock, n);
  }

  // ------------------------------------------------------------------ and each belongs to one branch

  lemma {:induction false} UnderOfBranch(us: seq<Utterance>, n: int, root: int)
    requires forall u | u in us && u.questionNumber == Some(n) :: u.parent == Some(root)
    ensures Under(Branch(us, root), n) == Under(us, n)
  {
    if us != [] {
      var front, u := us[..|us| - 1], us[|us| - 1];
      assert us == front + [u] && u in us;
      UnderOfBranch(front, n, root);
      UnderOneMore(front, u, n);
      UnderOneMore(Branch(front, root), u, n);
      assert Branch(front, root) + [] == Branch(front, root);
      assert Under(front, n) + [] == Under(front, n);
    }
  }

  lemma BranchOfNumber(us: seq<Utterance>, clock: int, n: int)
    requires Tidy(us, clock) && Under(us, n) != []
    ensures Under(us, n)[0].parent.Some?
    ensures var root := Under(us, n)[0].parent.value;
            && Under(Branch(us, root), n) == Under(us, n)
            && forall u | u in us && u.questionNumber == Some(n) :: u.parent == Some(root)
  {
    TidyNumbered(us, clock, n);
    var first := Under(us, n)[0];
    assert first in Under(us, n);
    UnderOfBranch(us, n, first.parent.value);
  }

  lemma PairOfBranch(us: seq<Utterance>, clock: int, i: nat)
    requires Tidy(us, clock) && i < |T.Pairs(Lines(us))|
    ensures var p := T.Pairs(Lines(us))[i];
            && p == Exchange(Branch(us, p.parent), p.number, p.parent)
            && p.number in FirstSeen(Branch(us, p.parent), Number) && p.parent in BranchRoots(us)
  {
    T.PairIs(Lines(us), i);
    var p := T.Pairs(Lines(us))[i];
    PairIsExchange(us, clock, p.number);
    BranchOfNumber(us, clock, p.number);
    var first := Under(us, p.number)[0];
    assert first in Under(us, p.number) && first in Branch(us, p.parent) && KeyOf(first, Number) == Some(p.number);
  }

  lemma PairFor(us: seq<Utterance>, clock: int, u: Utterance) returns (i: nat)
    requires Tidy(us, clock) && u in us && u.questionNumber.Some? && u.parent.Some?
    ensures i < |T.Pairs(Lines(us))|
    ensures var p := T.Pairs(Lines(us))[i]; u.questionNumber == Some(p.number) && u.parent == Some(p.parent)
  {
    var n := u.questionNumber.value;
    assert u in Under(us, n);
    TidyNumbered(us, clock, n);
    NumbersAreSeen(us, n);
    T.SortedKeysSorted(T.NumbersOf(Lines(us)));
    var ks := T.SortedKeys(T.NumbersOf(Lines(us)));
    i :| 0 <= i < |ks| && ks[i] == n;
    T.PairIs(Lines(us), i);
    PairIsExchange(us, clock, n);
    BranchOfNumber(us, clock, n);
  }

  // ------------------------------------------------------------------ topics are branches

  /** The pairs of one topic, before joining. */
  function PairTopic(ps: seq<T.Pair>, parent: int): (r: seq<T.Pair>)
    ensures forall p :: p in r <==> p in ps && p.parent == parent
  {
    if ps == [] then [] else
    assert ps == ps[..|ps| - 1] + [ps[|ps| - 1]];
    PairTopic(ps[..|ps| - 1], parent) + (if ps[|ps| - 1].parent == parent then [ps[|ps| - 1]] else [])
  }

  lemma {:induction false} TopicJoins(ps: seq<T.Pair>, parent: int)
    ensures T.Topic(T.AllJoined(ps), parent) == T.AllJoined(PairTopic(ps, parent))
  {
    if ps != [] {
      var front := ps[..|ps| - 1];
      TopicJoins(front, parent);
      assert T.AllJoined(ps)[..|ps| - 1] == T.AllJoined(front);
    }
  }

  function PairNumbers(ps: seq<T.Pair>): seq<int> {
    seq(|ps|, i requires 0 <= i < |ps| => ps[i].number)
  }

  lemma {:induction false} TopicStaysSorted(ps: seq<T.Pair>, parent: int)
    requires StrictlySorted(PairNumbers(ps))
    ensures StrictlySorted(PairNumbers(PairTopic(ps, parent)))
  {
    if ps != [] {
      var front, last := ps[..|ps| - 1], ps[|ps| - 1];
      assert PairNumbers(ps) == PairNumbers(front) + [last.number];
      SortedFront(PairNumbers(front), last.number);
      TopicStaysSorted(front, parent);
      var t := PairTopic(front, parent);
      forall n | n in PairNumbers(t)
        ensures n < last.number
      {
        NumberOf(t, n);
        var p :| p in t && p.number == n;
        assert p in front;
        var j :| 0 <= j < |front| && front[j] == p;
        assert PairNumbers(front)[j] == n;
      }
      SortedExtends(PairNumbers(t), last.number);
      assert PairNumbers(t + [last]) == PairNumbers(t) + [last.number];
      assert PairTopic(ps, parent) == if last.parent == parent then t + [last] else t;
    }
  }

  lemma NumberOf(ps: seq<T.Pair>, n: int)
    ensures n in PairNumbers(ps) <==> exists p | p in ps :: p.number == n
  {
    if n in PairNumbers(ps) {
      var k :| 0 <= k < |ps| && PairNumbers(ps)[k] == n;
      assert ps[k] in ps;
    }
    if p :| p in ps && p.number == n {
      var k :| 0 <= k < |ps| && ps[k] == p;
      assert PairNumbers(ps)[k] == n;
    }
  }

  lemma SortedExtends(ns: seq<int>, n: int)
    requires StrictlySorted(ns) && forall x | x in ns :: x < n
    ensures StrictlySorted(ns + [n])
  {
    forall i | 0 <= i < |ns|
      ensures ns[i] < n
    {
      var x := ns[i];
      assert x in ns;
    }
  }

  lemma SortedFront(ns: seq<int>, n: int)
    requires StrictlySorted(ns + [n])
    ensures StrictlySorted(ns) && forall i | 0 <= i < |ns| :: ns[i] < n
  {
    forall i | 0 <= i < |ns|
      ensures ns[i] < n && forall j | i < j < |ns| :: ns[i] < ns[j]
    {
      assert (ns + [n])[i] == ns[i] && (ns + [n])[|ns|] == n;
      assert forall j | i < j < |ns| :: (ns + [n])[j] == ns[j];
    }
  }

  lemma TopicNumberIsSeen(us: seq<Utterance>, clock: int, root: int, p: T.Pair)
    requires Tidy(us, clock) && p in T.Pairs(Lines(us)) && p.parent == root
    ensures p.number in FirstSeen(Branch(us, root), Number)
    ensures p == Exchange(Branch(us, root), p.number, root)
  {
    var i :| 0 <= i < |T.Pairs(Lines(us))| && T.Pairs(Lines(us))[i] == p;
    PairOfBranch(us, clock, i);
  }

  lemma SeenNumberHasTopic(us: seq<Utterance>, clock: int, root: int, n: int)
    requires Tidy(us, clock) && n in FirstSeen(Branch(us, root), Number)
    ensures exists p | p in PairTopic(T.Pairs(Lines(us)), root) :: p.number == n
  {
    var u :| u in Branch(us, root) && KeyOf(u, Number) == Some(n);
    var i := PairFor(us, clock, u);
    assert T.Pairs(Lines(us))[i] in PairTopic(T.Pairs(Lines(us)), root);
  }

  lemma PairsAreSorted(ls: seq<T.Line>)
    ensures StrictlySorted(PairNumbers(T.Pairs(ls)))
  {
    T.SortedKeysSorted(T.NumbersOf(ls));
    assert PairNumbers(T.Pairs(ls)) == T.SortedKeys(T.NumbersOf(ls));
  }

  lemma TopicNumbers(us: seq<Utterance>, clock: int, root: int)
    requires Tidy(us, clock)
    ensures PairNumbers(PairTopic(T.Pairs(Lines(us)), root)) == T.SortedKeys(FirstSeen(Branch(us, root), Number))
  {
    var t, seen := PairTopic(T.Pairs(Lines(us)), root), FirstSeen(Branch(us, root), Number);
    PairsAreSorted(Lines(us));
    TopicStaysSorted(T.Pairs(Lines(us)), root);
    forall n
      ensures n in PairNumbers(t) <==> n in seen
    {
      NumberOf(t, n);
      if p :| p in t && p.number == n { TopicNumberIsSeen(us, clock, root, p); }
      if n in seen { SeenNumberHasTopic(us, clock, root, n); }
    }
    T.SortedKeysSorted(seen);
    T.SortedIsUnique(PairNumbers(t), T.SortedKeys(seen));
  }

  /** A topic is a branch: its exchanges, by number. */
  lemma TopicIsBranch(us: seq<Utterance>, clock: int, root: int)
    requires Tidy(us, clock)
    ensures PairTopic(T.Pairs(Lines(us)), root)
         == Exchanges(Branch(us, root), root, T.SortedKeys(FirstSeen(Branch(us, root), Number)))
  {
    var t := PairTopic(T.Pairs(Lines(us)), root);
    TopicNumbers(us, clock, root);
    forall k | 0 <= k < |t|
      ensures t[k] == Exchange(Branch(us, root), PairNumbers(t)[k], root)
    {
      assert t[k] in t;
      TopicNumberIsSeen(us, clock, root, t[k]);
    }
    assert |PairNumbers(t)| == |t|;
  }

  lemma ParentAt(ps: seq<T.Pair>, r: int) returns (i: nat)
    requires r in T.ParentsOf(T.AllJoined(ps))
    ensures i < |ps| && ps[i].parent == r
  {
    var parents := T.ParentsOf(T.AllJoined(ps));
    i :| 0 <= i < |parents| && parents[i] == r;
  }

  lemma ParentIsRoot(us: seq<Utterance>, clock: int, r: int)
    requires Tidy(us, clock) && r in T.ParentsOf(T.AllJoined(T.Pairs(Lines(us))))
    ensures r in BranchRoots(us)
  {
    var i := ParentAt(T.Pairs(Lines(us)), r);
    PairOfBranch(us, clock, i);
  }

  lemma RootIsParent(us: seq<Utterance>, clock: int, r: int)
    requires Tidy(us, clock) && r in BranchRoots(us)
    ensures r in T.ParentsOf(T.AllJoined(T.Pairs(Lines(us))))
  {
    WellFormedValid(us);
    var u :| u in us && u.parent == Some(r);
    ValidNumbered(u);
    var i := PairFor(us, clock, u);
    assert T.ParentsOf(T.AllJoined(T.Pairs(Lines(us))))[i] == r;
  }

  lemma TopicParents(us: seq<Utterance>, clock: int)
    requires Tidy(us, clock)
    ensures T.SortedKeys(T.ParentsOf(T.AllJoined(T.Pairs(Lines(us))))) == T.SortedKeys(BranchRoots(us))
  {
    var parents := T.ParentsOf(T.AllJoined(T.Pairs(Lines(us))));
    forall r
      ensures r in parents <==> r in BranchRoots(us)
    {
      if r in parents { ParentIsRoot(us, clock, r); }
      if r in BranchRoots(us) { RootIsParent(us, clock, r); }
    }
    T.SortedAlike(parents, BranchRoots(us));
  }

  /** A log's branches as topics, by ascending root and number. */
  function AscendingTopics(us: seq<Utterance>): seq<seq<T.QuestionAnswer>> {
    var roots := T.SortedKeys(BranchRoots(us));
    seq(|roots|, i requires 0 <= i < |roots| =>
      var b := Branch(us, roots[i]);
      T.AllJoined(Exchanges(b, roots[i], T.SortedKeys(FirstSeen(b, Number)))))
  }

  /** A log's branches as topics, branches and exchanges in the order in which they come up in the log. */
  function TopicsInOrder(us: seq<Utterance>): seq<seq<T.QuestionAnswer>> {
    var roots := BranchRoots(us);
    seq(|roots|, i requires 0 <= i < |roots| =>
      var b := Branch(us, roots[i]);
      T.AllJoined(Exchanges(b, roots[i], FirstSeen(b, Number))))
  }

  lemma TopicsAreBranches(us: seq<Utterance>, clock: int)
    requires Tidy(us, clock)
    ensures T.Topics(T.AllJoined(T.Pairs(Lines(us)))) == AscendingTopics(us)
  {
    var ps, roots := T.Pairs(Lines(us)), T.SortedKeys(BranchRoots(us));
    TopicParents(us, clock);
    forall i | 0 <= i < |roots|
      ensures T.Topics(T.AllJoined(ps))[i] == AscendingTopics(us)[i]
    {
      TopicIsBranch(us, clock, roots[i]);
      TopicJoins(ps, roots[i]);
    }
  }

  lemma SortedStays(ns: seq<int>)
    requires StrictlySorted(ns)
    ensures T.SortedKeys(ns) == ns
  {
    T.SortedKeysSorted(ns);
    T.SortedIsUnique(T.SortedKeys(ns), ns);
  }

  /** All of a number's utterances stand in one branch, so a branch keeps the order of the log. */
  lemma {:induction false} BranchRises(us: seq<Utterance>, root: int)
    requires OneBranchEach(us) && Rising(us, Number)
    ensures Rising(Branch(us, root), Number)
  {
    if us != [] {
      var front, u := us[..|us| - 1], us[|us| - 1];
      assert us == front + [u];
      RisingPrefix(us, Number, |front|);
      FrontHasBranches(front, u);
      BranchRises(front, root);
      assert RisesAt(us, Number, |front|);
      if u.parent == Some(root) {
        OneMoreRises(front, u, Branch(front, root), root);
      } else {
        assert Branch(us, root) == Branch(front, root);
      }
    }
  }

  lemma FrontHasBranches(us: seq<Utterance>, u: Utterance)
    requires OneBranchEach(us + [u])
    ensures OneBranchEach(us)
  {
    assert forall v | v in us :: v in us + [u];
  }

  lemma OneMoreRises(us: seq<Utterance>, u: Utterance, b: seq<Utterance>, root: int)
    requires b == Branch(us, root) && Rising(b, Number) && OneBranchEach(us + [u]) && u.parent == Some(root)
    requires RisesAt(us + [u], Number, |us|)
    ensures Rising(b + [u], Number)
  {
    assert (us + [u])[..|us|] == us && (b + [u])[..|b|] == b;
    assert u in us + [u] && forall v | v in us :: v in us + [u];
    forall j | 0 <= j < |b + [u]|
      ensures RisesAt(b + [u], Number, j)
    {
      if j < |b| {
        assert RisesAt(b, Number, j) && (b + [u])[..j] == b[..j];
      } else if u.questionNumber.Some? && Seen(us, Number, u.questionNumber.value) {
        var v :| v in us && KeyOf(v, Number) == u.questionNumber;
        assert v in b;
      }
    }
  }

  lemma RisingInOrder(us: seq<Utterance>)
    requires OneBranchEach(us) && Rising(us, Number) && Rising(us, Parent)
    ensures ComesUpAscending(us)
  {
    RootsAreFirstSeen(us);
    RisingIsAscending(us, Parent);
    forall r | r in BranchRoots(us)
      ensures StrictlySorted(FirstSeen(Branch(us, r), Number))
    {
      BranchRises(us, r);
      RisingIsAscending(Branch(us, r), Number);
    }
  }

  /** Branches and exchanges come up in ascending order. */
  ghost predicate ComesUpAscending(us: seq<Utterance>) {
    && StrictlySorted(BranchRoots(us))
    && forall r | r in BranchRoots(us) :: StrictlySorted(FirstSeen(Branch(us, r), Number))
  }

  lemma ExchangesTell(us: seq<Utterance>, r: int, ns: seq<int>)
    ensures T.Numbers(T.AllJoined(Exchanges(us, r, ns))) == ns
    ensures forall q | q in T.AllJoined(Exchanges(us, r, ns)) :: q.parent == r
  {
  }

  lemma RootHasNumbers(us: seq<Utterance>, clock: int, r: int)
    requires Tidy(us, clock) && r in BranchRoots(us)
    ensures FirstSeen(Branch(us, r), Number) != [] && T.SortedKeys(FirstSeen(Branch(us, r), Number)) != []
  {
    WellFormedValid(us);
    var u :| u in us && u.parent == Some(r);
    ValidNumbered(u);
    var n := u.questionNumber.value;
    assert u in Branch(us, r) && KeyOf(u, Number) == Some(n);
    T.SortedKeysSorted(FirstSeen(Branch(us, r), Number));
    assert n in T.SortedKeys(FirstSeen(Branch(us, r), Number));
  }

  /** One topic of each reading: equal topics have equal roots and equal numbers. */
  lemma TopicsAlike(us: seq<Utterance>, clock: int, r: int, q: int)
    requires Tidy(us, clock) && r in BranchRoots(us) && q in BranchRoots(us)
    requires T.AllJoined(Exchanges(Branch(us, r), r, T.SortedKeys(FirstSeen(Branch(us, r), Number))))
          == T.AllJoined(Exchanges(Branch(us, q), q, FirstSeen(Branch(us, q), Number)))
    ensures r == q && T.SortedKeys(FirstSeen(Branch(us, r), Number)) == FirstSeen(Branch(us, r), Number)
  {
    var ns, ms := T.SortedKeys(FirstSeen(Branch(us, r), Number)), FirstSeen(Branch(us, q), Number);
    RootHasNumbers(us, clock, r);
    ExchangesTell(Branch(us, r), r, ns);
    ExchangesTell(Branch(us, q), q, ms);
    var first := T.AllJoined(Exchanges(Branch(us, r), r, ns))[0];
    assert first in T.AllJoined(Exchanges(Branch(us, r), r, ns));
  }

  /** The two readings of a log agree exactly when its branches and exchanges come up in ascending
      order. */
  lemma OrdersAgreeIff(us: seq<Utterance>, clock: int)
    requires Tidy(us, clock)
    ensures AscendingTopics(us) == TopicsInOrder(us) <==> ComesUpAscending(us)
  {
    if ComesUpAscending(us) {
      AscendingInOrder(us);
    }
    if AscendingTopics(us) == TopicsInOrder(us) {
      InOrderAscending(us, clock);
    }
  }

  lemma AscendingInOrder(us: seq<Utterance>)
    requires ComesUpAscending(us)
    ensures AscendingTopics(us) == TopicsInOrder(us)
  {
    var roots := BranchRoots(us);
    SortedStays(roots);
    forall i | 0 <= i < |roots|
      ensures AscendingTopics(us)[i] == TopicsInOrder(us)[i]
    {
      var r := roots[i];
      assert r in roots;
      SortedStays(FirstSeen(Branch(us, r), Number));
    }
  }

  lemma InOrderAscending(us: seq<Utterance>, clock: int)
    requires Tidy(us, clock) && AscendingTopics(us) == TopicsInOrder(us)
    ensures ComesUpAscending(us)
  {
    var sorted, roots := T.SortedKeys(BranchRoots(us)), BranchRoots(us);
    T.SortedKeysSorted(roots);
    assert |sorted| == |AscendingTopics(us)| == |roots|;
    forall i | 0 <= i < |roots|
      ensures sorted[i] == roots[i] && StrictlySorted(FirstSeen(Branch(us, roots[i]), Number))
    {
      var r, q := sorted[i], roots[i];
      assert r in sorted && q in roots;
      assert AscendingTopics(us)[i] == TopicsInOrder(us)[i];
      TopicsAlike(us, clock, r, q);
      T.SortedKeysSorted(FirstSeen(Branch(us, r), Number));
    }
    assert sorted == roots;
  }

  // ------------------------------------------------------------------ the contract

  /** From agent to worker: however often a session crashed, whatever its copies lost and however its
      last life ran, the worker reads the transcript that life leaves without an error, and its topics
      are the branches of the log by ascending root, each with its exchanges by number, and in each
      exchange the question, empty if a gap took it, and the answers joined in log order. */
  lemma WorkerSeesBranches(vs: seq<Life>, n: nat)
    requires Lineage(vs) && ClockRunsOn(vs) && n < |vs|
    ensures var us := LogOf(vs[n]);
            var loaded := Loaded(Map(ToJson, us));
            loaded.Some? && T.Topics(T.AllJoined(T.Pairs(loaded.value))) == AscendingTopics(us)
  {
    EveryLifeIsTidy(vs, n);
    ContractHolds(LogOf(vs[n]), RunOf(vs[n]).clock);
  }

  /** The Redis list is only appended to; then the topics are the branches in the very order in which
      branches and exchanges come up in the log. */
  lemma WorkerSeesLogOrder(vs: seq<Life>, n: nat)
    requires Appending(vs) && ClockRunsOn(vs) && n < |vs|
    ensures var us := LogOf(vs[n]);
            var loaded := Loaded(Map(ToJson, us));
            loaded.Some? && T.Topics(T.AllJoined(T.Pairs(loaded.value))) == TopicsInOrder(us)
  {
    AppendingIsLineage(vs);
    EveryLifeIsTidy(vs, n);
    ContractHolds(LogOf(vs[n]), RunOf(vs[n]).clock);
    EveryLifeRises(vs, n, Number);
    EveryLifeRises(vs, n, Parent);
    RisingInOrder(LogOf(vs[n]));
    AscendingInOrder(LogOf(vs[n]));
  }

  lemma ContractHolds(us: seq<Utterance>, clock: int)
    requires Tidy(us, clock)
    ensures Loaded(Map(ToJson, us)) == Some(Lines(us))
    ensures T.Topics(T.AllJoined(T.Pairs(Lines(us)))) == AscendingTopics(us)
  {
    WellFormedValid(us);
    CopyLoads(us);
    TopicsAreBranches(us, clock);
  }

  /** A session that never crashed is the case of one life. */
  lemma WorkerSeesFreshSession(maxFollowUps: nat, now: int, es: seq<Event>)
    ensures var us := Said(FreshRun(maxFollowUps, now, es));
            var loaded := Loaded(Map(ToJson, us));
            loaded.Some? && T.Topics(T.AllJoined(T.Pairs(loaded.value))) == TopicsInOrder(us)
  {
    var v := Life([], maxFollowUps, now, es);
    NothingRebuilt();
    WorkerSeesLogOrder([v], 0);
  }

  /** An answer whose question a gap took is not lost: it makes a pair of its own, with no question. */
  lemma OrphanIsEvaluated(us: seq<Utterance>, clock: int, u: Utterance) returns (i: nat)
    requires Tidy(us, clock) && u in us && IsAnswer(u)
    requires forall v | v in us && v.questionNumber == u.questionNumber :: IsAnswer(v)
    ensures i < |T.Pairs(Lines(us))|
    ensures var q := T.AllJoined(T.Pairs(Lines(us)))[i];
            && u.questionNumber == Some(q.number) && u.parent == Some(q.parent)
            && q.question == "" && q.answer == Join(" ", Words(Under(us, q.number), Candidate))
  {
    WellFormedValid(us);
    i := PairFor(us, clock, u);
    PairWords(us, clock, i);
    NothingAsked(Under(us, T.Pairs(Lines(us))[i].number));
  }

  lemma PairWords(us: seq<Utterance>, clock: int, i: nat)
    requires Tidy(us, clock) && i < |T.Pairs(Lines(us))|
    ensures var p := T.Pairs(Lines(us))[i];
            p.questions == Words(Under(us, p.number), Interviewer) && p.answers == Words(Under(us, p.number), Candidate)
  {
    T.PairIs(Lines(us), i);
    PairIsExchange(us, clock, T.Pairs(Lines(us))[i].number);
  }

  lemma {:induction false} NothingAsked(us: seq<Utterance>)
    requires forall u | u in us :: IsAnswer(u)
    ensures Words(us, Interviewer) == []
  {
    if us != [] {
      assert us[|us| - 1] in us;
      NothingAsked(us[..|us| - 1]);
    }
  }
}
