/** The worker's view of a transcript: utterances grouped into question-answer pairs, pairs into
    topics, and evaluations matched to pairs. */
module Transcripts {
  import opened Wrappers
  import opened Integers
  import opened Texts

  datatype Role = Interviewer | User
  datatype Kind = Main | Tail

  /** `at` is the instant the utterance was spoken. */
  datatype Line = Line(number: int, parent: int, role: Role, kind: Kind, content: string, at: int)

  /** A pair before its parts are joined: what was asked and what was answered under one number. */
  datatype Pair = Pair(number: int, parent: int, kind: Kind, questions: seq<string>, answers: seq<string>)

  datatype QuestionAnswer = QuestionAnswer(number: int, parent: int, kind: Kind, question: string, answer: string)

  // ------------------------------------------------------------------ sorting

  /** A key put in its place, unless it is there. */
  function InsertKey(ns: seq<int>, n: int): seq<int> {
    if ns == [] then [n]
    else if n > ns[|ns| - 1] then ns + [n]
    else if n == ns[|ns| - 1] then ns
    else InsertKey(ns[..|ns| - 1], n) + [ns[|ns| - 1]]
  }

  function SortedKeys(ns: seq<int>): seq<int> {
    if ns == [] then [] else InsertKey(SortedKeys(ns[..|ns| - 1]), ns[|ns| - 1])
  }

  lemma {:induction false} InsertKeySorted(ns: seq<int>, n: int)
    requires StrictlySorted(ns)
    ensures StrictlySorted(InsertKey(ns, n))
    ensures forall x :: x in InsertKey(ns, n) <==> x in ns || x == n
  {
    if ns != [] {
      assert ns == ns[..|ns| - 1] + [ns[|ns| - 1]];
      if n < ns[|ns| - 1] {
        InsertKeySorted(ns[..|ns| - 1], n);
        var r := InsertKey(ns[..|ns| - 1], n);
        forall i | 0 <= i < |r|
          ensures r[i] < ns[|ns| - 1]
        {
          assert r[i] in r;
        }
      }
    }
  }

  lemma {:induction false} SortedKeysSorted(ns: seq<int>)
    ensures StrictlySorted(SortedKeys(ns)) && forall x :: x in SortedKeys(ns) <==> x in ns
  {
    if ns != [] {
      SortedKeysSorted(ns[..|ns| - 1]);
      InsertKeySorted(SortedKeys(ns[..|ns| - 1]), ns[|ns| - 1]);
      assert ns == ns[..|ns| - 1] + [ns[|ns| - 1]];
    }
  }

  lemma EmptyTogether(a: seq<int>, b: seq<int>)
    requires forall x :: x in b ==> x in a
    ensures a == [] ==> b == []
  {
    if b != [] {
      var x := b[0];
      assert x in b;
    }
  }

  /** There is only one way to put a set of keys in order. */
  lemma {:induction false} SortedIsUnique(a: seq<int>, b: seq<int>)
    requires StrictlySorted(a) && StrictlySorted(b) && forall x :: x in a <==> x in b
    ensures a == b
  {
    EmptyTogether(a, b);
    EmptyTogether(b, a);
    if a != [] {
      var m := a[|a| - 1];
      assert m in b && b[|b| - 1] in a;
      assert b[|b| - 1] == m;
      var c, d := a[..|a| - 1], b[..|b| - 1];
      forall x
        ensures x in c <==> x in d
      {
        InFront(a, x);
        InFront(b, x);
      }
      SortedIsUnique(c, d);
      assert a == c + [m] && b == d + [m];
    }
  }

  lemma InFront(a: seq<int>, x: int)
    requires StrictlySorted(a) && a != []
    ensures x in a[..|a| - 1] <==> x in a && x != a[|a| - 1]
  {
    assert a == a[..|a| - 1] + [a[|a| - 1]];
  }

  predicate TimeSorted(ls: seq<Line>) {
    forall i, j | 0 <= i < j < |ls| :: ls[i].at <= ls[j].at
  }

  /** Stable: a line goes behind all that were spoken no later. */
  function Inserted(ls: seq<Line>, l: Line): (r: seq<Line>)
    ensures |r| == |ls| + 1
  {
    if ls == [] then [l]
    else if ls[|ls| - 1].at <= l.at then ls + [l]
    else Inserted(ls[..|ls| - 1], l) + [ls[|ls| - 1]]
  }

  function ByTime(ls: seq<Line>): (r: seq<Line>)
    ensures |r| == |ls|
  {
    if ls == [] then [] else Inserted(ByTime(ls[..|ls| - 1]), ls[|ls| - 1])
  }

  lemma {:induction false} InsertedSorts(ls: seq<Line>, l: Line)
    requires TimeSorted(ls)
    ensures TimeSorted(Inserted(ls, l)) && multiset(Inserted(ls, l)) == multiset(ls) + multiset{l}
  {
    if ls != [] {
      var front, last := ls[..|ls| - 1], ls[|ls| - 1];
      assert ls == front + [last];
      InsertedSorts(front, l);
      var r := Inserted(front, l);
      forall i | 0 <= i < |r| && last.at > l.at
        ensures r[i].at <= last.at
      {
        assert r[i] in multiset(r);
      }
    }
  }

  lemma {:induction false} ByTimeSorts(ls: seq<Line>)
    ensures TimeSorted(ByTime(ls)) && multiset(ByTime(ls)) == multiset(ls)
  {
    if ls != [] {
      ByTimeSorts(ls[..|ls| - 1]);
      InsertedSorts(ByTime(ls[..|ls| - 1]), ls[|ls| - 1]);
      assert ls == ls[..|ls| - 1] + [ls[|ls| - 1]];
    }
  }

  /** The lines spoken at one instant, in the order they stand. */
  function SpokenAt(ls: seq<Line>, at: int): seq<Line> {
    if ls == [] then []
    else SpokenAt(ls[..|ls| - 1], at) + (if ls[|ls| - 1].at == at then [ls[|ls| - 1]] else [])
  }

  lemma {:induction false} InsertedIsStable(ls: seq<Line>, l: Line, at: int)
    ensures SpokenAt(Inserted(ls, l), at) == SpokenAt(ls, at) + (if l.at == at then [l] else [])
  {
    if ls != [] {
      var front, last := ls[..|ls| - 1], ls[|ls| - 1];
      if last.at <= l.at {
        assert (ls + [l])[..|ls|] == ls;
      } else {
        InsertedIsStable(front, l, at);
        var r := Inserted(front, l) + [last];
        assert r[..|r| - 1] == Inserted(front, l);
      }
    }
  }

  /** Lines spoken at the same instant keep their order. */
  lemma {:induction false} ByTimeIsStable(ls: seq<Line>, at: int)
    ensures SpokenAt(ByTime(ls), at) == SpokenAt(ls, at)
  {
    if ls != [] {
      ByTimeIsStable(ls[..|ls| - 1], at);
      InsertedIsStable(ByTime(ls[..|ls| - 1]), ls[|ls| - 1], at);
    }
  }

  /** Lines that arrive in order stay as they are. */
  lemma {:induction false} ByTimeKeepsSorted(ls: seq<Line>)
    requires TimeSorted(ls)
    ensures ByTime(ls) == ls
  {
    if ls != [] {
      ByTimeKeepsSorted(ls[..|ls| - 1]);
      assert ls == ls[..|ls| - 1] + [ls[|ls| - 1]];
    }
  }

  // ------------------------------------------------------------------ pairs

  function NumbersOf(ls: seq<Line>): seq<int> {
    seq(|ls|, i requires 0 <= i < |ls| => ls[i].number)
  }

  /** The lines under one number, in transcript order. */
  function Group(ls: seq<Line>, n: int): (g: seq<Line>)
    ensures n in NumbersOf(ls) ==> g != []
    ensures forall l | l in g :: l in ls && l.number == n
  {
    if ls == [] then [] else
    assert NumbersOf(ls) == NumbersOf(ls[..|ls| - 1]) + [ls[|ls| - 1].number];
    Group(ls[..|ls| - 1], n) + (if ls[|ls| - 1].number == n then [ls[|ls| - 1]] else [])
  }

  function Contents(ls: seq<Line>, role: Role): seq<string> {
    if ls == [] then []
    else Contents(ls[..|ls| - 1], role) + (if ls[|ls| - 1].role == role then [ls[|ls| - 1].content] else [])
  }

  /** What a group in time order says; the first line gives parent and kind. */
  function PairOf(n: int, group: seq<Line>): Pair
    requires group != []
  {
    Pair(n, group[0].parent, group[0].kind, Contents(group, Interviewer), Contents(group, User))
  }

  lemma SortedNumbersIn(ls: seq<Line>, i: nat)
    requires i < |SortedKeys(NumbersOf(ls))|
    ensures SortedKeys(NumbersOf(ls))[i] in NumbersOf(ls)
  {
    SortedKeysSorted(NumbersOf(ls));
  }

  function Pairs(ls: seq<Line>): (ps: seq<Pair>)
    ensures |ps| == |SortedKeys(NumbersOf(ls))|
    ensures forall i | 0 <= i < |ps| :: ps[i].number == SortedKeys(NumbersOf(ls))[i]
  {
    var ns := SortedKeys(NumbersOf(ls));
    seq(|ns|, i requires 0 <= i < |ns| =>
      SortedNumbersIn(ls, i);
      PairOf(ns[i], ByTime(Group(ls, ns[i]))))
  }

  function PairUnder(ls: seq<Line>, n: int): Pair
    requires n in NumbersOf(ls)
  {
    PairOf(n, ByTime(Group(ls, n)))
  }

  lemma PairIs(ls: seq<Line>, i: nat)
    requires i < |SortedKeys(NumbersOf(ls))|
    ensures SortedKeys(NumbersOf(ls))[i] in NumbersOf(ls)
    ensures Pairs(ls)[i] == PairUnder(ls, SortedKeys(NumbersOf(ls))[i])
  {
    SortedNumbersIn(ls, i);
  }

  function Joined(p: Pair): QuestionAnswer {
    QuestionAnswer(p.number, p.parent, p.kind, Join(" ", p.questions), Join(" ", p.answers))
  }

  function AllJoined(ps: seq<Pair>): (qs: seq<QuestionAnswer>)
    ensures |qs| == |ps|
  {
    seq(|ps|, i requires 0 <= i < |ps| => Joined(ps[i]))
  }

  /** sorted() on the keys of a dictionary. */
  method SortKeys(keys: seq<int>) returns (ns: seq<int>)
    ensures ns == SortedKeys(keys)
  {
    ns := [];
    for i := 0 to |keys|
      invariant ns == SortedKeys(keys[..i])
    {
      assert keys[..i + 1][..i] == keys[..i];
      ns := InsertKey(ns, keys[i]);
    }
    assert keys[..|keys|] == keys;
  }

  lemma SortedAlike(a: seq<int>, b: seq<int>)
    requires forall x :: x in a <==> x in b
    ensures SortedKeys(a) == SortedKeys(b)
  {
    SortedKeysSorted(a);
    SortedKeysSorted(b);
    SortedIsUnique(SortedKeys(a), SortedKeys(b));
  }

  /** The dictionary from numbers to lines, and its keys in the order they came. */
  method CollectGroups(ls: seq<Line>) returns (numbers: map<int, seq<Line>>, keys: seq<int>)
    ensures forall n :: n in keys <==> n in NumbersOf(ls)
    ensures forall n | n in keys :: n in numbers && numbers[n] == Group(ls, n)
  {
    numbers, keys := map[], [];
    for i := 0 to |ls|
      invariant forall n :: n in keys <==> n in NumbersOf(ls[..i])
      invariant forall n :: n in keys <==> n in numbers
      invariant forall n | n in keys :: numbers[n] == Group(ls[..i], n)
    {
      var l := ls[i];
      GroupOneMore(ls[..i], l);
      assert ls[..i + 1] == ls[..i] + [l];
      if l.number in numbers {
        numbers := numbers[l.number := numbers[l.number] + [l]];
      } else {
        numbers, keys := numbers[l.number := [l]], keys + [l.number];
      }
    }
    assert ls[..|ls|] == ls;
  }

  method JoinGroup(n: int, lines: seq<Line>) returns (qa: QuestionAnswer)
    requires lines != []
    ensures qa == Joined(PairOf(n, ByTime(lines)))
  {
    var group := ByTime(lines);
    qa := QuestionAnswer(n, group[0].parent, group[0].kind,
                         Join(" ", Contents(group, Interviewer)), Join(" ", Contents(group, User)));
  }

  lemma PairAt(ls: seq<Line>, i: nat)
    requires i < |SortedKeys(NumbersOf(ls))|
    ensures var n := SortedKeys(NumbersOf(ls))[i];
            && n in NumbersOf(ls) && Group(ls, n) != []
            && AllJoined(Pairs(ls))[i] == Joined(PairOf(n, ByTime(Group(ls, n))))
  {
    SortedNumbersIn(ls, i);
  }

  method JoinGroups(numbers: map<int, seq<Line>>, keys: seq<int>) returns (out: seq<QuestionAnswer>)
    requires forall i | 0 <= i < |keys| :: keys[i] in numbers && numbers[keys[i]] != []
    ensures |out| == |keys|
    ensures forall i | 0 <= i < |keys| :: out[i] == Joined(PairOf(keys[i], ByTime(numbers[keys[i]])))
  {
    out := [];
    for i := 0 to |keys|
      invariant |out| == i
      invariant forall j | 0 <= j < i :: out[j] == Joined(PairOf(keys[j], ByTime(numbers[keys[j]])))
    {
      var qa := JoinGroup(keys[i], numbers[keys[i]]);
      out := out + [qa];
    }
  }

  method GroupUtterances(ls: seq<Line>) returns (out: seq<QuestionAnswer>)
    ensures out == AllJoined(Pairs(ls))
  {
    var numbers, unsorted := CollectGroups(ls);
    var keys := SortKeys(unsorted);
    SortedAlike(unsorted, NumbersOf(ls));
    forall i | 0 <= i < |keys|
      ensures keys[i] in numbers && numbers[keys[i]] == Group(ls, keys[i]) && Group(ls, keys[i]) != []
      ensures AllJoined(Pairs(ls))[i] == Joined(PairOf(keys[i], ByTime(Group(ls, keys[i]))))
    {
      PairAt(ls, i);
    }
    out := JoinGroups(numbers, keys);
  }

  lemma GroupWith(ls: seq<Line>, l: Line, n: int)
    ensures Group(ls + [l], n) == Group(ls, n) + (if l.number == n then [l] else [])
  {
    assert (ls + [l])[..|ls|] == ls;
  }

  lemma NoGroup(ls: seq<Line>, n: int)
    ensures n !in NumbersOf(ls) ==> Group(ls, n) == []
  {
    var g := Group(ls, n);
    if g != [] {
      var l := g[0];
      assert l in g;
      var k :| 0 <= k < |ls| && ls[k] == l;
      assert NumbersOf(ls)[k] == n;
    }
  }

  lemma GroupOneMore(ls: seq<Line>, l: Line)
    ensures forall n :: n in NumbersOf(ls + [l]) <==> n in NumbersOf(ls) || n == l.number
    ensures forall n :: Group(ls + [l], n) == Group(ls, n) + (if l.number == n then [l] else [])
    ensures l.number !in NumbersOf(ls) ==> Group(ls, l.number) == []
  {
    assert (ls + [l])[..|ls|] == ls;
    NumbersOneMore(ls, l);
    NoGroup(ls, l.number);
  }

  lemma NumbersOneMore(ls: seq<Line>, l: Line)
    ensures NumbersOf(ls + [l]) == NumbersOf(ls) + [l.number]
  {
  }

  // ------------------------------------------------------------------ topics

  function ParentsOf(qs: seq<QuestionAnswer>): seq<int> {
    seq(|qs|, i requires 0 <= i < |qs| => qs[i].parent)
  }

  /** The pairs of one topic, in order. */
  function Topic(qs: seq<QuestionAnswer>, parent: int): seq<QuestionAnswer> {
    if qs == [] then []
    else Topic(qs[..|qs| - 1], parent) + (if qs[|qs| - 1].parent == parent then [qs[|qs| - 1]] else [])
  }

  function TopicsFor(qs: seq<QuestionAnswer>, parents: seq<int>): (ts: seq<seq<QuestionAnswer>>)
    ensures |ts| == |parents|
  {
    seq(|parents|, i requires 0 <= i < |parents| => Topic(qs, parents[i]))
  }

  function Topics(qs: seq<QuestionAnswer>): seq<seq<QuestionAnswer>> {
    TopicsFor(qs, SortedKeys(ParentsOf(qs)))
  }

  method GroupTopics(qs: seq<QuestionAnswer>) returns (topics: seq<seq<QuestionAnswer>>)
    ensures topics == Topics(qs)
  {
    var found: map<int, seq<QuestionAnswer>>, keys: seq<int> := map[], [];
    for i := 0 to |qs|
      invariant forall p :: p in keys <==> p in ParentsOf(qs[..i])
      invariant forall p :: p in keys <==> p in found
      invariant forall p | p in keys :: found[p] == Topic(qs[..i], p)
    {
      var q := qs[i];
      TopicOneMore(qs[..i], q);
      assert qs[..i + 1] == qs[..i] + [q];
      if q.parent in found {
        found := found[q.parent := found[q.parent] + [q]];
      } else {
        found, keys := found[q.parent := [q]], keys + [q.parent];
      }
    }
    assert qs[..|qs|] == qs;
    var parents := SortKeys(keys);
    SortedAlike(keys, ParentsOf(qs));
    SortedKeysSorted(keys);
    topics := [];
    for i := 0 to |parents|
      invariant topics == Topics(qs)[..i]
    {
      var p := parents[i];
      assert p in parents;
      topics := topics + [found[p]];
    }
  }

  lemma TopicOneMore(qs: seq<QuestionAnswer>, q: QuestionAnswer)
    ensures forall p :: p in ParentsOf(qs + [q]) <==> p in ParentsOf(qs) || p == q.parent
    ensures forall p :: Topic(qs + [q], p) == Topic(qs, p) + (if q.parent == p then [q] else [])
    ensures q.parent !in ParentsOf(qs) ==> Topic(qs, q.parent) == []
  {
    assert (qs + [q])[..|qs|] == qs;
    assert ParentsOf(qs + [q]) == ParentsOf(qs) + [q.parent];
    NoTopic(qs, q.parent);
  }

  lemma {:induction false} NoTopic(qs: seq<QuestionAnswer>, p: int)
    ensures p !in ParentsOf(qs) ==> Topic(qs, p) == []
  {
    if qs != [] {
      NoTopic(qs[..|qs| - 1], p);
      assert ParentsOf(qs) == ParentsOf(qs[..|qs| - 1]) + [qs[|qs| - 1].parent];
    }
  }

  // ------------------------------------------------------------------ every pair is evaluated once

  function Flat(topics: seq<seq<QuestionAnswer>>): seq<QuestionAnswer> {
    if topics == [] then [] else Flat(topics[..|topics| - 1]) + topics[|topics| - 1]
  }

  /** The pairs whose topic is among these. */
  function Among(qs: seq<QuestionAnswer>, parents: seq<int>): multiset<QuestionAnswer> {
    if qs == [] then multiset{}
    else Among(qs[..|qs| - 1], parents) + (if qs[|qs| - 1].parent in parents then multiset{qs[|qs| - 1]} else multiset{})
  }

  lemma {:induction false} AmongOneMore(qs: seq<QuestionAnswer>, parents: seq<int>, p: int)
    requires p !in parents
    ensures Among(qs, parents + [p]) == Among(qs, parents) + multiset(Topic(qs, p))
  {
    if qs != [] { AmongOneMore(qs[..|qs| - 1], parents, p); }
  }

  lemma {:induction false} AmongNone(qs: seq<QuestionAnswer>)
    ensures Among(qs, []) == multiset{}
  {
    if qs != [] { AmongNone(qs[..|qs| - 1]); }
  }

  lemma {:induction false} AmongAll(qs: seq<QuestionAnswer>, parents: seq<int>)
    requires forall i | 0 <= i < |qs| :: qs[i].parent in parents
    ensures Among(qs, parents) == multiset(qs)
  {
    if qs != [] {
      AmongAll(qs[..|qs| - 1], parents);
      assert qs == qs[..|qs| - 1] + [qs[|qs| - 1]];
    }
  }

  lemma {:induction false} FlatTopics(qs: seq<QuestionAnswer>, parents: seq<int>)
    requires StrictlySorted(parents)
    ensures multiset(Flat(TopicsFor(qs, parents))) == Among(qs, parents)
  {
    if parents == [] {
      AmongNone(qs);
    } else {
      var front, p := parents[..|parents| - 1], parents[|parents| - 1];
      FlatTopics(qs, front);
      assert parents == front + [p] && p !in front;
      AmongOneMore(qs, front, p);
      assert TopicsFor(qs, parents)[..|front|] == TopicsFor(qs, front);
    }
  }

  /** Grouping into topics loses and repeats nothing. */
  lemma TopicsPartition(qs: seq<QuestionAnswer>)
    ensures multiset(Flat(Topics(qs))) == multiset(qs)
  {
    var parents := SortedKeys(ParentsOf(qs));
    SortedKeysSorted(ParentsOf(qs));
    FlatTopics(qs, parents);
    forall i | 0 <= i < |qs|
      ensures qs[i].parent in parents
    {
      assert ParentsOf(qs)[i] == qs[i].parent;
    }
    AmongAll(qs, parents);
  }

  // ------------------------------------------------------------------ evaluations

  const MAX_TAGS_PER_ANSWER := 3
  const MAX_TASKS_PER_ANSWER := 2
  const MAX_TASK_TITLE_LEN := 50

  datatype Task = Task(title: string, description: string)
  datatype Evaluation = Evaluation(number: int, tags: seq<string>, tasks: seq<Task>)

  function FirstOf<T>(xs: seq<T>, n: nat): seq<T> {
    if |xs| <= n then xs else xs[..n]
  }

  function Listed(tags: seq<string>, vocabulary: set<string>): seq<string> {
    if tags == [] then []
    else Listed(tags[..|tags| - 1], vocabulary) + (if tags[|tags| - 1] in vocabulary then [tags[|tags| - 1]] else [])
  }

  function ShortTitled(tasks: seq<Task>): seq<Task> {
    if tasks == [] then []
    else ShortTitled(tasks[..|tasks| - 1])
         + (if |tasks[|tasks| - 1].title| <= MAX_TASK_TITLE_LEN then [tasks[|tasks| - 1]] else [])
  }

  /** Deviations of the model are tidied up, not refused. */
  function Sanitized(e: Evaluation, vocabulary: set<string>): Evaluation {
    var tags := FirstOf(Listed(e.tags, vocabulary), MAX_TAGS_PER_ANSWER);
    e.(tags := tags, tasks := if tags == [] then [] else FirstOf(ShortTitled(e.tasks), MAX_TASKS_PER_ANSWER))
  }

  function Numbers(qs: seq<QuestionAnswer>): seq<int> {
    seq(|qs|, i requires 0 <= i < |qs| => qs[i].number)
  }

  function Echoed(es: seq<Evaluation>): seq<int> {
    seq(|es|, i requires 0 <= i < |es| => es[i].number)
  }

  /** The echoed numbers have to be those that were sent, in order; a mismatch is refused. */
  function Validated(raw: seq<Evaluation>, topic: seq<QuestionAnswer>, vocabulary: set<string>): (r: Option<seq<Evaluation>>)
    ensures r.Some? <==> Echoed(raw) == Numbers(topic)
    ensures r.Some? ==> Echoed(r.value) == Numbers(topic)
    ensures r.Some? ==> forall i | 0 <= i < |raw| :: r.value[i] == Sanitized(raw[i], vocabulary)
  {
    if Echoed(raw) != Numbers(topic) then None
    else
      var es := seq(|raw|, i requires 0 <= i < |raw| => Sanitized(raw[i], vocabulary));
      assert forall i | 0 <= i < |raw| :: Echoed(es)[i] == Echoed(raw)[i];
      Some(es)
  }

  lemma {:induction false} ListedTags(tags: seq<string>, vocabulary: set<string>)
    ensures forall t | t in Listed(tags, vocabulary) :: t in vocabulary
  {
    if tags != [] { ListedTags(tags[..|tags| - 1], vocabulary); }
  }

  lemma {:induction false} ShortTitles(tasks: seq<Task>)
    ensures forall t | t in ShortTitled(tasks) :: |t.title| <= MAX_TASK_TITLE_LEN
  {
    if tasks != [] { ShortTitles(tasks[..|tasks| - 1]); }
  }

  /** The rules: few tags and tasks, listed tags, short titles, and no task without a tag. */
  ghost predicate ObeysRules(e: Evaluation, vocabulary: set<string>) {
    && |e.tags| <= MAX_TAGS_PER_ANSWER && |e.tasks| <= MAX_TASKS_PER_ANSWER
    && (forall t | t in e.tags :: t in vocabulary)
    && (forall t | t in e.tasks :: |t.title| <= MAX_TASK_TITLE_LEN)
    && (e.tags == [] ==> e.tasks == [])
  }

  lemma {:induction false} ListedStay(tags: seq<string>, vocabulary: set<string>)
    requires forall t | t in tags :: t in vocabulary
    ensures Listed(tags, vocabulary) == tags
  {
    if tags != [] {
      assert tags == tags[..|tags| - 1] + [tags[|tags| - 1]];
      ListedStay(tags[..|tags| - 1], vocabulary);
    }
  }

  lemma {:induction false} ShortStay(tasks: seq<Task>)
    requires forall t | t in tasks :: |t.title| <= MAX_TASK_TITLE_LEN
    ensures ShortTitled(tasks) == tasks
  {
    if tasks != [] {
      assert tasks == tasks[..|tasks| - 1] + [tasks[|tasks| - 1]];
      ShortStay(tasks[..|tasks| - 1]);
    }
  }

  /** What is stored obeys the rules, and what obeys them already is stored as it is. */
  lemma SanitizedObeysRules(e: Evaluation, vocabulary: set<string>)
    ensures Sanitized(e, vocabulary).number == e.number && ObeysRules(Sanitized(e, vocabulary), vocabulary)
    ensures ObeysRules(e, vocabulary) ==> Sanitized(e, vocabulary) == e
  {
    ListedTags(e.tags, vocabulary);
    ShortTitles(e.tasks);
    if ObeysRules(e, vocabulary) {
      ListedStay(e.tags, vocabulary);
      ShortStay(e.tasks);
    }
  }

  lemma {:induction false} ListedPrefix(tags: seq<string>, vocabulary: set<string>, n: nat) returns (cut: nat)
    requires n <= |Listed(tags, vocabulary)|
    ensures cut <= |tags| && Listed(tags[..cut], vocabulary) == Listed(tags, vocabulary)[..n]
  {
    if n == |Listed(tags, vocabulary)| {
      cut := |tags|;
      assert tags[..cut] == tags;
    } else {
      cut := ListedPrefix(tags[..|tags| - 1], vocabulary, n);
      assert tags[..|tags| - 1][..cut] == tags[..cut];
    }
  }

  /** Of too many listed tags the first ones are stored: those of the longest stretch that has no more
      than may be stored. Unlisted ones between them count for nothing. */
  lemma FirstTagsAreStored(e: Evaluation, vocabulary: set<string>) returns (cut: nat)
    ensures cut <= |e.tags| && Sanitized(e, vocabulary).tags == Listed(e.tags[..cut], vocabulary)
    ensures cut == |e.tags| || |Sanitized(e, vocabulary).tags| == MAX_TAGS_PER_ANSWER
  {
    if |Listed(e.tags, vocabulary)| <= MAX_TAGS_PER_ANSWER {
      cut := |e.tags|;
      assert e.tags[..cut] == e.tags;
    } else {
      cut := ListedPrefix(e.tags, vocabulary, MAX_TAGS_PER_ANSWER);
    }
  }

  // ------------------------------------------------------------------ feedback covers the transcript

  /** The evaluations of all topics, one topic after the other. */
  function Feedback(results: seq<seq<Evaluation>>): seq<Evaluation> {
    if results == [] then [] else Feedback(results[..|results| - 1]) + results[|results| - 1]
  }

  lemma {:induction false} FeedbackNumbers(results: seq<seq<Evaluation>>, topics: seq<seq<QuestionAnswer>>)
    requires |results| == |topics| && forall i | 0 <= i < |topics| :: Echoed(results[i]) == Numbers(topics[i])
    ensures Echoed(Feedback(results)) == Numbers(Flat(topics))
  {
    if results != [] {
      var n := |results| - 1;
      FeedbackNumbers(results[..n], topics[..n]);
      assert Echoed(Feedback(results)) == Echoed(Feedback(results[..n])) + Echoed(results[n]);
      assert Numbers(Flat(topics)) == Numbers(Flat(topics[..n])) + Numbers(topics[n]);
    }
  }

  lemma WithoutOne(b: seq<QuestionAnswer>, k: nat)
    requires k < |b|
    ensures var rest := b[..k] + b[k + 1..];
            && multiset(b) == multiset(rest) + multiset{b[k]}
            && multiset(Numbers(b)) == multiset(Numbers(rest)) + multiset{b[k].number}
  {
    var x := b[k];
    assert b == b[..k] + [x] + b[k + 1..];
    assert Numbers(b) == Numbers(b[..k]) + [x.number] + Numbers(b[k + 1..]);
    assert Numbers(b[..k] + b[k + 1..]) == Numbers(b[..k]) + Numbers(b[k + 1..]);
  }

  lemma {:induction false} NumbersMultiset(a: seq<QuestionAnswer>, b: seq<QuestionAnswer>)
    requires multiset(a) == multiset(b)
    ensures multiset(Numbers(a)) == multiset(Numbers(b))
    decreases |a|
  {
    if a == [] {
      assert |b| == |multiset(b)| == 0;
    } else {
      var n := |a| - 1;
      WithoutOne(a, n);
      assert a[..n] + a[n + 1..] == a[..n];
      assert a[n] in multiset(b);
      var k :| 0 <= k < |b| && b[k] == a[n];
      WithoutOne(b, k);
      var rest := b[..k] + b[k + 1..];
      assert multiset(a[..n]) == multiset(a) - multiset{a[n]};
      assert multiset(rest) == multiset(b) - multiset{b[k]};
      NumbersMultiset(a[..n], rest);
    }
  }

  /** For any transcript and any evaluations that pass validation: the feedback has one entry for each
      pair, and no number twice. */
  lemma FeedbackCoversPairsOnce(ls: seq<Line>, results: seq<seq<Evaluation>>)
    requires |results| == |Topics(AllJoined(Pairs(ls)))|
    requires forall i | 0 <= i < |results| :: Echoed(results[i]) == Numbers(Topics(AllJoined(Pairs(ls)))[i])
    ensures multiset(Echoed(Feedback(results))) == multiset(SortedKeys(NumbersOf(ls)))
    ensures StrictlySorted(SortedKeys(NumbersOf(ls)))
    ensures forall n :: n in NumbersOf(ls) <==> multiset(Echoed(Feedback(results)))[n] == 1
    ensures forall n :: n !in NumbersOf(ls) <==> multiset(Echoed(Feedback(results)))[n] == 0
  {
    var qs := AllJoined(Pairs(ls));
    var ns := SortedKeys(NumbersOf(ls));
    FeedbackNumbers(results, Topics(qs));
    TopicsPartition(qs);
    NumbersMultiset(Flat(Topics(qs)), qs);
    assert Numbers(qs) == ns;
    SortedKeysSorted(NumbersOf(ls));
    forall n
      ensures multiset(ns)[n] == (if n in ns then 1 else 0)
    {
      OnceEach(ns, n);
    }
  }

  lemma {:induction false} OnceEach(ns: seq<int>, n: int)
    requires StrictlySorted(ns)
    ensures multiset(ns)[n] == (if n in ns then 1 else 0)
  {
    if ns != [] {
      OnceEach(ns[..|ns| - 1], n);
      assert ns == ns[..|ns| - 1] + [ns[|ns| - 1]];
    }
  }
}
