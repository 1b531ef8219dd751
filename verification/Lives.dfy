/** One session through several lives: what a log keeps over crashes, gaps and restarts. */
module Lives {
  import opened Wrappers
  import opened Integers
  import opened Utterances
  import opened Conversation
  import opened TurnProtocol
  import opened TurnInvariant
  import opened TurnTheorems
  import opened FreshSession
  import opened Subsequences
  import opened Restore
  import RedisSink

  function RunOf(v: Life): State {
    Session(RebuiltLog(v.items), v.maxFollowUps, v.now, v.events)
  }

  /** The clock of a life starts no earlier than that of the life before it stopped. */
  ghost predicate ClockRunsOn(vs: seq<Life>) {
    forall i | 0 < i < |vs| :: RunOf(vs[i - 1]).clock <= vs[i].now
  }

  // ------------------------------------------------------------------ tidy logs

  /** A number stands for one branch, which is no later than the number. */
  ghost predicate OneBranchEach(us: seq<Utterance>) {
    && (forall u | u in us && u.questionNumber.Some? && u.parent.Some? :: u.parent.value <= u.questionNumber.value)
    && (forall u, v | u in us && v in us && u.questionNumber.Some? && u.questionNumber == v.questionNumber ::
          u.parent == v.parent)
  }

  /** What every life leaves of a log, however gappy the copies in between. */
  ghost predicate Tidy(us: seq<Utterance>, clock: int) {
    WellFormed(us) && OneBranchEach(us) && Timely(us, clock)
  }

  lemma SubKeepsTimely(a: seq<Utterance>, b: seq<Utterance>, clock: int)
    requires Timely(b, clock) && Sub(a, b)
    ensures Timely(a, clock)
  {
    SubIn(a, b);
    forall i, j | 0 <= i < j < |a| && IsAnswer(a[j])
      ensures a[i].spokenAt.micros <= a[j].spokenAt.micros
    {
      var k, m := SubPair(a, b, i, j);
    }
  }

  lemma WholeSecondsOrder(s: int, t: int)
    requires s <= t
    ensures (s / SECOND) * SECOND <= (t / SECOND) * SECOND <= t
  {
  }

  lemma StoredKeepsTimely(us: seq<Utterance>, clock: int)
    requires Timely(us, clock)
    ensures Timely(Map(Stored, us), clock)
  {
    var m := Map(Stored, us);
    forall u | u in m
      ensures u.spokenAt.micros <= clock
    {
      var i :| 0 <= i < |us| && m[i] == u;
      assert us[i] in us;
      WholeSecondsOrder(us[i].spokenAt.micros, us[i].spokenAt.micros);
    }
    forall i, j | 0 <= i < j < |m| && IsAnswer(m[j])
      ensures m[i].spokenAt.micros <= m[j].spokenAt.micros
    {
      assert m[i] == Stored(us[i]) && m[j] == Stored(us[j]);
      WholeSecondsOrder(us[i].spokenAt.micros, us[j].spokenAt.micros);
    }
  }

  lemma StoredKeepsBranches(us: seq<Utterance>)
    requires OneBranchEach(us)
    ensures OneBranchEach(Map(Stored, us))
  {
    StoredKeepsMembers(us);
  }

  /** A copy with gaps, and whole seconds only, is as tidy as the log it was made of. */
  lemma CopyIsTidy(items: seq<Dict>, us: seq<Utterance>, clock: int)
    requires Tidy(us, clock) && Sub(items, Map(ToJson, us))
    ensures Tidy(Parsed(items), clock) && GoodLog(RebuiltLog(items))
  {
    RebuiltIsSound(items, us);
    StoredKeepsTimely(us, clock);
    StoredKeepsBranches(us);
    SubKeepsTimely(Parsed(items), Map(Stored, us), clock);
    SubIn(Parsed(items), Map(Stored, us));
  }

  // ------------------------------------------------------------------ what a life adds

  /** The log and history of a session, from utterance `kept` on made by itself. */
  ghost predicate Made(l: Log, os: seq<Origin>, kept: nat, m: nat) {
    (forall u | u in l.utterances :: Valid(u)) && Growing(l.utterances, 0) && OriginsInv(l, os, kept, m)
  }

  lemma SessionIsMade(l: Log, maxFollowUps: nat, now: int, es: seq<Event>)
    requires GoodLog(l)
    ensures var s := Session(l, maxFollowUps, now, es);
            && Made(s.log, s.origins, |l.utterances|, maxFollowUps) && GoodLog(s.log)
            && Said(s)[..|l.utterances|] == l.utterances
  {
    GoodSession(l, maxFollowUps, now, es);
    SessionFrame(l, maxFollowUps, now, es);
  }

  /** What enters a log: a question beyond every number, an answer to the last question, a closing. */
  ghost predicate Continues(us: seq<Utterance>, u: Utterance) {
    && Valid(u)
    && (IsQuestion(u) ==>
          && (forall v | v in us && v.questionNumber.Some? :: v.questionNumber.value < u.questionNumber.value)
          && (IsFollowUp(u) ==> u.parent == CurrentRoot(us)))
    && (IsAnswer(u) ==>
          && LastQuestion(us).Some? && u.questionNumber == LastQuestion(us).value.questionNumber
          && u.parent == LastQuestion(us).value.parent)
  }

  lemma MadeContinues(l: Log, os: seq<Origin>, kept: nat, m: nat, n: nat)
    requires Made(l, os, kept, m) && kept <= n < |l.utterances|
    ensures Continues(l.utterances[..n], l.utterances[n])
  {
    var us := l.utterances;
    var u := us[n];
    assert u in us && OriginAt(l, os, n, m) && os[n] != Recovered;
    forall v | v in us[..n] && v.questionNumber.Some? && IsQuestion(u)
      ensures v.questionNumber.value < u.questionNumber.value
    {
      var i :| 0 <= i < n && us[..n][i] == v;
      assert us[i] == v;
    }
  }

  lemma ContinuesKeepsBranches(us: seq<Utterance>, u: Utterance)
    requires OneBranchEach(us) && Continues(us, u)
    ensures OneBranchEach(us + [u])
  {
    if IsAnswer(u) {
      var q := LastQuestion(us).value;
      assert q in us;
    }
  }

  lemma {:induction false} MadeKeepsBranches(l: Log, os: seq<Origin>, kept: nat, m: nat, n: nat)
    requires Made(l, os, kept, m) && kept <= n <= |l.utterances| && OneBranchEach(l.utterances[..kept])
    ensures OneBranchEach(l.utterances[..n])
  {
    if n > kept {
      MadeKeepsBranches(l, os, kept, m, n - 1);
      MadeContinues(l, os, kept, m, n - 1);
      ContinuesKeepsBranches(l.utterances[..n - 1], l.utterances[n - 1]);
      assert l.utterances[..n] == l.utterances[..n - 1] + [l.utterances[n - 1]];
    }
  }

  lemma SessionClock(l: Log, maxFollowUps: nat, now: int)
    ensures SessionStart(l, maxFollowUps, now).clock == now && Said(SessionStart(l, maxFollowUps, now)) == l.utterances
  {
  }

  lemma SessionIsTidy(l: Log, maxFollowUps: nat, now: int, es: seq<Event>)
    requires GoodLog(l) && Tidy(l.utterances, now)
    ensures var s := Session(l, maxFollowUps, now, es); Tidy(Said(s), s.clock)
  {
    var s := Session(l, maxFollowUps, now, es);
    SessionIsMade(l, maxFollowUps, now, es);
    MadeKeepsBranches(s.log, s.origins, |l.utterances|, maxFollowUps, |Said(s)|);
    assert Said(s)[..|Said(s)|] == Said(s);
    SessionClock(l, maxFollowUps, now);
    RunTimely(SessionStart(l, maxFollowUps, now), es);
  }

  lemma NothingRebuilt()
    ensures RebuiltLog([]) == Log([], 0) && GoodLog(RebuiltLog([]))
    ensures forall clock: int :: Tidy([], clock)
  {
  }

  /** However often a session crashes and whatever its copies lose: in every life each number stands
      for one branch, and nothing said before an answer carries a later time, as long as the clock
      does not run backwards. */
  lemma {:induction false} EveryLifeIsTidy(vs: seq<Life>, n: nat)
    requires Lineage(vs) && ClockRunsOn(vs) && n < |vs|
    ensures Tidy(LogOf(vs[n]), RunOf(vs[n]).clock)
    ensures GoodLog(RebuiltLog(vs[n].items)) && Tidy(Parsed(vs[n].items), vs[n].now)
  {
    var v := vs[n];
    if n == 0 {
      NothingRebuilt();
    } else {
      EveryLifeIsTidy(vs, n - 1);
      CopyIsTidy(v.items, LogOf(vs[n - 1]), RunOf(vs[n - 1]).clock);
    }
    SessionIsTidy(RebuiltLog(v.items), v.maxFollowUps, v.now, v.events);
  }

  // ------------------------------------------------------------------ the order of first appearance

  datatype Field = Number | Parent

  /** Branches are told apart by parent, exchanges by number. */
  function KeyOf(u: Utterance, f: Field): Option<int> {
    if f.Number? then u.questionNumber else u.parent
  }

  function FirstSeen(us: seq<Utterance>, f: Field): (ks: seq<int>)
    ensures forall k :: k in ks <==> exists u | u in us :: KeyOf(u, f) == Some(k)
  {
    if us == [] then [] else
    var before := FirstSeen(us[..|us| - 1], f);
    var k := KeyOf(us[|us| - 1], f);
    assert us == us[..|us| - 1] + [us[|us| - 1]];
    if k.Some? && k.value !in before then before + [k.value] else before
  }

  lemma {:induction false} RootsAreFirstSeen(us: seq<Utterance>)
    ensures BranchRoots(us) == FirstSeen(us, Parent)
  {
    if us != [] { RootsAreFirstSeen(us[..|us| - 1]); }
  }

  ghost predicate Seen(us: seq<Utterance>, f: Field, k: int) {
    exists u | u in us :: KeyOf(u, f) == Some(k)
  }

  ghost predicate AtMost(us: seq<Utterance>, f: Field, k: int) {
    forall u | u in us && KeyOf(u, f).Some? :: KeyOf(u, f).value <= k
  }

  /** A key that was not there before is larger than all that were. */
  ghost predicate RisesAt(us: seq<Utterance>, f: Field, j: nat)
    requires j < |us|
  {
    var k := KeyOf(us[j], f);
    k.Some? ==> Seen(us[..j], f, k.value) || AtMost(us[..j], f, k.value)
  }

  ghost predicate Rising(us: seq<Utterance>, f: Field) {
    forall j | 0 <= j < |us| :: RisesAt(us, f, j)
  }

  lemma RisingPrefix(us: seq<Utterance>, f: Field, n: nat)
    requires Rising(us, f) && n <= |us|
    ensures Rising(us[..n], f)
  {
    forall j | 0 <= j < n
      ensures RisesAt(us[..n], f, j)
    {
      assert RisesAt(us, f, j) && us[..n][..j] == us[..j];
    }
  }

  /** Then first appearance is ascending order. */
  lemma {:induction false} RisingIsAscending(us: seq<Utterance>, f: Field)
    requires Rising(us, f)
    ensures StrictlySorted(FirstSeen(us, f))
  {
    if us != [] {
      var front := us[..|us| - 1];
      RisingPrefix(us, f, |us| - 1);
      RisingIsAscending(front, f);
      assert RisesAt(us, f, |us| - 1);
      var before := FirstSeen(front, f);
      forall i | 0 <= i < |before| && FirstSeen(us, f) != before
        ensures before[i] < KeyOf(us[|us| - 1], f).value
      {
        assert before[i] in before;
        var u :| u in front && KeyOf(u, f) == Some(before[i]);
      }
    }
  }

  /** As RisesAt, but what counts as seen before has to have been there when the life began: no gap in
      what the life added can take it away. */
  ghost predicate Settled(us: seq<Utterance>, base: nat, f: Field)
    requires base <= |us|
  {
    forall j | base <= j < |us| && KeyOf(us[j], f).Some? ::
      Seen(us[..base], f, KeyOf(us[j], f).value) || AtMost(us[..j], f, KeyOf(us[j], f).value)
  }

  /** The last question belongs to the start, or is ahead of everything. */
  ghost predicate Ahead(us: seq<Utterance>, base: nat, f: Field)
    requires base <= |us|
  {
    var q := LastQuestion(us);
    q.Some? && KeyOf(q.value, f).Some? ==>
      Seen(us[..base], f, KeyOf(q.value, f).value) || AtMost(us, f, KeyOf(q.value, f).value)
  }

  lemma StartIsAhead(us: seq<Utterance>, f: Field)
    ensures Settled(us, |us|, f) && Ahead(us, |us|, f)
  {
    assert us[..|us|] == us;
    var q := LastQuestion(us);
    if q.Some? && KeyOf(q.value, f).Some? {
      assert q.value in us && KeyOf(q.value, f) == Some(KeyOf(q.value, f).value);
    }
  }

  /** Whose key an utterance carries: its own new one, that of the last question, or none. */
  ghost predicate KeyFollows(us: seq<Utterance>, f: Field, u: Utterance) {
    && (IsQuestion(u) ==> KeyOf(u, f).Some?)
    && (KeyOf(u, f).Some? ==>
          || (IsQuestion(u) && AtMost(us, f, KeyOf(u, f).value))
          || (LastQuestion(us).Some? && KeyOf(u, f) == KeyOf(LastQuestion(us).value, f)))
  }

  lemma ContinuesFollows(us: seq<Utterance>, f: Field, u: Utterance)
    requires Continues(us, u) && OneBranchEach(us) && forall v | v in us :: Valid(v)
    ensures KeyFollows(us, f, u)
  {
    if IsQuestion(u) && !(f.Parent? && IsFollowUp(u)) {
      forall v | v in us && KeyOf(v, f).Some?
        ensures KeyOf(v, f).value <= KeyOf(u, f).value
      {
        assert Valid(v);
      }
    }
  }

  lemma AtMostGrows(us: seq<Utterance>, f: Field, u: Utterance, k: int)
    requires AtMost(us, f, k) && (KeyOf(u, f).Some? ==> KeyOf(u, f).value <= k)
    ensures AtMost(us + [u], f, k)
  {
  }

  lemma AheadGrows(us: seq<Utterance>, base: nat, f: Field, u: Utterance)
    requires base <= |us| && Ahead(us, base, f) && KeyFollows(us, f, u)
    ensures Ahead(us + [u], base, f)
  {
    LastQuestionAppend(us, u);
    assert (us + [u])[..base] == us[..base];
    var q := LastQuestion(us + [u]);
    if q.Some? && KeyOf(q.value, f).Some? {
      var k := KeyOf(q.value, f).value;
      if AtMost(us, f, k) { AtMostGrows(us, f, u, k); }
    }
  }

  lemma SettledGrows(us: seq<Utterance>, base: nat, f: Field, u: Utterance)
    requires base <= |us| && Settled(us, base, f) && Ahead(us, base, f) && KeyFollows(us, f, u)
    ensures Settled(us + [u], base, f)
  {
    var after := us + [u];
    assert after[..base] == us[..base];
    forall j | base <= j < |after| && KeyOf(after[j], f).Some?
      ensures Seen(after[..base], f, KeyOf(after[j], f).value) || AtMost(after[..j], f, KeyOf(after[j], f).value)
    {
      if j < |us| {
        assert after[..j] == us[..j];
      } else {
        assert after[..j] == us;
      }
    }
  }

  lemma {:induction false} MadeIsSettled(l: Log, os: seq<Origin>, kept: nat, m: nat, n: nat, f: Field)
    requires Made(l, os, kept, m) && kept <= n <= |l.utterances| && OneBranchEach(l.utterances)
    ensures Settled(l.utterances[..n], kept, f) && Ahead(l.utterances[..n], kept, f)
  {
    var us := l.utterances;
    if n == kept {
      StartIsAhead(us[..kept], f);
    } else {
      MadeIsSettled(l, os, kept, m, n - 1, f);
      MadeContinues(l, os, kept, m, n - 1);
      OneMoreSettles(us, kept, n, f);
    }
  }

  lemma OneMoreSettles(us: seq<Utterance>, base: nat, n: nat, f: Field)
    requires base < n <= |us| && OneBranchEach(us) && (forall v | v in us :: Valid(v))
    requires Settled(us[..n - 1], base, f) && Ahead(us[..n - 1], base, f) && Continues(us[..n - 1], us[n - 1])
    ensures Settled(us[..n], base, f) && Ahead(us[..n], base, f)
  {
    var front := us[..n - 1];
    assert forall v | v in front :: v in us;
    ContinuesFollows(front, f, us[n - 1]);
    AheadGrows(front, base, f, us[n - 1]);
    SettledGrows(front, base, f, us[n - 1]);
    assert us[..n] == front + [us[n - 1]];
  }

  lemma SettledRises(us: seq<Utterance>, base: nat, f: Field)
    requires base <= |us| && Settled(us, base, f) && Rising(us[..base], f)
    ensures Rising(us, f)
  {
    forall j | 0 <= j < |us|
      ensures RisesAt(us, f, j)
    {
      if j < base {
        assert RisesAt(us[..base], f, j) && us[..base][..j] == us[..j];
      } else if KeyOf(us[j], f).Some? && Seen(us[..base], f, KeyOf(us[j], f).value) {
        var u :| u in us[..base] && KeyOf(u, f) == KeyOf(us[j], f);
        assert us[..base] <= us[..j] && u in us[..j];
      }
    }
  }

  // ------------------------------------------------------------------ copies that are only appended to

  /** What a life said itself. */
  function Added(v: Life): seq<Utterance> {
    From(LogOf(v), |Parsed(v.items)|)
  }

  /** What the next life finds: the list this one started on, and of what was added a part. */
  ghost predicate Appended(v: Life, list: seq<Dict>) {
    v.items <= list && Sub(list[|v.items|..], Map(ToJson, Added(v)))
  }

  /** As a lineage, but what was read back once is not lost any more: writers only append. */
  ghost predicate Appending(vs: seq<Life>) {
    && (vs != [] ==> vs[0].items == [])
    && forall i, j | 0 <= i && j == i + 1 && j < |vs| :: Appended(vs[i], vs[j].items)
  }

  /** The list a transcript writer leaves that was handed everything a life committed, in order, on top
      of the list the life was rebuilt from: whatever the timing, the full queues and the failures. */
  lemma WriterAppends(v: Life, es: seq<RedisSink.Event<Dict>>)
    requires RedisSink.Exec(RedisSink.Opened(v.items), es).sent == v.items + Map(ToJson, Added(v))
    ensures Appended(v, RedisSink.Exec(RedisSink.Opened(v.items), es).stored)
  {
    RedisSink.ListOnlyGrows(v.items, es);
    var k := RedisSink.Exec(RedisSink.Opened(v.items), es);
    assert k.sent[|v.items|..] == Map(ToJson, Added(v));
  }

  lemma StartStays(start: seq<Utterance>, us: seq<Utterance>)
    requires start <= us
    ensures us == start + From(us, |start|)
  {
  }

  lemma LifeExtends(v: Life)
    requires GoodLog(RebuiltLog(v.items))
    ensures LogOf(v) == Parsed(v.items) + Added(v) && |Parsed(v.items)| <= |LogOf(v)|
  {
    SessionFrame(RebuiltLog(v.items), v.maxFollowUps, v.now, v.events);
    StartStays(Parsed(v.items), LogOf(v));
  }

  lemma CopyExtends(start: seq<Utterance>, added: seq<Utterance>, list: seq<Dict>)
    requires Map(ToJson, start) <= list && Sub(list[|start|..], Map(ToJson, added))
    ensures Sub(list, Map(ToJson, start + added))
  {
    var front := Map(ToJson, start);
    SubHead(front, list[|start|..], Map(ToJson, added));
    assert list == front + list[|start|..];
    assert Map(ToJson, start + added) == front + Map(ToJson, added);
  }

  lemma AppendedIsCopy(v: Life, list: seq<Dict>)
    requires GoodLog(RebuiltLog(v.items)) && Map(ToJson, Parsed(v.items)) == v.items && Appended(v, list)
    ensures Sub(list, Map(ToJson, LogOf(v)))
  {
    LifeExtends(v);
    CopyExtends(Parsed(v.items), Added(v), list);
  }

  lemma {:induction false} AppendingIsSound(vs: seq<Life>, n: nat)
    requires Appending(vs) && n < |vs|
    ensures GoodLog(RebuiltLog(vs[n].items)) && Map(ToJson, Parsed(vs[n].items)) == vs[n].items
    ensures n > 0 ==> Sub(vs[n].items, Map(ToJson, LogOf(vs[n - 1])))
  {
    if n == 0 {
      NothingRebuilt();
    } else {
      AppendingIsSound(vs, n - 1);
      var v := vs[n - 1];
      AppendedIsCopy(v, vs[n].items);
      GoodSession(RebuiltLog(v.items), v.maxFollowUps, v.now, v.events);
      RebuiltIsSound(vs[n].items, LogOf(v));
      WellFormedValid(LogOf(v));
      RewrittenCopyIsTheSame(vs[n].items, LogOf(v));
    }
  }

  lemma AppendingIsLineage(vs: seq<Life>)
    requires Appending(vs)
    ensures Lineage(vs)
  {
    forall i | 0 < i < |vs|
      ensures Sub(vs[i].items, Map(ToJson, LogOf(vs[i - 1])))
    {
      AppendingIsSound(vs, i);
    }
  }

  // ------------------------------------------------------------------ then every life is in order

  lemma {:induction false} ParsedConcat(a: seq<Dict>, b: seq<Dict>)
    ensures Parsed(a + b) == Parsed(a) + Parsed(b)
    decreases |b|
  {
    if b == [] {
      assert a + b == a;
    } else {
      ParsedConcat(a, b[..|b| - 1]);
      assert (a + b)[..|a + b| - 1] == a + b[..|b| - 1];
    }
  }

  lemma StoredStaysSettled(start: seq<Utterance>, added: seq<Utterance>, f: Field)
    requires Settled(start + added, |start|, f)
    ensures Settled(start + Map(Stored, added), |start|, f)
  {
    var us, ws := start + added, start + Map(Stored, added);
    assert us[..|start|] == start == ws[..|start|];
    forall j | |start| <= j < |ws| && KeyOf(ws[j], f).Some?
      ensures Seen(ws[..|start|], f, KeyOf(ws[j], f).value) || AtMost(ws[..j], f, KeyOf(ws[j], f).value)
    {
      assert ws[j] == Stored(us[j]);
      var k := KeyOf(us[j], f).value;
      if AtMost(us[..j], f, k) { StoredAtMost(us, ws, j, f, k); }
    }
  }

  lemma StoredAtMost(us: seq<Utterance>, ws: seq<Utterance>, j: nat, f: Field, k: int)
    requires j <= |us| == |ws| && forall i | 0 <= i < |us| :: ws[i] == us[i] || ws[i] == Stored(us[i])
    requires AtMost(us[..j], f, k)
    ensures AtMost(ws[..j], f, k)
  {
    forall w | w in ws[..j] && KeyOf(w, f).Some?
      ensures KeyOf(w, f).value <= k
    {
      var i :| 0 <= i < j && ws[i] == w;
      assert us[i] in us[..j];
    }
  }

  /** No gap in what a life added disturbs the order. */
  lemma GapsRise(start: seq<Utterance>, added: seq<Utterance>, kept: seq<Utterance>, f: Field)
    requires Settled(start + added, |start|, f) && Rising(start, f) && Sub(kept, added)
    ensures Rising(start + kept, f)
  {
    var us := start + kept;
    forall j | 0 <= j < |us|
      ensures RisesAt(us, f, j)
    {
      if j < |start| {
        assert RisesAt(start, f, j) && us[..j] == start[..j];
      } else {
        var k := SubAt(kept, added, j - |start|);
        GapRises(start, added, kept, j - |start|, k, f);
      }
    }
  }

  lemma GapRises(start: seq<Utterance>, added: seq<Utterance>, kept: seq<Utterance>, i: nat, k: nat, f: Field)
    requires Settled(start + added, |start|, f) && i < |kept| && k < |added|
    requires kept[i] == added[k] && Sub(kept[..i], added[..k])
    ensures RisesAt(start + kept, f, |start| + i)
  {
    var us := start + added;
    assert us[|start| + k] == added[k] && us[..|start|] == start && us[..|start| + k] == start + added[..k];
    assert (start + kept)[..|start| + i] == start + kept[..i];
    SubIn(kept[..i], added[..k]);
  }

  lemma SessionRises(l: Log, maxFollowUps: nat, now: int, es: seq<Event>, f: Field)
    requires GoodLog(l) && Tidy(l.utterances, now) && Rising(l.utterances, f)
    ensures var us := Said(Session(l, maxFollowUps, now, es));
            |l.utterances| <= |us| && Settled(us, |l.utterances|, f) && Rising(us, f)
  {
    var s := Session(l, maxFollowUps, now, es);
    SessionIsMade(l, maxFollowUps, now, es);
    SessionIsTidy(l, maxFollowUps, now, es);
    MadeIsSettled(s.log, s.origins, |l.utterances|, maxFollowUps, |Said(s)|, f);
    assert Said(s)[..|Said(s)|] == Said(s);
    SettledRises(Said(s), |l.utterances|, f);
  }

  /** While writers only append, numbers and branches first appear in ascending order in every life. */
  lemma {:induction false} EveryLifeRises(vs: seq<Life>, n: nat, f: Field)
    requires Appending(vs) && ClockRunsOn(vs) && n < |vs|
    ensures Rising(Parsed(vs[n].items), f) && Rising(LogOf(vs[n]), f)
    ensures |Parsed(vs[n].items)| <= |LogOf(vs[n])| && Settled(LogOf(vs[n]), |Parsed(vs[n].items)|, f)
  {
    var v := vs[n];
    AppendingIsLineage(vs);
    EveryLifeIsTidy(vs, n);
    if n > 0 {
      EveryLifeRises(vs, n - 1, f);
      AppendingIsSound(vs, n - 1);
      StartRises(vs[n - 1], v.items, f);
    }
    SessionRises(RebuiltLog(v.items), v.maxFollowUps, v.now, v.events, f);
  }

  lemma StartRises(v: Life, list: seq<Dict>, f: Field)
    requires GoodLog(RebuiltLog(v.items)) && Appended(v, list) && Rising(Parsed(v.items), f)
    requires |Parsed(v.items)| <= |LogOf(v)| && Settled(LogOf(v), |Parsed(v.items)|, f)
    ensures Rising(Parsed(list), f)
  {
    var start, rest := Parsed(v.items), list[|v.items|..];
    LifeExtends(v);
    assert list == v.items + rest;
    ParsedConcat(v.items, rest);
    GoodSession(RebuiltLog(v.items), v.maxFollowUps, v.now, v.events);
    WellFormedValid(LogOf(v));
    ParsedIsStored(Map(ToJson, Added(v)), Added(v));
    SubParsed(rest, Map(ToJson, Added(v)));
    StoredStaysSettled(start, Added(v), f);
    GapsRise(start, Map(Stored, Added(v)), Parsed(rest), f);
  }
}
