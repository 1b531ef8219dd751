/** The report row: every SQL statement and every transaction is one atomic operation on it. */
module ReportRepository {
  import opened Wrappers
  import opened Integers

  datatype Status = PENDING | PROCESSING | COMPLETED | FAILED

  /** Weakness tags: the voice vocabulary, the text vocabulary by position, anything else. */
  datatype Tag = Fast | Slow | FrequentSilence | Fillers | TextTag(index: nat) | Unlisted(name: string)

  datatype TagCount = TagCount(tag: Tag, count: nat)

  datatype Scores = Scores(logic: int, specificity: int, technical: int)

  datatype Feedback = Feedback(questionNumber: int, scores: Scores, text: string, tags: seq<Tag>)

  datatype TextResults = TextResults(scores: Scores, feedbacks: seq<Feedback>, summary: string, tags: seq<TagCount>)

  datatype AudioResults = AudioResults(delivery: Option<int>, tags: seq<TagCount>)

  /** A row of `reports` with its row of `report_scores` and its `report_feedbacks`. */
  datatype Report = Report(
    status: Status,
    scores: Option<Scores>,
    feedbacks: seq<Feedback>,
    summary: Option<string>,
    tags: seq<TagCount>,
    textAt: Option<int>,
    audioAt: Option<int>,
    delivery: Option<int>,
    overall: Option<int>,
    failedReason: Option<string>,
    completedAt: Option<int>)

  predicate IsVoice(t: Tag) {
    t.Fast? || t.Slow? || t.FrequentSilence? || t.Fillers?
  }

  predicate IsTerminal(s: Status) {
    s == COMPLETED || s == FAILED
  }

  function Rank(s: Status): nat {
    match s case PENDING => 0 case PROCESSING => 1 case COMPLETED => 2 case FAILED => 2
  }

  predicate InRange(n: int) {
    0 <= n <= 100
  }

  predicate ScoresOk(s: Scores) {
    InRange(s.logic) && InRange(s.specificity) && InRange(s.technical)
  }

  /** What the text stage hands over: validated scores, only text tags, at least one feedback. */
  predicate TextOk(t: TextResults) {
    ScoresOk(t.scores) && t.feedbacks != [] && forall c | c in t.tags :: !IsVoice(c.tag)
  }

  /** What the audio stage hands over. */
  predicate AudioOk(a: AudioResults) {
    (a.delivery.Some? ==> InRange(a.delivery.value)) && forall c | c in a.tags :: IsVoice(c.tag)
  }

  // ------------------------------------------------------------------ the overall score

  /** SQL round(): to the nearest integer, ties away from zero. */
  function SqlRound(sum: int, n: nat): int
    requires n > 0
  {
    if sum >= 0 then (2 * sum + n) / (2 * n) else -((-2 * sum + n) / (2 * n))
  }

  /** Python floor(x + 0.5): to the nearest integer, ties up. */
  function FloorRound(sum: int, n: nat): int
    requires n > 0
  {
    (2 * sum + n) / (2 * n)
  }

  function Overall(s: Scores, delivery: Option<int>): int {
    SqlRound(s.logic + s.specificity + s.technical + (if delivery.Some? then delivery.value else 0),
             if delivery.Some? then 4 else 3)
  }

  /** `r` is the mean of n values with this sum, half rounded up. */
  predicate IsHalfUpMean(r: int, sum: int, n: nat) {
    2 * n * r - n <= 2 * sum < 2 * n * r + n
  }

  lemma FloorRoundIsHalfUp(sum: int, n: nat)
    requires n > 0
    ensures IsHalfUpMean(FloorRound(sum, n), sum, n)
  {
    DivisionBounds(2 * sum + n, 2 * n);
  }

  lemma HalfUpIsUnique(r: int, q: int, sum: int, n: nat)
    requires n > 0 && IsHalfUpMean(r, sum, n) && IsHalfUpMean(q, sum, n)
    ensures r == q
  {
    if r < q {
      NextMean(n, r, q);
    } else if q < r {
      NextMean(n, q, r);
    }
  }

  lemma NextMean(n: nat, r: int, q: int)
    requires r < q
    ensures 2 * n * r + 2 * n <= 2 * n * q
  {
    ProductGrows(2 * n, r + 1, q);
    assert 2 * n * (r + 1) == 2 * n * r + 2 * n;
  }

  /** The two roundings of the repository agree exactly where the mean is not a negative tie; scores
      are never negative. */
  lemma RoundingsAgree(sum: int, n: nat)
    requires n > 0
    ensures SqlRound(sum, n) == FloorRound(sum, n) <==> sum >= 0 || (2 * sum + n) % (2 * n) != 0
  {
    if sum < 0 {
      var a, d := 2 * sum + n, 2 * n;
      var q, rest := a / d, a % d;
      assert a == d * q + rest;
      if rest == 0 {
        assert -2 * sum + n == d * (1 - q) by { assert d * (1 - q) == d - d * q; }
        QuotientIs(-2 * sum + n, d, 1 - q, 0);
      } else {
        assert -2 * sum + n == d * (-q) + (d - rest) by { assert d * (-q) == -(d * q); }
        QuotientIs(-2 * sum + n, d, -q, d - rest);
      }
    }
  }

  /** The overall score is the half-up mean of the three axes, and of delivery where there is one,
      and stays on the scale. */
  lemma OverallIsMean(s: Scores, delivery: Option<int>)
    requires ScoresOk(s) && (delivery.Some? ==> InRange(delivery.value))
    ensures InRange(Overall(s, delivery))
    ensures var sum := s.logic + s.specificity + s.technical;
            if delivery.Some? then IsHalfUpMean(Overall(s, delivery), sum + delivery.value, 4)
            else IsHalfUpMean(Overall(s, delivery), sum, 3)
  {
  }

  /** And it is the only number that is. */
  lemma OverallIsTheMean(s: Scores, delivery: Option<int>, r: int)
    requires ScoresOk(s) && (delivery.Some? ==> InRange(delivery.value))
    ensures var sum := s.logic + s.specificity + s.technical;
            r == Overall(s, delivery) <==>
              if delivery.Some? then IsHalfUpMean(r, sum + delivery.value, 4) else IsHalfUpMean(r, sum, 3)
  {
    var sum := s.logic + s.specificity + s.technical + (if delivery.Some? then delivery.value else 0);
    var n := if delivery.Some? then 4 else 3;
    OverallIsMean(s, delivery);
    if IsHalfUpMean(r, sum, n) { HalfUpIsUnique(r, Overall(s, delivery), sum, n); }
  }

  function Total(ns: seq<int>): int {
    if ns == [] then 0 else Total(ns[..|ns| - 1]) + ns[|ns| - 1]
  }

  function RoundMean(ns: seq<int>): int
    requires ns != []
  {
    FloorRound(Total(ns), |ns|)
  }

  lemma {:induction false} TotalInRange(ns: seq<int>)
    requires forall i | 0 <= i < |ns| :: InRange(ns[i])
    ensures 0 <= Total(ns) <= 100 * |ns|
  {
    if ns != [] { TotalInRange(ns[..|ns| - 1]); }
  }

  function Axis(ss: seq<Scores>, axis: Scores -> int): seq<int> {
    seq(|ss|, i requires 0 <= i < |ss| => axis(ss[i]))
  }

  /** The axis scores of a session: the rounded means over its answers. */
  function AggregateScores(ss: seq<Scores>): Scores
    requires ss != []
  {
    Scores(RoundMean(Axis(ss, (s: Scores) => s.logic)), RoundMean(Axis(ss, (s: Scores) => s.specificity)),
           RoundMean(Axis(ss, (s: Scores) => s.technical)))
  }

  lemma RoundMeanInRange(ns: seq<int>)
    requires ns != [] && forall i | 0 <= i < |ns| :: InRange(ns[i])
    ensures InRange(RoundMean(ns)) && IsHalfUpMean(RoundMean(ns), Total(ns), |ns|)
  {
    TotalInRange(ns);
    FloorRoundIsHalfUp(Total(ns), |ns|);
    var r := RoundMean(ns);
    if r > 100 {
      ProductGrows(2 * |ns|, 101, r);
    } else if r < 0 {
      ProductGrows(2 * |ns|, r, -1);
    }
  }

  /** Validated answers give axis scores on the scale, each the half-up mean of its axis. */
  lemma AggregateStaysOnScale(ss: seq<Scores>)
    requires ss != [] && forall i | 0 <= i < |ss| :: ScoresOk(ss[i])
    ensures ScoresOk(AggregateScores(ss))
    ensures IsHalfUpMean(AggregateScores(ss).logic, Total(Axis(ss, (s: Scores) => s.logic)), |ss|)
    ensures IsHalfUpMean(AggregateScores(ss).specificity, Total(Axis(ss, (s: Scores) => s.specificity)), |ss|)
    ensures IsHalfUpMean(AggregateScores(ss).technical, Total(Axis(ss, (s: Scores) => s.technical)), |ss|)
  {
    RoundMeanInRange(Axis(ss, (s: Scores) => s.logic));
    RoundMeanInRange(Axis(ss, (s: Scores) => s.specificity));
    RoundMeanInRange(Axis(ss, (s: Scores) => s.technical));
  }

  // ------------------------------------------------------------------ statements and transactions

  function NewReport(): Report {
    Report(PENDING, None, [], None, [], None, None, None, None, None, None)
  }

  function Keep(tags: seq<TagCount>, voice: bool): seq<TagCount> {
    if tags == [] then []
    else (if IsVoice(tags[0].tag) == voice then [tags[0]] else []) + Keep(tags[1..], voice)
  }

  function Moved(r: Report, from: Status, to: Status): Report {
    if r.status == from then r.(status := to) else r
  }

  function MarkedFailed(r: Report, reason: string): Report {
    if IsTerminal(r.status) then r else r.(status := FAILED, failedReason := Some(reason))
  }

  /** Whether the conditional UPDATE of try_complete() hits the row. */
  predicate Completable(r: Report, requireAudio: bool) {
    r.status == PROCESSING && r.textAt.Some? && r.scores.Some? && (requireAudio ==> r.audioAt.Some?)
  }

  function Completed(r: Report, requireAudio: bool, now: int): Report {
    if Completable(r, requireAudio)
    then r.(status := COMPLETED, overall := Some(Overall(r.scores.value, r.delivery)), completedAt := Some(now))
    else r
  }

  function TextSaved(r: Report, t: TextResults, now: int): Report {
    r.(scores := Some(t.scores), feedbacks := t.feedbacks, summary := Some(t.summary),
       tags := t.tags + Keep(r.tags, true), textAt := Some(now))
  }

  function AudioSaved(r: Report, a: AudioResults, now: int): Report {
    if IsTerminal(r.status) then r
    else r.(delivery := a.delivery, audioAt := Some(now), tags := Keep(r.tags, false) + a.tags)
  }

  predicate Overdue(r: Report, grace: int, now: int) {
    r.status == PROCESSING && r.textAt.Some? && r.scores.Some? && r.audioAt.None? && r.textAt.value < now - grace
  }

  function OverdueCompleted(r: Report, grace: int, now: int): Report {
    if Overdue(r, grace, now)
    then r.(status := COMPLETED, overall := Some(Overall(r.scores.value, None)), completedAt := Some(now))
    else r
  }

  /** The transaction that ends the text stage. */
  function TextStage(r: Report, t: TextResults, requireAudio: bool, now: int): Report {
    Completed(TextSaved(r, t, now), requireAudio, now)
  }

  /** The transaction that ends the audio stage. */
  function AudioStage(r: Report, a: AudioResults, requireAudio: bool, now: int): Report {
    if IsTerminal(r.status) then r else Completed(AudioSaved(r, a, now), requireAudio, now)
  }

  // ------------------------------------------------------------------ the table

  /** The row of one session; the session is unique in the table. */
  class ReportTable {
    var report: Option<Report>

    constructor ()
      ensures report == None
    {
      report := None;
    }

    method CreateReportWithJob() returns (created: bool)
      modifies this
      ensures created <==> old(report).None?
      ensures report == if created then Some(NewReport()) else old(report)
    {
      if report.Some? { return false; }
      report := Some(NewReport());
      return true;
    }

    method TryTransition(from: Status, to: Status) returns (won: bool)
      requires report.Some?
      modifies this
      ensures report == Some(Moved(old(report).value, from, to)) && (won <==> old(report).value.status == from)
    {
      if report.value.status != from { return false; }
      report := Some(report.value.(status := to));
      return true;
    }

    method MarkFailed(reason: string) returns (won: bool)
      requires report.Some?
      modifies this
      ensures report == Some(MarkedFailed(old(report).value, reason))
      ensures won <==> !IsTerminal(old(report).value.status)
    {
      if report.value.status in {COMPLETED, FAILED} { return false; }
      report := Some(report.value.(status := FAILED, failedReason := Some(reason)));
      return true;
    }

    method TryComplete(requireAudio: bool, now: int) returns (won: bool)
      requires report.Some?
      modifies this
      ensures report == Some(Completed(old(report).value, requireAudio, now))
      ensures won <==> Completable(old(report).value, requireAudio)
    {
      var r := report.value;
      if r.status != PROCESSING || r.textAt.None? || (requireAudio && r.audioAt.None?) || r.scores.None? {
        return false;
      }
      var s := r.scores.value;
      var sum := s.logic + s.specificity + s.technical + (if r.delivery.Some? then r.delivery.value else 0);
      report := Some(r.(status := COMPLETED, overall := Some(SqlRound(sum, 3 + (if r.delivery.Some? then 1 else 0))),
                        completedAt := Some(now)));
      return true;
    }

    /** Refused without a feedback: results are stored whole or not at all. */
    method SaveTextResults(t: TextResults, now: int) returns (ok: bool)
      requires report.Some?
      modifies this
      ensures ok <==> t.feedbacks != []
      ensures report == if ok then Some(TextSaved(old(report).value, t, now)) else old(report)
    {
      if t.feedbacks == [] { return false; }
      var voice := Keep(report.value.tags, true);
      report := Some(report.value.(
        scores := Some(t.scores), feedbacks := t.feedbacks, summary := Some(t.summary),
        tags := t.tags + voice, textAt := Some(now)));
      return true;
    }

    method SaveAudioResult(a: AudioResults, now: int) returns (saved: bool)
      requires report.Some?
      modifies this
      ensures saved <==> !IsTerminal(old(report).value.status)
      ensures report == Some(AudioSaved(old(report).value, a, now))
    {
      var text := Keep(report.value.tags, false);
      if report.value.status !in {PENDING, PROCESSING} { return false; }
      report := Some(report.value.(delivery := a.delivery, audioAt := Some(now), tags := text + a.tags));
      return true;
    }

    method CompleteOverdueAudio(grace: int, now: int) returns (won: bool)
      modifies this
      ensures won <==> old(report).Some? && Overdue(old(report).value, grace, now)
      ensures report == if old(report).Some? then Some(OverdueCompleted(old(report).value, grace, now)) else None
    {
      if report.None? || !Overdue(report.value, grace, now) { return false; }
      report := Some(OverdueCompleted(report.value, grace, now));
      return true;
    }
  }

  // ------------------------------------------------------------------ the two stages commute

  lemma {:induction false} KeepAppend(a: seq<TagCount>, b: seq<TagCount>, voice: bool)
    ensures Keep(a + b, voice) == Keep(a, voice) + Keep(b, voice)
  {
    if a == [] {
      assert a + b == b;
    } else {
      KeepAppend(a[1..], b, voice);
      assert (a + b)[1..] == a[1..] + b && (a + b)[0] == a[0];
      var head := if IsVoice(a[0].tag) == voice then [a[0]] else [];
      assert Keep(a + b, voice) == head + (Keep(a[1..], voice) + Keep(b, voice));
      assert Keep(a, voice) == head + Keep(a[1..], voice);
    }
  }

  lemma {:induction false} KeepAllOrNone(a: seq<TagCount>, voice: bool)
    requires forall c | c in a :: IsVoice(c.tag) == voice
    ensures Keep(a, voice) == a && Keep(a, !voice) == []
  {
    if a != [] {
      KeepAllOrNone(a[1..], voice);
      assert a == [a[0]] + a[1..];
    }
  }

  lemma {:induction false} KeepOnce(a: seq<TagCount>, voice: bool)
    ensures forall c | c in Keep(a, voice) :: IsVoice(c.tag) == voice
  {
    if a != [] { KeepOnce(a[1..], voice); }
  }

  lemma AudioReplacesVoice(tags: seq<TagCount>, own: seq<TagCount>)
    requires forall c | c in own :: !IsVoice(c.tag)
    ensures Keep(own + Keep(tags, true), false) == own
  {
    KeepAppend(own, Keep(tags, true), false);
    KeepOnce(tags, true);
    KeepAllOrNone(own, false);
    KeepAllOrNone(Keep(tags, true), true);
  }

  lemma TextKeepsVoice(tags: seq<TagCount>, own: seq<TagCount>)
    requires forall c | c in own :: IsVoice(c.tag)
    ensures Keep(Keep(tags, false) + own, true) == own
  {
    KeepAppend(Keep(tags, false), own, true);
    KeepOnce(tags, false);
    KeepAllOrNone(own, true);
    KeepAllOrNone(Keep(tags, false), false);
  }

  lemma TagsMerge(tags: seq<TagCount>, t: TextResults, a: AudioResults)
    requires TextOk(t) && AudioOk(a)
    ensures Keep(t.tags + Keep(tags, true), false) + a.tags == t.tags + a.tags
    ensures t.tags + Keep(Keep(tags, false) + a.tags, true) == t.tags + a.tags
  {
    AudioReplacesVoice(tags, t.tags);
    TextKeepsVoice(tags, a.tags);
  }

  /** What a reader of a report sees of its result. */
  datatype Shown = Shown(
    status: Status, overall: Option<int>, scores: Option<Scores>, feedbacks: seq<Feedback>,
    summary: Option<string>, tags: seq<TagCount>, delivery: Option<int>)

  function Verdict(r: Report): Shown {
    Shown(r.status, r.overall, r.scores, r.feedbacks, r.summary, r.tags, r.delivery)
  }

  /** A report completed on these text and audio results. */
  function Outcome(t: TextResults, a: AudioResults): Shown {
    Shown(COMPLETED, Some(Overall(t.scores, a.delivery)), Some(t.scores), t.feedbacks, Some(t.summary),
          t.tags + a.tags, a.delivery)
  }

  /** The text processor takes a new report up. */
  function Entered(r: Report): Report {
    Moved(r, PENDING, PROCESSING)
  }

  /** While audio is awaited, it does not matter when the audio stage ends, after the text stage,
      before it, or before the report was taken up at all: status, scores, feedback, summary, tags and
      delivery come out the same, and they are those of the two results. */
  lemma StagesCommute(r: Report, t: TextResults, a: AudioResults, first: int, second: int)
    requires !IsTerminal(r.status) && r.textAt.None? && r.audioAt.None? && TextOk(t) && AudioOk(a)
    ensures var after := AudioStage(TextStage(Entered(r), t, true, first), a, true, second);
            var before := TextStage(AudioStage(Entered(r), a, true, first), t, true, second);
            var early := TextStage(Entered(AudioStage(r, a, true, first)), t, true, second);
            Verdict(after) == Verdict(before) == Verdict(early) == Outcome(t, a)
  {
    TagsMerge(r.tags, t, a);
  }

  /** Text results replace one another whole and leave the voice tags; audio results replace one
      another and leave the text. */
  lemma SavedKeepsTheOther(r: Report, t: TextResults, a: AudioResults, now: int)
    requires TextOk(t) && AudioOk(a)
    ensures Keep(TextSaved(r, t, now).tags, false) == t.tags
    ensures Keep(TextSaved(r, t, now).tags, true) == Keep(r.tags, true)
    ensures Keep(Keep(r.tags, false) + a.tags, true) == a.tags
    ensures Keep(Keep(r.tags, false) + a.tags, false) == Keep(r.tags, false)
  {
    AudioReplacesVoice(r.tags, t.tags);
    TextKeepsVoice(r.tags, a.tags);
    KeepOnce(r.tags, true);
    KeepOnce(r.tags, false);
    KeepAppend(t.tags, Keep(r.tags, true), true);
    KeepAllOrNone(t.tags, false);
    KeepAllOrNone(Keep(r.tags, true), true);
    KeepAppend(Keep(r.tags, false), a.tags, false);
    KeepAllOrNone(a.tags, true);
    KeepAllOrNone(Keep(r.tags, false), false);
  }

  /** With audio switched off the text stage does not wait: a report that audio reached first still
      carries its mark, so the orders agree exactly when audio had nothing to add. */
  lemma StagesCommuteWithoutAudio(r: Report, t: TextResults, a: AudioResults, first: int, second: int)
    requires !IsTerminal(r.status) && r.textAt.None? && r.audioAt.None? && r.delivery.None? && r.tags == []
    requires TextOk(t) && AudioOk(a)
    ensures var after := AudioStage(TextStage(Entered(r), t, false, first), a, false, second);
            var before := TextStage(AudioStage(Entered(r), a, false, first), t, false, second);
            var early := TextStage(Entered(AudioStage(r, a, false, first)), t, false, second);
            && after.status == COMPLETED && before.status == COMPLETED && Verdict(before) == Verdict(early)
            && (Verdict(after) == Verdict(before) <==> a.delivery.None? && a.tags == [])
  {
    TagsMerge(r.tags, t, a);
    assert t.tags + [] == t.tags;
    assert t.tags + a.tags == t.tags ==> |a.tags| == 0;
  }
}
