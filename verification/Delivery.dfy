/** Pauses, metrics, the delivery score and the voice tags, computed from the speech segments. */
module Delivery {
  import opened Wrappers
  import opened Resampling
  import opened Segmentation
  import opened ReportRepository

  const TURN_GAP_S := 10.0
  const LONG_PAUSE_S := 2.0
  const RATE_SLOW := 4.0
  const RATE_FAST := 6.5
  const RATE_PENALTY_PER_UNIT := 20.0
  const RATE_PENALTY_CAP := 40.0
  const PAUSE_RATIO_FREE := 0.15
  const PAUSE_RATIO_MAX := 0.45
  const PAUSE_PENALTY_CAP := 40.0
  const LONG_PAUSE_PENALTY_PER_MIN := 5.0
  const LONG_PAUSE_PENALTY_CAP := 20.0
  const LONG_PAUSE_TAG_PER_MIN := 2.0
  const LONG_PAUSE_TAG_MIN_COUNT := 3
  const MIN_PHONATION_S := 10.0
  const MIN_SYLLABLES := 30

  /** A segment in seconds. */
  datatype Span = Span(from: real, to: real)

  function Seconds(samples: int): real {
    samples as real / 16_000.0
  }

  function InSeconds(ss: seq<Segment>): (spans: seq<Span>)
    ensures |spans| == |ss|
  {
    seq(|ss|, i requires 0 <= i < |ss| => Span(Seconds(ss[i].from), Seconds(ss[i].to)))
  }

  /** The gap before the last span. */
  function LastGap(spans: seq<Span>): real
    requires |spans| >= 2
  {
    spans[|spans| - 1].from - spans[|spans| - 2].to
  }

  /** Gaps between spans, unless they are so long that the interviewer must be speaking. */
  function AnswerPauses(spans: seq<Span>): (ps: seq<real>)
    ensures forall p | p in ps :: 0.0 < p <= TURN_GAP_S
  {
    if |spans| < 2 then [] else
    AnswerPauses(spans[..|spans| - 1]) + (if 0.0 < LastGap(spans) <= TURN_GAP_S then [LastGap(spans)] else [])
  }

  function Phonation(spans: seq<Span>): real {
    if spans == [] then 0.0
    else Phonation(spans[..|spans| - 1]) + (spans[|spans| - 1].to - spans[|spans| - 1].from)
  }

  function LongPauses(ps: seq<real>): nat {
    if ps == [] then 0 else LongPauses(ps[..|ps| - 1]) + (if ps[|ps| - 1] >= LONG_PAUSE_S then 1 else 0)
  }

  datatype Metrics = Metrics(duration: real, phonation: real, syllables: nat, pause: real, longPauses: nat)

  function Measure(spans: seq<Span>, duration: real, syllables: nat): Metrics {
    var pauses := AnswerPauses(spans);
    Metrics(duration, Phonation(spans), syllables, Sum(pauses), LongPauses(pauses))
  }

  // ------------------------------------------------------------------ metrics fit the recording

  predicate InOrder(spans: seq<Span>, duration: real) {
    && (forall i | 0 <= i < |spans| :: 0.0 <= spans[i].from <= spans[i].to <= duration)
    && (forall i | 0 <= i < |spans| - 1 :: spans[i].to <= spans[i + 1].from)
  }

  lemma {:induction false} SpeechAndPausesFit(spans: seq<Span>, duration: real)
    requires InOrder(spans, duration) && spans != []
    ensures 0.0 <= Phonation(spans) && 0.0 <= Sum(AnswerPauses(spans))
    ensures Phonation(spans) + Sum(AnswerPauses(spans)) <= spans[|spans| - 1].to - spans[0].from
  {
    var front := spans[..|spans| - 1];
    if front == [] {
      assert Phonation(front) == 0.0;
    } else {
      assert spans[|front| - 1 + 1] == spans[|front|];
      SpeechAndPausesFit(front, duration);
      SumOneMore(AnswerPauses(front), LastGap(spans));
      assert AnswerPauses(front) + [] == AnswerPauses(front);
      assert spans[0] == front[0] && LastGap(spans) == spans[|front|].from - front[|front| - 1].to;
    }
  }

  lemma SumOneMore(xs: seq<real>, x: real)
    ensures Sum(xs + [x]) == Sum(xs) + x
    ensures LongPauses(xs + [x]) == LongPauses(xs) + (if x >= LONG_PAUSE_S then 1 else 0)
  {
    assert (xs + [x])[..|xs|] == xs;
  }

  /** The gaps in which the interviewer must have been speaking. */
  function TurnGaps(spans: seq<Span>): (gs: seq<real>)
    ensures forall g | g in gs :: g > TURN_GAP_S
  {
    if |spans| < 2 then [] else
    TurnGaps(spans[..|spans| - 1]) + (if LastGap(spans) > TURN_GAP_S then [LastGap(spans)] else [])
  }

  /** From the first to the last sound, every second is speech, a pause, or somebody else's turn. */
  lemma {:induction false} TimeIsAccounted(spans: seq<Span>, duration: real)
    requires InOrder(spans, duration) && spans != []
    ensures Phonation(spans) + Sum(AnswerPauses(spans)) + Sum(TurnGaps(spans)) == spans[|spans| - 1].to - spans[0].from
  {
    var front := spans[..|spans| - 1];
    if front == [] {
      assert Phonation(front) == 0.0;
    } else {
      assert spans[|front| - 1 + 1] == spans[|front|];
      TimeIsAccounted(front, duration);
      SumOneMore(AnswerPauses(front), LastGap(spans));
      SumOneMore(TurnGaps(front), LastGap(spans));
      assert AnswerPauses(front) + [] == AnswerPauses(front) && TurnGaps(front) + [] == TurnGaps(front);
      assert spans[0] == front[0] && LastGap(spans) == spans[|front|].from - front[|front| - 1].to >= 0.0;
    }
  }

  /** Exactly the gaps of at most ten seconds are pauses. */
  lemma {:induction false} PausesAreGaps(spans: seq<Span>, p: real)
    ensures p in AnswerPauses(spans) <==>
              0.0 < p <= 10.0 && exists i :: 0 < i < |spans| && spans[i].from - spans[i - 1].to == p
  {
    if |spans| >= 2 {
      var front, last := spans[..|spans| - 1], |spans| - 1;
      PausesAreGaps(front, p);
      if i :| 0 < i < |spans| && spans[i].from - spans[i - 1].to == p && 0.0 < p <= TURN_GAP_S {
        if i < last { assert front[i].from - front[i - 1].to == p; }
      }
      if i :| 0 < i < |front| && front[i].from - front[i - 1].to == p {
        assert spans[i].from - spans[i - 1].to == p;
      }
      if LastGap(spans) == p { assert spans[last].from - spans[last - 1].to == p; }
    }
  }

  lemma {:induction false} LongPausesAreLong(ps: seq<real>)
    requires forall p | p in ps :: 0.0 < p
    ensures LONG_PAUSE_S * LongPauses(ps) as real <= Sum(ps)
  {
    if ps != [] {
      var front, last := ps[..|ps| - 1], ps[|ps| - 1];
      assert ps == front + [last] && last in ps;
      forall p | p in front
        ensures 0.0 < p
      {
        assert p in ps;
      }
      LongPausesAreLong(front);
    }
  }

  lemma SegmentsInOrder(ss: seq<Segment>, total: nat)
    requires Ordered(ss, total, 0)
    ensures InOrder(InSeconds(ss), Seconds(total))
  {
    var spans := InSeconds(ss);
    forall i | 0 <= i < |ss| - 1
      ensures spans[i].to <= spans[i + 1].from
    {
      assert ss[i].to + 0 <= ss[i + 1].from;
    }
  }

  /** For every recording: speech and pauses together are no longer than the recording, and the long
      pauses account for at least two seconds of pause each. */
  lemma MetricsFit(probs: seq<real>, total: nat, syllables: nat)
    requires |probs| == CeilDiv(total, VAD_WINDOW)
    ensures var m := Measure(InSeconds(Padded(RawSegments(probs, total), total, SPEECH_PAD)), Seconds(total), syllables);
            && 0.0 <= m.phonation && 0.0 <= m.pause
            && m.phonation + m.pause <= m.duration
            && LONG_PAUSE_S * m.longPauses as real <= m.pause
            && m.duration == Seconds(total) && m.syllables == syllables
  {
    var ss := Padded(RawSegments(probs, total), total, SPEECH_PAD);
    DisjointForAnyPad(probs, total, SPEECH_PAD);
    SegmentsInOrder(ss, total);
    var spans := InSeconds(ss);
    LongPausesAreLong(AnswerPauses(spans));
    if spans != [] { SpeechAndPausesFit(spans, Seconds(total)); }
  }

  // ------------------------------------------------------------------ score and tags

  function MaxReal(a: real, b: real): real {
    if a < b then b else a
  }

  function MinReal(a: real, b: real): real {
    if a < b then a else b
  }

  predicate Measurable(m: Metrics) {
    m.phonation >= MIN_PHONATION_S && m.syllables >= MIN_SYLLABLES
  }

  function ArticulationRate(m: Metrics): Option<real> {
    if m.phonation <= 0.0 then None else Some(m.syllables as real / m.phonation)
  }

  function PauseRatio(m: Metrics): real {
    if m.phonation + m.pause > 0.0 then m.pause / (m.phonation + m.pause) else 0.0
  }

  function LongPausesPerMinute(m: Metrics): real {
    if m.phonation + m.pause <= 0.0 then 0.0 else m.longPauses as real / ((m.phonation + m.pause) / 60.0)
  }

  function RoundHalfUp(x: real): int {
    (x + 0.5).Floor
  }

  /** How far a rate is from the comfortable range. */
  function OffRange(rate: real): real {
    MaxReal(0.0, MaxReal(RATE_SLOW - rate, rate - RATE_FAST))
  }

  function RatePenalty(rate: real): real {
    MinReal(RATE_PENALTY_CAP, OffRange(rate) * RATE_PENALTY_PER_UNIT)
  }

  function PausePenalty(ratio: real): real {
    MinReal(PAUSE_PENALTY_CAP,
            MaxReal(0.0, ratio - PAUSE_RATIO_FREE) / (PAUSE_RATIO_MAX - PAUSE_RATIO_FREE) * PAUSE_PENALTY_CAP)
  }

  function LongPausePenalty(perMinute: real): real {
    MinReal(LONG_PAUSE_PENALTY_CAP, perMinute * LONG_PAUSE_PENALTY_PER_MIN)
  }

  function Rate(m: Metrics): real {
    var rate := ArticulationRate(m);
    if rate.Some? then rate.value else 0.0
  }

  function Penalty(m: Metrics): real {
    RatePenalty(Rate(m)) + PausePenalty(PauseRatio(m)) + LongPausePenalty(LongPausesPerMinute(m))
  }

  function Score(m: Metrics): Option<int> {
    if !Measurable(m) then None else Some(Max(0, Min(100, RoundHalfUp(100.0 - Penalty(m)))))
  }

  method ScoreOf(m: Metrics) returns (score: Option<int>)
    ensures score == Score(m)
  {
    if !Measurable(m) { return None; }
    var penalty := 0.0;
    penalty := penalty + RatePenalty(Rate(m));
    penalty := penalty + PausePenalty(PauseRatio(m));
    penalty := penalty + LongPausePenalty(LongPausesPerMinute(m));
    return Some(Max(0, Min(100, RoundHalfUp(100.0 - penalty))));
  }

  /** The penalties share out exactly the hundred points, so the clamp never takes effect: the score
      is 100 less the penalties to the nearest integer, half up. */
  lemma ScoreIsRest(m: Metrics)
    requires Measurable(m) && m.pause >= 0.0
    ensures 0.0 <= Penalty(m) <= 100.0
    ensures var s := Score(m).value as real; s - 0.5 <= 100.0 - Penalty(m) < s + 0.5
  {
    PenaltyGrows(0.0, LongPausesPerMinute(m));
    assert LongPausesPerMinute(m) >= 0.0;
  }

  function Tags(m: Metrics): seq<TagCount> {
    if !Measurable(m) then []
    else
      (if Rate(m) > RATE_FAST then [TagCount(Fast, 1)] else if Rate(m) < RATE_SLOW then [TagCount(Slow, 1)] else [])
      + (if LongPausesPerMinute(m) >= LONG_PAUSE_TAG_PER_MIN && m.longPauses >= LONG_PAUSE_TAG_MIN_COUNT
         then [TagCount(FrequentSilence, m.longPauses)] else [])
  }

  method TagsOf(m: Metrics) returns (tags: seq<TagCount>)
    ensures tags == Tags(m)
  {
    if !Measurable(m) { return []; }
    tags := [];
    if Rate(m) > RATE_FAST {
      tags := tags + [TagCount(Fast, 1)];
    } else if Rate(m) < RATE_SLOW {
      tags := tags + [TagCount(Slow, 1)];
    }
    if LongPausesPerMinute(m) >= LONG_PAUSE_TAG_PER_MIN && m.longPauses >= LONG_PAUSE_TAG_MIN_COUNT {
      tags := tags + [TagCount(FrequentSilence, m.longPauses)];
    }
  }

  /** The three quantities behind the score: syllables a second of speech, the share of pauses, and long
      pauses a minute of answering. */
  lemma RatesAre(m: Metrics)
    requires m.phonation > 0.0 && m.pause >= 0.0
    ensures Rate(m) * m.phonation == m.syllables as real
    ensures PauseRatio(m) * (m.phonation + m.pause) == m.pause
    ensures LongPausesPerMinute(m) * (m.phonation + m.pause) == 60.0 * m.longPauses as real
  {
    var time := m.phonation + m.pause;
    var minutes := time / 60.0;
    assert LongPausesPerMinute(m) * minutes == m.longPauses as real;
    assert LongPausesPerMinute(m) * (60.0 * minutes) == 60.0 * (LongPausesPerMinute(m) * minutes);
  }

  /** What each of them costs: nothing where it is comfortable, then twenty points a syllable, 40 points
      over 0.3 of pause share and five points a long pause a minute, up to 40, 40 and 20 points. */
  lemma PenaltiesAre(rate: real, ratio: real, perMinute: real)
    ensures 4.0 <= rate <= 6.5 ==> RatePenalty(rate) == 0.0
    ensures 2.0 <= rate <= 4.0 ==> RatePenalty(rate) == 20.0 * (4.0 - rate)
    ensures 6.5 <= rate <= 8.5 ==> RatePenalty(rate) == 20.0 * (rate - 6.5)
    ensures rate <= 2.0 || rate >= 8.5 ==> RatePenalty(rate) == 40.0
    ensures ratio <= 0.15 ==> PausePenalty(ratio) == 0.0
    ensures 0.15 <= ratio <= 0.45 ==> 0.3 * PausePenalty(ratio) == 40.0 * (ratio - 0.15)
    ensures ratio >= 0.45 ==> PausePenalty(ratio) == 40.0
    ensures LongPausePenalty(perMinute) == if perMinute <= 4.0 then 5.0 * perMinute else 20.0
  {
    var over := MaxReal(0.0, ratio - PAUSE_RATIO_FREE);
    assert over / (PAUSE_RATIO_MAX - PAUSE_RATIO_FREE) == over / 0.3;
    assert ratio >= 0.45 ==> over / 0.3 >= 1.0;
  }

  predicate Tagged(tags: seq<TagCount>, t: Tag) {
    exists c | c in tags :: c.tag == t
  }

  /** Tags and score agree: a recording that can be measured gets a rate tag exactly when its rate
      costs points, never both of them; frequent silence stands for its number of long pauses, of
      which there are enough in all and per minute, so it costs at least ten points. No tag is given
      twice. */
  lemma TagsMatchPenalties(m: Metrics)
    requires m.pause >= 0.0
    ensures var tags := Tags(m);
            && (Tagged(tags, Fast) || Tagged(tags, Slow) <==> Measurable(m) && RatePenalty(Rate(m)) > 0.0)
            && !(Tagged(tags, Fast) && Tagged(tags, Slow))
            && (Tagged(tags, Fast) ==> Rate(m) > RATE_FAST) && (Tagged(tags, Slow) ==> Rate(m) < RATE_SLOW)
            && (forall c | c in tags && c.tag == FrequentSilence ::
                  && c.count == m.longPauses >= LONG_PAUSE_TAG_MIN_COUNT
                  && LongPausePenalty(LongPausesPerMinute(m)) >= 10.0 && Score(m).value <= 90)
            && (forall i, j | 0 <= i < j < |tags| :: tags[i].tag != tags[j].tag)
  {
    RateCosts(Rate(m));
    RateTags(m);
    if Measurable(m) && LongPausesPerMinute(m) >= LONG_PAUSE_TAG_PER_MIN {
      PenaltyGrows(LONG_PAUSE_TAG_PER_MIN, LongPausesPerMinute(m));
      ScoreIsRest(m);
    }
  }

  lemma RateTags(m: Metrics)
    ensures Tagged(Tags(m), Fast) <==> Measurable(m) && Rate(m) > RATE_FAST
    ensures Tagged(Tags(m), Slow) <==> Measurable(m) && Rate(m) < RATE_SLOW
  {
    if Measurable(m) && (Rate(m) > RATE_FAST || Rate(m) < RATE_SLOW) {
      assert Tags(m)[0] in Tags(m);
    }
  }

  lemma RateCosts(rate: real)
    ensures RatePenalty(rate) > 0.0 <==> rate < RATE_SLOW || rate > RATE_FAST
  {
  }

  /** Of two recordings, the one whose rate is no nearer to the range, whose pauses take no smaller a
      share and whose long pauses are no rarer never scores higher. */
  lemma WorseNeverScoresHigher(m: Metrics, worse: Metrics)
    requires Measurable(m) && Measurable(worse)
    requires OffRange(Rate(m)) <= OffRange(Rate(worse))
    requires PauseRatio(m) <= PauseRatio(worse) && LongPausesPerMinute(m) <= LongPausesPerMinute(worse)
    ensures Score(worse).value <= Score(m).value
  {
    assert OffRange(Rate(m)) * RATE_PENALTY_PER_UNIT <= OffRange(Rate(worse)) * RATE_PENALTY_PER_UNIT;
    PenaltyGrows(PauseRatio(m), PauseRatio(worse));
    PenaltyGrows(LongPausesPerMinute(m), LongPausesPerMinute(worse));
    assert Penalty(m) <= Penalty(worse);
  }

  /** What the audio stage stores: a score on the scale and only voice tags, or, when there is too
      little speech, neither. */
  lemma DeliveryIsStorable(m: Metrics)
    ensures AudioOk(AudioResults(Score(m), Tags(m)))
    ensures Score(m).None? <==> !Measurable(m)
    ensures !Measurable(m) ==> Tags(m) == []
  {
  }

  lemma PenaltyGrows(x: real, y: real)
    requires x <= y
    ensures PausePenalty(x) <= PausePenalty(y) && LongPausePenalty(x) <= LongPausePenalty(y)
  {
    var width := PAUSE_RATIO_MAX - PAUSE_RATIO_FREE;
    var a, b := MaxReal(0.0, x - PAUSE_RATIO_FREE), MaxReal(0.0, y - PAUSE_RATIO_FREE);
    assert a <= b;
    assert a / width <= b / width;
  }

  /** More long pauses in the same answering time never raise the score, and full marks take a rate in
      range, few pauses and no long one to speak of. */
  lemma LongPausesNeverHelp(m: Metrics, more: nat)
    requires Measurable(m) && m.pause >= 0.0 && more >= m.longPauses
    ensures Score(m.(longPauses := more)).value <= Score(m).value
    ensures RATE_SLOW <= Rate(m) <= RATE_FAST && PauseRatio(m) <= PAUSE_RATIO_FREE && m.longPauses == 0 ==>
              Score(m) == Some(100)
  {
    var minutes := (m.phonation + m.pause) / 60.0;
    assert minutes > 0.0;
    assert m.longPauses as real / minutes <= more as real / minutes;
    WorseNeverScoresHigher(m, m.(longPauses := more));
  }
}
