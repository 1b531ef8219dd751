/** From speech probabilities to speech segments. Positions are samples at 16 kHz. */
module Segmentation {
  import opened Wrappers
  import opened Resampling

  const VAD_THRESHOLD := 0.5
  const VAD_NEG_THRESHOLD := 0.35
  const MIN_SPEECH := 4_000        // 250 ms
  const MIN_SILENCE := 1_600       // 100 ms
  const SPEECH_PAD := 480          // 30 ms

  /** From `from` up to `to`, in samples. */
  datatype Segment = Segment(from: int, to: int)

  // ------------------------------------------------------------------ the scan over probabilities

  /** `silentFrom` is 0 while no silence is running. */
  datatype Scan = Scan(speeches: seq<Segment>, triggered: bool, start: int, silentFrom: int)

  function ScanOne(s: Scan, i: nat, prob: real): Scan {
    var cur := VAD_WINDOW * i;
    var s := if prob >= VAD_THRESHOLD && s.silentFrom != 0 then s.(silentFrom := 0) else s;
    if prob >= VAD_THRESHOLD && !s.triggered then s.(triggered := true, start := cur)
    else if prob < VAD_NEG_THRESHOLD && s.triggered then
      var silentFrom := if s.silentFrom == 0 then cur else s.silentFrom;
      if cur - silentFrom < MIN_SILENCE then s.(silentFrom := silentFrom)
      else Scan(if silentFrom - s.start > MIN_SPEECH then s.speeches + [Segment(s.start, silentFrom)] else s.speeches,
                false, s.start, 0)
    else s
  }

  function ScanAll(probs: seq<real>): Scan {
    if probs == [] then Scan([], false, 0, 0)
    else ScanOne(ScanAll(probs[..|probs| - 1]), |probs| - 1, probs[|probs| - 1])
  }

  function RawSegments(probs: seq<real>, total: nat): seq<Segment> {
    var s := ScanAll(probs);
    if s.triggered && total - s.start > MIN_SPEECH then s.speeches + [Segment(s.start, total)] else s.speeches
  }

  // ------------------------------------------------------------------ padding

  /** How far a segment's end, and the next one's start, move over the silence between them. */
  function Move(silence: int, pad: nat): int {
    if silence < 2 * pad then silence / 2 else pad
  }

  function PaddedFrom(raw: seq<Segment>, pad: nat, i: nat): int
    requires i < |raw|
  {
    Max(0, raw[i].from - (if i == 0 then pad else Move(raw[i].from - raw[i - 1].to, pad)))
  }

  function PaddedTo(raw: seq<Segment>, total: nat, pad: nat, i: nat): int
    requires i < |raw|
  {
    if i == |raw| - 1 then Min(total, raw[i].to + pad) else
    var silence := raw[i + 1].from - raw[i].to;
    if silence < 2 * pad then raw[i].to + silence / 2 else Min(total, raw[i].to + pad)
  }

  function Padded(raw: seq<Segment>, total: nat, pad: nat): (p: seq<Segment>)
    ensures |p| == |raw|
  {
    seq(|raw|, i requires 0 <= i < |raw| => Segment(PaddedFrom(raw, pad, i), PaddedTo(raw, total, pad, i)))
  }

  // ------------------------------------------------------------------ the algorithm

  method ScanProbabilities(probs: seq<real>, total: nat) returns (speeches: seq<Segment>)
    ensures speeches == RawSegments(probs, total)
  {
    speeches := [];
    var triggered, start, silentFrom := false, 0, 0;
    for i := 0 to |probs|
      invariant Scan(speeches, triggered, start, silentFrom) == ScanAll(probs[..i])
    {
      assert probs[..i + 1][..i] == probs[..i];
      var cur := VAD_WINDOW * i;
      var prob := probs[i];
      if prob >= VAD_THRESHOLD && silentFrom != 0 { silentFrom := 0; }
      if prob >= VAD_THRESHOLD && !triggered {
        triggered := true;
        start := cur;
        continue;
      }
      if prob < VAD_NEG_THRESHOLD && triggered {
        if silentFrom == 0 { silentFrom := cur; }
        if cur - silentFrom < MIN_SILENCE { continue; }
        if silentFrom - start > MIN_SPEECH { speeches := speeches + [Segment(start, silentFrom)]; }
        silentFrom := 0;
        triggered := false;
      }
    }
    assert probs[..|probs|] == probs;
    if triggered && total - start > MIN_SPEECH { speeches := speeches + [Segment(start, total)]; }
  }

  /** The segments are padded in place, one gap at a time. */
  method PadInPlace(a: array<Segment>, total: nat, pad: nat)
    modifies a
    ensures a[..] == Padded(old(a[..]), total, pad)
  {
    ghost var raw := a[..];
    for i := 0 to a.Length
      invariant forall j | 0 <= j < i :: a[j] == Segment(PaddedFrom(raw, pad, j), PaddedTo(raw, total, pad, j))
      invariant 0 < i < a.Length ==> a[i] == Segment(PaddedFrom(raw, pad, i), raw[i].to)
      invariant forall j | i < j < a.Length :: a[j] == raw[j]
      invariant i == 0 ==> a[..] == raw
    {
      if i == 0 { a[0] := a[0].(from := Max(0, a[0].from - pad)); }
      if i != a.Length - 1 {
        var silence := a[i + 1].from - a[i].to;
        if silence < 2 * pad {
          a[i] := a[i].(to := a[i].to + silence / 2);
          a[i + 1] := a[i + 1].(from := Max(0, a[i + 1].from - silence / 2));
        } else {
          a[i] := a[i].(to := Min(total, a[i].to + pad));
          a[i + 1] := a[i + 1].(from := Max(0, a[i + 1].from - pad));
        }
      } else {
        a[i] := a[i].(to := Min(total, a[i].to + pad));
      }
    }
  }

  method SpeechSegments(probs: seq<real>, total: nat) returns (segments: seq<Segment>)
    ensures segments == Padded(RawSegments(probs, total), total, SPEECH_PAD)
  {
    var raw := ScanProbabilities(probs, total);
    var a := new Segment[|raw|](i requires 0 <= i < |raw| => raw[i]);
    assert a[..] == raw;
    PadInPlace(a, total, SPEECH_PAD);
    segments := a[..];
  }

  // ------------------------------------------------------------------ what a scan finds

  /** Ordered, disjoint, inside the recording, with at least `gap` samples between two. */
  predicate Ordered(ss: seq<Segment>, total: int, gap: int) {
    && (forall i | 0 <= i < |ss| :: 0 <= ss[i].from < ss[i].to <= total)
    && (forall i | 0 <= i < |ss| - 1 :: ss[i].to + gap <= ss[i + 1].from)
  }

  predicate LongerThan(ss: seq<Segment>, n: int) {
    forall i | 0 <= i < |ss| :: ss[i].to - ss[i].from > n
  }

  /** Where the next segment may start after the last one found. */
  function LastEnd(ss: seq<Segment>): int {
    if ss == [] then -RAW_GAP else ss[|ss| - 1].to
  }

  /** A silence is only noticed at window boundaries: the first multiple of 512 that is long enough,
      and a segment starts a window later at the earliest. */
  const RAW_GAP := 2_560

  ghost predicate ScanInv(s: Scan, n: nat) {
    && Ordered(s.speeches, VAD_WINDOW * n, RAW_GAP) && LongerThan(s.speeches, MIN_SPEECH)
    && s.start % VAD_WINDOW == 0 && s.silentFrom % VAD_WINDOW == 0
    && (s.triggered ==> 0 <= s.start < VAD_WINDOW * n && LastEnd(s.speeches) + RAW_GAP <= s.start)
    && (s.silentFrom != 0 ==> s.triggered && s.start < s.silentFrom < VAD_WINDOW * n)
    && (!s.triggered ==> LastEnd(s.speeches) + RAW_GAP <= VAD_WINDOW * n)
  }

  lemma OneMore(ss: seq<Segment>, s: Segment, before: int, total: int)
    requires Ordered(ss, before, RAW_GAP) && before <= total && LongerThan(ss, MIN_SPEECH)
    requires 0 <= s.from < s.to <= total && s.to - s.from > MIN_SPEECH && LastEnd(ss) + RAW_GAP <= s.from
    ensures Ordered(ss + [s], total, RAW_GAP) && LongerThan(ss + [s], MIN_SPEECH)
  {
    var t := ss + [s];
    forall i | 0 <= i < |t| - 1
      ensures t[i].to + RAW_GAP <= t[i + 1].from
    {
      if i < |ss| - 1 { assert t[i + 1] == ss[i + 1]; }
    }
  }

  /** A silence that is long enough is so by a whole number of windows. */
  lemma SilenceIsWhole(cur: int, silentFrom: int)
    requires cur % VAD_WINDOW == 0 && silentFrom % VAD_WINDOW == 0 && cur - silentFrom >= MIN_SILENCE
    ensures cur - silentFrom >= RAW_GAP - VAD_WINDOW
  {
    assert (cur - silentFrom) % VAD_WINDOW == 0;
  }

  lemma OrderedLonger(ss: seq<Segment>, total: int, more: int)
    requires Ordered(ss, total, RAW_GAP) && total <= more
    ensures Ordered(ss, more, RAW_GAP)
  {
  }

  lemma ScanOneKeeps(s: Scan, n: nat, prob: real)
    requires ScanInv(s, n)
    ensures ScanInv(ScanOne(s, n, prob), n + 1)
  {
    var cur := VAD_WINDOW * n;
    assert cur % VAD_WINDOW == 0;
    OrderedLonger(s.speeches, cur, cur + VAD_WINDOW);
    if prob < VAD_NEG_THRESHOLD && s.triggered && s.silentFrom != 0 && cur - s.silentFrom >= MIN_SILENCE {
      SilenceIsWhole(cur, s.silentFrom);
      if s.silentFrom - s.start > MIN_SPEECH {
        OneMore(s.speeches, Segment(s.start, s.silentFrom), cur, cur + VAD_WINDOW);
      }
    }
  }

  lemma {:induction false} ScanKeeps(probs: seq<real>)
    ensures ScanInv(ScanAll(probs), |probs|)
  {
    if probs != [] {
      ScanKeeps(probs[..|probs| - 1]);
      ScanOneKeeps(ScanAll(probs[..|probs| - 1]), |probs| - 1, probs[|probs| - 1]);
    }
  }

  /** As many probabilities as windows: the last one starts inside the recording. */
  lemma RawSegmentsSound(probs: seq<real>, total: nat)
    requires |probs| == CeilDiv(total, VAD_WINDOW)
    ensures Ordered(RawSegments(probs, total), total, RAW_GAP) && LongerThan(RawSegments(probs, total), MIN_SPEECH)
  {
    ScanKeeps(probs);
    var s := ScanAll(probs);
    ClosedInside(probs, total);
    if s.triggered && total - s.start > MIN_SPEECH {
      OneMore(s.speeches, Segment(s.start, total), total, total);
    }
  }

  /** A closed segment ends at a window that started inside the recording. */
  lemma {:induction false} ClosedInside(probs: seq<real>, total: nat)
    requires VAD_WINDOW * (|probs| - 1) < total
    ensures Ordered(ScanAll(probs).speeches, total, RAW_GAP)
  {
    ScanKeeps(probs);
    EndsBeforeLastWindow(probs);
    var ss := ScanAll(probs).speeches;
    forall i | 0 <= i < |ss|
      ensures ss[i].to <= total
    {
      assert ss[i].to <= VAD_WINDOW * (|probs| - 1);
    }
  }

  lemma {:induction false} EndsBeforeLastWindow(probs: seq<real>)
    ensures forall i | 0 <= i < |ScanAll(probs).speeches| :: ScanAll(probs).speeches[i].to <= VAD_WINDOW * (|probs| - 1)
  {
    if probs != [] {
      EndsBeforeLastWindow(probs[..|probs| - 1]);
      ScanKeeps(probs[..|probs| - 1]);
    }
  }

  // ------------------------------------------------------------------ what padding keeps

  lemma PaddedFromSound(raw: seq<Segment>, total: nat, pad: nat, i: nat)
    requires Ordered(raw, total, 0) && i < |raw|
    ensures 0 <= PaddedFrom(raw, pad, i) <= raw[i].from
  {
    if i > 0 { assert raw[i - 1].to + 0 <= raw[i - 1 + 1].from; }
  }

  lemma PaddedToSound(raw: seq<Segment>, total: nat, pad: nat, i: nat)
    requires Ordered(raw, total, 0) && i < |raw|
    ensures raw[i].to <= PaddedTo(raw, total, pad, i) <= total
    ensures i < |raw| - 1 ==> PaddedTo(raw, total, pad, i) <= PaddedFrom(raw, pad, i + 1)
  {
    if i < |raw| - 1 {
      assert raw[i].to + 0 <= raw[i + 1].from;
      assert raw[i + 1].from <= total;
    }
  }

  /** For any pad the padded segments stay ordered, disjoint and inside, and none gets shorter. */
  lemma PaddingSound(raw: seq<Segment>, total: nat, pad: nat, least: int)
    requires Ordered(raw, total, 0) && LongerThan(raw, least)
    ensures Ordered(Padded(raw, total, pad), total, 0) && LongerThan(Padded(raw, total, pad), least)
  {
    forall i | 0 <= i < |raw|
      ensures 0 <= PaddedFrom(raw, pad, i) <= raw[i].from && raw[i].to <= PaddedTo(raw, total, pad, i) <= total
      ensures i < |raw| - 1 ==> PaddedTo(raw, total, pad, i) <= PaddedFrom(raw, pad, i + 1)
    {
      PaddedFromSound(raw, total, pad, i);
      PaddedToSound(raw, total, pad, i);
    }
  }

  /** Where silences are long enough, padding takes at most `pad` from each side. */
  lemma PaddingLeavesGap(raw: seq<Segment>, total: nat, pad: nat, gap: int)
    requires Ordered(raw, total, gap) && gap >= 2 * pad
    ensures forall i | 0 <= i < |raw| - 1 :: raw[i + 1].from - raw[i].to >= 2 * pad
    ensures forall i | 0 <= i < |raw| - 1 ::
              Padded(raw, total, pad)[i].to + (gap - 2 * pad) <= Padded(raw, total, pad)[i + 1].from
  {
    forall i | 0 <= i < |raw| - 1
      ensures raw[i + 1].from - raw[i].to >= 2 * pad
      ensures Padded(raw, total, pad)[i].to + (gap - 2 * pad) <= Padded(raw, total, pad)[i + 1].from
    {
      assert raw[i].to + gap <= raw[i + 1].from;
    }
  }

  /** Whatever the probabilities: the segments are ordered, disjoint, inside the recording and longer
      than the minimum speech; with the constants in use two of them are at least 1600 samples apart,
      and the branch for silences shorter than two pads is never taken. */
  lemma SegmentsSound(probs: seq<real>, total: nat)
    requires |probs| == CeilDiv(total, VAD_WINDOW)
    ensures var ss := Padded(RawSegments(probs, total), total, SPEECH_PAD);
            Ordered(ss, total, 1_600) && LongerThan(ss, MIN_SPEECH)
    ensures var raw := RawSegments(probs, total);
            forall i | 0 <= i < |raw| - 1 :: raw[i + 1].from - raw[i].to >= 2 * SPEECH_PAD
  {
    var raw := RawSegments(probs, total);
    RawSegmentsSound(probs, total);
    PaddingLeavesGap(raw, total, SPEECH_PAD, RAW_GAP);
    forall i | 0 <= i < |raw| - 1
      ensures raw[i].to + 0 <= raw[i + 1].from
    {
      assert raw[i].to + RAW_GAP <= raw[i + 1].from;
    }
    PaddingSound(raw, total, SPEECH_PAD, MIN_SPEECH);
  }

  /** Disjointness does not hang on the constants: it holds for every pad. */
  lemma DisjointForAnyPad(probs: seq<real>, total: nat, pad: nat)
    requires |probs| == CeilDiv(total, VAD_WINDOW)
    ensures Ordered(Padded(RawSegments(probs, total), total, pad), total, 0)
  {
    var raw := RawSegments(probs, total);
    RawSegmentsSound(probs, total);
    forall i | 0 <= i < |raw| - 1
      ensures raw[i].to + 0 <= raw[i + 1].from
    {
      assert raw[i].to + RAW_GAP <= raw[i + 1].from;
    }
    PaddingSound(raw, total, pad, MIN_SPEECH);
  }

  // ------------------------------------------------------------------ what a scan does not miss

  /** The stretch from `lo` to `hi` lies in a segment that is found, or in the one still open. */
  ghost predicate Covered(s: Scan, lo: int, hi: int) {
    || (exists i :: 0 <= i < |s.speeches| && s.speeches[i].from <= lo && hi <= s.speeches[i].to)
    || (s.triggered && s.start <= lo && (s.silentFrom == 0 || s.silentFrom >= hi))
  }

  lemma CoveredStays(s: Scan, i: nat, prob: real, lo: int, hi: int)
    requires Covered(s, lo, hi) && hi - lo > MIN_SPEECH && hi <= VAD_WINDOW * i
    ensures Covered(ScanOne(s, i, prob), lo, hi)
  {
    var t := ScanOne(s, i, prob);
    if k: nat :| k < |s.speeches| && s.speeches[k].from <= lo && hi <= s.speeches[k].to {
      assert t.speeches[k] == s.speeches[k];
    } else if |t.speeches| > |s.speeches| {
      assert t.speeches[|s.speeches|].from <= lo && hi <= t.speeches[|s.speeches|].to;
    }
  }

  /** From a loud window on, and while none is silent, a segment that began no later stays open. */
  lemma {:induction false} LoudRunStaysOpen(probs: seq<real>, a: nat, b: nat)
    requires a < b <= |probs| && probs[a] >= VAD_THRESHOLD && forall i | a <= i < b :: probs[i] >= VAD_NEG_THRESHOLD
    ensures var s := ScanAll(probs[..b]); s.triggered && s.start <= VAD_WINDOW * a && s.silentFrom == 0
    decreases b
  {
    assert probs[..b][..b - 1] == probs[..b - 1];
    ScanKeeps(probs[..b - 1]);
    if a < b - 1 { LoudRunStaysOpen(probs, a, b - 1); }
  }

  lemma {:induction false} CoveredToEnd(probs: seq<real>, b: nat, n: nat, lo: int, hi: int)
    requires b <= n <= |probs| && Covered(ScanAll(probs[..b]), lo, hi) && hi - lo > MIN_SPEECH && hi <= VAD_WINDOW * b
    ensures Covered(ScanAll(probs[..n]), lo, hi)
    decreases n
  {
    if b < n {
      CoveredToEnd(probs, b, n - 1, lo, hi);
      assert probs[..n][..n - 1] == probs[..n - 1];
      CoveredStays(ScanAll(probs[..n - 1]), n - 1, probs[n - 1], lo, hi);
    }
  }

  /** Sustained speech is never missed: a run of windows that begins loud, has no silent one and is
      longer than the minimum speech lies within one of the segments. */
  lemma SustainedSpeechIsFound(probs: seq<real>, total: nat, a: nat, b: nat)
    requires |probs| == CeilDiv(total, VAD_WINDOW)
    requires a < b <= |probs| && probs[a] >= 0.5 && forall i | a <= i < b :: probs[i] >= 0.35
    requires Min(512 * b, total) - 512 * a > 4_000
    ensures var ss := Padded(RawSegments(probs, total), total, SPEECH_PAD);
            exists i :: 0 <= i < |ss| && ss[i].from <= 512 * a && Min(512 * b, total) <= ss[i].to
  {
    var lo, hi := VAD_WINDOW * a, Min(VAD_WINDOW * b, total);
    LoudRunStaysOpen(probs, a, b);
    CoveredToEnd(probs, b, |probs|, lo, hi);
    assert probs[..|probs|] == probs;
    var raw := RawSegments(probs, total);
    var k := FoundIn(probs, total, lo, hi);
    RawSegmentsSound(probs, total);
    forall i | 0 <= i < |raw| - 1
      ensures raw[i].to + 0 <= raw[i + 1].from
    {
      assert raw[i].to + RAW_GAP <= raw[i + 1].from;
    }
    PaddedFromSound(raw, total, SPEECH_PAD, k);
    PaddedToSound(raw, total, SPEECH_PAD, k);
    assert Padded(raw, total, SPEECH_PAD)[k].from <= lo;
  }

  lemma FoundIn(probs: seq<real>, total: nat, lo: int, hi: int) returns (k: nat)
    requires Covered(ScanAll(probs), lo, hi) && hi - lo > MIN_SPEECH && hi <= total
    ensures var raw := RawSegments(probs, total); k < |raw| && raw[k].from <= lo && hi <= raw[k].to
  {
    var s := ScanAll(probs);
    if i: nat :| i < |s.speeches| && s.speeches[i].from <= lo && hi <= s.speeches[i].to {
      k := i;
    } else {
      k := |s.speeches|;
    }
  }

  /** A position where a window with enough speech probability starts. */
  predicate Loud(probs: seq<real>, position: int) {
    exists i :: 0 <= i < |probs| && position == VAD_WINDOW * i && probs[i] >= VAD_THRESHOLD
  }

  lemma LoudStays(front: seq<real>, prob: real, position: int)
    requires Loud(front, position)
    ensures Loud(front + [prob], position)
  {
    var i :| 0 <= i < |front| && position == VAD_WINDOW * i && front[i] >= VAD_THRESHOLD;
    assert (front + [prob])[i] == front[i];
  }

  lemma {:induction false} ScansBeginLoud(probs: seq<real>)
    ensures var s := ScanAll(probs);
            (s.triggered ==> Loud(probs, s.start)) && forall k | 0 <= k < |s.speeches| :: Loud(probs, s.speeches[k].from)
  {
    if probs != [] {
      var front, p := probs[..|probs| - 1], probs[|probs| - 1];
      ScansBeginLoud(front);
      assert probs == front + [p];
      var s, t := ScanAll(front), ScanAll(probs);
      if s.triggered { LoudStays(front, p, s.start); }
      forall k | 0 <= k < |s.speeches|
        ensures Loud(probs, s.speeches[k].from)
      {
        LoudStays(front, p, s.speeches[k].from);
      }
    }
  }

  /** And nothing is made up: before padding, every segment begins at a loud window. */
  lemma SegmentsBeginLoud(probs: seq<real>, total: nat, k: nat)
    requires k < |RawSegments(probs, total)|
    ensures Loud(probs, RawSegments(probs, total)[k].from)
  {
    ScansBeginLoud(probs);
  }

  // ------------------------------------------------------------------ what a silence does

  /** Silent windows in a row, as many as it takes to be noticed. */
  const SILENT_WINDOWS := 5

  /** No segment goes over the silence from `lo`: they end before it, and the next starts after it. */
  ghost predicate Apart(ss: seq<Segment>, lo: int, hi: int) {
    forall i | 0 <= i < |ss| :: ss[i].to <= lo || hi <= ss[i].from
  }

  ghost predicate EndedBy(ss: seq<Segment>, end: int) {
    forall i | 0 <= i < |ss| :: ss[i].to <= end
  }

  /** While silence lasts that began with window `a`, what is open has its end noted. */
  ghost predicate Closing(s: Scan, a: nat, n: nat) {
    && EndedBy(s.speeches, VAD_WINDOW * a)
    && (s.triggered && n > a ==> n - a < SILENT_WINDOWS && 0 < s.silentFrom <= VAD_WINDOW * a)
  }

  lemma SilentStep(s: Scan, a: nat, n: nat, prob: real)
    requires ScanInv(s, n) && Closing(s, a, n) && a <= n && prob < VAD_NEG_THRESHOLD
    ensures Closing(ScanOne(s, n, prob), a, n + 1)
  {
  }

  lemma {:induction false} SilenceCloses(probs: seq<real>, a: nat, n: nat)
    requires a <= n <= |probs| && forall i | a <= i < n :: probs[i] < VAD_NEG_THRESHOLD
    ensures Closing(ScanAll(probs[..n]), a, n)
    decreases n
  {
    if a == n {
      ScanKeeps(probs[..n]);
    } else {
      assert probs[..n][..n - 1] == probs[..n - 1];
      SilenceCloses(probs, a, n - 1);
      ScanKeeps(probs[..n - 1]);
      SilentStep(ScanAll(probs[..n - 1]), a, n - 1, probs[n - 1]);
    }
  }

  lemma {:induction false} ApartToEnd(probs: seq<real>, a: nat, b: nat, n: nat)
    requires a + SILENT_WINDOWS <= b <= n <= |probs| && forall i | a <= i < b :: probs[i] < VAD_NEG_THRESHOLD
    ensures var s := ScanAll(probs[..n]);
            Apart(s.speeches, VAD_WINDOW * a, VAD_WINDOW * b) && (s.triggered ==> VAD_WINDOW * b <= s.start)
    decreases n
  {
    if b < n {
      assert probs[..n][..n - 1] == probs[..n - 1];
      ApartToEnd(probs, a, b, n - 1);
    } else {
      SilenceCloses(probs, a, b);
    }
  }

  /** Silence is never taken for speech: but for the pads, no segment reaches into five silent windows
      in a row or beyond. */
  lemma SilenceSplits(probs: seq<real>, total: nat, a: nat, b: nat, k: nat)
    requires a + 5 <= b <= |probs| && forall i | a <= i < b :: probs[i] < 0.35
    requires k < |RawSegments(probs, total)|
    ensures var s := Padded(RawSegments(probs, total), total, SPEECH_PAD)[k];
            s.to <= 512 * a + 480 || 512 * b - 480 <= s.from
  {
    ApartToEnd(probs, a, b, |probs|);
    assert probs[..|probs|] == probs;
    var raw := RawSegments(probs, total);
    assert raw[k].to <= VAD_WINDOW * a || VAD_WINDOW * b <= raw[k].from;
    assert raw[k].from - SPEECH_PAD <= PaddedFrom(raw, SPEECH_PAD, k);
    assert PaddedTo(raw, total, SPEECH_PAD, k) <= raw[k].to + SPEECH_PAD;
  }

  /** With the constants in use a segment is widened by the whole pad on both sides, up to the ends of
      the recording. */
  lemma WidenedByPad(probs: seq<real>, total: nat, k: nat)
    requires |probs| == CeilDiv(total, VAD_WINDOW) && k < |RawSegments(probs, total)|
    ensures var raw, s := RawSegments(probs, total)[k], Padded(RawSegments(probs, total), total, SPEECH_PAD)[k];
            && (s.from == 0 || s.from + 480 == raw.from) && s.from <= raw.from <= s.from + 480
            && (s.to == total || s.to == raw.to + 480) && raw.to <= s.to <= raw.to + 480
  {
    var raw := RawSegments(probs, total);
    SegmentsSound(probs, total);
    RawSegmentsSound(probs, total);
    if k > 0 { assert raw[k - 1 + 1].from - raw[k - 1].to >= 2 * SPEECH_PAD; }
  }
}
