/** What the orchestrator is shown of the log: clipped lines, oldest branches dropped first. */
module Context {
  import opened Wrappers
  import opened Utterances
  import opened Conversation
  import opened Texts

  /** A space, an ellipsis and the bracketed word for "omitted". */
  const CLIP_MARKER := " \U{2026}(\U{C911}\U{B7B5})"

  /** A conservative estimate: ceil(length / 1.5). */
  function EstimateTokens(length: nat): nat {
    (2 * length + 2) / 3
  }

  function MaxChars(cap: nat): nat {
    3 * cap / 2
  }

  function Clip(content: string, cap: nat): string {
    if |content| <= MaxChars(cap) then content
    else if MaxChars(cap) <= |CLIP_MARKER| then content[..MaxChars(cap)]
    else content[..MaxChars(cap) - |CLIP_MARKER|] + CLIP_MARKER
  }

  /** A clipped utterance is within its cap, starts like the original, and is the original itself
      whenever that fits. */
  lemma ClipWithinCap(content: string, cap: nat)
    ensures var c := Clip(content, cap);
            && EstimateTokens(|c|) <= cap
            && (EstimateTokens(|content|) <= cap ==> c == content)
            && (EstimateTokens(|content|) > cap ==> |c| == MaxChars(cap))
            && exists n :: 0 <= n <= |content| && n <= |c| && c[..n] == content[..n] && c[n..] in ["", CLIP_MARKER]
  {
    var c := Clip(content, cap);
    var n := if |content| <= MaxChars(cap) then |content|
             else if MaxChars(cap) <= |CLIP_MARKER| then MaxChars(cap) else MaxChars(cap) - |CLIP_MARKER|;
    assert c[..n] == content[..n];
    assert c[n..] == "" || c[n..] == CLIP_MARKER;
  }

  function Digits(n: nat): string {
    (if n < 10 then "" else Digits(n / 10)) + ["0123456789"[n % 10]]
  }

  function DigitOf(c: char): nat {
    if '0' <= c <= '9' then c as int - '0' as int else 0
  }

  function Value(digits: string): nat {
    if digits == "" then 0 else 10 * Value(digits[..|digits| - 1]) + DigitOf(digits[|digits| - 1])
  }

  lemma DigitIs(d: nat)
    requires d < 10
    ensures DigitOf("0123456789"[d]) == d
  {
  }

  /** A question's tag says its number: the digits read back as what was written. */
  lemma {:induction false} DigitsReadBack(n: nat)
    ensures Value(Digits(n)) == n
  {
    var front := if n < 10 then "" else Digits(n / 10);
    if n >= 10 { DigitsReadBack(n / 10); }
    assert Digits(n)[..|Digits(n)| - 1] == front;
    DigitIs(n % 10);
  }

  function NumberText(n: Option<int>): string {
    if n.None? then "None" else if n.value < 0 then "-" + Digits(-n.value) else Digits(n.value)
  }

  function TaggedLine(u: Utterance, cap: nat): string {
    if u.speaker == Interviewer
    then "[Q" + NumberText(u.questionNumber) + "|root" + NumberText(u.parent) + "] " + Clip(u.content, cap)
    else "[A" + NumberText(u.questionNumber) + "] " + Clip(u.content, cap)
  }

  // ------------------------------------------------------------------ reading a line back

  /** What the model is told by a line: who spoke, under which number, in which branch, and what. */
  datatype Reading =
    | QuestionRead(number: int, root: int, content: string)
    | AnswerRead(number: int, content: string)

  function IndexOf(c: char, text: string): (i: nat)
    ensures i <= |text| && (i < |text| ==> text[i] == c) && c !in text[..i]
  {
    if text == "" || text[0] == c then 0
    else
      var i := 1 + IndexOf(c, text[1..]);
      assert text[..i] == [text[0]] + text[1..][..i - 1];
      i
  }

  function NumberOf(text: string): int {
    if text != "" && text[0] == '-' then 0 - Value(text[1..]) else Value(text)
  }

  /** A reader of lines: a bracketed tag "[Q<number>|root<root>]" or "[A<number>]", a space, the content. */
  function ReadLine(line: string): Option<Reading> {
    var close := IndexOf(']', line);
    if |line| < 2 || line[0] != '[' || close + 2 > |line| || close < 2 then None
    else if line[1] == 'Q' then
      var bar := IndexOf('|', line);
      if bar < 2 || bar + 5 > close || line[bar + 1..bar + 5] != "root" then None
      else Some(QuestionRead(NumberOf(line[2..bar]), NumberOf(line[bar + 5..close]), line[close + 2..]))
    else if line[1] == 'A' then Some(AnswerRead(NumberOf(line[2..close]), line[close + 2..]))
    else None
  }

  lemma {:induction false} IndexIs(c: char, before: string, after: string)
    requires c !in before
    ensures IndexOf(c, before + [c] + after) == |before|
  {
    if before != "" {
      IndexIs(c, before[1..], after);
      assert (before + [c] + after)[1..] == before[1..] + [c] + after;
    }
  }

  lemma {:induction false} DigitsArePlain(n: nat)
    ensures Digits(n) != "" && forall c | c in Digits(n) :: '0' <= c <= '9'
  {
    if n >= 10 { DigitsArePlain(n / 10); }
    assert forall d: nat | d < 10 :: '0' <= "0123456789"[d] <= '9';
  }

  /** Nothing in it ends a tag early. */
  predicate Plain(text: string) {
    ']' !in text && '|' !in text
  }

  lemma NumberReadsBack(n: int)
    ensures NumberOf(NumberText(Some(n))) == n
    ensures Plain(NumberText(Some(n)))
  {
    DigitsReadBack(if n < 0 then -n else n);
    DigitsArePlain(if n < 0 then -n else n);
    if n >= 0 {
      assert Digits(n)[0] in Digits(n);
    } else {
      assert ("-" + Digits(-n))[1..] == Digits(-n);
    }
  }

  lemma AnswerTagReads(text: string, content: string)
    requires Plain(text)
    ensures ReadLine("[A" + text + "] " + content) == Some(AnswerRead(NumberOf(text), content))
  {
    var front := "[A" + text;
    var line := front + "] " + content;
    assert line == front + [']'] + (" " + content);
    IndexIs(']', front, " " + content);
    assert line[0] == '[' && line[1] == 'A' && line[2..|front|] == text && line[|front| + 2..] == content;
  }

  lemma QuestionTagEnds(a: string, b: string, content: string)
    requires Plain(a) && Plain(b)
    ensures var line := "[Q" + a + "|root" + b + "] " + content;
            IndexOf('|', line) == 2 + |a| && IndexOf(']', line) == 7 + |a| + |b|
  {
    var front, tag := "[Q" + a, "[Q" + a + "|root" + b;
    var line := tag + "] " + content;
    assert line == front + ['|'] + ("root" + b + "] " + content);
    IndexIs('|', front, "root" + b + "] " + content);
    assert ']' !in tag by { assert tag == "[Q" + (a + ("|root" + b)); }
    assert line == tag + [']'] + (" " + content);
    IndexIs(']', tag, " " + content);
  }

  lemma QuestionTagReads(a: string, b: string, content: string)
    requires Plain(a) && Plain(b)
    ensures ReadLine("[Q" + a + "|root" + b + "] " + content) == Some(QuestionRead(NumberOf(a), NumberOf(b), content))
  {
    var line := "[Q" + a + "|root" + b + "] " + content;
    QuestionTagEnds(a, b, content);
    var bar, close := 2 + |a|, 7 + |a| + |b|;
    assert line[0] == '[' && line[1] == 'Q' && line[2..bar] == a && line[bar + 1..bar + 5] == "root";
    assert line[bar + 5..close] == b && line[close + 2..] == content;
  }

  /** Every numbered utterance reads back from its line: its speaker, its number, for a question its
      branch, and its clipped content. */
  lemma LineReadsBack(u: Utterance, cap: nat)
    requires Valid(u) && u.questionNumber.Some?
    ensures u.parent.Some?
    ensures ReadLine(TaggedLine(u, cap)) == Some(
              if u.speaker == Interviewer
              then QuestionRead(u.questionNumber.value, u.parent.value, Clip(u.content, cap))
              else AnswerRead(u.questionNumber.value, Clip(u.content, cap)))
  {
    NumberReadsBack(u.questionNumber.value);
    NumberReadsBack(u.parent.value);
    if u.speaker == Interviewer {
      QuestionTagReads(NumberText(u.questionNumber), NumberText(u.parent), Clip(u.content, cap));
    } else {
      AnswerTagReads(NumberText(u.questionNumber), Clip(u.content, cap));
    }
  }

  type Lines = seq<string>

  function LinesOf(us: seq<Utterance>, cap: nat): Lines {
    seq(|us|, i requires 0 <= i < |us| => TaggedLine(us[i], cap))
  }

  function BranchLines(us: seq<Utterance>, roots: seq<int>, cap: nat): seq<Lines> {
    seq(|roots|, i requires 0 <= i < |roots| => LinesOf(Branch(us, roots[i]), cap))
  }

  function Flat(branches: seq<Lines>): Lines {
    if branches == [] then [] else branches[0] + Flat(branches[1..])
  }

  function Joined(branches: seq<Lines>): string {
    Join("\n", Flat(branches))
  }

  /** Where the last question of a branch stands in it. */
  function LastInterviewer(us: seq<Utterance>): (i: Option<nat>)
    ensures i.Some? ==> i.value < |us| && us[i.value].speaker == Interviewer
    ensures i.Some? ==> forall j | i.value < j < |us| :: us[j].speaker != Interviewer
    ensures i.None? ==> forall j | 0 <= j < |us| :: us[j].speaker != Interviewer
  {
    if us == [] then None
    else if us[|us| - 1].speaker == Interviewer then Some(|us| - 1)
    else LastInterviewer(us[..|us| - 1])
  }

  /** Line j of the i-th branch shown reads back as utterance j of that branch. */
  lemma BranchReadsBack(us: seq<Utterance>, roots: seq<int>, cap: nat, i: nat, j: nat)
    requires (forall u | u in us :: Valid(u)) && i < |roots| && j < |Branch(us, roots[i])|
    ensures |BranchLines(us, roots, cap)| == |roots|
    ensures |BranchLines(us, roots, cap)[i]| == |Branch(us, roots[i])|
    ensures var u := Branch(us, roots[i])[j];
            && u in us && u.parent == Some(roots[i]) && u.questionNumber.Some?
            && ReadLine(BranchLines(us, roots, cap)[i][j]) == Some(
                 if u.speaker == Interviewer then QuestionRead(u.questionNumber.value, roots[i], Clip(u.content, cap))
                 else AnswerRead(u.questionNumber.value, Clip(u.content, cap)))
  {
    var u := Branch(us, roots[i])[j];
    assert u in Branch(us, roots[i]);
    assert Valid(u);
    LineReadsBack(u, cap);
  }

  // ------------------------------------------------------------------ the candidates

  /** The texts that may be shown, from the longest on: without the oldest i branches, and beyond
      that without the oldest lines of the last branch. */
  function Candidate(branches: seq<Lines>, i: nat): string
    requires branches != [] && i < |branches| + |branches[|branches| - 1]|
  {
    var k := |branches| - 1;
    if i <= k then Joined(branches[i..]) else Joined([branches[k][i - k..]])
  }

  predicate Fits(branches: seq<Lines>, budget: int, i: nat)
    requires branches != [] && i < |branches| + |branches[|branches| - 1]|
  {
    EstimateTokens(|Candidate(branches, i)|) <= budget
  }

  /** The first candidate that fits, or the one that starts at the last question. */
  ghost predicate Chosen(branches: seq<Lines>, budget: int, tail: nat, text: string)
    requires branches != [] && tail <= |branches[|branches| - 1]|
  {
    exists i: nat ::
      && i < |branches| + tail && i < |branches| + |branches[|branches| - 1]|
      && text == Candidate(branches, i)
      && (i == |branches| - 1 + tail || Fits(branches, budget, i))
      && forall j | 0 <= j < i :: !Fits(branches, budget, j)
  }

  /** First the oldest branches go, one by one; the last one stays. */
  method DropBranches(branches: seq<Lines>, budget: int) returns (start: nat)
    requires branches != []
    ensures start < |branches|
    ensures start < |branches| - 1 ==> Fits(branches, budget, start)
    ensures forall j | 0 <= j < start :: !Fits(branches, budget, j)
  {
    start := 0;
    while start < |branches| - 1 && EstimateTokens(|Joined(branches[start..])|) > budget
      invariant start < |branches|
      invariant forall j | 0 <= j < start :: !Fits(branches, budget, j)
    {
      assert !Fits(branches, budget, start);
      start := start + 1;
    }
    if start < |branches| - 1 { assert Fits(branches, budget, start); }
  }

  /** Then lines of the last branch, up to its last question. */
  method DropLines(branches: seq<Lines>, budget: int, tail: nat) returns (drop: nat)
    requires branches != [] && tail < |branches[|branches| - 1]|
    requires forall j | 0 <= j < |branches| :: !Fits(branches, budget, j)
    ensures drop <= tail && (drop == tail || Fits(branches, budget, |branches| - 1 + drop))
    ensures forall j | 0 <= j < |branches| - 1 + drop :: !Fits(branches, budget, j)
  {
    var k := |branches| - 1;
    WholeBranch(branches);
    drop := 0;
    while drop < tail && EstimateTokens(|Joined([branches[k][drop..]])|) > budget
      invariant drop <= tail
      invariant forall j | 0 <= j < k + drop :: !Fits(branches, budget, j)
    {
      assert Candidate(branches, k + drop) == Joined([branches[k][drop..]]);
      assert !Fits(branches, budget, k + drop);
      drop := drop + 1;
    }
    assert Candidate(branches, k + drop) == Joined([branches[k][drop..]]);
  }

  /** What is shown, given where the last question of the last branch stands, if it has one. None:
      the tail has no question to start at, and nothing larger fits. */
  ghost predicate Shown(branches: seq<Lines>, budget: int, last: Option<nat>, r: Option<string>)
    requires branches != [] && (last.Some? ==> last.value < |branches[|branches| - 1]|)
  {
    && (r.None? <==> last.None? && forall i | 0 <= i < |branches| :: !Fits(branches, budget, i))
    && (r.Some? ==> Chosen(branches, budget, if last.Some? then last.value else 0, r.value))
  }

  lemma TailMayBeChosen(branches: seq<Lines>, budget: int, tail: nat, i: nat)
    requires branches != [] && tail <= |branches[|branches| - 1]|
    requires i < |branches| + tail && i < |branches| + |branches[|branches| - 1]|
    requires i == |branches| - 1 + tail || Fits(branches, budget, i)
    requires forall j | 0 <= j < i :: !Fits(branches, budget, j)
    ensures Chosen(branches, budget, tail, Candidate(branches, i))
  {
  }

  method SelectLines(branches: seq<Lines>, budget: int, last: Option<nat>) returns (r: Option<string>)
    requires branches != [] && (last.Some? ==> last.value < |branches[|branches| - 1]|)
    ensures Shown(branches, budget, last, r)
  {
    var k := |branches| - 1;
    var start := DropBranches(branches, budget);
    assert Candidate(branches, start) == Joined(branches[start..]);
    if EstimateTokens(|Joined(branches[start..])|) <= budget {
      assert Fits(branches, budget, start);
      TailMayBeChosen(branches, budget, if last.Some? then last.value else 0, start);
      return Some(Joined(branches[start..]));
    }
    assert !Fits(branches, budget, start) && start == k;
    if last.None? { return None; }
    var drop := DropLines(branches, budget, last.value);
    WholeBranch(branches);
    TailMayBeChosen(branches, budget, last.value, k + drop);
    return Some(Joined([branches[k][drop..]]));
  }

  method OrchestratorContext(log: ConversationLog, budget: int, cap: nat) returns (r: Option<string>)
    ensures var roots := BranchRoots(log.utterances);
            if roots == [] then r == Some("")
            else Shown(BranchLines(log.utterances, roots, cap), budget,
                       LastInterviewer(Branch(log.utterances, roots[|roots| - 1])), r)
  {
    var us := log.utterances;
    var roots := log.CollectBranchRoots();
    if roots == [] { return Some(""); }
    r := SelectLines(BranchLines(us, roots, cap), budget, LastInterviewer(Branch(us, roots[|roots| - 1])));
  }

  lemma WholeBranch(branches: seq<Lines>)
    requires branches != []
    ensures var k := |branches| - 1; branches[k..] == [branches[k]] && branches[k][0..] == branches[k]
  {
  }

  // ------------------------------------------------------------------ why the first one is best

  predicate SuffixOf(a: string, b: string) {
    |a| <= |b| && b[|b| - |a|..] == a
  }

  lemma SuffixTrans(a: string, b: string, c: string)
    requires SuffixOf(a, b) && SuffixOf(b, c)
    ensures SuffixOf(a, c)
  {
    assert c[|c| - |b|..][|b| - |a|..] == c[|c| - |a|..];
  }

  lemma JoinDrop(lines: Lines, n: nat)
    requires n <= |lines|
    ensures SuffixOf(Join("\n", lines[n..]), Join("\n", lines))
  {
    assert lines == lines[..n] + lines[n..];
    JoinBoth("\n", lines[..n], lines[n..]);
  }

  lemma {:induction false} FlatDrop(branches: seq<Lines>, n: nat)
    requires n <= |branches|
    ensures Flat(branches) == Flat(branches[..n]) + Flat(branches[n..])
  {
    if n == 0 {
      assert branches[0..] == branches;
    } else {
      FlatDrop(branches[1..], n - 1);
      assert branches[1..][n - 1..] == branches[n..];
      assert branches[..n][1..] == branches[1..][..n - 1];
    }
  }

  lemma JoinedDrop(branches: seq<Lines>, n: nat)
    requires n <= |branches|
    ensures SuffixOf(Joined(branches[n..]), Joined(branches))
  {
    FlatDrop(branches, n);
    var head := Flat(branches[..n]);
    JoinDrop(Flat(branches), |head|);
    assert Flat(branches)[|head|..] == Flat(branches[n..]);
  }

  lemma FlatOne(lines: Lines)
    ensures Flat([lines]) == lines
  {
    assert [lines][1..] == [];
  }

  /** Each candidate is a suffix of those before it. */
  lemma CandidatesShrink(branches: seq<Lines>, i: nat, j: nat)
    requires branches != [] && i <= j < |branches| + |branches[|branches| - 1]|
    ensures SuffixOf(Candidate(branches, j), Candidate(branches, i))
    decreases j - i
  {
    var k := |branches| - 1;
    if j <= k {
      JoinedDrop(branches[i..], j - i);
      assert branches[i..][j - i..] == branches[j..];
    } else if i >= k {
      WholeBranch(branches);
      FlatOne(branches[k][i - k..]);
      FlatOne(branches[k][j - k..]);
      JoinDrop(branches[k][i - k..], j - i);
      assert branches[k][i - k..][j - i..] == branches[k][j - k..];
      assert i == k ==> Candidate(branches, i) == Joined([branches[k][i - k..]]);
    } else {
      CandidatesShrink(branches, i, k);
      CandidatesShrink(branches, k, j);
      SuffixTrans(Candidate(branches, j), Candidate(branches, k), Candidate(branches, i));
    }
  }

  /** The chosen text is the longest allowed one that fits; only when none fits is it over budget,
      and then it is exactly the tail from the last question. */
  lemma ChosenIsLongest(branches: seq<Lines>, budget: int, tail: nat, text: string)
    requires branches != [] && tail < |branches[|branches| - 1]|
    requires Chosen(branches, budget, tail, text)
    ensures forall j | 0 <= j < |branches| + tail && Fits(branches, budget, j) :: SuffixOf(Candidate(branches, j), text)
    ensures EstimateTokens(|text|) > budget ==>
              text == Candidate(branches, |branches| - 1 + tail)
              && forall j | 0 <= j < |branches| + tail :: !Fits(branches, budget, j)
  {
    var i: nat :| i < |branches| + tail && text == Candidate(branches, i)
                  && (i == |branches| - 1 + tail || Fits(branches, budget, i))
                  && forall j | 0 <= j < i :: !Fits(branches, budget, j);
    forall j | 0 <= j < |branches| + tail && Fits(branches, budget, j)
      ensures SuffixOf(Candidate(branches, j), text)
    {
      assert i <= j;
      CandidatesShrink(branches, i, j);
    }
    if EstimateTokens(|text|) > budget { assert !Fits(branches, budget, i); }
  }
}
