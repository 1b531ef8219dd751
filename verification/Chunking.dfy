/** Chunks of a structured resume: entities, achievements, and long texts packed by sentences. */
module Chunking {
  import opened Wrappers
  import opened Texts

  datatype Project = Project(name: string, role: string, description: string, techStacks: seq<string>)
  datatype Experience = Experience(title: string, description: string)
  datatype Skill = Skill(category: string, items: seq<string>)
  datatype StructuredData = StructuredData(projects: seq<Project>, experiences: seq<Experience>, skills: seq<Skill>)

  datatype Hints = Hints(topics: seq<string>, relatedConcepts: seq<string>, questionHints: seq<string>)
  datatype Achievement = Achievement(text: string, hints: Hints)
  datatype ProjectAnalysis = ProjectAnalysis(intro: string, achievements: seq<Achievement>)
  datatype Enrichment = Enrichment(projects: seq<ProjectAnalysis>, experiences: seq<Hints>, skills: seq<Hints>)

  datatype ChunkType = ProjectChunk | ExperienceChunk | SkillChunk
  datatype Chunk = Chunk(content: string, kind: ChunkType, sourceIndex: nat, caption: string, version: int)
  datatype Extra = Extra(achievementIndex: Option<nat>, hints: Hints)

  /** Stripping white space and finding sentence ends are left open. */
  datatype Settings = Settings(
    target: int, overlap: nat, version: int, strip: string -> string, sentences: string -> seq<string>)

  const PROJECT_LABEL := "[프로젝트] "
  const ROLE_LABEL := " · 역할 "
  const TECH_LABEL := "기술: "
  const EXPERIENCE_LABEL := "[경력] "
  const SKILL_LABEL := "[스킬] "
  const NO_HINTS := Hints([], [], [])

  /** Two characters of Korean text are about one token. */
  function ApproxTokens(text: string): nat {
    |text| / 2
  }

  function NonEmpty(parts: seq<string>): seq<string> {
    if parts == [] then []
    else NonEmpty(parts[..|parts| - 1]) + (if parts[|parts| - 1] != "" then [parts[|parts| - 1]] else [])
  }

  // ------------------------------------------------------------------ sentence packing

  function Size(piece: seq<string>): nat {
    if piece == [] then 0 else Size(piece[..|piece| - 1]) + ApproxTokens(piece[|piece| - 1])
  }

  function LastOf(piece: seq<string>, n: nat): seq<string> {
    if n >= |piece| then piece else piece[|piece| - n..]
  }

  datatype Packed = Packed(pieces: seq<seq<string>>, current: seq<string>)

  function PackOne(p: Packed, sentence: string, budget: nat, overlap: nat): Packed {
    if p.current != [] && Size(p.current) + ApproxTokens(sentence) > budget
    then Packed(p.pieces + [p.current], LastOf(p.current, overlap) + [sentence])
    else p.(current := p.current + [sentence])
  }

  function PackAll(sentences: seq<string>, budget: nat, overlap: nat): Packed {
    if sentences == [] then Packed([], [])
    else PackOne(PackAll(sentences[..|sentences| - 1], budget, overlap), sentences[|sentences| - 1], budget, overlap)
  }

  function Pieces(sentences: seq<string>, budget: nat, overlap: nat): seq<seq<string>> {
    var p := PackAll(sentences, budget, overlap);
    p.pieces + (if p.current != [] then [p.current] else [])
  }

  function Budget(header: string, target: int): nat {
    Max(target - ApproxTokens(header), 1)
  }

  /** The header on every piece, the tail on the last one. */
  function Rendered(header: string, pieces: seq<seq<string>>, tail: string): seq<string> {
    seq(|pieces|, i requires 0 <= i < |pieces| =>
      header + "\n" + Join(" ", pieces[i]) + (if tail != "" && i == |pieces| - 1 then "\n" + tail else ""))
  }

  function OversizedPieces(header: string, sentences: seq<string>, tail: string, target: int, overlap: nat): seq<string> {
    if sentences == [] then [Join("\n", NonEmpty([header, tail]))]
    else Rendered(header, Pieces(sentences, Budget(header, target), overlap), tail)
  }

  method SizeOf(piece: seq<string>) returns (n: nat)
    ensures n == Size(piece)
  {
    n := 0;
    for i := 0 to |piece|
      invariant n == Size(piece[..i])
    {
      assert piece[..i + 1][..i] == piece[..i];
      n := n + ApproxTokens(piece[i]);
    }
    assert piece[..|piece|] == piece;
  }

  method Pack(sentences: seq<string>, budget: nat, overlap: nat) returns (pieces: seq<seq<string>>)
    ensures pieces == Pieces(sentences, budget, overlap)
  {
    pieces := [];
    var current: seq<string> := [];
    for i := 0 to |sentences|
      invariant Packed(pieces, current) == PackAll(sentences[..i], budget, overlap)
    {
      assert sentences[..i + 1][..i] == sentences[..i];
      var size := SizeOf(current);
      if current != [] && size + ApproxTokens(sentences[i]) > budget {
        pieces := pieces + [current];
        current := LastOf(current, overlap);
      }
      current := current + [sentences[i]];
    }
    assert sentences[..|sentences|] == sentences;
    if current != [] { pieces := pieces + [current]; }
  }

  method SplitOversized(header: string, sentences: seq<string>, tail: string, target: int, overlap: nat)
      returns (out: seq<string>)
    ensures out == OversizedPieces(header, sentences, tail, target, overlap)
  {
    if sentences == [] { return [Join("\n", NonEmpty([header, tail]))]; }
    var pieces := Pack(sentences, Max(target - ApproxTokens(header), 1), overlap);
    out := Render(header, pieces, tail);
  }

  method Render(header: string, pieces: seq<seq<string>>, tail: string) returns (out: seq<string>)
    ensures out == Rendered(header, pieces, tail)
  {
    out := [];
    for i := 0 to |pieces|
      invariant out == Rendered(header, pieces, tail)[..i]
    {
      var text := header + "\n" + Join(" ", pieces[i]);
      if tail != "" && i == |pieces| - 1 { text := text + "\n" + tail; }
      assert text == Rendered(header, pieces, tail)[i];
      out := out + [text];
    }
  }

  // ------------------------------------------------------------------ packing conserves the body

  /** How many sentences a piece repeats from the one before it. */
  function Repeated(pieces: seq<seq<string>>, overlap: nat, i: nat): nat
    requires i < |pieces|
  {
    if i == 0 then 0 else Min(overlap, |pieces[i - 1]|)
  }

  /** A piece starts with the end of the one before it, has a sentence of its own, and fits the
      budget unless it has just that one; and it was begun because the one before it had no room for
      that sentence. */
  predicate PieceOk(pieces: seq<seq<string>>, budget: nat, overlap: nat, i: nat)
    requires i < |pieces|
  {
    var r := Repeated(pieces, overlap, i);
    && r < |pieces[i]|
    && (i > 0 ==> pieces[i][..r] == LastOf(pieces[i - 1], overlap))
    && (Size(pieces[i]) <= budget || |pieces[i]| == r + 1)
    && (i > 0 ==> Size(pieces[i - 1]) + ApproxTokens(pieces[i][r]) > budget)
  }

  predicate WellPacked(pieces: seq<seq<string>>, budget: nat, overlap: nat) {
    forall i | 0 <= i < |pieces| :: PieceOk(pieces, budget, overlap, i)
  }

  /** The pieces without what they repeat, one after the other. */
  function FreshSentences(pieces: seq<seq<string>>, overlap: nat): seq<string> {
    if pieces == [] then [] else
    var n := |pieces| - 1;
    FreshSentences(pieces[..n], overlap) + pieces[n][Min(Repeated(pieces, overlap, n), |pieces[n]|)..]
  }

  lemma NewPieceOk(done: seq<seq<string>>, last: seq<string>, sentence: string, budget: nat, overlap: nat)
    requires WellPacked(done + [last], budget, overlap) && Size(last) + ApproxTokens(sentence) > budget
    ensures var next := LastOf(last, overlap) + [sentence];
            && WellPacked(done + [last] + [next], budget, overlap)
            && FreshSentences(done + [last] + [next], overlap) == FreshSentences(done + [last], overlap) + [sentence]
  {
    var before := done + [last];
    var next := LastOf(last, overlap) + [sentence];
    var after := before + [next];
    forall i | 0 <= i < |after|
      ensures PieceOk(after, budget, overlap, i)
    {
      if i < |before| {
        assert PieceOk(before, budget, overlap, i);
        assert i > 0 ==> after[i - 1] == before[i - 1];
      }
    }
    assert after[..|before|] == before;
    assert next[Repeated(after, overlap, |before|)..] == [sentence];
  }

  lemma LongerLastOk(done: seq<seq<string>>, last: seq<string>, sentence: string, budget: nat, overlap: nat)
    requires PieceOk(done + [last], budget, overlap, |done|) && Size(last + [sentence]) <= budget
    ensures PieceOk(done + [last + [sentence]], budget, overlap, |done|)
  {
    var before, after, n := done + [last], done + [last + [sentence]], |done|;
    var r := Repeated(before, overlap, n);
    if n > 0 { assert after[n - 1] == before[n - 1] && after[n][..r] == before[n][..r] && after[n][r] == before[n][r]; }
  }

  lemma LongerPieceOk(done: seq<seq<string>>, last: seq<string>, sentence: string, budget: nat, overlap: nat)
    requires WellPacked(done + [last], budget, overlap)
    requires Size(last + [sentence]) <= budget
    ensures WellPacked(done + [last + [sentence]], budget, overlap)
    ensures FreshSentences(done + [last + [sentence]], overlap) == FreshSentences(done + [last], overlap) + [sentence]
  {
    var before := done + [last];
    var after := done + [last + [sentence]];
    var n := |done|;
    forall i | 0 <= i < |after|
      ensures PieceOk(after, budget, overlap, i)
    {
      assert PieceOk(before, budget, overlap, i);
      if i == n { LongerLastOk(done, last, sentence, budget, overlap); }
    }
    var r := Repeated(before, overlap, n);
    assert PieceOk(before, budget, overlap, n);
    assert after[..n] == done && before[..n] == done;
    assert (last + [sentence])[r..] == last[r..] + [sentence];
  }

  lemma SizeOfOneMore(piece: seq<string>, sentence: string)
    ensures Size(piece + [sentence]) == Size(piece) + ApproxTokens(sentence)
  {
    assert (piece + [sentence])[..|piece|] == piece;
  }

  lemma FirstPieceOk(sentence: string, budget: nat, overlap: nat)
    ensures WellPacked([[sentence]], budget, overlap) && FreshSentences([[sentence]], overlap) == [sentence]
  {
    assert [[sentence]][..0] == [];
  }

  /** Packing conserves the body: without what they repeat the pieces are the sentences in order,
      each piece has a sentence of its own, and each fits the budget or has only that one, and none is
      begun while there is room for its first sentence in the one before. */
  lemma {:induction false} PackingConserves(sentences: seq<string>, budget: nat, overlap: nat)
    requires sentences != []
    ensures PackAll(sentences, budget, overlap).current != []
    ensures WellPacked(Pieces(sentences, budget, overlap), budget, overlap)
    ensures FreshSentences(Pieces(sentences, budget, overlap), overlap) == sentences
  {
    var front, s := sentences[..|sentences| - 1], sentences[|sentences| - 1];
    var p := PackAll(front, budget, overlap);
    if front == [] {
      FirstPieceOk(s, budget, overlap);
      assert Pieces(sentences, budget, overlap) == [[s]];
    } else {
      PackingConserves(front, budget, overlap);
      assert sentences == front + [s];
      if Size(p.current) + ApproxTokens(s) > budget {
        NewPieceOk(p.pieces, p.current, s, budget, overlap);
      } else {
        SizeOfOneMore(p.current, s);
        LongerPieceOk(p.pieces, p.current, s, budget, overlap);
      }
    }
  }

  // ------------------------------------------------------------------ entities

  function ProjectHeader(p: Project, k: Settings): string {
    k.strip(PROJECT_LABEL + p.name) + (if p.role != "" then ROLE_LABEL + p.role else "")
  }

  function TechLine(p: Project): string {
    if p.techStacks != [] then TECH_LABEL + Join(", ", p.techStacks) else ""
  }

  function ExperienceHeader(e: Experience, k: Settings): string {
    k.strip(EXPERIENCE_LABEL + e.title)
  }

  function SkillContent(s: Skill): string {
    SKILL_LABEL + s.category + ": " + Join(", ", s.items)
  }

  predicate IsEmptyProject(p: Project) {
    p.name == "" && p.role == "" && p.description == "" && p.techStacks == []
  }

  predicate IsEmptyExperience(e: Experience) {
    e.title == "" && e.description == ""
  }

  predicate IsEmptySkill(s: Skill) {
    s.items == []
  }

  function EntityPieces(header: string, body: string, tail: string, k: Settings): seq<string> {
    var whole := Join("\n", NonEmpty([header, body, tail]));
    if ApproxTokens(whole) <= k.target then [whole]
    else OversizedPieces(header, k.sentences(body), tail, k.target, k.overlap)
  }

  /** A chunk for each piece, and the metadata that goes with it. */
  function PieceChunks(pieces: seq<string>, kind: ChunkType, index: nat, caption: string, k: Settings): (cs: seq<Chunk>)
    ensures |cs| == |pieces|
  {
    seq(|pieces|, i requires 0 <= i < |pieces| => Chunk(pieces[i], kind, index, caption, k.version))
  }

  function Same(n: nat, hints: Hints): (es: seq<Extra>)
    ensures |es| == n
  {
    seq(n, i requires 0 <= i < n => Extra(None, hints))
  }

  datatype Output = Output(chunks: seq<Chunk>, extras: seq<Extra>)

  function Both(a: Output, b: Output): Output {
    Output(a.chunks + b.chunks, a.extras + b.extras)
  }

  function AchievementContent(p: Project, intro: string, text: string, k: Settings): string {
    Join("\n", [ProjectHeader(p, k)] + (if intro != "" then [intro] else []) + [text]
               + (if TechLine(p) != "" then [TechLine(p)] else []))
  }

  /** One achievement, one chunk; without achievements the project is one entity. */
  function ProjectOutput(p: Project, i: nat, a: Option<ProjectAnalysis>, k: Settings): Output {
    if IsEmptyProject(p) then Output([], [])
    else if a.Some? && a.value.achievements != [] then
      var xs := a.value.achievements;
      Output(seq(|xs|, j requires 0 <= j < |xs| =>
               Chunk(AchievementContent(p, k.strip(a.value.intro), xs[j].text, k), ProjectChunk, i, p.name, k.version)),
             seq(|xs|, j requires 0 <= j < |xs| => Extra(Some(j), xs[j].hints)))
    else
      var pieces := EntityPieces(ProjectHeader(p, k), p.description, TechLine(p), k);
      Output(PieceChunks(pieces, ProjectChunk, i, p.name, k), Same(|pieces|, NO_HINTS))
  }

  function ExperienceOutput(e: Experience, i: nat, hints: Hints, k: Settings): Output {
    if IsEmptyExperience(e) then Output([], []) else
    var pieces := EntityPieces(ExperienceHeader(e, k), e.description, "", k);
    Output(PieceChunks(pieces, ExperienceChunk, i, e.title, k), Same(|pieces|, hints))
  }

  function SkillOutput(s: Skill, i: nat, hints: Hints, k: Settings): Output {
    if IsEmptySkill(s) then Output([], [])
    else Output([Chunk(SkillContent(s), SkillChunk, i, s.category, k.version)], [Extra(None, hints)])
  }

  function At<T>(xs: seq<T>, i: nat): Option<T> {
    if i < |xs| then Some(xs[i]) else None
  }

  function HintsAt(xs: seq<Hints>, i: nat): Hints {
    if i < |xs| then xs[i] else NO_HINTS
  }

  function ProjectsOutput(d: StructuredData, e: Enrichment, k: Settings, n: nat): Output
    requires n <= |d.projects|
  {
    if n == 0 then Output([], [])
    else Both(ProjectsOutput(d, e, k, n - 1), ProjectOutput(d.projects[n - 1], n - 1, At(e.projects, n - 1), k))
  }

  function ExperiencesOutput(d: StructuredData, e: Enrichment, k: Settings, n: nat): Output
    requires n <= |d.experiences|
  {
    if n == 0 then Output([], [])
    else Both(ExperiencesOutput(d, e, k, n - 1),
              ExperienceOutput(d.experiences[n - 1], n - 1, HintsAt(e.experiences, n - 1), k))
  }

  function SkillsOutput(d: StructuredData, e: Enrichment, k: Settings, n: nat): Output
    requires n <= |d.skills|
  {
    if n == 0 then Output([], [])
    else Both(SkillsOutput(d, e, k, n - 1), SkillOutput(d.skills[n - 1], n - 1, HintsAt(e.skills, n - 1), k))
  }

  function Built(d: StructuredData, e: Enrichment, k: Settings): Output {
    Both(Both(ProjectsOutput(d, e, k, |d.projects|), ExperiencesOutput(d, e, k, |d.experiences|)),
         SkillsOutput(d, e, k, |d.skills|))
  }

  method BuildEntity(header: string, body: string, tail: string, k: Settings) returns (pieces: seq<string>)
    ensures pieces == EntityPieces(header, body, tail, k)
  {
    var whole := Join("\n", NonEmpty([header, body, tail]));
    if ApproxTokens(whole) <= k.target { return [whole]; }
    pieces := SplitOversized(header, k.sentences(body), tail, k.target, k.overlap);
  }

  method BuildProject(p: Project, i: nat, a: Option<ProjectAnalysis>, k: Settings) returns (out: Output)
    ensures out == ProjectOutput(p, i, a, k)
  {
    if IsEmptyProject(p) { return Output([], []); }
    var header, tail := ProjectHeader(p, k), TechLine(p);
    var chunks: seq<Chunk>, extras: seq<Extra> := [], [];
    if a.Some? && a.value.achievements != [] {
      var xs, intro := a.value.achievements, k.strip(a.value.intro);
      for j := 0 to |xs|
        invariant |chunks| == |extras| == j
        invariant chunks == ProjectOutput(p, i, a, k).chunks[..j]
        invariant extras == ProjectOutput(p, i, a, k).extras[..j]
      {
        var parts := [header] + (if intro != "" then [intro] else []) + [xs[j].text];
        if tail != "" { parts := parts + [tail]; } else { assert parts + [] == parts; }
        chunks := chunks + [Chunk(Join("\n", parts), ProjectChunk, i, p.name, k.version)];
        extras := extras + [Extra(Some(j), xs[j].hints)];
      }
      return Output(chunks, extras);
    }
    var pieces := BuildEntity(header, p.description, tail, k);
    for j := 0 to |pieces|
      invariant chunks == PieceChunks(pieces, ProjectChunk, i, p.name, k)[..j]
      invariant extras == Same(|pieces|, NO_HINTS)[..j]
    {
      chunks := chunks + [Chunk(pieces[j], ProjectChunk, i, p.name, k.version)];
      extras := extras + [Extra(None, NO_HINTS)];
    }
    return Output(chunks, extras);
  }

  method BuildExperience(e: Experience, i: nat, hints: Hints, k: Settings) returns (out: Output)
    ensures out == ExperienceOutput(e, i, hints, k)
  {
    if IsEmptyExperience(e) { return Output([], []); }
    var pieces := BuildEntity(ExperienceHeader(e, k), e.description, "", k);
    var chunks: seq<Chunk>, extras: seq<Extra> := [], [];
    for j := 0 to |pieces|
      invariant chunks == PieceChunks(pieces, ExperienceChunk, i, e.title, k)[..j]
      invariant extras == Same(|pieces|, hints)[..j]
    {
      chunks := chunks + [Chunk(pieces[j], ExperienceChunk, i, e.title, k.version)];
      extras := extras + [Extra(None, hints)];
    }
    return Output(chunks, extras);
  }

  method BuildChunks(d: StructuredData, e: Enrichment, k: Settings) returns (out: Output)
    ensures out == Built(d, e, k)
  {
    out := Output([], []);
    for i := 0 to |d.projects|
      invariant out == ProjectsOutput(d, e, k, i)
    {
      var one := BuildProject(d.projects[i], i, At(e.projects, i), k);
      out := Both(out, one);
    }
    var experiences := Output([], []);
    for i := 0 to |d.experiences|
      invariant experiences == ExperiencesOutput(d, e, k, i)
    {
      var one := BuildExperience(d.experiences[i], i, HintsAt(e.experiences, i), k);
      experiences := Both(experiences, one);
    }
    var skills := Output([], []);
    for i := 0 to |d.skills|
      invariant skills == SkillsOutput(d, e, k, i)
    {
      skills := Both(skills, SkillOutput(d.skills[i], i, HintsAt(e.skills, i), k));
    }
    out := Both(Both(out, experiences), skills);
  }

  // ------------------------------------------------------------------ chunking without enrichment

  /** The older form, which knows no achievements. */
  method ChunkStructuredData(d: StructuredData, k: Settings) returns (chunks: seq<Chunk>)
    ensures chunks == PlainChunks(d, k)
  {
    var projects := AddProjects(d, k);
    var experiences := AddExperiences(d, k);
    var skills := AddSkills(d, k);
    chunks := projects + experiences + skills;
  }

  method AddProjects(d: StructuredData, k: Settings) returns (chunks: seq<Chunk>)
    ensures chunks == PlainProjects(d, k, |d.projects|)
  {
    chunks := [];
    for i := 0 to |d.projects|
      invariant chunks == PlainProjects(d, k, i)
    {
      var p := d.projects[i];
      assert chunks + [] == chunks;
      if IsEmptyProject(p) { continue; }
      var added := AddEntity(ProjectChunk, i, p.name, ProjectHeader(p, k), p.description, TechLine(p), k);
      chunks := chunks + added;
    }
  }

  method AddExperiences(d: StructuredData, k: Settings) returns (chunks: seq<Chunk>)
    ensures chunks == PlainExperiences(d, k, |d.experiences|)
  {
    chunks := [];
    for i := 0 to |d.experiences|
      invariant chunks == PlainExperiences(d, k, i)
    {
      var e := d.experiences[i];
      assert chunks + [] == chunks;
      if IsEmptyExperience(e) { continue; }
      var added := AddEntity(ExperienceChunk, i, e.title, ExperienceHeader(e, k), e.description, "", k);
      chunks := chunks + added;
    }
  }

  method AddSkills(d: StructuredData, k: Settings) returns (chunks: seq<Chunk>)
    ensures chunks == PlainSkills(d, k, |d.skills|)
  {
    chunks := [];
    for i := 0 to |d.skills|
      invariant chunks == PlainSkills(d, k, i)
    {
      var s := d.skills[i];
      assert chunks + [] == chunks;
      if IsEmptySkill(s) { continue; }
      chunks := chunks + [Chunk(SkillContent(s), SkillChunk, i, s.category, k.version)];
    }
  }

  method AddEntity(kind: ChunkType, i: nat, caption: string, header: string, body: string, tail: string, k: Settings)
      returns (chunks: seq<Chunk>)
    ensures chunks == EntityChunks(kind, i, caption, header, body, tail, k)
  {
    var whole := Join("\n", NonEmpty([header, body, tail]));
    if ApproxTokens(whole) <= k.target { return [Chunk(whole, kind, i, caption, k.version)]; }
    var pieces := SplitOversized(header, k.sentences(body), tail, k.target, k.overlap);
    chunks := [];
    for j := 0 to |pieces|
      invariant chunks == PieceChunks(pieces, kind, i, caption, k)[..j]
    {
      chunks := chunks + [Chunk(pieces[j], kind, i, caption, k.version)];
    }
  }

  function EntityChunks(kind: ChunkType, i: nat, caption: string, header: string, body: string, tail: string, k: Settings)
      : seq<Chunk>
  {
    var whole := Join("\n", NonEmpty([header, body, tail]));
    if ApproxTokens(whole) <= k.target then [Chunk(whole, kind, i, caption, k.version)]
    else PieceChunks(OversizedPieces(header, k.sentences(body), tail, k.target, k.overlap), kind, i, caption, k)
  }

  function PlainProject(p: Project, i: nat, k: Settings): seq<Chunk> {
    if IsEmptyProject(p) then []
    else EntityChunks(ProjectChunk, i, p.name, ProjectHeader(p, k), p.description, TechLine(p), k)
  }

  function PlainExperience(e: Experience, i: nat, k: Settings): seq<Chunk> {
    if IsEmptyExperience(e) then []
    else EntityChunks(ExperienceChunk, i, e.title, ExperienceHeader(e, k), e.description, "", k)
  }

  function PlainSkill(s: Skill, i: nat, k: Settings): seq<Chunk> {
    if IsEmptySkill(s) then [] else [Chunk(SkillContent(s), SkillChunk, i, s.category, k.version)]
  }

  function PlainProjects(d: StructuredData, k: Settings, n: nat): seq<Chunk>
    requires n <= |d.projects|
  {
    if n == 0 then [] else PlainProjects(d, k, n - 1) + PlainProject(d.projects[n - 1], n - 1, k)
  }

  function PlainExperiences(d: StructuredData, k: Settings, n: nat): seq<Chunk>
    requires n <= |d.experiences|
  {
    if n == 0 then [] else PlainExperiences(d, k, n - 1) + PlainExperience(d.experiences[n - 1], n - 1, k)
  }

  function PlainSkills(d: StructuredData, k: Settings, n: nat): seq<Chunk>
    requires n <= |d.skills|
  {
    if n == 0 then [] else PlainSkills(d, k, n - 1) + PlainSkill(d.skills[n - 1], n - 1, k)
  }

  function PlainChunks(d: StructuredData, k: Settings): seq<Chunk> {
    PlainProjects(d, k, |d.projects|) + PlainExperiences(d, k, |d.experiences|) + PlainSkills(d, k, |d.skills|)
  }

  // ------------------------------------------------------------------ the two forms agree

  predicate NoAchievements(d: StructuredData, e: Enrichment) {
    forall i | 0 <= i < |d.projects| && i < |e.projects| && !IsEmptyProject(d.projects[i]) ::
      e.projects[i].achievements == []
  }

  lemma OneEntity(kind: ChunkType, i: nat, caption: string, header: string, body: string, tail: string, k: Settings)
    ensures EntityChunks(kind, i, caption, header, body, tail, k)
         == PieceChunks(EntityPieces(header, body, tail, k), kind, i, caption, k)
  {
  }

  lemma OneProject(p: Project, i: nat, a: Option<ProjectAnalysis>, k: Settings)
    requires IsEmptyProject(p) || (a.Some? ==> a.value.achievements == [])
    ensures ProjectOutput(p, i, a, k).chunks == PlainProject(p, i, k)
  {
    OneEntity(ProjectChunk, i, p.name, ProjectHeader(p, k), p.description, TechLine(p), k);
  }

  lemma OneExperience(x: Experience, i: nat, hints: Hints, k: Settings)
    ensures ExperienceOutput(x, i, hints, k).chunks == PlainExperience(x, i, k)
  {
    OneEntity(ExperienceChunk, i, x.title, ExperienceHeader(x, k), x.description, "", k);
  }

  lemma {:induction false} ProjectsAgree(d: StructuredData, e: Enrichment, k: Settings, n: nat)
    requires n <= |d.projects| && NoAchievements(d, e)
    ensures ProjectsOutput(d, e, k, n).chunks == PlainProjects(d, k, n)
  {
    if n > 0 {
      ProjectsAgree(d, e, k, n - 1);
      var one := ProjectOutput(d.projects[n - 1], n - 1, At(e.projects, n - 1), k);
      assert ProjectsOutput(d, e, k, n).chunks == ProjectsOutput(d, e, k, n - 1).chunks + one.chunks;
      OneProject(d.projects[n - 1], n - 1, At(e.projects, n - 1), k);
    }
  }

  lemma {:induction false} ExperiencesAgree(d: StructuredData, e: Enrichment, k: Settings, n: nat)
    requires n <= |d.experiences|
    ensures ExperiencesOutput(d, e, k, n).chunks == PlainExperiences(d, k, n)
  {
    if n > 0 {
      ExperiencesAgree(d, e, k, n - 1);
      var one := ExperienceOutput(d.experiences[n - 1], n - 1, HintsAt(e.experiences, n - 1), k);
      assert ExperiencesOutput(d, e, k, n).chunks == ExperiencesOutput(d, e, k, n - 1).chunks + one.chunks;
      OneExperience(d.experiences[n - 1], n - 1, HintsAt(e.experiences, n - 1), k);
    }
  }

  lemma {:induction false} SkillsAgree(d: StructuredData, e: Enrichment, k: Settings, n: nat)
    requires n <= |d.skills|
    ensures SkillsOutput(d, e, k, n).chunks == PlainSkills(d, k, n)
  {
    if n > 0 { SkillsAgree(d, e, k, n - 1); }
  }

  /** Without achievements the enriched form builds the same chunks as the older one. */
  lemma BuildAgreesWithPlain(d: StructuredData, e: Enrichment, k: Settings)
    requires NoAchievements(d, e)
    ensures Built(d, e, k).chunks == PlainChunks(d, k)
  {
    ProjectsAgree(d, e, k, |d.projects|);
    ExperiencesAgree(d, e, k, |d.experiences|);
    SkillsAgree(d, e, k, |d.skills|);
  }

  lemma {:induction false} PartsHaveExtras(d: StructuredData, e: Enrichment, k: Settings, n: nat)
    ensures n <= |d.projects| ==> var o := ProjectsOutput(d, e, k, n); |o.chunks| == |o.extras|
    ensures n <= |d.experiences| ==> var o := ExperiencesOutput(d, e, k, n); |o.chunks| == |o.extras|
    ensures n <= |d.skills| ==> var o := SkillsOutput(d, e, k, n); |o.chunks| == |o.extras|
  {
    if n > 0 { PartsHaveExtras(d, e, k, n - 1); }
  }

  /** Every chunk has its metadata. */
  lemma ChunksHaveExtras(d: StructuredData, e: Enrichment, k: Settings)
    ensures |Built(d, e, k).chunks| == |Built(d, e, k).extras|
  {
    PartsHaveExtras(d, e, k, |d.projects|);
    PartsHaveExtras(d, e, k, |d.experiences|);
    PartsHaveExtras(d, e, k, |d.skills|);
  }
}
