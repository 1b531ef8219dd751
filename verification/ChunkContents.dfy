/** What the chunks say: nothing of a resume is lost on the way into its index. */
module ChunkContents {
  import opened Wrappers
  import opened Texts
  import opened Chunking

  // ------------------------------------------------------------------ the texts of a long entity

  predicate StartsWith(text: string, header: string) {
    header <= text
  }

  /** The text without its header and without the last `drop` characters. */
  function Cut(text: string, header: string, drop: nat): string {
    if |header| + 1 + drop <= |text| then text[|header| + 1..|text| - drop] else ""
  }

  /** The bodies of the texts: no header, and no tail on the last one. */
  function Bodies(texts: seq<string>, header: string, tail: string): (bs: seq<string>)
    ensures |bs| == |texts|
  {
    seq(|texts|, i requires 0 <= i < |texts| =>
      Cut(texts[i], header, if i == |texts| - 1 && tail != "" then |tail| + 1 else 0))
  }

  lemma RenderedText(header: string, pieces: seq<seq<string>>, tail: string, i: nat)
    requires i < |pieces|
    ensures var text := Rendered(header, pieces, tail)[i];
            && StartsWith(text, header + "\n")
            && Bodies(Rendered(header, pieces, tail), header, tail)[i] == Join(" ", pieces[i])
            && text == header + "\n" + Join(" ", pieces[i]) + (if i == |pieces| - 1 && tail != "" then "\n" + tail else "")
  {
    var body := Join(" ", pieces[i]);
    var end := if i == |pieces| - 1 && tail != "" then "\n" + tail else "";
    var text := header + "\n" + body + end;
    assert text[..|header| + 1] == header + "\n";
    assert text[|header| + 1..|text| - |end|] == body;
  }

  /** The texts of a long entity: each starts with the header, their bodies are the joined pieces of a
      packing that conserves the sentences, and the tail ends the last one. */
  ghost predicate Conserves(texts: seq<string>, header: string, sentences: seq<string>, tail: string,
                            budget: nat, overlap: nat, pieces: seq<seq<string>>)
  {
    && |texts| == |pieces| > 0
    && WellPacked(pieces, budget, overlap) && FreshSentences(pieces, overlap) == sentences
    && (forall i | 0 <= i < |texts| :: StartsWith(texts[i], header + "\n"))
    && (forall i | 0 <= i < |texts| :: Bodies(texts, header, tail)[i] == Join(" ", pieces[i]))
    && (forall i | 0 <= i < |texts| ::
          |texts[i]| == |header| + 1 + |Join(" ", pieces[i])| + (if i == |texts| - 1 && tail != "" then |tail| + 1 else 0))
    && (tail != "" ==> texts[|texts| - 1][|texts[|texts| - 1]| - |tail| - 1..] == "\n" + tail)
  }

  lemma SplitConserves(header: string, sentences: seq<string>, tail: string, target: int, overlap: nat)
      returns (pieces: seq<seq<string>>)
    requires sentences != []
    ensures Conserves(OversizedPieces(header, sentences, tail, target, overlap), header, sentences, tail,
                      Budget(header, target), overlap, pieces)
  {
    var budget := Budget(header, target);
    pieces := Pieces(sentences, budget, overlap);
    PackingConserves(sentences, budget, overlap);
    var texts := Rendered(header, pieces, tail);
    forall i | 0 <= i < |texts|
      ensures StartsWith(texts[i], header + "\n") && Bodies(texts, header, tail)[i] == Join(" ", pieces[i])
      ensures texts[i] == header + "\n" + Join(" ", pieces[i]) + (if i == |pieces| - 1 && tail != "" then "\n" + tail else "")
    {
      RenderedText(header, pieces, tail, i);
    }
    var last := texts[|texts| - 1];
    assert tail != "" ==> last == (header + "\n" + Join(" ", pieces[|texts| - 1])) + ("\n" + tail);
  }

  /** The tail goes with the last text only: without it, that text is what the body alone gives. */
  lemma TailEndsLast(header: string, sentences: seq<string>, tail: string, target: int, overlap: nat)
    requires sentences != [] && tail != ""
    ensures var texts := OversizedPieces(header, sentences, tail, target, overlap);
            var bare := OversizedPieces(header, sentences, "", target, overlap);
            var n := |texts| - 1;
            && |texts| == |bare| > 0
            && (forall i | 0 <= i < n :: texts[i] == bare[i])
            && texts[n] == bare[n] + "\n" + tail
  {
    var pieces := Pieces(sentences, Budget(header, target), overlap);
    PackingConserves(sentences, Budget(header, target), overlap);
    TailedLast(header, pieces, tail);
  }

  lemma TailedLast(header: string, pieces: seq<seq<string>>, tail: string)
    requires pieces != [] && tail != ""
    ensures var texts, bare := Rendered(header, pieces, tail), Rendered(header, pieces, "");
            var n := |texts| - 1;
            && |texts| == |bare| > 0
            && (forall i | 0 <= i < n :: texts[i] == bare[i])
            && texts[n] == bare[n] + "\n" + tail
  {
    var texts, bare := Rendered(header, pieces, tail), Rendered(header, pieces, "");
    forall i | 0 <= i < |texts|
      ensures texts[i] == bare[i] + (if i == |texts| - 1 then "\n" + tail else "")
    {
      RenderedText(header, pieces, tail, i);
      RenderedText(header, pieces, "", i);
    }
  }

  // ------------------------------------------------------------------ every sentence, in order

  /** Where each fresh sentence of a packing stands. */
  lemma {:induction false} FreshStands(pieces: seq<seq<string>>, overlap: nat, n: nat) returns (at: seq<nat>)
    requires n <= |pieces|
    ensures |at| == |FreshSentences(pieces[..n], overlap)|
    ensures forall k | 0 <= k < |at| :: at[k] < n && FreshSentences(pieces[..n], overlap)[k] in pieces[at[k]]
    ensures forall j, k | 0 <= j < k < |at| :: at[j] <= at[k]
  {
    if n == 0 {
      at := [];
    } else {
      var front := FreshStands(pieces, overlap, n - 1);
      var before := pieces[..n];
      assert before[..n - 1] == pieces[..n - 1];
      var r := Min(Repeated(before, overlap, n - 1), |before[n - 1]|);
      var own := before[n - 1][r..];
      at := front + seq(|own|, _ => n - 1);
      assert forall s | s in own :: s in pieces[n - 1];
    }
  }

  /** Every sentence occurs in the body of some text, and the order of the sentences is that of the
      texts. */
  ghost predicate InOrderIn(texts: seq<string>, sentences: seq<string>, at: seq<nat>) {
    && |at| == |sentences|
    && (forall k | 0 <= k < |at| :: at[k] < |texts| && Occurs(sentences[k], texts[at[k]]))
    && (forall j, k | 0 <= j < k < |at| :: at[j] <= at[k])
  }

  lemma MemberOccurs(pieces: seq<string>, s: string)
    requires s in pieces
    ensures Occurs(s, Join(" ", pieces))
  {
    var i :| 0 <= i < |pieces| && pieces[i] == s;
    JoinHas(" ", pieces, i);
  }

  lemma SentencesInOrder(header: string, sentences: seq<string>, tail: string, target: int, overlap: nat)
      returns (at: seq<nat>)
    requires sentences != []
    ensures InOrderIn(Bodies(OversizedPieces(header, sentences, tail, target, overlap), header, tail), sentences, at)
    ensures InOrderIn(OversizedPieces(header, sentences, tail, target, overlap), sentences, at)
  {
    var texts := OversizedPieces(header, sentences, tail, target, overlap);
    var pieces := SplitConserves(header, sentences, tail, target, overlap);
    at := FreshStands(pieces, overlap, |pieces|);
    assert pieces[..|pieces|] == pieces;
    forall k | 0 <= k < |at|
      ensures at[k] < |texts| && Occurs(sentences[k], Bodies(texts, header, tail)[at[k]])
      ensures Occurs(sentences[k], texts[at[k]])
    {
      MemberOccurs(pieces[at[k]], sentences[k]);
      BodyInText(texts[at[k]], header, if at[k] == |texts| - 1 && tail != "" then |tail| + 1 else 0, sentences[k]);
    }
  }

  lemma BodyInText(text: string, header: string, drop: nat, part: string)
    requires |header| + 1 + drop <= |text| && Occurs(part, Cut(text, header, drop))
    ensures Occurs(part, text)
  {
    var body := Cut(text, header, drop);
    OccursWider(part, body, text[..|header| + 1], text[|text| - drop..]);
    assert text == text[..|header| + 1] + body + text[|text| - drop..];
  }

  /** Without overlap the bodies, joined by spaces, are the sentences, joined by spaces. */
  lemma BodiesAreSentences(header: string, sentences: seq<string>, tail: string, target: int)
    requires sentences != []
    ensures Join(" ", Bodies(OversizedPieces(header, sentences, tail, target, 0), header, tail)) == Join(" ", sentences)
  {
    var texts := OversizedPieces(header, sentences, tail, target, 0);
    var pieces := SplitConserves(header, sentences, tail, target, 0);
    var bodies := Bodies(texts, header, tail);
    PiecesAreFull(pieces, Budget(header, target));
    PiecesJoin(pieces, |pieces|);
    assert pieces[..|pieces|] == pieces;
    assert bodies == seq(|pieces|, i requires 0 <= i < |pieces| => Join(" ", pieces[i]));
  }

  lemma PiecesAreFull(pieces: seq<seq<string>>, budget: nat)
    requires WellPacked(pieces, budget, 0)
    ensures forall i | 0 <= i < |pieces| :: pieces[i] != []
  {
    forall i | 0 <= i < |pieces|
      ensures pieces[i] != []
    {
      assert PieceOk(pieces, budget, 0, i);
    }
  }

  lemma {:induction false} PiecesJoin(pieces: seq<seq<string>>, n: nat)
    requires n <= |pieces| && forall i | 0 <= i < |pieces| :: pieces[i] != []
    ensures var own := FreshSentences(pieces[..n], 0);
            && Join(" ", seq(n, i requires 0 <= i < n => Join(" ", pieces[i]))) == Join(" ", own)
            && (n > 0 ==> own != [])
  {
    if n > 0 {
      PiecesJoin(pieces, n - 1);
      var before := pieces[..n];
      assert before[..n - 1] == pieces[..n - 1];
      var own := FreshSentences(pieces[..n - 1], 0);
      assert FreshSentences(before, 0) == own + pieces[n - 1];
      JoinBoth(" ", own, pieces[n - 1]);
      var bodies := seq(n, i requires 0 <= i < n => Join(" ", pieces[i]));
      assert bodies[..n - 1] == seq(n - 1, i requires 0 <= i < n - 1 => Join(" ", pieces[i]));
    }
  }

  // ------------------------------------------------------------------ one entity

  lemma {:induction false} NonEmptyOf(parts: seq<string>)
    ensures forall s :: s in NonEmpty(parts) <==> s in parts && s != ""
  {
    if parts != [] {
      NonEmptyOf(parts[..|parts| - 1]);
      assert parts == parts[..|parts| - 1] + [parts[|parts| - 1]];
    }
  }

  /** A short entity is one text with header, body and tail in it; a long one conserves its sentences. */
  lemma EntityConserves(header: string, body: string, tail: string, k: Settings)
    ensures var texts := EntityPieces(header, body, tail, k);
            && texts != []
            && (forall t | t in texts :: header != "" ==> StartsWith(t, header))
            && (tail != "" ==> Occurs(tail, texts[|texts| - 1]))
            && ((|texts| == 1 && Occurs(body, texts[0]))
                || exists at :: InOrderIn(texts, k.sentences(body), at))
            && (ApproxTokens(Join("\n", NonEmpty([header, body, tail]))) <= k.target ==> |texts| == 1)
  {
    var whole := Join("\n", NonEmpty([header, body, tail]));
    if ApproxTokens(whole) <= k.target {
      WholeHas(header, body, tail);
    } else if k.sentences(body) == [] {
      WholeHas(header, "", tail);
      NoBody(header, tail);
      assert InOrderIn([Join("\n", NonEmpty([header, tail]))], [], []);
    } else {
      LongHas(header, k.sentences(body), tail, k);
    }
  }

  lemma LongHas(header: string, sentences: seq<string>, tail: string, k: Settings)
    requires sentences != []
    ensures var texts := OversizedPieces(header, sentences, tail, k.target, k.overlap);
            && texts != [] && (forall t | t in texts :: StartsWith(t, header))
            && (tail != "" ==> Occurs(tail, texts[|texts| - 1]))
            && exists at :: InOrderIn(texts, sentences, at)
  {
    var at := SentencesInOrder(header, sentences, tail, k.target, k.overlap);
    var texts := OversizedPieces(header, sentences, tail, k.target, k.overlap);
    var pieces := SplitConserves(header, sentences, tail, k.target, k.overlap);
    forall t | t in texts
      ensures StartsWith(t, header)
    {
      var i :| 0 <= i < |texts| && texts[i] == t;
      assert StartsWith(texts[i], header + "\n");
    }
    if tail != "" {
      var last := texts[|texts| - 1];
      assert last[|last| - |tail|..|last|] == tail;
    }
  }

  lemma NoBody(header: string, tail: string)
    ensures NonEmpty([header, "", tail]) == NonEmpty([header, tail])
  {
    assert [header, "", tail][..2] == [header, ""] && [header, ""][..1] == [header] && [header][..0] == [];
    assert [header, tail][..1] == [header];
  }

  lemma WholeHas(header: string, body: string, tail: string)
    ensures var whole := Join("\n", NonEmpty([header, body, tail]));
            && (header != "" ==> StartsWith(whole, header))
            && Occurs(body, whole) && Occurs(tail, whole)
  {
    var parts := NonEmpty([header, body, tail]);
    NonEmptyOf([header, body, tail]);
    var whole := Join("\n", parts);
    if header != "" { FirstStarts(header, body, tail); }
    forall s | s in [body, tail]
      ensures Occurs(s, whole)
    {
      if s == "" {
        assert whole[0..0] == "";
      } else {
        assert s in [header, body, tail];
        var i :| 0 <= i < |parts| && parts[i] == s;
        JoinHas("\n", parts, i);
      }
    }
    assert body in [body, tail] && tail in [body, tail];
  }

  lemma FirstStarts(header: string, body: string, tail: string)
    requires header != ""
    ensures StartsWith(Join("\n", NonEmpty([header, body, tail])), header)
  {
    NonEmptyStarts([header, body, tail]);
    JoinHas("\n", NonEmpty([header, body, tail]), 0);
  }

  lemma {:induction false} NonEmptyStarts(parts: seq<string>)
    requires parts != [] && parts[0] != ""
    ensures NonEmpty(parts) != [] && NonEmpty(parts)[0] == parts[0]
  {
    if |parts| > 1 { NonEmptyStarts(parts[..|parts| - 1]); }
  }

  // ------------------------------------------------------------------ the index

  /** A stretch of the index. */
  ghost predicate StandsAt(all: Output, part: Output, at: nat) {
    && |part.chunks| == |part.extras| && at + |part.chunks| <= |all.chunks| && |all.chunks| == |all.extras|
    && all.chunks[at..at + |part.chunks|] == part.chunks && all.extras[at..at + |part.chunks|] == part.extras
  }

  lemma StandsBehind(a: Output, b: Output, part: Output, at: nat)
    requires |a.chunks| == |a.extras| && |b.chunks| == |b.extras|
    ensures StandsAt(a, part, at) ==> StandsAt(Both(a, b), part, at)
    ensures StandsAt(b, part, at) ==> StandsAt(Both(a, b), part, |a.chunks| + at)
  {
    var n := |part.chunks|;
    if StandsAt(a, part, at) {
      assert Both(a, b).chunks[at..at + n] == part.chunks && Both(a, b).extras[at..at + n] == part.extras;
    }
    if StandsAt(b, part, at) {
      var m := |a.chunks| + at;
      assert Both(a, b).chunks[m..m + n] == part.chunks && Both(a, b).extras[m..m + n] == part.extras;
    }
  }

  lemma StandsAlone(part: Output)
    requires |part.chunks| == |part.extras|
    ensures StandsAt(part, part, 0)
  {
    assert part.chunks[0..|part.chunks|] == part.chunks && part.extras[0..|part.extras|] == part.extras;
  }

  lemma {:induction false} ProjectStands(d: StructuredData, e: Enrichment, k: Settings, n: nat, i: nat) returns (at: nat)
    requires i < n <= |d.projects|
    ensures StandsAt(ProjectsOutput(d, e, k, n), ProjectOutput(d.projects[i], i, At(e.projects, i), k), at)
  {
    PartsHaveExtras(d, e, k, n - 1);
    var one := ProjectOutput(d.projects[n - 1], n - 1, At(e.projects, n - 1), k);
    if i == n - 1 {
      StandsAlone(one);
      StandsBehind(ProjectsOutput(d, e, k, n - 1), one, one, 0);
      at := |ProjectsOutput(d, e, k, n - 1).chunks| + 0;
    } else {
      at := ProjectStands(d, e, k, n - 1, i);
      StandsBehind(ProjectsOutput(d, e, k, n - 1), one, ProjectOutput(d.projects[i], i, At(e.projects, i), k), at);
    }
  }

  lemma {:induction false} ExperienceStands(d: StructuredData, e: Enrichment, k: Settings, n: nat, i: nat) returns (at: nat)
    requires i < n <= |d.experiences|
    ensures StandsAt(ExperiencesOutput(d, e, k, n), ExperienceOutput(d.experiences[i], i, HintsAt(e.experiences, i), k), at)
  {
    PartsHaveExtras(d, e, k, n - 1);
    var one := ExperienceOutput(d.experiences[n - 1], n - 1, HintsAt(e.experiences, n - 1), k);
    if i == n - 1 {
      StandsAlone(one);
      StandsBehind(ExperiencesOutput(d, e, k, n - 1), one, one, 0);
      at := |ExperiencesOutput(d, e, k, n - 1).chunks| + 0;
    } else {
      at := ExperienceStands(d, e, k, n - 1, i);
      StandsBehind(ExperiencesOutput(d, e, k, n - 1), one,
                   ExperienceOutput(d.experiences[i], i, HintsAt(e.experiences, i), k), at);
    }
  }

  lemma {:induction false} SkillStands(d: StructuredData, e: Enrichment, k: Settings, n: nat, i: nat) returns (at: nat)
    requires i < n <= |d.skills|
    ensures StandsAt(SkillsOutput(d, e, k, n), SkillOutput(d.skills[i], i, HintsAt(e.skills, i), k), at)
  {
    PartsHaveExtras(d, e, k, n - 1);
    var one := SkillOutput(d.skills[n - 1], n - 1, HintsAt(e.skills, n - 1), k);
    if i == n - 1 {
      StandsAlone(one);
      StandsBehind(SkillsOutput(d, e, k, n - 1), one, one, 0);
      at := |SkillsOutput(d, e, k, n - 1).chunks| + 0;
    } else {
      at := SkillStands(d, e, k, n - 1, i);
      StandsBehind(SkillsOutput(d, e, k, n - 1), one, SkillOutput(d.skills[i], i, HintsAt(e.skills, i), k), at);
    }
  }

  /** Where something stands in the whole index that stands at `at` in one of its three parts. */
  lemma InBuilt(d: StructuredData, e: Enrichment, k: Settings, part: Output, at: nat)
      returns (project: nat, experience: nat, skill: nat)
    ensures StandsAt(ProjectsOutput(d, e, k, |d.projects|), part, at) ==> StandsAt(Built(d, e, k), part, project)
    ensures StandsAt(ExperiencesOutput(d, e, k, |d.experiences|), part, at) ==> StandsAt(Built(d, e, k), part, experience)
    ensures StandsAt(SkillsOutput(d, e, k, |d.skills|), part, at) ==> StandsAt(Built(d, e, k), part, skill)
  {
    var a, b := ProjectsOutput(d, e, k, |d.projects|), ExperiencesOutput(d, e, k, |d.experiences|);
    var c := SkillsOutput(d, e, k, |d.skills|);
    PartsHaveExtras(d, e, k, |d.projects|);
    PartsHaveExtras(d, e, k, |d.experiences|);
    PartsHaveExtras(d, e, k, |d.skills|);
    project, experience, skill := at, |a.chunks| + at, |a.chunks| + |b.chunks| + at;
    ThreeParts(a, b, c, part, at);
  }

  lemma ThreeParts(a: Output, b: Output, c: Output, part: Output, at: nat)
    requires |a.chunks| == |a.extras| && |b.chunks| == |b.extras| && |c.chunks| == |c.extras|
    ensures StandsAt(a, part, at) ==> StandsAt(Both(Both(a, b), c), part, at)
    ensures StandsAt(b, part, at) ==> StandsAt(Both(Both(a, b), c), part, |a.chunks| + at)
    ensures StandsAt(c, part, at) ==> StandsAt(Both(Both(a, b), c), part, |a.chunks| + |b.chunks| + at)
  {
    StandsBehind(a, b, part, at);
    StandsBehind(Both(a, b), c, part, at);
    StandsBehind(Both(a, b), c, part, |a.chunks| + at);
  }

  // ------------------------------------------------------------------ what of a resume is in the index

  /** The chunk at position n belongs to this entity, under its name and the current version. */
  predicate ChunkOf(o: Output, n: nat, kind: ChunkType, index: nat, caption: string, k: Settings) {
    && n < |o.chunks| == |o.extras|
    && o.chunks[n].kind == kind && o.chunks[n].sourceIndex == index && o.chunks[n].caption == caption
    && o.chunks[n].version == k.version
  }

  /** It has this text, with these hints and no achievement. */
  predicate TextOf(o: Output, n: nat, text: string, kind: ChunkType, index: nat, caption: string, hints: Hints,
                   k: Settings)
  {
    ChunkOf(o, n, kind, index, caption, k) && o.chunks[n].content == text && o.extras[n] == Extra(None, hints)
  }

  /** The texts of this entity stand in a row in the index. */
  ghost predicate HasEntity(o: Output, texts: seq<string>, kind: ChunkType, index: nat, caption: string, hints: Hints,
                            k: Settings, at: nat)
  {
    forall n | 0 <= n < |texts| :: TextOf(o, at + n, texts[n], kind, index, caption, hints, k)
  }

  lemma EntityStands(o: Output, texts: seq<string>, kind: ChunkType, index: nat, caption: string, hints: Hints,
                     k: Settings, at: nat)
    requires StandsAt(o, Output(PieceChunks(texts, kind, index, caption, k), Same(|texts|, hints)), at)
    ensures HasEntity(o, texts, kind, index, caption, hints, k, at)
  {
    var cs, es := PieceChunks(texts, kind, index, caption, k), Same(|texts|, hints);
    forall n | 0 <= n < |texts|
      ensures TextOf(o, at + n, texts[n], kind, index, caption, hints, k)
    {
      assert o.chunks[at..at + |cs|][n] == cs[n] && o.extras[at..at + |cs|][n] == es[n];
    }
  }

  /** The texts of an entity: each starts with its header; its body is in one of them as it is, or
      sentence by sentence, in order, in them all; its last line ends the last. */
  ghost predicate Tells(texts: seq<string>, header: string, body: string, last: string, k: Settings) {
    && texts != []
    && (forall t | t in texts :: header != "" ==> StartsWith(t, header))
    && (last != "" ==> Occurs(last, texts[|texts| - 1]))
    && ((|texts| == 1 && Occurs(body, texts[0])) || exists at :: InOrderIn(texts, k.sentences(body), at))
  }

  /** Without achievements a project is in the index whole: name and role on every chunk, the
      description, and all its technologies. */
  lemma ProjectIsIndexed(d: StructuredData, e: Enrichment, k: Settings, i: nat)
      returns (texts: seq<string>, at: nat)
    requires i < |d.projects|
    requires d.projects[i] != Project("", "", "", [])
    requires i < |e.projects| ==> e.projects[i].achievements == []
    ensures HasEntity(Built(d, e, k), texts, ProjectChunk, i, d.projects[i].name, Hints([], [], []), k, at)
    ensures var p := d.projects[i];
            && Tells(texts, k.strip("[프로젝트] " + p.name) + (if p.role != "" then " · 역할 " + p.role else ""),
                     p.description, if p.techStacks != [] then "기술: " + Join(", ", p.techStacks) else "", k)
            && forall s | s in p.techStacks :: Occurs(s, texts[|texts| - 1])
  {
    var p := d.projects[i];
    texts := EntityPieces(ProjectHeader(p, k), p.description, TechLine(p), k);
    var o := ProjectOutput(p, i, At(e.projects, i), k);
    var m := ProjectStands(d, e, k, |d.projects|, i);
    var first, _, _ := InBuilt(d, e, k, o, m);
    at := first;
    EntityStands(Built(d, e, k), texts, ProjectChunk, i, p.name, NO_HINTS, k, at);
    ProjectTells(p, k);
  }

  lemma ProjectTells(p: Project, k: Settings)
    ensures var texts := EntityPieces(ProjectHeader(p, k), p.description, TechLine(p), k);
            && Tells(texts, ProjectHeader(p, k), p.description, TechLine(p), k)
            && forall s | s in p.techStacks :: Occurs(s, texts[|texts| - 1])
  {
    EntityConserves(ProjectHeader(p, k), p.description, TechLine(p), k);
    var texts := EntityPieces(ProjectHeader(p, k), p.description, TechLine(p), k);
    forall s | s in p.techStacks
      ensures Occurs(s, texts[|texts| - 1])
    {
      TechIn(p, s, texts[|texts| - 1]);
    }
  }

  lemma TechIn(p: Project, s: string, text: string)
    requires s in p.techStacks && Occurs(TechLine(p), text)
    ensures Occurs(s, text)
  {
    var j :| 0 <= j < |p.techStacks| && p.techStacks[j] == s;
    JoinHas(", ", p.techStacks, j);
    OccursWider(s, Join(", ", p.techStacks), TECH_LABEL, "");
    assert TECH_LABEL + Join(", ", p.techStacks) + "" == TechLine(p);
    OccursTrans(s, TechLine(p), text);
  }

  lemma OccursTrans(a: string, b: string, c: string)
    requires Occurs(a, b) && Occurs(b, c)
    ensures Occurs(a, c)
  {
    var i: nat, j: nat :| i <= j <= |c| && c[i..j] == b;
    OccursWider(a, b, c[..i], c[j..]);
    assert c == c[..i] + b + c[j..];
  }

  /** With achievements, each is a chunk of its own, with its text, the project's name, introduction and
      technologies, and with its own number and hints. */
  lemma AchievementIsIndexed(d: StructuredData, e: Enrichment, k: Settings, i: nat, j: nat) returns (n: nat)
    requires i < |d.projects| && d.projects[i] != Project("", "", "", [])
    requires i < |e.projects| && j < |e.projects[i].achievements|
    ensures var o := Built(d, e, k); var p := d.projects[i]; var x := e.projects[i].achievements[j];
            && ChunkOf(o, n, ProjectChunk, i, p.name, k) && o.extras[n] == Extra(Some(j), x.hints)
            && StartsWith(o.chunks[n].content,
                          k.strip("[프로젝트] " + p.name) + (if p.role != "" then " · 역할 " + p.role else ""))
            && Occurs(x.text, o.chunks[n].content)
            && Occurs(k.strip(e.projects[i].intro), o.chunks[n].content)
            && forall s | s in p.techStacks :: Occurs(s, o.chunks[n].content)
  {
    var p, a := d.projects[i], e.projects[i];
    var part := ProjectOutput(p, i, Some(a), k);
    var at := ProjectStands(d, e, k, |d.projects|, i);
    var m, _, _ := InBuilt(d, e, k, part, at);
    var o := Built(d, e, k);
    n := m + j;
    assert o.chunks[m..m + |part.chunks|][j] == part.chunks[j] && o.extras[m..m + |part.chunks|][j] == part.extras[j];
    AchievementTells(p, k.strip(a.intro), a.achievements[j].text, k);
  }

  lemma AchievementTells(p: Project, intro: string, text: string, k: Settings)
    ensures var c := AchievementContent(p, intro, text, k);
            && StartsWith(c, ProjectHeader(p, k)) && Occurs(text, c) && Occurs(intro, c)
            && forall s | s in p.techStacks :: Occurs(s, c)
  {
    var parts := [ProjectHeader(p, k)] + (if intro != "" then [intro] else []) + [text]
                 + (if TechLine(p) != "" then [TechLine(p)] else []);
    var c := AchievementContent(p, intro, text, k);
    JoinHas("\n", parts, 0);
    forall s | s in parts || s == ""
      ensures Occurs(s, c)
    {
      if s == "" {
        assert c[0..0] == "";
      } else {
        var i :| 0 <= i < |parts| && parts[i] == s;
        JoinHas("\n", parts, i);
      }
    }
    assert text in parts && (intro != "" ==> intro in parts);
    forall s | s in p.techStacks
      ensures Occurs(s, c)
    {
      assert TechLine(p) != "" && TechLine(p) in parts;
      TechIn(p, s, c);
    }
  }

  /** The same of an experience, with its hints. */
  lemma ExperienceIsIndexed(d: StructuredData, e: Enrichment, k: Settings, i: nat)
      returns (texts: seq<string>, at: nat)
    requires i < |d.experiences| && d.experiences[i] != Experience("", "")
    ensures HasEntity(Built(d, e, k), texts, ExperienceChunk, i, d.experiences[i].title,
                      if i < |e.experiences| then e.experiences[i] else Hints([], [], []), k, at)
    ensures Tells(texts, k.strip("[경력] " + d.experiences[i].title), d.experiences[i].description, "", k)
  {
    var x := d.experiences[i];
    texts := EntityPieces(ExperienceHeader(x, k), x.description, "", k);
    var o := ExperienceOutput(x, i, HintsAt(e.experiences, i), k);
    var m := ExperienceStands(d, e, k, |d.experiences|, i);
    var _, second, _ := InBuilt(d, e, k, o, m);
    at := second;
    EntityStands(Built(d, e, k), texts, ExperienceChunk, i, x.title, HintsAt(e.experiences, i), k, at);
    EntityConserves(ExperienceHeader(x, k), x.description, "", k);
  }

  /** A skill category with items is one chunk that names the category and all its items. */
  lemma SkillIsIndexed(d: StructuredData, e: Enrichment, k: Settings, i: nat) returns (n: nat)
    requires i < |d.skills| && d.skills[i].items != []
    ensures var o := Built(d, e, k); var s := d.skills[i];
            && ChunkOf(o, n, SkillChunk, i, s.category, k)
            && o.extras[n] == Extra(None, if i < |e.skills| then e.skills[i] else Hints([], [], []))
            && StartsWith(o.chunks[n].content, "[스킬] " + s.category + ": ")
            && forall x | x in s.items :: Occurs(x, o.chunks[n].content)
  {
    var s := d.skills[i];
    var part := SkillOutput(s, i, HintsAt(e.skills, i), k);
    var at := SkillStands(d, e, k, |d.skills|, i);
    var _, _, third := InBuilt(d, e, k, part, at);
    var o := Built(d, e, k);
    n := third;
    assert o.chunks[n..n + 1][0] == part.chunks[0] && o.extras[n..n + 1][0] == part.extras[0];
    var before := SKILL_LABEL + s.category + ": ";
    assert SkillContent(s) == before + Join(", ", s.items) + "";
    forall x | x in s.items
      ensures Occurs(x, SkillContent(s))
    {
      var j :| 0 <= j < |s.items| && s.items[j] == x;
      JoinHas(", ", s.items, j);
      OccursWider(x, Join(", ", s.items), before, "");
    }
  }
}
