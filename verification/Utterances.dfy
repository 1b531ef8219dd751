/** Transcript utterances: the schema their constructor enforces and their JSON form. */
module Utterances {
  import opened Wrappers

  datatype Speaker = Interviewer | Candidate
  datatype QuestionType = Initial | Topic | FollowUp | Final | Closing
  datatype FollowUpType = Deepen | Concrete | Verify | Boundary | Consistency

  /** An instant in microseconds; `offset` is None for a naive datetime. */
  datatype Time = Time(micros: int, offset: Option<int>)

  datatype Utterance = Utterance(
    questionNumber: Option<int>,
    parent: Option<int>,
    speaker: Speaker,
    content: string,
    spokenAt: Time,
    questionType: Option<QuestionType>,
    followUpType: Option<FollowUpType>,
    reason: Option<string>,
    ref: Option<int>)

  datatype SchemaError =
    | EmptyContent | NotUtc | BadClosing | MissingNumber | BadNumber
    | CandidateMetadata | MissingType | BadFollowUp | BadRoot | BadReference

  function Utc(micros: int): Time {
    Time(micros, Some(0))
  }

  /** The first rule the constructor finds broken, in the order it looks. */
  function Violation(u: Utterance): Option<SchemaError> {
    if u.content == "" then Some(EmptyContent)
    else if u.spokenAt.offset != Some(0) then Some(NotUtc)
    else if u.questionType == Some(Closing) then
      if u.speaker.Candidate? || u.questionNumber.Some? || u.parent.Some?
         || u.followUpType.Some? || u.ref.Some?
      then Some(BadClosing) else None
    else if u.questionNumber.None? || u.parent.None? then Some(MissingNumber)
    else if u.questionNumber.value < 1 then Some(BadNumber)
    else if u.speaker.Candidate? then
      if u.questionType.Some? || u.followUpType.Some? || u.reason.Some? || u.ref.Some?
      then Some(CandidateMetadata) else None
    else if u.questionType.None? then Some(MissingType)
    else if u.questionType == Some(FollowUp) &&
            (u.parent.value >= u.questionNumber.value || u.followUpType.None?) then Some(BadFollowUp)
    else if u.questionType != Some(FollowUp) &&
            (u.parent != u.questionNumber || u.followUpType.Some?
             || (u.questionType == Some(Initial) && u.reason.Some?)) then Some(BadRoot)
    else if u.followUpType == Some(Consistency) && u.ref.None? then Some(BadReference)
    else if u.followUpType != Some(Consistency) && u.ref.Some? then Some(BadReference)
    else None
  }

  predicate Valid(u: Utterance) {
    Violation(u).None?
  }

  /** The constructor: an utterance that breaks no rule, or the rule it breaks. */
  function Make(u: Utterance): (r: Result<Utterance, SchemaError>)
    ensures r.Ok? <==> Valid(u)
    ensures r.Ok? ==> r.value == u
  {
    match Violation(u)
    case Some(e) => Err(e)
    case None => Ok(u)
  }

  // ------------------------------------------------------------------ JSON

  datatype Key =
    | QuestionNumberKey | ParentQuestionNumberKey | SpeakerKey | QuestionTypeKey
    | FollowUpTypeKey | ReasonKey | RefQuestionNumberKey | ContentKey | SpokenAtKey

  /** A JSON value; `Stamp` is a string that parses as an ISO-8601 timestamp. */
  datatype Json = Null | Num(n: int) | Str(s: string) | Stamp(at: Time)

  type Dict = map<Key, Json>

  const SECOND := 1_000_000

  /** Timestamps are written with whole seconds only. */
  function WholeSeconds(t: Time): Time {
    t.(micros := (t.micros / SECOND) * SECOND)
  }

  function SpeakerName(s: Speaker): string {
    match s case Interviewer => "INTERVIEWER" case Candidate => "CANDIDATE"
  }

  function QuestionTypeName(q: QuestionType): string {
    match q
    case Initial => "initial" case Topic => "topic" case FollowUp => "followup"
    case Final => "final" case Closing => "closing"
  }

  function FollowUpTypeName(f: FollowUpType): string {
    match f
    case Deepen => "DEEPEN" case Concrete => "CONCRETE" case Verify => "VERIFY"
    case Boundary => "BOUNDARY" case Consistency => "CONSISTENCY"
  }

  function SpeakerOf(s: string): Option<Speaker> {
    if s == "INTERVIEWER" then Some(Interviewer)
    else if s == "CANDIDATE" then Some(Candidate)
    else None
  }

  function QuestionTypeOf(s: string): Option<QuestionType> {
    if s == "initial" then Some(Initial)
    else if s == "topic" then Some(Topic)
    else if s == "followup" then Some(FollowUp)
    else if s == "final" then Some(Final)
    else if s == "closing" then Some(Closing)
    else None
  }

  function FollowUpTypeOf(s: string): Option<FollowUpType> {
    if s == "DEEPEN" then Some(Deepen)
    else if s == "CONCRETE" then Some(Concrete)
    else if s == "VERIFY" then Some(Verify)
    else if s == "BOUNDARY" then Some(Boundary)
    else if s == "CONSISTENCY" then Some(Consistency)
    else None
  }

  function NumOf(n: Option<int>): Option<Json> {
    if n.Some? then Some(Num(n.value)) else None
  }

  function TextOf(s: Option<string>): Option<Json> {
    if s.Some? then Some(Str(s.value)) else None
  }

  /** What is written under a key, if anything. */
  function Entry(u: Utterance, k: Key): Option<Json> {
    match k
    case QuestionNumberKey => NumOf(u.questionNumber)
    case ParentQuestionNumberKey => NumOf(u.parent)
    case SpeakerKey => Some(Str(SpeakerName(u.speaker)))
    case QuestionTypeKey =>
      if u.questionType.Some? then Some(Str(QuestionTypeName(u.questionType.value))) else None
    case FollowUpTypeKey =>
      if u.followUpType.Some? then Some(Str(FollowUpTypeName(u.followUpType.value))) else None
    case ReasonKey => TextOf(u.reason)
    case RefQuestionNumberKey => NumOf(u.ref)
    case ContentKey => Some(Str(u.content))
    case SpokenAtKey => Some(Stamp(WholeSeconds(u.spokenAt)))
  }

  /** Serialisation: a field that does not apply is left out, never written as null. */
  function ToJson(u: Utterance): (d: Dict)
    ensures forall k | k in d :: d[k] != Null
  {
    map k: Key | Entry(u, k).Some? :: Entry(u, k).value
  }

  datatype ParseError = BadField(key: Key) | BadSchema(error: SchemaError)

  function Lookup(d: Dict, k: Key): Json {
    if k in d then d[k] else Null
  }

  function ReadNum(d: Dict, k: Key): Result<Option<int>, ParseError> {
    match Lookup(d, k)
    case Null => Ok(None)
    case Num(n) => Ok(Some(n))
    case _ => Err(BadField(k))
  }

  function ReadText(d: Dict, k: Key): Result<Option<string>, ParseError> {
    match Lookup(d, k)
    case Null => Ok(None)
    case Str(s) => Ok(Some(s))
    case _ => Err(BadField(k))
  }

  /** Enumerated fields: an empty string counts as absent, an unknown one is an error. */
  function ReadName<T>(d: Dict, k: Key, parse: string -> Option<T>): Result<Option<T>, ParseError> {
    match ReadText(d, k)
    case Err(e) => Err(e)
    case Ok(None) => Ok(None)
    case Ok(Some(s)) =>
      if s == "" then Ok(None)
      else if parse(s).Some? then Ok(parse(s))
      else Err(BadField(k))
  }

  /** The inverse of ToJson: anything the schema refuses is an error. */
  function FromJson(d: Dict): (r: Result<Utterance, ParseError>)
    ensures r.Ok? ==> Valid(r.value)
  {
    if !Lookup(d, SpokenAtKey).Stamp? then Err(BadField(SpokenAtKey)) else
    var speaker := ReadName(d, SpeakerKey, SpeakerOf);
    if speaker.Err? || speaker.value.None? then Err(BadField(SpeakerKey)) else
    var number := ReadNum(d, QuestionNumberKey);
    if number.Err? then Err(number.error) else
    var parent := ReadNum(d, ParentQuestionNumberKey);
    if parent.Err? then Err(parent.error) else
    var content := ReadText(d, ContentKey);
    if content.Err? then Err(content.error) else
    var questionType := ReadName(d, QuestionTypeKey, QuestionTypeOf);
    if questionType.Err? then Err(questionType.error) else
    var followUpType := ReadName(d, FollowUpTypeKey, FollowUpTypeOf);
    if followUpType.Err? then Err(followUpType.error) else
    var reason := ReadText(d, ReasonKey);
    if reason.Err? then Err(reason.error) else
    var ref := ReadNum(d, RefQuestionNumberKey);
    if ref.Err? then Err(ref.error) else
    match Make(Utterance(
      number.value, parent.value, speaker.value.value,
      if content.value.Some? then content.value.value else "",
      d[SpokenAtKey].at, questionType.value, followUpType.value, reason.value, ref.value))
    case Ok(u) => Ok(u)
    case Err(e) => Err(BadSchema(e))
  }

  lemma SpeakerParses(s: Speaker)
    ensures SpeakerName(s) != "" && SpeakerOf(SpeakerName(s)) == Some(s)
  {
  }

  lemma QuestionTypeParses(q: QuestionType)
    ensures QuestionTypeName(q) != "" && QuestionTypeOf(QuestionTypeName(q)) == Some(q)
  {
    assert "topic"[0] != "final"[0];
  }

  lemma FollowUpTypeParses(f: FollowUpType)
    ensures FollowUpTypeName(f) != "" && FollowUpTypeOf(FollowUpTypeName(f)) == Some(f)
  {
    assert "DEEPEN"[0] != "VERIFY"[0];
    assert "CONCRETE"[0] != "BOUNDARY"[0];
  }

  lemma NamesReadBack(u: Utterance)
    ensures ReadName(ToJson(u), SpeakerKey, SpeakerOf) == Ok(Some(u.speaker))
    ensures ReadName(ToJson(u), QuestionTypeKey, QuestionTypeOf) == Ok(u.questionType)
    ensures ReadName(ToJson(u), FollowUpTypeKey, FollowUpTypeOf) == Ok(u.followUpType)
  {
    SpeakerParses(u.speaker);
    if u.questionType.Some? { QuestionTypeParses(u.questionType.value); }
    if u.followUpType.Some? { FollowUpTypeParses(u.followUpType.value); }
  }

  /** What the Redis copy gives back is the utterance itself, with its time cut to whole seconds. */
  lemma RoundTrip(u: Utterance)
    requires Valid(u)
    ensures FromJson(ToJson(u)) == Ok(u.(spokenAt := WholeSeconds(u.spokenAt)))
  {
    NamesReadBack(u);
    assert Violation(u.(spokenAt := WholeSeconds(u.spokenAt))) == Violation(u);
  }

  // ------------------------------------------------------------------ what is accepted

  /** The schema by what an utterance is: a closing remark, an answer or a question. */
  ghost predicate ObeysSchema(u: Utterance) {
    && u.content != "" && u.spokenAt.offset == Some(0)
    && (u.questionType == Some(Closing) ==>
          u.speaker.Interviewer? && u.questionNumber.None? && u.parent.None? && u.followUpType.None? && u.ref.None?)
    && (u.questionType != Some(Closing) ==> u.questionNumber.Some? && u.parent.Some? && u.questionNumber.value >= 1)
    && (u.questionType.None? ==> u.speaker.Candidate? && u.followUpType.None? && u.reason.None? && u.ref.None?)
    && (u.questionType.Some? ==> u.speaker.Interviewer?)
    && (u.questionType == Some(FollowUp) ==>
          && u.followUpType.Some? && u.parent.value < u.questionNumber.value
          && (u.ref.Some? <==> u.followUpType == Some(Consistency)))
    && (u.questionType == Some(Initial) || u.questionType == Some(Topic) || u.questionType == Some(Final) ==>
          u.parent == u.questionNumber && u.followUpType.None? && u.ref.None?)
    && (u.questionType == Some(Initial) ==> u.reason.None?)
  }

  /** Looking for broken rules one after the other accepts exactly what obeys the schema. */
  lemma ValidMeans(u: Utterance)
    ensures Valid(u) <==> ObeysSchema(u)
  {
    if u.questionType.Some? {
      match u.questionType.value
      case Initial =>
      case Topic =>
      case FollowUp =>
      case Final =>
      case Closing =>
    }
  }

  predicate IsName(k: Key) {
    k == SpeakerKey || k == QuestionTypeKey || k == FollowUpTypeKey
  }

  /** What a dictionary says under a key: null is nothing, and so is an empty name. */
  function SaidUnder(d: Dict, k: Key): Option<Json> {
    if Lookup(d, k) == Null || (IsName(k) && Lookup(d, k) == Str("")) then None else Some(Lookup(d, k))
  }

  /** The dictionary spells out this utterance, with a timestamp of any precision. */
  ghost predicate Spells(d: Dict, u: Utterance) {
    && Lookup(d, SpokenAtKey) == Stamp(u.spokenAt)
    && forall k: Key | k != SpokenAtKey :: SaidUnder(d, k) == Entry(u, k)
  }

  lemma NumSpelled(d: Dict, k: Key, n: Option<int>)
    requires !IsName(k)
    ensures ReadNum(d, k) == Ok(n) <==> SaidUnder(d, k) == NumOf(n)
  {
  }

  lemma TextSpelled(d: Dict, k: Key, s: Option<string>)
    requires !IsName(k)
    ensures ReadText(d, k) == Ok(s) <==> SaidUnder(d, k) == TextOf(s)
  {
  }

  lemma SpeakerSpelled(d: Dict, s: Speaker)
    ensures ReadName(d, SpeakerKey, SpeakerOf) == Ok(Some(s)) <==> SaidUnder(d, SpeakerKey) == Some(Str(SpeakerName(s)))
  {
    SpeakerParses(s);
  }

  lemma QuestionTypeSpelled(d: Dict, u: Utterance)
    ensures ReadName(d, QuestionTypeKey, QuestionTypeOf) == Ok(u.questionType) <==>
              SaidUnder(d, QuestionTypeKey) == Entry(u, QuestionTypeKey)
  {
    if u.questionType.Some? { QuestionTypeParses(u.questionType.value); }
  }

  lemma FollowUpTypeSpelled(d: Dict, u: Utterance)
    ensures ReadName(d, FollowUpTypeKey, FollowUpTypeOf) == Ok(u.followUpType) <==>
              SaidUnder(d, FollowUpTypeKey) == Entry(u, FollowUpTypeKey)
  {
    if u.followUpType.Some? { FollowUpTypeParses(u.followUpType.value); }
  }

  /** Reading accepts exactly the dictionaries that spell out a valid utterance, and gives that one. */
  lemma ReadsWhatIsSpelled(d: Dict, u: Utterance)
    ensures FromJson(d) == Ok(u) <==> Valid(u) && Spells(d, u)
  {
    SpeakerSpelled(d, u.speaker);
    QuestionTypeSpelled(d, u);
    FollowUpTypeSpelled(d, u);
    NumSpelled(d, QuestionNumberKey, u.questionNumber);
    NumSpelled(d, ParentQuestionNumberKey, u.parent);
    NumSpelled(d, RefQuestionNumberKey, u.ref);
    TextSpelled(d, ReasonKey, u.reason);
    TextSpelled(d, ContentKey, Some(u.content));
  }
}
