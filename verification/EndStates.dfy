/** The forward-only end state: phases, the cause of ending, and the single transition. */
module EndStates {
  import opened Wrappers

  datatype EndPhase = RUNNING | WAITING_FINAL_ANSWER | CLOSING | CLEANING | CLOSED
  datatype EndCause = FINAL_QUESTION | LLM_END | HARD_TIMEOUT | USER_REQUEST | RECONNECT_TIMEOUT | RECOVERED_CLOSING

  datatype AdvanceError = CauseRequired | CauseForbidden | SkipsClosing

  /** The value a phase has; a larger one is further along. */
  function Rank(p: EndPhase): nat {
    match p
    case RUNNING => 0 case WAITING_FINAL_ANSWER => 1 case CLOSING => 2 case CLEANING => 3 case CLOSED => 4
  }

  datatype End = End(phase: EndPhase, cause: Option<EndCause>)

  datatype Request = Request(to: EndPhase, cause: Option<EndCause>)

  function Judge(e: End, q: Request): Result<bool, AdvanceError> {
    if q.to == CLOSING && q.cause.None? then Err(CauseRequired)
    else if q.to != CLOSING && q.cause.Some? then Err(CauseForbidden)
    else if Rank(q.to) <= Rank(e.phase) then Ok(false)
    else if Rank(q.to) > Rank(CLOSING) && Rank(e.phase) < Rank(CLOSING) then Err(SkipsClosing)
    else Ok(true)
  }

  function Advanced(e: End, q: Request): End {
    if Judge(e, q) == Ok(true) then End(q.to, if q.to == CLOSING then q.cause else e.cause) else e
  }

  class EndState {
    var phase: EndPhase
    var cause: Option<EndCause>

    constructor ()
      ensures View() == End(RUNNING, None)
    {
      phase, cause := RUNNING, None;
    }

    function View(): End
      reads this
    {
      End(phase, cause)
    }

    method TryAdvance(to: EndPhase, withCause: Option<EndCause>) returns (r: Result<bool, AdvanceError>)
      modifies this
      ensures r == Judge(old(View()), Request(to, withCause))
      ensures View() == Advanced(old(View()), Request(to, withCause))
    {
      if to == CLOSING && withCause == None { return Err(CauseRequired); }
      if to != CLOSING && withCause != None { return Err(CauseForbidden); }
      if Rank(to) <= Rank(phase) { return Ok(false); }
      if Rank(to) > Rank(CLOSING) && Rank(phase) < Rank(CLOSING) { return Err(SkipsClosing); }
      phase := to;
      if to == CLOSING { cause := withCause; }
      return Ok(true);
    }
  }

  // ------------------------------------------------------------------ every sequence of requests

  function AfterAll(e: End, qs: seq<Request>): End {
    if qs == [] then e else Advanced(AfterAll(e, qs[..|qs| - 1]), qs[|qs| - 1])
  }

  /** How often a request for a phase was answered True. */
  function Wins(e: End, qs: seq<Request>, to: EndPhase): nat {
    if qs == [] then 0 else
    Wins(e, qs[..|qs| - 1], to)
    + (if qs[|qs| - 1].to == to && Judge(AfterAll(e, qs[..|qs| - 1]), qs[|qs| - 1]) == Ok(true) then 1 else 0)
  }

  /** A cause exists exactly from CLOSING on. */
  predicate Consistent(e: End) {
    e.cause.Some? <==> Rank(e.phase) >= Rank(CLOSING)
  }

  /** Whatever is requested, in whatever order, each phase is won at most once, the phase never
      falls, and the cause, once fixed, is the one that won CLOSING. */
  lemma {:induction false} EachPhaseWonOnce(e: End, qs: seq<Request>, to: EndPhase)
    requires Consistent(e)
    ensures Consistent(AfterAll(e, qs))
    ensures Rank(e.phase) <= Rank(AfterAll(e, qs).phase)
    ensures Wins(e, qs, to) <= (if Rank(to) <= Rank(e.phase) then 0 else 1)
    ensures Wins(e, qs, to) == 1 ==> Rank(to) <= Rank(AfterAll(e, qs).phase)
    ensures e.cause.Some? ==> AfterAll(e, qs).cause == e.cause
  {
    if qs != [] {
      EachPhaseWonOnce(e, qs[..|qs| - 1], to);
    }
  }

  /** First wins: the cause that survives is that of the earliest request that won CLOSING. */
  lemma {:induction false} FirstCauseStands(e: End, before: seq<Request>, q: Request, after: seq<Request>)
    requires Consistent(e)
    requires q.to == CLOSING && Judge(AfterAll(e, before), q) == Ok(true)
    ensures AfterAll(e, before + [q] + after).cause == q.cause
    decreases |after|
  {
    EachPhaseWonOnce(e, before, CLOSING);
    var all := before + [q] + after;
    if after == [] {
      assert all[..|all| - 1] == before;
    } else {
      FirstCauseStands(e, before, q, after[..|after| - 1]);
      assert all[..|all| - 1] == before + [q] + after[..|after| - 1];
      EachPhaseWonOnce(e, all[..|all| - 1], CLOSING);
    }
  }

  /** What a request achieves: one that is not misused leaves the end state at least as far along as it
      asked, and won if it had to move for it; a misused one changes nothing. Misuse is a cause for
      anything but CLOSING, none for CLOSING, or going past CLOSING without having been there. */
  lemma RequestIsHonoured(e: End, q: Request)
    ensures Judge(e, q).Err? <==>
              || (q.cause.Some? <==> q.to != CLOSING)
              || ((e.phase.RUNNING? || e.phase.WAITING_FINAL_ANSWER?) && (q.to.CLEANING? || q.to.CLOSED?))
    ensures Judge(e, q).Ok? ==> Rank(Advanced(e, q).phase) == Max(Rank(e.phase), Rank(q.to))
    ensures Judge(e, q).Ok? ==> (Judge(e, q).value <==> Advanced(e, q).phase != e.phase)
    ensures Judge(e, q).Err? ==> Advanced(e, q) == e
  {
    SamePlace(e.phase, q.to);
  }

  lemma SamePlace(p: EndPhase, q: EndPhase)
    ensures Rank(p) == Rank(q) <==> p == q
  {
  }
}
