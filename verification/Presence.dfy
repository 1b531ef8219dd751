/** Departures and re-entries of the candidate: the reconnect window, its timer and the durable
    deadline, whose store operations run one at a time in the order they were issued. */
module Presence {
  import opened Wrappers
  import opened EndStates

  datatype Op = Record(deadline: int) | Clear

  /** `watches` holds the live timer tasks and the deadline each waits for; `watch` is the task the
      monitor remembers. The last four fields are history. */
  datatype Monitor = Monitor(
    candidate: string,
    window: int,
    present: bool,
    leftAt: Option<int>,
    epoch: nat,
    closed: bool,
    queue: seq<Op>,
    stored: Option<int>,
    watches: map<nat, int>,
    watch: Option<nat>,
    nextWatch: nat,
    failed: bool,                // the newest store operation failed
    invalidations: nat,          // turns invalidated
    resumes: nat,                // resumptions started
    fired: seq<nat>)             // departures whose window ran out

  datatype Event =
    | Disconnected(identity: string, now: int)
    | Connected(identity: string, now: int)
    | StoreDone(ok: bool)                          // the oldest store operation ends
    | WatchWakes(id: nat, now: int, hardExceeded: bool)
    | Close(landed: bool)                          // the operation under way may still land

  function Applied(op: Op): Option<int> {
    match op case Record(d) => Some(d) case Clear => None
  }

  /** What the store holds once the queue has drained. */
  function Drained(queue: seq<Op>, stored: Option<int>): Option<int> {
    if queue == [] then stored else Applied(queue[|queue| - 1])
  }

  function CancelWatch(m: Monitor): Monitor {
    m.(watches := if m.watch.Some? then m.watches - {m.watch.value} else m.watches, watch := None)
  }

  function StartWatch(m: Monitor, deadline: int): Monitor {
    m.(watches := m.watches[m.nextWatch := deadline], watch := Some(m.nextWatch), nextWatch := m.nextWatch + 1)
  }

  function Left(m: Monitor, now: int): Monitor {
    m.(present := false, epoch := m.epoch + 1, leftAt := Some(now), invalidations := m.invalidations + 1,
       queue := m.queue + [Record(now + m.window)], failed := false)
  }

  function OnDisconnected(m: Monitor, identity: string, now: int): Monitor {
    if m.closed || identity != m.candidate || !m.present then m
    else StartWatch(CancelWatch(Left(m, now)), now + m.window)
  }

  function OnConnected(m: Monitor, identity: string): Monitor {
    if m.closed || identity != m.candidate || m.present then m
    else
      CancelWatch(m.(present := true)).(queue := m.queue + [Clear], failed := false, resumes := m.resumes + 1)
  }

  function OnStoreDone(m: Monitor, ok: bool): Monitor {
    if m.queue == [] then m
    else m.(queue := m.queue[1..], stored := if ok then Applied(m.queue[0]) else m.stored,
            failed := m.failed || (!ok && |m.queue| == 1))
  }

  /** Whether the timer, when woken, finds its deadline reached. */
  predicate Fires(m: Monitor, id: nat, now: int) {
    id in m.watches && now >= m.watches[id]
  }

  function OnWatchWakes(m: Monitor, id: nat, now: int): Monitor {
    if !Fires(m, id, now) then m
    else m.(watches := m.watches - {id}, fired := m.fired + [m.epoch])
  }

  function OnClose(m: Monitor, landed: bool): Monitor {
    if m.closed then m
    else CancelWatch(m).(closed := true, queue := [],
                         stored := if landed && m.queue != [] then Applied(m.queue[0]) else m.stored)
  }

  function Step(m: Monitor, e: Event): Monitor {
    match e
    case Disconnected(identity, now) => OnDisconnected(m, identity, now)
    case Connected(identity, _) => OnConnected(m, identity)
    case StoreDone(ok) => OnStoreDone(m, ok)
    case WatchWakes(id, now, _) => OnWatchWakes(m, id, now)
    case Close(landed) => OnClose(m, landed)
  }

  function Exec(m: Monitor, es: seq<Event>): Monitor {
    if es == [] then m else Step(Exec(m, es[..|es| - 1]), es[|es| - 1])
  }

  /** The monitor is armed while the candidate is in the room and no deadline is stored. */
  function Armed(candidate: string, window: int): Monitor {
    Monitor(candidate, window, true, None, 0, false, [], None, map[], None, 0, false, 0, 0, [])
  }

  // ------------------------------------------------------------------ the object

  class PresenceMonitor {
    const candidate: string
    const window: int
    var present: bool
    var leftAt: Option<int>
    var epoch: nat
    var closed: bool
    var queue: seq<Op>
    var stored: Option<int>
    var watches: map<nat, int>
    var watch: Option<nat>
    var nextWatch: nat
    ghost var failed: bool
    ghost var invalidations: nat
    ghost var resumes: nat
    ghost var fired: seq<nat>

    constructor (candidate: string, window: int)
      ensures View() == Armed(candidate, window)
    {
      this.candidate, this.window := candidate, window;
      present, leftAt, epoch, closed, queue, stored := true, None, 0, false, [], None;
      watches, watch, nextWatch := map[], None, 0;
      failed, invalidations, resumes, fired := false, 0, 0, [];
    }

    ghost function View(): Monitor
      reads this
    {
      Monitor(candidate, window, present, leftAt, epoch, closed, queue, stored, watches, watch, nextWatch,
              failed, invalidations, resumes, fired)
    }

    method StopWatch()
      modifies this`watches, this`watch
      ensures View() == CancelWatch(old(View()))
    {
      if watch.Some? { watches := watches - {watch.value}; }
      watch := None;
    }

    method BeginWatch(deadline: int)
      modifies this`watches, this`watch, this`nextWatch
      ensures View() == StartWatch(old(View()), deadline)
    {
      watches, watch, nextWatch := watches[nextWatch := deadline], Some(nextWatch), nextWatch + 1;
    }

    method NoteDeparture(now: int)
      modifies this
      ensures View() == Left(old(View()), now)
    {
      present := false;
      epoch := epoch + 1;
      leftAt := Some(now);
      invalidations := invalidations + 1;
      queue, failed := queue + [Record(now + window)], false;
    }

    method OnParticipantDisconnected(identity: string, now: int)
      modifies this
      ensures View() == Step(old(View()), Disconnected(identity, now))
    {
      if closed { return; }
      if identity != candidate { return; }
      if !present { return; }
      NoteDeparture(now);
      StopWatch();
      BeginWatch(now + window);
    }

    method OnParticipantConnected(identity: string, now: int)
      modifies this
      ensures View() == Step(old(View()), Connected(identity, now))
    {
      if closed { return; }
      if identity != candidate { return; }
      if present { return; }
      present := true;
      StopWatch();
      queue, failed := queue + [Clear], false;
      resumes := resumes + 1;
    }

    /** A timer wakes: it goes back to sleep, or asks for the closing. */
    method WatchWoken(id: nat, now: int, hardExceeded: bool) returns (closing: Option<EndCause>)
      modifies this
      ensures View() == Step(old(View()), WatchWakes(id, now, hardExceeded))
      ensures closing.Some? <==> id in old(watches) && now >= old(watches)[id]
      ensures closing.Some? ==> closing.value == if hardExceeded then HARD_TIMEOUT else RECONNECT_TIMEOUT
    {
      if id !in watches || watches[id] - now > 0 { return None; }
      watches := watches - {id};
      fired := fired + [epoch];
      return Some(if hardExceeded then HARD_TIMEOUT else RECONNECT_TIMEOUT);
    }

    method StoreOperationDone(ok: bool)
      modifies this
      ensures View() == Step(old(View()), StoreDone(ok))
    {
      if queue == [] { return; }
      if ok { stored := Applied(queue[0]); } else { failed := failed || |queue| == 1; }
      queue := queue[1..];
    }

    method Shut(landed: bool)
      modifies this
      ensures View() == Step(old(View()), Close(landed))
    {
      if closed { return; }
      closed := true;
      StopWatch();
      if landed && queue != [] { stored := Applied(queue[0]); }
      queue := [];
    }
  }

  // ------------------------------------------------------------------ what every run keeps

  /** The deadline of the current absence. */
  function Due(m: Monitor): Option<int> {
    if m.present || m.leftAt.None? then None else Some(m.leftAt.value + m.window)
  }

  ghost predicate StoreInv(m: Monitor) {
    !m.closed && !m.failed ==> Drained(m.queue, m.stored) == Due(m)
  }

  /** Only the remembered timer is alive, and only while the candidate is away. */
  ghost predicate WatchInv(m: Monitor) {
    && (forall id | id in m.watches :: m.watch == Some(id) && !m.closed && !m.present && Due(m) == Some(m.watches[id]))
    && (m.watch.Some? ==> m.watch.value < m.nextWatch)
  }

  /** Departures and re-entries alternate; a departure's window runs out at most once, and while
      the candidate is away its timer is alive or has run out. */
  ghost predicate CountInv(m: Monitor) {
    && m.invalidations == m.epoch && m.resumes + (if m.present then 0 else 1) == m.epoch
    && (m.leftAt.None? ==> m.present)
    && (forall i, j | 0 <= i < j < |m.fired| :: m.fired[i] < m.fired[j])
    && (forall n | n in m.fired :: n <= m.epoch)
    && (m.watches != map[] ==> m.epoch !in m.fired)
    && (!m.present && !m.closed && m.watches == map[] ==> m.epoch in m.fired)
  }

  ghost predicate Inv(m: Monitor) {
    StoreInv(m) && WatchInv(m) && CountInv(m)
  }

  lemma QueueDrains(queue: seq<Op>, stored: Option<int>)
    requires queue != []
    ensures Drained(queue, stored) == Drained(queue[1..], Applied(queue[0]))
  {
  }

  lemma StoreStep(m: Monitor, e: Event)
    requires Inv(m)
    ensures StoreInv(Step(m, e))
  {
    if m.queue != [] { QueueDrains(m.queue, m.stored); }
  }

  lemma WatchStep(m: Monitor, e: Event)
    requires Inv(m)
    ensures WatchInv(Step(m, e))
  {
  }

  lemma CountStep(m: Monitor, e: Event)
    requires Inv(m)
    ensures CountInv(Step(m, e))
  {
    match e
    case Disconnected(_, _) =>
      assert !m.closed && m.present ==> CancelWatch(m).watches == map[];
    case WatchWakes(id, now, _) =>
      if Fires(m, id, now) {
        assert m.watches - {id} == map[];
        assert m.epoch !in m.fired;
        forall i | 0 <= i < |m.fired|
          ensures m.fired[i] < m.epoch
        {
          assert m.fired[i] in m.fired;
        }
      }
    case _ =>
  }

  lemma {:induction false} RunKeeps(m: Monitor, es: seq<Event>)
    requires Inv(m)
    ensures Inv(Exec(m, es))
  {
    if es != [] {
      RunKeeps(m, es[..|es| - 1]);
      var b := Exec(m, es[..|es| - 1]);
      StoreStep(b, es[|es| - 1]);
      WatchStep(b, es[|es| - 1]);
      CountStep(b, es[|es| - 1]);
    }
  }

  // ------------------------------------------------------------------ theorems

  /** However late the store answers: once it has caught up, and unless the very last operation
      failed, the durable deadline is absent exactly while the candidate is present, and otherwise
      it is the last departure plus the window. */
  lemma StoreAgreesOnceDrained(candidate: string, window: int, es: seq<Event>)
    ensures var m := Exec(Armed(candidate, window), es);
            m.queue == [] && !m.failed && !m.closed ==>
              && (m.stored.None? <==> m.present)
              && (!m.present ==> m.leftAt.Some? && m.stored == Some(m.leftAt.value + window))
  {
    RunKeeps(Armed(candidate, window), es);
    ConstantsStay(Armed(candidate, window), es);
  }

  lemma ConstantsKept(m: Monitor, e: Event)
    ensures Step(m, e).candidate == m.candidate && Step(m, e).window == m.window
  {
  }

  lemma {:induction false} ConstantsStay(m: Monitor, es: seq<Event>)
    ensures Exec(m, es).candidate == m.candidate && Exec(m, es).window == m.window
  {
    if es != [] {
      ConstantsStay(m, es[..|es| - 1]);
      ConstantsKept(Exec(m, es[..|es| - 1]), es[|es| - 1]);
    }
  }

  /** At most one timer is alive, and when it wakes it asks for the closing exactly if the window of
      the present absence has run out; no absence asks twice. */
  lemma FiresOnlyWhenDue(candidate: string, window: int, es: seq<Event>, id: nat, now: int)
    ensures var m := Exec(Armed(candidate, window), es);
            && |m.watches| <= 1
            && (id in m.watches ==> !m.closed && !m.present && m.leftAt.Some? && m.epoch !in m.fired)
            && (id in m.watches ==> (Fires(m, id, now) <==> now >= m.leftAt.value + window))
            && (id in m.watches && Fires(m, id, now) ==> m.epoch in Step(m, WatchWakes(id, now, false)).fired)
            && (id !in m.watches ==> !Fires(m, id, now))
  {
    RunKeeps(Armed(candidate, window), es);
    ConstantsStay(Armed(candidate, window), es);
    var m := Exec(Armed(candidate, window), es);
    if m.watches != map[] {
      assert m.watches.Keys == {m.watch.value};
    }
  }

  /** No absence is forgotten: while the candidate is away, a timer for this absence is alive or
      has already asked for the closing; and turns were invalidated once per departure. */
  lemma AbsenceIsWatched(candidate: string, window: int, es: seq<Event>)
    ensures var m := Exec(Armed(candidate, window), es);
            && (!m.present && !m.closed ==>
                  m.epoch in m.fired || exists id :: id in m.watches && Due(m) == Some(m.watches[id]))
            && m.invalidations == m.epoch && m.resumes + (if m.present then 0 else 1) == m.epoch
  {
    RunKeeps(Armed(candidate, window), es);
    var m := Exec(Armed(candidate, window), es);
    if !m.present && !m.closed && m.epoch !in m.fired {
      var id :| id in m.watches;
    }
  }

  // ------------------------------------------------------------------ whose comings and goings count

  /** Whether an event is the candidate leaving or entering the room. */
  predicate Moves(candidate: string, e: Event) {
    (e.Disconnected? || e.Connected?) && e.identity == candidate
  }

  /** What the events say themselves: the last time the candidate moved decides whether they are in
      the room, and their last departure from it when they left. */
  function InRoom(candidate: string, es: seq<Event>): bool {
    if es == [] then true
    else if Moves(candidate, es[|es| - 1]) then es[|es| - 1].Connected?
    else InRoom(candidate, es[..|es| - 1])
  }

  function AwaySince(candidate: string, es: seq<Event>): Option<int> {
    if es == [] then None else
    var front, e := es[..|es| - 1], es[|es| - 1];
    if Moves(candidate, e) && e.Disconnected? && InRoom(candidate, front) then Some(e.now) else AwaySince(candidate, front)
  }

  lemma WhoMoves(m: Monitor, e: Event)
    requires !m.closed && !e.Close?
    ensures var t := Step(m, e);
            && !t.closed
            && t.present == (if Moves(m.candidate, e) then e.Connected? else m.present)
            && t.leftAt == (if Moves(m.candidate, e) && e.Disconnected? && m.present then Some(e.now) else m.leftAt)
  {
  }

  /** Until the monitor is closed, it takes the candidate to be where the events put them, and counts
        the absence from when it began: nobody else's comings and goings matter, nor do repeated ones,
      and no timer and no answer of the store changes either. */
  lemma {:induction false} FollowsTheCandidate(candidate: string, window: int, es: seq<Event>)
    requires forall e | e in es :: !e.Close?
    ensures var m := Exec(Armed(candidate, window), es);
            !m.closed && m.present == InRoom(candidate, es) && m.leftAt == AwaySince(candidate, es)
  {
    if es != [] {
      var front, e := es[..|es| - 1], es[|es| - 1];
      assert es == front + [e];
      FollowsTheCandidate(candidate, window, front);
      ConstantsStay(Armed(candidate, window), front);
      WhoMoves(Exec(Armed(candidate, window), front), e);
    }
  }
}
