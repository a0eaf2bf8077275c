/** When a class is snapped, and the loop that waits for it: clocks, signals and the condition variable
    the loop sleeps on (cadence.rs). One class's loop runs beside the signals, the forced snaps of a
    final flush and the notifications each of them sends once it has let go of the state. */
module Cadence {
  import opened Options

  type Instant = int

  datatype Mode = Watched | Polled

  datatype Trigger = Quiet | MaxInterval | Poll | Reconcile

  datatype ClassClock = ClassClock(
    firstChange: Option<Instant>,
    lastChange: Option<Instant>,
    lastSnap: Instant,
    quiet: nat,
    max: nat,
    reconcile: nat
  )

  function Dirtied(c: ClassClock, now: Instant): ClassClock {
    c.(firstChange := if c.firstChange.None? then Some(now) else c.firstChange, lastChange := Some(now))
  }

  function Cleared(c: ClassClock): ClassClock {
    c.(firstChange := None, lastChange := None)
  }

  datatype Due = Due(at: Instant, trigger: Trigger)

  function DueAt(c: ClassClock, mode: Mode): Due
    decreases if mode.Polled? then 1 else 0
  {
    match mode
    case Polled =>
      var poll := Due(c.lastSnap + c.max, Poll);
      var seen := DueAt(c, Watched);
      if seen.at < poll.at then seen else poll
    case Watched =>
      var reconcile := Due(c.lastSnap + c.reconcile, Reconcile);
      if c.firstChange.None? then reconcile
      else
        var last := if c.lastChange.Some? then c.lastChange.value else c.firstChange.value;
        var quietAt, maxAt := last + c.quiet, c.firstChange.value + c.max;
        var seen := if quietAt <= maxAt then Due(quietAt, Quiet) else Due(maxAt, MaxInterval);
        if reconcile.at < seen.at then reconcile else seen
  }

  /** The times a snap may be due: each that applies is a bound, and the snap is due at one of them. */
  function Bounds(c: ClassClock, mode: Mode): set<Instant> {
    {c.lastSnap + c.reconcile} +
    (if mode.Polled? then {c.lastSnap + c.max} else {}) +
    (if c.firstChange.Some? then {c.firstChange.value + c.max} else {}) +
    (if c.firstChange.Some? && c.lastChange.Some? then {c.lastChange.value + c.quiet} else {}) +
    (if c.firstChange.Some? && c.lastChange.None? then {c.firstChange.value + c.quiet} else {})
  }

  /** The snap is due at the earliest of its bounds: never past the first change and the maximum, never
      past the last snap and the maximum when polled or the reconcile interval when watched. */
  lemma DueIsEarliest(c: ClassClock, mode: Mode)
    ensures DueAt(c, mode).at in Bounds(c, mode)
    ensures forall t :: t in Bounds(c, mode) ==> DueAt(c, mode).at <= t
  {
  }

  // ----- The class loop and everyone else ------------------------------------------------------

  /** What the loop decides on; the bulk loop looks at the due time alone. */
  datatype Wake = Wake(due: Due, overflowed: bool, repair: bool)

  /** Where the class loop is: about to read the state, deciding on what it read, asleep until a time, or
      snapping. */
  datatype Loop = Ready | Deciding(seen: Wake, repair: bool) | Asleep(until: Instant) | Snapping | Ended

  /** `pending` counts those who changed the state and have not notified yet; `owed` is whether a change
      was signalled since the last snap began. */
  datatype State = State(
    small: bool,
    now: Instant,
    clock: ClassClock,
    mode: Mode,
    overflowed: bool,
    repair: bool,
    stop: bool,
    pending: nat,
    loop: Loop,
    owed: bool
  )

  function WakeOf(s: State): Wake {
    Wake(DueAt(s.clock, s.mode), s.small && s.overflowed, s.small && s.repair)
  }

  datatype Signal = Changed | Overflow | Unwatched | Rewatched

  datatype Step =
    | Tick(time: nat)
    | Signalled(signal: Signal, floor: Instant)
    | AskRepair
    | Stop
    | Notify
    | Read
    | Repair
    | FallAsleep
    | TimeOut
    | BeginSnap
    | EndSnap
    | AbandonSnap
    | Decline
    | BeginForced
    | EndForced

  /** The clock before which an instant cannot go. */
  function Before(now: Instant, max: nat, floor: Instant): Instant {
    if now - max < floor then now else now - max
  }

  function AfterSignal(s: State, signal: Signal, floor: Instant): State {
    match signal
    case Changed => s.(clock := Dirtied(s.clock, s.now), owed := true)
    case Overflow =>
      s.(overflowed := true, mode := Polled, clock := s.clock.(lastSnap := Before(s.now, s.clock.max, floor)))
    case Unwatched => s.(mode := Polled, clock := s.clock.(lastSnap := Before(s.now, s.clock.max, floor)))
    case Rewatched =>
      s.(mode := if s.overflowed then s.mode else Watched, clock := Dirtied(s.clock, s.now), owed := true)
  }

  predicate Enabled(s: State, step: Step) {
    match step
    case Notify => s.pending > 0
    case Read => s.loop.Ready?
    case Repair => s.loop.Deciding? && s.loop.repair
    case FallAsleep => s.loop.Deciding? && !s.loop.repair && s.loop.seen.due.at > s.now
    case TimeOut => s.loop.Asleep? && s.loop.until <= s.now
    case BeginSnap => s.loop.Deciding? && !s.loop.repair && s.loop.seen.due.at <= s.now
    case EndSnap => s.loop.Snapping?
    case AbandonSnap => s.loop.Snapping? && !s.small
    case Decline => s.loop.Deciding? && !s.loop.repair && s.loop.seen.due.at <= s.now
    case _ => true
  }

  function Next(s: State, step: Step): State
    requires Enabled(s, step)
  {
    match step
    case Tick(time) => s.(now := s.now + time)
    case Signalled(signal, floor) => AfterSignal(s, signal, floor).(pending := s.pending + 1)
    case AskRepair => s.(repair := true, pending := s.pending + 1)
    case Stop => s.(stop := true, pending := s.pending + 1)
    case Notify => s.(pending := s.pending - 1, loop := if s.loop.Asleep? then Ready else s.loop)
    case Read =>
      if s.stop then s.(loop := Ended)
      else
        var taken := if s.small then s.(repair := false) else s;
        taken.(loop := Deciding(WakeOf(taken), s.small && s.repair))
    case Repair => s.(loop := Ready)
    case FallAsleep =>
      if s.stop || WakeOf(s) != s.loop.seen then s.(loop := Ready) else s.(loop := Asleep(s.loop.seen.due.at))
    case TimeOut => s.(loop := Ready)
    case BeginSnap => s.(clock := Cleared(s.clock), loop := Snapping, owed := false)
    case EndSnap => s.(clock := s.clock.(lastSnap := s.now), loop := Ready, pending := s.pending + 1)
    case AbandonSnap => s.(loop := Ready)
    case Decline => s.(clock := Cleared(s.clock).(lastSnap := s.now), loop := Ready)
    case BeginForced => s.(clock := Cleared(s.clock), owed := false)
    case EndForced => s.(clock := s.clock.(lastSnap := s.now), pending := s.pending + 1)
  }

  ghost predicate IsRun(s: State, steps: seq<Step>)
    decreases |steps|
  {
    steps == [] || (Enabled(s, steps[0]) && IsRun(Next(s, steps[0]), steps[1..]))
  }

  ghost function After(s: State, steps: seq<Step>): State
    requires IsRun(s, steps)
    decreases |steps|
  {
    if steps == [] then s else After(Next(s, steps[0]), steps[1..])
  }

  /** The clock's times are past, in order. */
  predicate Ordered(s: State) {
    && s.clock.lastSnap <= s.now
    && (s.clock.firstChange.Some? <==> s.clock.lastChange.Some?)
    && (s.clock.firstChange.Some? ==> s.clock.firstChange.value <= s.clock.lastChange.value <= s.now)
  }

  /** While the loop sleeps, it wakes no later than the class is due, or someone is about to notify it. A
      stop, and a repair the small loop is asked for, are always about to be notified. */
  predicate Awake(s: State) {
    && (s.loop.Asleep? ==>
          s.pending > 0 || (s.loop.until <= DueAt(s.clock, s.mode).at && !(s.small && s.repair) && !s.stop))
    && (s.loop.Deciding? ==> !s.loop.seen.repair)
  }

  lemma StepKeepsOrder(s: State, step: Step)
    requires Ordered(s) && Enabled(s, step)
    ensures Ordered(Next(s, step))
  {
    hide DueAt;
    hide WakeOf;
    match step {
      case Signalled(signal, floor) => SignalKeepsOrder(s, signal, floor);
      case _ => hide AfterSignal;
    }
  }

  lemma SignalKeepsOrder(s: State, signal: Signal, floor: Instant)
    requires Ordered(s)
    ensures Ordered(AfterSignal(s, signal, floor))
  {
  }

  lemma StepKeepsAwake(s: State, step: Step)
    requires Ordered(s) && Awake(s) && Enabled(s, step)
    ensures Awake(Next(s, step))
  {
  }

  /** No wakeup is lost, over every interleaving. */
  lemma {:induction false} NoLostWakeup(s: State, steps: seq<Step>)
    requires Ordered(s) && Awake(s) && IsRun(s, steps)
    ensures Ordered(After(s, steps)) && Awake(After(s, steps))
    decreases |steps|
  {
    if steps != [] {
      StepKeepsOrder(s, steps[0]);
      StepKeepsAwake(s, steps[0]);
      NoLostWakeup(Next(s, steps[0]), steps[1..]);
    }
  }

  /** A change signalled since the last snap began leaves the class dirty. */
  predicate Remembered(s: State) {
    s.owed ==> s.clock.firstChange.Some?
  }

  /** Each step remembers the change but one: a snap that is due and not allowed forgets it. */
  lemma StepRemembers(s: State, step: Step)
    requires Remembered(s) && Enabled(s, step)
    ensures Remembered(Next(s, step)) <==> !(step.Decline? && s.owed)
  {
  }

  lemma {:induction false} ChangesAreRemembered(s: State, steps: seq<Step>)
    requires Remembered(s) && IsRun(s, steps) && Decline !in steps
    ensures Remembered(After(s, steps))
    decreases |steps|
  {
    if steps != [] {
      StepRemembers(s, steps[0]);
      ChangesAreRemembered(Next(s, steps[0]), steps[1..]);
    }
  }

  /** Changes lost from sight are read at once: after an overflow, or a directory that could not be
      watched, the class polls and its poll is due. */
  lemma UnseenChangesAreDue(s: State, signal: Signal, floor: Instant)
    requires (signal.Overflow? || signal.Unwatched?) && floor <= s.now - s.clock.max
    ensures var next := Next(s, Signalled(signal, floor));
      next.mode == Polled && DueAt(next.clock, next.mode).at <= next.now
  {
  }

  /** Unless a snap was under way, which may have read too early: when it ends, the poll is put off by a
      whole interval. It stays due exactly when an interval is zero or a change was seen long enough ago. */
  lemma EndedSnapPutsOffPoll(s: State, signal: Signal, floor: Instant, time: nat)
    requires Ordered(s) && s.loop.Snapping?
    requires (signal.Overflow? || signal.Unwatched?) && floor <= s.now - s.clock.max
    ensures var ended := Next(Next(Next(s, Signalled(signal, floor)), Tick(time)), EndSnap);
      DueAt(ended.clock, ended.mode).at <= ended.now
      <==> (s.clock.max == 0 || s.clock.reconcile == 0 ||
            (s.clock.firstChange.Some? &&
             (s.clock.firstChange.value + s.clock.max <= ended.now || s.clock.lastChange.value + s.clock.quiet <= ended.now)))
  {
  }
}
