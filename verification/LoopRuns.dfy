// Whole runs of the bounded loop: numbering, token consumption and the time bound.
module LoopRuns {
  import opened Base
  import GoalModel
  import opened Loop

  // What a client can do with a loop file.
  datatype Action =
    | DoComplete(summary: string, watchId: string)
    | DoDue(watchId: string)
    | DoBegin(eventId: string)
    | DoExpire(eventId: string)
    | DoCancel

  // A loop in use: its saved state, the latest clock reading, and the watch ids for which
  // `due` has answered Ready.
  datatype Session = Session(l: Loop, clock: Time, ready: set<string>)

  function Perform(l: Loop, a: Action, file: Option<GoalModel.Goal>, now: Time): Outcome {
    match a
    case DoComplete(summary, watchId) => CompleteRun(l, summary, watchId, file, now)
    case DoDue(_) => Ok(l)
    case DoBegin(eventId) => BeginRun(l, eventId, file, now)
    case DoExpire(eventId) => ExpireRun(l, eventId, file, now)
    case DoCancel => CancelLoop(l, now)
  }

  ghost predicate FreshWatch(l: Loop, watchId: string) {
    watchId != "" && forall i :: 0 <= i < |l.events| && l.events[i].entry.LogSchedule? ==> l.events[i].entry.watchId != watchId
  }

  // One step of the protocol: clocks never go back, timer ids are generated afresh, and a
  // run begins only after `due` said Ready for its timer.
  ghost predicate SessionStep(s: Session, t: Session, a: Action, file: Option<GoalModel.Goal>) {
    && s.clock <= t.clock
    && (a.DoComplete? ==> FreshWatch(s.l, a.watchId))
    && (a.DoBegin? ==> a.eventId in s.ready)
    && t.l == After(s.l, Perform(s.l, a, file, t.clock))
    && t.ready == if a.DoDue? && Due(s.l, a.watchId, t.clock) == Ready then s.ready + {a.watchId} else s.ready
  }

  ghost predicate Steps(s: Session, t: Session) {
    exists a, file :: SessionStep(s, t, a, file)
  }

  // A loop as `init` accepts it at time `start`.
  ghost predicate Started(s: Session, start: Time, duration: Time) {
    && s.clock == start && s.ready == {} && duration > 0.0
    && exists task, eventNote, client, session, owner, interval, limit ::
         s.l == Initial(task, eventNote, client, session, owner, interval, duration, limit, start) && ValidLoop(s.l)
  }

  ghost predicate IsRun(run: seq<Session>, start: Time, duration: Time) {
    && run != [] && Started(run[0], start, duration)
    && forall i :: 0 <= i < |run| - 1 ==> Steps(run[i], run[i + 1])
  }

  // ---- Numbering -------------------------------------------------------------------------

  // The saved runs are numbered without gaps, the current iteration continues them, and
  // the limit is respected.
  ghost predicate Numbered(l: Loop) {
    && (forall i :: 0 <= i < |l.runs| ==> l.runs[i].iteration == i + 1)
    && (IsRunning(l) ==> l.iteration == |l.runs| + 1)
    && (IsWaiting(l) || l.status == Completed ==> l.iteration == |l.runs|)
    && (l.maxIterations.Some? ==>
         && |l.runs| <= l.maxIterations.value && l.iteration <= l.maxIterations.value
         && (IsWaiting(l) ==> l.iteration < l.maxIterations.value))
  }

  lemma PerformKeepsValid(l: Loop, a: Action, file: Option<GoalModel.Goal>, now: Time)
    requires ValidLoop(l) && (a.DoComplete? ==> a.watchId != "")
    ensures ValidLoop(After(l, Perform(l, a, file, now)))
  {
    match a {
      case DoComplete(summary, watchId) => CompleteKeepsValid(l, summary, watchId, file, now);
      case DoBegin(eventId) => BeginKeepsValid(l, eventId, file, now);
      case DoExpire(eventId) => ExpireKeepsValid(l, eventId, file, now);
      case _ => StoppedIsValid(l, Cancelled);
    }
  }

  lemma StoppedIsValid(l: Loop, status: LoopStatus)
    requires ValidLoop(l) && status != Active
    ensures ValidLoop(Stop(l, status))
  {
  }

  lemma BeginKeepsValid(l: Loop, eventId: string, file: Option<GoalModel.Goal>, now: Time)
    requires ValidLoop(l)
    ensures ValidLoop(After(l, BeginRun(l, eventId, file, now)))
  {
    StoppedIsValid(l, Completed);
  }

  lemma ExpireKeepsValid(l: Loop, eventId: string, file: Option<GoalModel.Goal>, now: Time)
    requires ValidLoop(l)
    ensures ValidLoop(After(l, ExpireRun(l, eventId, file, now)))
  {
    StoppedIsValid(l, Completed);
  }

  lemma CompleteKeepsValid(l: Loop, summary: string, watchId: string, file: Option<GoalModel.Goal>, now: Time)
    requires ValidLoop(l) && watchId != ""
    ensures ValidLoop(After(l, CompleteRun(l, summary, watchId, file, now)))
  {
  }

  lemma CompleteKeepsNumbering(l: Loop, summary: string, watchId: string, file: Option<GoalModel.Goal>, now: Time)
    requires ValidLoop(l) && Numbered(l)
    ensures Numbered(After(l, CompleteRun(l, summary, watchId, file, now)))
  {
  }

  lemma PerformKeepsNumbering(l: Loop, a: Action, file: Option<GoalModel.Goal>, now: Time)
    requires ValidLoop(l) && Numbered(l)
    ensures Numbered(After(l, Perform(l, a, file, now)))
  {
    if a.DoComplete? {
      CompleteKeepsNumbering(l, a.summary, a.watchId, file, now);
    }
  }

  // ---- Each timer starts at most one iteration -----------------------------------------------

  function Begins(events: seq<LoopEvent>): nat {
    if events == [] then 0
    else Begins(events[..|events| - 1]) + (if events[|events| - 1].entry.LogBegin? then 1 else 0)
  }

  ghost predicate Scheduled(events: seq<LoopEvent>, w: string) {
    exists i :: 0 <= i < |events| && events[i].entry.LogSchedule? && events[i].entry.watchId == w
  }

  ghost predicate Begun(events: seq<LoopEvent>, w: string) {
    exists i :: 0 <= i < |events| && events[i].entry.LogBegin? && events[i].entry.eventId == w
  }

  ghost predicate TimersConsumed(l: Loop) {
    && (forall i, j :: 0 <= i < j < |l.events| && l.events[i].entry.LogBegin? && l.events[j].entry.LogBegin? ==>
         l.events[i].entry.eventId != l.events[j].entry.eventId)
    && (forall w :: Begun(l.events, w) ==> Scheduled(l.events, w))
    && (IsWaiting(l) && l.watchId.Some? ==> Scheduled(l.events, l.watchId.value) && !Begun(l.events, l.watchId.value))
    && l.iteration == 1 + Begins(l.events)
  }

  lemma EventAppended(events: seq<LoopEvent>, e: LoopEvent, w: string)
    ensures Begins(events + [e]) == Begins(events) + (if e.entry.LogBegin? then 1 else 0)
    ensures Scheduled(events + [e], w) <==> Scheduled(events, w) || (e.entry.LogSchedule? && e.entry.watchId == w)
    ensures Begun(events + [e], w) <==> Begun(events, w) || (e.entry.LogBegin? && e.entry.eventId == w)
  {
    var longer := events + [e];
    assert longer[..|events|] == events;
    assert longer[|events|] == e;
    assert forall i :: 0 <= i < |events| ==> longer[i] == events[i];
  }

  // What one action does to the log and the timer of a loop.
  lemma PerformLogs(l: Loop, a: Action, file: Option<GoalModel.Goal>, now: Time) returns (e: LoopEvent)
    requires ValidLoop(l)
    ensures var m := After(l, Perform(l, a, file, now));
            m != l ==> IsLogged(l, m, a, e)
  {
    var m := After(l, Perform(l, a, file, now));
    e := if m.events == [] then LoopEvent(now, LogInit) else m.events[|m.events| - 1];
    match a {
      case DoComplete(summary, watchId) => CompleteLogs(l, summary, watchId, file, now);
      case DoBegin(eventId) => BeginLogs(l, eventId, file, now);
      case _ =>
    }
  }

  ghost predicate IsLogged(l: Loop, m: Loop, a: Action, e: LoopEvent) {
    && m.events == l.events + [e]
    && (IsWaiting(m) <==> e.entry.LogSchedule?)
    && (e.entry.LogSchedule? ==> a.DoComplete? && e.entry.watchId == a.watchId && m.watchId == Some(a.watchId))
    && (e.entry.LogBegin? ==> IsWaiting(l) && l.watchId == Some(e.entry.eventId))
    && m.iteration == l.iteration + (if e.entry.LogBegin? then 1 else 0)
  }

  lemma CompleteLogs(l: Loop, summary: string, watchId: string, file: Option<GoalModel.Goal>, now: Time)
    requires ValidLoop(l)
    ensures var m := After(l, CompleteRun(l, summary, watchId, file, now));
            m != l ==> m.events != [] && IsLogged(l, m, DoComplete(summary, watchId), m.events[|m.events| - 1])
  {
  }

  lemma BeginLogs(l: Loop, eventId: string, file: Option<GoalModel.Goal>, now: Time)
    requires ValidLoop(l)
    ensures var m := After(l, BeginRun(l, eventId, file, now));
            m != l ==> m.events != [] && IsLogged(l, m, DoBegin(eventId), m.events[|m.events| - 1])
  {
  }

  lemma PerformConsumesTimers(l: Loop, a: Action, file: Option<GoalModel.Goal>, now: Time)
    requires ValidLoop(l) && TimersConsumed(l) && (a.DoComplete? ==> FreshWatch(l, a.watchId))
    ensures TimersConsumed(After(l, Perform(l, a, file, now)))
  {
    var m := After(l, Perform(l, a, file, now));
    var e := PerformLogs(l, a, file, now);
    if m != l {
      forall w ensures Scheduled(m.events, w) <==> Scheduled(l.events, w) || (e.entry.LogSchedule? && e.entry.watchId == w)
        ensures Begun(m.events, w) <==> Begun(l.events, w) || (e.entry.LogBegin? && e.entry.eventId == w)
        ensures Begins(m.events) == Begins(l.events) + (if e.entry.LogBegin? then 1 else 0)
      {
        EventAppended(l.events, e, w);
      }
      if e.entry.LogSchedule? {
        assert !Scheduled(l.events, a.watchId);
      }
      forall i, j | 0 <= i < j < |m.events| && m.events[i].entry.LogBegin? && m.events[j].entry.LogBegin?
        ensures m.events[i].entry.eventId != m.events[j].entry.eventId
      {
        if j == |l.events| {
          assert Begun(l.events, m.events[i].entry.eventId);
        }
      }
    }
  }

  // ---- The time bound ------------------------------------------------------------------------

  // The time k - 1 whole intervals take.
  function Elapsed(l: Loop): Time {
    (l.iteration - 1) as real * l.interval
  }

  // The current iteration began after `elapsed` at the earliest and before the deadline; the
  // next one cannot begin before another interval has passed.
  ghost predicate Paced(s: Session, start: Time, elapsed: Time) {
    var l := s.l;
    && start + elapsed < l.deadline
    && start + elapsed <= s.clock
    && (IsWaiting(l) && l.nextRunAt.Some? ==> l.nextRunAt.value >= Min(start + elapsed + l.interval, l.deadline))
    && (IsWaiting(l) && l.watchId.Some? && l.nextRunAt.Some? && l.watchId.value in s.ready ==> s.clock >= l.nextRunAt.value)
  }

  ghost predicate OnTime(s: Session, start: Time, duration: Time) {
    && s.l.deadline == start + duration
    && Paced(s, start, Elapsed(s.l))
    && forall w :: w in s.ready ==> Scheduled(s.l.events, w)
  }

  lemma ElapsedGrows(l: Loop, m: Loop)
    requires m.interval == l.interval
    ensures m.iteration == l.iteration ==> Elapsed(m) == Elapsed(l)
    ensures m.iteration == l.iteration + 1 ==> Elapsed(m) == Elapsed(l) + l.interval
  {
  }

  // What one action does to the schedule of a loop.
  lemma PerformTimes(l: Loop, a: Action, file: Option<GoalModel.Goal>, now: Time)
    requires ValidLoop(l)
    ensures var m := After(l, Perform(l, a, file, now));
            && m.interval == l.interval && m.deadline == l.deadline
            && (m.iteration != l.iteration ==> a.DoBegin? && IsWaiting(l) && l.watchId == Some(a.eventId) && now < l.deadline)
            && (IsWaiting(m) && m != l ==>
                 m.iteration == l.iteration && m.nextRunAt == Some(Min(now + l.interval, l.deadline)) && a.DoComplete?
                 && m.watchId == Some(a.watchId))
  {
  }

  lemma StepPaced(s: Session, t: Session, a: Action, file: Option<GoalModel.Goal>, start: Time, elapsed: Time)
    requires ValidLoop(s.l) && TimersConsumed(s.l) && Paced(s, start, elapsed) && SessionStep(s, t, a, file)
    requires forall w :: w in s.ready ==> Scheduled(s.l.events, w)
    requires t.l.iteration == s.l.iteration || t.l.iteration == s.l.iteration + 1
    ensures Paced(t, start, if t.l.iteration == s.l.iteration then elapsed else elapsed + s.l.interval)
  {
    PerformTimes(s.l, a, file, t.clock);
    if t.l != s.l && IsWaiting(t.l) {
      assert !Scheduled(s.l.events, a.watchId);
    }
  }

  lemma StepOnTime(s: Session, t: Session, a: Action, file: Option<GoalModel.Goal>, start: Time, duration: Time)
    requires ValidLoop(s.l) && TimersConsumed(s.l) && OnTime(s, start, duration) && SessionStep(s, t, a, file)
    ensures OnTime(t, start, duration)
  {
    var e := PerformLogs(s.l, a, file, t.clock);
    PerformTimes(s.l, a, file, t.clock);
    ReadyStaysScheduled(s, t, a, e);
    StepPaced(s, t, a, file, start, Elapsed(s.l));
    ElapsedGrows(s.l, t.l);
  }

  lemma ReadyStaysScheduled(s: Session, t: Session, a: Action, e: LoopEvent)
    requires TimersConsumed(s.l) && forall w :: w in s.ready ==> Scheduled(s.l.events, w)
    requires t.l == s.l || t.l.events == s.l.events + [e]
    requires t.ready == if a.DoDue? && Due(s.l, a.watchId, t.clock) == Ready then s.ready + {a.watchId} else s.ready
    ensures forall w :: w in t.ready ==> Scheduled(t.l.events, w)
  {
    forall w | w in t.ready ensures Scheduled(t.l.events, w) {
      assert Scheduled(s.l.events, w);
      EventAppended(s.l.events, e, w);
    }
  }

  // ---- All runs --------------------------------------------------------------------------------

  ghost predicate Inv(s: Session, start: Time, duration: Time) {
    ValidLoop(s.l) && Numbered(s.l) && TimersConsumed(s.l) && OnTime(s, start, duration)
  }

  // Every state of every run is valid, numbered without gaps, within its iteration limit,
  // consumes each timer at most once, and began its k-th iteration within the duration.
  lemma {:induction false} RunInv(run: seq<Session>, start: Time, duration: Time, i: nat)
    requires IsRun(run, start, duration) && i < |run|
    ensures Inv(run[i], start, duration)
  {
    if i == 0 {
      assert Begins(run[0].l.events[..0]) == 0;
    } else {
      RunInv(run, start, duration, i - 1);
      var s, t := run[i - 1], run[i];
      assert Steps(run[i - 1], run[i - 1 + 1]);
      var a, file :| SessionStep(s, t, a, file);
      PerformKeepsValid(s.l, a, file, t.clock);
      PerformKeepsNumbering(s.l, a, file, t.clock);
      PerformConsumesTimers(s.l, a, file, t.clock);
      StepOnTime(s, t, a, file, start, duration);
    }
  }

  lemma IterationsAreBounded(run: seq<Session>, start: Time, duration: Time, i: nat)
    requires IsRun(run, start, duration) && i < |run|
    ensures var l := run[i].l;
            var begun := 1 + Begins(l.events);
            (begun - 1) as real * l.interval < duration
            && (l.maxIterations.Some? ==> |l.runs| <= l.maxIterations.value)
  {
    RunInv(run, start, duration, i);
  }

  // No timer begins two iterations.
  lemma TimerBeginsAtMostOnce(run: seq<Session>, start: Time, duration: Time, n: nat, i: nat, j: nat)
    requires IsRun(run, start, duration) && n < |run|
    requires i < |run[n].l.events| && j < |run[n].l.events|
    requires run[n].l.events[i].entry.LogBegin? && run[n].l.events[j].entry.LogBegin?
    requires run[n].l.events[i].entry.eventId == run[n].l.events[j].entry.eventId
    ensures i == j
  {
    RunInv(run, start, duration, n);
  }

  // ---- Without the timers ------------------------------------------------------------------------

  // The bound rests on the protocol: `begin` itself starts the next iteration of a waiting
  // loop at any time before the deadline, however long before its timer is due.
  lemma BeginDoesNotWait(l: Loop, file: Option<GoalModel.Goal>, now: Time)
    requires ValidLoop(l) && IsWaiting(l) && GoalIsOpen(l, file) && l.lastEventId != l.watchId
    ensures BeginRun(l, l.watchId.value, file, now).Ok?
    ensures BeginRun(l, l.watchId.value, file, now).value.iteration == l.iteration + 1 <==> now < l.deadline
  {
  }

  // A loop and its clock, used by clients that begin runs whenever they like.
  datatype Moment = Moment(l: Loop, clock: Time)

  ghost predicate HastyStep(s: Moment, t: Moment, a: Action, file: Option<GoalModel.Goal>) {
    && s.clock <= t.clock
    && (a.DoComplete? ==> FreshWatch(s.l, a.watchId))
    && t.l == After(s.l, Perform(s.l, a, file, t.clock))
  }

  ghost predicate HastySteps(s: Moment, t: Moment) {
    exists a, file :: HastyStep(s, t, a, file)
  }

  ghost predicate IsHastyRun(run: seq<Moment>, first: Moment) {
    && run != [] && run[0] == first
    && forall i :: 0 <= i < |run| - 1 ==> HastySteps(run[i], run[i + 1])
  }

  // The time of the iterations that have begun, but the last, fits the duration.
  ghost predicate InTime(l: Loop, duration: Time) {
    Begins(l.events) as real * l.interval < duration
  }

  ghost predicate BoundHolds(first: Moment, duration: Time) {
    forall run: seq<Moment> :: IsHastyRun(run, first) ==> InTime(run[|run| - 1].l, duration)
  }

  // The iteration limit alone keeps the bound.
  predicate LimitFits(l: Loop, duration: Time) {
    l.maxIterations.Some? && (l.maxIterations.value - 1) as real * l.interval < duration
  }

  ghost predicate HastyInv(l: Loop, first: Loop) {
    && ValidLoop(l) && Numbered(l) && TimersConsumed(l)
    && l.interval == first.interval && l.maxIterations == first.maxIterations
  }

  lemma {:induction false} HastyRunInv(run: seq<Moment>, first: Moment, i: nat)
    requires IsHastyRun(run, first) && HastyInv(first.l, first.l) && i < |run|
    ensures HastyInv(run[i].l, first.l)
  {
    if i > 0 {
      HastyRunInv(run, first, i - 1);
      assert HastySteps(run[i - 1], run[i - 1 + 1]);
      var a, file :| HastyStep(run[i - 1], run[i], a, file);
      PerformKeepsValid(run[i - 1].l, a, file, run[i].clock);
      PerformKeepsNumbering(run[i - 1].l, a, file, run[i].clock);
      PerformConsumesTimers(run[i - 1].l, a, file, run[i].clock);
      PerformKeepsLimits(run[i - 1].l, a, file, run[i].clock);
    }
  }

  lemma PerformKeepsLimits(l: Loop, a: Action, file: Option<GoalModel.Goal>, now: Time)
    ensures var m := After(l, Perform(l, a, file, now));
            m.interval == l.interval && m.maxIterations == l.maxIterations
  {
  }

  lemma Scaled(a: int, b: int, interval: Time)
    requires a <= b && interval > 0.0
    ensures a as real * interval <= b as real * interval
  {
  }

  lemma LimitKeepsBound(run: seq<Moment>, first: Moment, duration: Time)
    requires IsHastyRun(run, first) && HastyInv(first.l, first.l) && LimitFits(first.l, duration)
    ensures InTime(run[|run| - 1].l, duration)
  {
    HastyRunInv(run, first, |run| - 1);
    var l := run[|run| - 1].l;
    Scaled(Begins(l.events), l.maxIterations.value - 1, l.interval);
  }

  // A goal in which the loop's node is running, when the loop has one.
  function OpenFor(l: Loop): Option<GoalModel.Goal> {
    if l.owner.None? then None
    else
      var node := GoalModel.Node("", GoalModel.Local, [], GoalModel.Running, [], false, [], map[], [], [], None, None, None, None, [], None, None, None);
      Some(GoalModel.Goal("", GoalModel.GoalOpen, l.client, Some(l.session), None, 0.0, 0.0, map[l.owner.value.node := node], [], None, None))
  }

  // The k-th timer id.
  function TimerName(k: nat): string {
    seq(k + 1, _ => 'w')
  }

  // Running its iteration at a standing clock, with timer names used in order.
  ghost predicate Rushing(m: Moment, first: Moment, begun: nat) {
    && HastyInv(m.l, first.l) && IsRunning(m.l) && m.clock == first.clock && m.clock < m.l.deadline
    && m.l.owner == first.l.owner && m.l.client == first.l.client && m.l.session == first.l.session
    && Begins(m.l.events) == begun
    && (forall i :: 0 <= i < |m.l.events| && m.l.events[i].entry.LogSchedule? ==> |m.l.events[i].entry.watchId| <= begun)
    && (m.l.lastEventId.Some? ==> |m.l.lastEventId.value| <= begun)
  }

  // The run completes, and waits for a timer that is not due.
  function Rested(m: Moment, begun: nat): Moment {
    Moment(After(m.l, Perform(m.l, DoComplete("", TimerName(begun)), OpenFor(m.l), m.clock)), m.clock)
  }

  // The next run begins all the same.
  function Rushed(m: Moment, begun: nat): Moment {
    var r := Rested(m, begun);
    Moment(After(r.l, Perform(r.l, DoBegin(TimerName(begun)), OpenFor(m.l), m.clock)), m.clock)
  }

  lemma RestedWaits(m: Moment, first: Moment, begun: nat)
    requires Rushing(m, first, begun) && (m.l.maxIterations.Some? ==> begun + 1 < m.l.maxIterations.value)
    ensures var r := Rested(m, begun);
            && HastySteps(m, r) && IsWaiting(r.l) && r.l.watchId == Some(TimerName(begun))
            && r.l == m.l.(runs := r.l.runs, phase := r.l.phase, nextRunAt := r.l.nextRunAt, watchId := r.l.watchId, events := r.l.events)
            && r.l.events == m.l.events + [LoopEvent(m.clock, LogSchedule(m.l.iteration, TimerName(begun)))]
  {
    var r := Rested(m, begun);
    assert HastyStep(m, r, DoComplete("", TimerName(begun)), OpenFor(m.l));
  }

  lemma RushedBegins(r: Moment, w: string, file: Option<GoalModel.Goal>)
    requires ValidLoop(r.l) && IsWaiting(r.l) && r.l.watchId == Some(w) && r.l.lastEventId != Some(w)
    requires GoalIsOpen(r.l, file) && r.clock < r.l.deadline
    ensures var t := Moment(After(r.l, Perform(r.l, DoBegin(w), file, r.clock)), r.clock);
            && HastySteps(r, t) && IsRunning(t.l) && t.l.lastEventId == Some(w) && t.l.deadline == r.l.deadline
            && t.l.owner == r.l.owner && t.l.client == r.l.client && t.l.session == r.l.session
            && t.l.events == r.l.events + [LoopEvent(r.clock, LogBegin(r.l.iteration + 1, w))]
  {
    var t := Moment(After(r.l, Perform(r.l, DoBegin(w), file, r.clock)), r.clock);
    assert HastyStep(r, t, DoBegin(w), file);
  }

  // Both events of a round, counted.
  lemma RoundCounts(events: seq<LoopEvent>, after: seq<LoopEvent>, c: LoopEvent, b: LoopEvent, w: string)
    requires after == events + [c] + [b] && c.entry.LogSchedule? && c.entry.watchId == w && b.entry.LogBegin?
    ensures Begins(after) == Begins(events) + 1
    ensures forall i :: 0 <= i < |after| && after[i].entry.LogSchedule? ==>
      after[i].entry.watchId == w || (i < |events| && after[i] == events[i])
  {
    EventAppended(events, c, w);
    EventAppended(events + [c], b, w);
  }

  lemma RushedRuns(m: Moment, first: Moment, begun: nat)
    requires Rushing(m, first, begun) && (m.l.maxIterations.Some? ==> begun + 1 < m.l.maxIterations.value)
    ensures HastySteps(Rested(m, begun), Rushed(m, begun)) && Rushing(Rushed(m, begun), first, begun + 1)
  {
    var w := TimerName(begun);
    var r, t := Rested(m, begun), Rushed(m, begun);
    RestedWaits(m, first, begun);
    PerformKeepsValid(m.l, DoComplete("", w), OpenFor(m.l), m.clock);
    RushedBegins(r, w, OpenFor(m.l));
    RoundCounts(m.l.events, t.l.events, LoopEvent(m.clock, LogSchedule(m.l.iteration, w)), LoopEvent(m.clock, LogBegin(r.l.iteration + 1, w)), w);
    FreshName(m, first, begun);
    RushKeepsInv(m, first, begun);
  }

  lemma FreshName(m: Moment, first: Moment, begun: nat)
    requires Rushing(m, first, begun)
    ensures FreshWatch(m.l, TimerName(begun))
  {
  }

  lemma RushKeepsInv(m: Moment, first: Moment, begun: nat)
    requires HastyInv(m.l, first.l) && FreshWatch(m.l, TimerName(begun))
    ensures HastyInv(Rushed(m, begun).l, first.l)
  {
    var w := TimerName(begun);
    var r := Rested(m, begun);
    PerformKeepsValid(m.l, DoComplete("", w), OpenFor(m.l), m.clock);
    PerformKeepsNumbering(m.l, DoComplete("", w), OpenFor(m.l), m.clock);
    PerformConsumesTimers(m.l, DoComplete("", w), OpenFor(m.l), m.clock);
    PerformKeepsLimits(m.l, DoComplete("", w), OpenFor(m.l), m.clock);
    PerformKeepsValid(r.l, DoBegin(w), OpenFor(m.l), m.clock);
    PerformKeepsNumbering(r.l, DoBegin(w), OpenFor(m.l), m.clock);
    PerformConsumesTimers(r.l, DoBegin(w), OpenFor(m.l), m.clock);
    PerformKeepsLimits(r.l, DoBegin(w), OpenFor(m.l), m.clock);
  }

  // Any number of iterations that the limit allows can begin without the clock moving at all.
  lemma {:induction false} RushTo(first: Moment, n: nat) returns (run: seq<Moment>)
    requires Rushing(first, first, 0) && (first.l.maxIterations.Some? ==> n < first.l.maxIterations.value)
    ensures IsHastyRun(run, first) && Rushing(run[|run| - 1], first, n)
    decreases n
  {
    if n == 0 {
      run := [first];
    } else {
      var earlier := RushTo(first, n - 1);
      var m := earlier[|earlier| - 1];
      RestedWaits(m, first, n - 1);
      RushedRuns(m, first, n - 1);
      run := earlier + [Rested(m, n - 1), Rushed(m, n - 1)];
      forall i | 0 <= i < |run| - 1 ensures HastySteps(run[i], run[i + 1]) {
        if i < |earlier| - 1 {
          assert HastySteps(earlier[i], earlier[i + 1]);
        }
      }
    }
  }

  // Enough whole intervals to use up the duration.
  lemma EnoughIntervals(interval: Time, duration: Time) returns (n: nat)
    requires interval > 0.0 && duration > 0.0
    ensures n as real * interval >= duration
  {
    var q := duration / interval;
    n := q.Floor + 1;
    assert n as real >= q;
    assert (n as real - q) * interval >= 0.0;
    assert q * interval == duration;
  }

  // A loop whose limit does not fit the duration breaks the bound at a standing clock.
  lemma HasteBreaksBound(first: Moment, duration: Time) returns (run: seq<Moment>)
    requires Rushing(first, first, 0) && duration > 0.0 && !LimitFits(first.l, duration)
    ensures IsHastyRun(run, first) && run[|run| - 1].clock == first.clock && !InTime(run[|run| - 1].l, duration)
  {
    var n: nat;
    if first.l.maxIterations.Some? {
      n := first.l.maxIterations.value - 1;
    } else {
      n := EnoughIntervals(first.l.interval, duration);
    }
    run := RushTo(first, n);
  }

  lemma StartedRushes(s: Session, start: Time, duration: Time)
    requires Started(s, start, duration)
    ensures var first := Moment(s.l, start); Rushing(first, first, 0)
  {
    assert s.l.events[..0] == [];
    assert Begins(s.l.events) == Begins(s.l.events[..0]);
  }

  // Without the timers, the time bound holds on every run of a loop if and only if the
  // iteration limit it was created with already implies it.
  lemma BoundHoldsIffLimitFits(s: Session, start: Time, duration: Time)
    requires Started(s, start, duration)
    ensures BoundHolds(Moment(s.l, start), duration) <==> LimitFits(s.l, duration)
  {
    var first := Moment(s.l, start);
    StartedRushes(s, start, duration);
    if LimitFits(s.l, duration) {
      forall run: seq<Moment> | IsHastyRun(run, first) ensures InTime(run[|run| - 1].l, duration) {
        LimitKeepsBound(run, first, duration);
      }
    } else {
      var run := HasteBreaksBound(first, duration);
    }
  }
}
