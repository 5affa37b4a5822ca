// What the timer of a loop is told and what it may then do, and that a loop in use can begin as
// many iterations as its time and its limit allow.
module LoopTimers {
  import opened Base
  import GoalModel
  import GoalOps
  import opened Loop
  import opened LoopRuns

  // ---- What each answer of `due` promises -----------------------------------------------------------

  // The loop waits for this timer.
  predicate WaitsFor(l: Loop, watchId: string) {
    IsWaiting(l) && l.watchId == Some(watchId)
  }

  // Once the clock reaches the time of the timer it is told to begin or to expire, before that to
  // wait, and any other timer neither.
  lemma TimerIsTold(l: Loop, watchId: string, now: Time)
    requires ValidLoop(l)
    ensures WaitsFor(l, watchId) && l.nextRunAt.value <= now ==> Due(l, watchId, now) in {Ready, Expired}
    ensures Due(l, watchId, now) == Expired <==> WaitsFor(l, watchId) && l.deadline <= now
    ensures WaitsFor(l, watchId) && now < l.nextRunAt.value && now < l.deadline ==> Due(l, watchId, now) == NotYet
    ensures Due(l, watchId, now) in {Ready, Expired, NotYet} <==> WaitsFor(l, watchId)
    ensures Due(l, watchId, now) == DueCompleted <==> l.status == Completed
    ensures Due(l, watchId, now) == DueCancelled <==> l.status == Cancelled
  {
  }

  // A timer that is told `ready` begins the next iteration, and cannot end the loop.
  lemma ReadyBegins(l: Loop, w: string, file: Option<GoalModel.Goal>, now: Time)
    requires ValidLoop(l) && Due(l, w, now) == Ready && GoalIsOpen(l, file) && l.lastEventId != Some(w)
    ensures var o := BeginRun(l, w, file, now);
            && o.Ok? && IsRunning(o.value)
            && o.value == l.(phase := o.value.phase, iteration := l.iteration + 1, nextRunAt := None, watchId := None,
                             lastEventId := Some(w), events := l.events + [LoopEvent(now, LogBegin(l.iteration + 1, w))])
    ensures ExpireRun(l, w, file, now).Err?
    ensures l.nextRunAt.Some? && l.nextRunAt.value <= now < l.deadline
  {
  }

  // A timer that is told `expired` ends the loop, whichever of the two commands it gives.
  lemma ExpiredEnds(l: Loop, w: string, file: Option<GoalModel.Goal>, now: Time)
    requires ValidLoop(l) && Due(l, w, now) == Expired && GoalIsOpen(l, file) && l.lastEventId != Some(w)
    ensures var o := ExpireRun(l, w, file, now);
            && o.Ok? && BeginRun(l, w, file, now) == o
            && o.value == l.(status := Completed, phase := None, nextRunAt := None, watchId := None, lastEventId := Some(w),
                             events := l.events + [LoopEvent(now, LogExpire(w))])
    ensures l.deadline <= now
  {
  }

  // While the monitor may go on, a timer that has not been consumed is accepted by `begin` exactly
  // if the loop waits for it, and by `expire` exactly if it was told `expired`.
  lemma TimerIsAcceptedIff(l: Loop, w: string, file: Option<GoalModel.Goal>, now: Time)
    requires ValidLoop(l) && GoalIsOpen(l, file) && l.lastEventId != Some(w)
    ensures BeginRun(l, w, file, now).Ok? <==> Due(l, w, now) in {Ready, Expired, NotYet}
    ensures ExpireRun(l, w, file, now).Ok? <==> Due(l, w, now) == Expired
  {
  }

  // A timer that was consumed is told `stale` or that the loop is over, and its commands change nothing.
  lemma ConsumedTimerIsStale(l: Loop, w: string, file: Option<GoalModel.Goal>, now: Time)
    requires ValidLoop(l) && l.lastEventId == Some(w) && l.watchId != Some(w)
    ensures Due(l, w, now) !in {Ready, Expired, NotYet}
    ensures BeginRun(l, w, file, now) == Ok(l) && ExpireRun(l, w, file, now) == Ok(l)
  {
  }

  // ---- The owner of a monitor -----------------------------------------------------------------------

  // A monitor may go on exactly as long as its node can still fail, in an open goal of the same
  // client and session.
  lemma MonitorMayGoOnIff(l: Loop, g: GoalModel.Goal, summary: string, now: Time)
    requires l.owner.Some?
    ensures GoalIsOpen(l, Some(g)) <==>
      && g.status == GoalModel.GoalOpen && g.client == l.client && g.thread == Some(l.session)
      && GoalOps.Apply(g, GoalOps.Fail(l.owner.value.node, summary), now).Ok?
    ensures !GoalIsOpen(l, None)
  {
  }

  // Once it may not, its next completion cancels it, and its timer is refused.
  lemma MonitorIsStopped(l: Loop, w: string, summary: string, file: Option<GoalModel.Goal>, now: Time)
    requires ValidLoop(l) && !GoalIsOpen(l, file)
    ensures IsRunning(l) ==>
      var o := CompleteRun(l, summary, w, file, now);
      o.Ok? && o.value.status == Cancelled && o.value.runs == l.runs && ValidLoop(o.value)
    ensures l.lastEventId != Some(w) ==> BeginRun(l, w, file, now).Err? && ExpireRun(l, w, file, now).Err?
  {
  }

  // ---- The end of an iteration ----------------------------------------------------------------------

  // A completed iteration is recorded. The loop then waits for the next, one interval ahead or until
  // the deadline if that is sooner, unless the deadline or the limit has been reached.
  lemma IterationIsRecorded(l: Loop, w: string, summary: string, file: Option<GoalModel.Goal>, now: Time)
    requires ValidLoop(l) && IsRunning(l) && GoalIsOpen(l, file)
    ensures var o := CompleteRun(l, summary, w, file, now);
            && o.Ok? && o.value.runs == l.runs + [Run(l.iteration, summary, now)]
            && o.value == l.(runs := o.value.runs, status := o.value.status, phase := o.value.phase,
                             nextRunAt := o.value.nextRunAt, watchId := o.value.watchId, events := o.value.events)
            && (o.value.status == Completed <==> l.deadline <= now || (l.maxIterations.Some? && l.maxIterations.value <= l.iteration))
            && (o.value.status == Completed ==> o.value.events == l.events + [LoopEvent(now, LogFinish(l.iteration))])
            && (o.value.status != Completed ==>
                 && WaitsFor(o.value, w) && o.value.nextRunAt.Some?
                 && now < o.value.nextRunAt.value <= l.deadline && o.value.nextRunAt.value <= now + l.interval
                 && (o.value.nextRunAt.value == l.deadline || o.value.nextRunAt.value == now + l.interval)
                 && o.value.events == l.events + [LoopEvent(now, LogSchedule(l.iteration, w))])
  {
  }

  // A loop can be cancelled until it is completed.
  lemma CancelledIff(l: Loop, now: Time)
    ensures CancelLoop(l, now).Ok? <==> l.status != Completed
    ensures CancelLoop(l, now).Ok? ==>
      CancelLoop(l, now).value == l.(status := Cancelled, phase := None, nextRunAt := None, watchId := None,
                                     events := l.events + [LoopEvent(now, LogCancel)])
  {
  }

  // What `init` accepts.
  lemma StartIsAcceptedIff(task: string, eventNote: Option<string>, client: GoalModel.Client, session: string, owner: Option<Owner>,
                           interval: Time, duration: Time, limit: Option<int>, now: Time)
    ensures ValidLoop(Initial(task, eventNote, client, session, owner, interval, duration, limit, now)) <==>
      && NonBlank(task) && NonBlank(session) && (eventNote.Some? ==> GoalModel.SingleLine(eventNote.value))
      && (owner.Some? ==> owner.value.path != "" && owner.value.node != "")
      && interval > 0.0 && now + duration > 0.0 && (limit.Some? ==> limit.value >= 1)
  {
  }

  // ---- The time bound is tight -----------------------------------------------------------------------

  // Running its iteration after `begun` others, with timer names used in order.
  ghost predicate OnSchedule(s: Session, first: Session, begun: nat) {
    var l := s.l;
    && ValidLoop(l) && TimersConsumed(l) && IsRunning(l) && Begins(l.events) == begun
    && l.interval == first.l.interval && l.deadline == first.l.deadline && l.maxIterations == first.l.maxIterations
    && (forall i :: 0 <= i < |l.events| && l.events[i].entry.LogSchedule? ==> |l.events[i].entry.watchId| <= begun)
    && (l.lastEventId.Some? ==> |l.lastEventId.value| <= begun)
  }

  // The iteration is completed, its timer waits for one interval and is told `ready`, and begins.
  function Rest(s: Session, w: string): Session {
    Session(After(s.l, Perform(s.l, DoComplete("", w), OpenFor(s.l), s.clock)), s.clock, s.ready)
  }

  function Told(s: Session, w: string): Session {
    Session(s.l, s.clock + s.l.interval, s.ready + {w})
  }

  function Begin(s: Session, w: string): Session {
    Session(After(s.l, Perform(s.l, DoBegin(w), OpenFor(s.l), s.clock)), s.clock, s.ready)
  }

  lemma RestIsStep(s: Session, first: Session, begun: nat)
    requires OnSchedule(s, first, begun) && s.clock + s.l.interval < s.l.deadline
    requires s.l.maxIterations.Some? ==> begun + 1 < s.l.maxIterations.value
    ensures var r := Rest(s, TimerName(begun));
            && Steps(s, r) && ValidLoop(r.l) && TimersConsumed(r.l) && WaitsFor(r.l, TimerName(begun))
            && r.l.nextRunAt == Some(s.clock + s.l.interval)
            && r.l == s.l.(runs := r.l.runs, phase := r.l.phase, nextRunAt := r.l.nextRunAt, watchId := r.l.watchId, events := r.l.events)
            && r.l.events == s.l.events + [LoopEvent(s.clock, LogSchedule(s.l.iteration, TimerName(begun)))]
  {
    var w := TimerName(begun);
    var r := Rest(s, w);
    IterationIsRecorded(s.l, w, "", OpenFor(s.l), s.clock);
    assert FreshWatch(s.l, w);
    assert SessionStep(s, r, DoComplete("", w), OpenFor(s.l));
    PerformKeepsValid(s.l, DoComplete("", w), OpenFor(s.l), s.clock);
    PerformConsumesTimers(s.l, DoComplete("", w), OpenFor(s.l), s.clock);
  }

  lemma ToldIsStep(r: Session, w: string)
    requires ValidLoop(r.l) && WaitsFor(r.l, w) && r.l.nextRunAt == Some(r.clock + r.l.interval) && r.clock + r.l.interval < r.l.deadline
    ensures Steps(r, Told(r, w))
  {
    TimerIsTold(r.l, w, r.clock + r.l.interval);
    assert SessionStep(r, Told(r, w), DoDue(w), None);
  }

  lemma BeginIsStep(d: Session, w: string)
    requires ValidLoop(d.l) && TimersConsumed(d.l) && WaitsFor(d.l, w) && d.l.lastEventId != Some(w)
    requires d.l.nextRunAt == Some(d.clock) && d.clock < d.l.deadline && w in d.ready
    ensures var t := Begin(d, w);
            && Steps(d, t) && ValidLoop(t.l) && TimersConsumed(t.l) && IsRunning(t.l) && t.l.lastEventId == Some(w)
            && t.l.interval == d.l.interval && t.l.deadline == d.l.deadline && t.l.maxIterations == d.l.maxIterations
            && t.l.events == d.l.events + [LoopEvent(d.clock, LogBegin(d.l.iteration + 1, w))]
  {
    TimerIsTold(d.l, w, d.clock);
    ReadyBegins(d.l, w, OpenFor(d.l), d.clock);
    assert SessionStep(d, Begin(d, w), DoBegin(w), OpenFor(d.l));
    PerformKeepsValid(d.l, DoBegin(w), OpenFor(d.l), d.clock);
    PerformConsumesTimers(d.l, DoBegin(w), OpenFor(d.l), d.clock);
  }

  // Its timer is due and has been told so.
  ghost predicate IsDue(d: Session, s: Session, begun: nat) {
    && ValidLoop(d.l) && TimersConsumed(d.l) && WaitsFor(d.l, TimerName(begun)) && TimerName(begun) in d.ready
    && d.l.nextRunAt == Some(d.clock) && d.clock == s.clock + s.l.interval
    && d.l.lastEventId == s.l.lastEventId && d.l.interval == s.l.interval && d.l.deadline == s.l.deadline
    && d.l.maxIterations == s.l.maxIterations
    && d.l.events == s.l.events + [LoopEvent(s.clock, LogSchedule(s.l.iteration, TimerName(begun)))]
  }

  lemma BecomesDue(s: Session, first: Session, begun: nat) returns (r: Session, d: Session)
    requires OnSchedule(s, first, begun) && s.clock + s.l.interval < s.l.deadline
    requires s.l.maxIterations.Some? ==> begun + 1 < s.l.maxIterations.value
    ensures Steps(s, r) && Steps(r, d) && IsDue(d, s, begun)
  {
    r := Rest(s, TimerName(begun));
    RestIsStep(s, first, begun);
    d := Told(r, TimerName(begun));
    ToldIsStep(r, TimerName(begun));
  }

  lemma BeginsOnSchedule(s: Session, d: Session, first: Session, begun: nat)
    requires OnSchedule(s, first, begun) && IsDue(d, s, begun) && d.clock < d.l.deadline
    ensures Steps(d, Begin(d, TimerName(begun))) && OnSchedule(Begin(d, TimerName(begun)), first, begun + 1)
  {
    var w := TimerName(begun);
    var t := Begin(d, w);
    BeginIsStep(d, w);
    RoundLogs(s.l, t.l, LoopEvent(s.clock, LogSchedule(s.l.iteration, w)), LoopEvent(d.clock, LogBegin(d.l.iteration + 1, w)), begun);
  }

  lemma NextOnSchedule(s: Session, first: Session, begun: nat) returns (r: Session, d: Session, t: Session)
    requires OnSchedule(s, first, begun) && s.clock + s.l.interval < s.l.deadline
    requires s.l.maxIterations.Some? ==> begun + 1 < s.l.maxIterations.value
    ensures Steps(s, r) && Steps(r, d) && Steps(d, t) && OnSchedule(t, first, begun + 1)
    ensures t.clock == s.clock + s.l.interval
  {
    r, d := BecomesDue(s, first, begun);
    t := Begin(d, TimerName(begun));
    BeginsOnSchedule(s, d, first, begun);
  }

  lemma RoundLogs(l: Loop, m: Loop, c: LoopEvent, b: LoopEvent, begun: nat)
    requires forall i :: 0 <= i < |l.events| && l.events[i].entry.LogSchedule? ==> |l.events[i].entry.watchId| <= begun
    requires m.events == l.events + [c] + [b] && c.entry.LogSchedule? && c.entry.watchId == TimerName(begun) && b.entry.LogBegin?
    ensures Begins(m.events) == Begins(l.events) + 1
    ensures forall i :: 0 <= i < |m.events| && m.events[i].entry.LogSchedule? ==> |m.events[i].entry.watchId| <= begun + 1
  {
    RoundCounts(l.events, m.events, c, b, TimerName(begun));
  }

  // The time n whole intervals take, one after the other.
  function Span(n: nat, interval: Time): Time {
    if n == 0 then 0.0 else Span(n - 1, interval) + interval
  }

  lemma {:induction false} SpanIsProduct(n: nat, interval: Time)
    ensures Span(n, interval) == n as real * interval
  {
    if n > 0 {
      SpanIsProduct(n - 1, interval);
      var before := (n - 1) as real;
      assert n as real == before + 1.0;
      assert (before + 1.0) * interval == before * interval + interval;
    }
  }

  lemma {:induction false} ScheduleTo(first: Session, begun: nat) returns (run: seq<Session>)
    requires OnSchedule(first, first, 0) && first.clock + Span(begun, first.l.interval) < first.l.deadline
    requires first.l.maxIterations.Some? ==> begun < first.l.maxIterations.value
    ensures run != [] && run[0] == first && OnSchedule(run[|run| - 1], first, begun)
    ensures run[|run| - 1].clock == first.clock + Span(begun, first.l.interval)
    ensures forall i :: 0 <= i < |run| - 1 ==> Steps(run[i], run[i + 1])
    decreases begun
  {
    if begun == 0 {
      run := [first];
    } else {
      var earlier := ScheduleTo(first, begun - 1);
      var r, d, t := NextOnSchedule(earlier[|earlier| - 1], first, begun - 1);
      run := earlier + [r, d, t];
      forall i | 0 <= i < |run| - 1 ensures Steps(run[i], run[i + 1]) {
        if i < |earlier| - 1 {
          assert Steps(earlier[i], earlier[i + 1]);
        }
      }
    }
  }

  // Every number of iterations that the time bound and the limit of a loop allow is begun by some
  // run that waits for its timers, and its timers alone.
  lemma BoundIsReached(s: Session, start: Time, duration: Time, k: nat) returns (run: seq<Session>)
    requires Started(s, start, duration) && k >= 1
    requires (k - 1) as real * s.l.interval < duration && (s.l.maxIterations.Some? ==> k <= s.l.maxIterations.value)
    ensures IsRun(run, start, duration) && run[0] == s
    ensures 1 + Begins(run[|run| - 1].l.events) == k && run[|run| - 1].clock == start + (k - 1) as real * s.l.interval
  {
    assert s.l.events[..0] == [] && Begins(s.l.events) == Begins(s.l.events[..0]);
    SpanIsProduct(k - 1, s.l.interval);
    run := ScheduleTo(s, k - 1);
  }
}
