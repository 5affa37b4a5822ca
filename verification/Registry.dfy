// The registry of watches: pruning of finished records, protection of loop timers, and
// reconciliation after a crash. Every change is saved before it has any effect, so a crash
// before the save leaves the registry as it was.
module Registry {
  import opened Base
  import GoalModel
  import Loop
  import LoopRuns

  const MAX_FINISHED_WATCHES: nat := 256

  datatype Watch = Watch(active: bool, updatedAt: Time)

  type Watchers = map<string, Watch>

  type LoopFiles = map<string, Loop.Loop>

  // ---- Pruning ---------------------------------------------------------------------------

  // The timer ids that registered loops still wait for.
  function Protected(loops: set<string>, files: LoopFiles): set<string> {
    set path | path in loops && path in files && files[path].watchId.Some? :: files[path].watchId.value
  }

  predicate Prunable(watchers: Watchers, held: set<string>, id: string) {
    id in watchers && !watchers[id].active && id !in held
  }

  // What a save does: everything active or protected stays, at most 256 others stay, and
  // nothing that goes was updated later than anything that could have gone but stays.
  ghost predicate Pruned(before: Watchers, held: set<string>, after: Watchers) {
    && (forall id :: id in after ==> id in before && after[id] == before[id])
    && (forall id :: id in before && !Prunable(before, held, id) ==> id in after)
    && |set id | id in after && Prunable(before, held, id)| <= MAX_FINISHED_WATCHES
    && (forall gone, kept :: gone in before && gone !in after && kept in after && Prunable(before, held, kept) ==>
         before[gone].updatedAt <= before[kept].updatedAt)
    && ((exists gone :: gone in before && gone !in after) ==>
         |set id | id in after && Prunable(before, held, id)| == MAX_FINISHED_WATCHES)
  }

  // In numbers: 256 of the others stay whenever there are more, and all of them otherwise.
  lemma KeepsTwoHundredFiftySix(before: Watchers, held: set<string>, after: Watchers)
    requires Pruned(before, held, after)
    ensures var could, stay := set id | id in before && Prunable(before, held, id), set id | id in after && Prunable(before, held, id);
            stay <= could && |stay| == if |could| > 256 then 256 else |could|
  {
    var could, stay := set id | id in before && Prunable(before, held, id), set id | id in after && Prunable(before, held, id);
    assert stay <= could;
    if stay == could {
      assert |stay| <= 256;
    } else {
      assert could == stay + (could - stay);
      var gone :| gone in could - stay;
      assert gone in before && gone !in after;
      Smaller(stay, could, gone);
    }
  }

  lemma Smaller(stay: set<string>, could: set<string>, gone: string)
    requires stay <= could && gone in could && gone !in stay
    ensures |stay| < |could|
  {
    var rest := could - {gone} - stay;
    assert could == stay + rest + {gone};
  }

  ghost predicate LatestFirst(ids: seq<string>, watchers: Watchers) {
    && (forall id :: id in ids ==> id in watchers)
    && (forall i, j :: 0 <= i < j < |ids| ==> watchers[ids[i]].updatedAt >= watchers[ids[j]].updatedAt)
    && (forall i, j :: 0 <= i < j < |ids| ==> ids[i] != ids[j])
  }

  function InsertByAge(ids: seq<string>, id: string, watchers: Watchers): (r: seq<string>)
    requires id in watchers && forall x :: x in ids ==> x in watchers
    ensures forall x :: x in r <==> x in ids || x == id
  {
    if ids == [] then [id]
    else if watchers[id].updatedAt >= watchers[ids[0]].updatedAt then [id] + ids
    else [ids[0]] + InsertByAge(ids[1..], id, watchers)
  }

  lemma ConsKeepsOrder(first: string, r: seq<string>, watchers: Watchers)
    requires LatestFirst(r, watchers) && first in watchers
    requires forall k :: 0 <= k < |r| ==> watchers[first].updatedAt >= watchers[r[k]].updatedAt && first != r[k]
    ensures LatestFirst([first] + r, watchers)
  {
  }

  lemma {:induction false} InsertKeepsOrder(ids: seq<string>, id: string, watchers: Watchers)
    requires LatestFirst(ids, watchers) && id in watchers && id !in ids
    ensures LatestFirst(InsertByAge(ids, id, watchers), watchers)
  {
    if ids != [] && watchers[id].updatedAt < watchers[ids[0]].updatedAt {
      var rest := ids[1..];
      assert LatestFirst(rest, watchers);
      InsertKeepsOrder(rest, id, watchers);
      var r := InsertByAge(rest, id, watchers);
      forall k | 0 <= k < |r| ensures watchers[ids[0]].updatedAt >= watchers[r[k]].updatedAt && ids[0] != r[k] {
        assert r[k] in r;
      }
      ConsKeepsOrder(ids[0], r, watchers);
    }
  }

  // The prunable records, latest first, in whatever order the registry lists them.
  method Finished(watchers: Watchers, held: set<string>) returns (finished: seq<string>)
    ensures LatestFirst(finished, watchers)
    ensures forall id :: id in finished <==> Prunable(watchers, held, id)
  {
    finished := [];
    var rest := watchers.Keys;
    while rest != {}
      invariant rest <= watchers.Keys
      invariant LatestFirst(finished, watchers)
      invariant forall id :: id in finished <==> Prunable(watchers, held, id) && id !in rest
      decreases rest
    {
      var id :| id in rest;
      if !watchers[id].active && id !in held {
        InsertKeepsOrder(finished, id, watchers);
        finished := InsertByAge(finished, id, watchers);
      }
      rest := rest - {id};
    }
  }

  lemma {:induction false} DistinctCount(ids: seq<string>, s: set<string>)
    requires forall i, j :: 0 <= i < j < |ids| ==> ids[i] != ids[j]
    requires forall x :: x in s <==> x in ids
    ensures |s| == |ids|
  {
    if ids == [] {
      assert s == {};
    } else {
      var last := ids[|ids| - 1];
      var init := ids[..|ids| - 1];
      forall x ensures x in s - {last} <==> x in init {
        if x in init {
          var i :| 0 <= i < |init| && init[i] == x;
          assert ids[i] == x;
        }
      }
      DistinctCount(init, s - {last});
    }
  }

  lemma CutSplits(finished: seq<string>, cut: nat, id: string)
    requires cut <= |finished| && forall i, j :: 0 <= i < j < |finished| ==> finished[i] != finished[j]
    ensures id in finished <==> id in finished[..cut] || id in finished[cut..]
    ensures !(id in finished[..cut] && id in finished[cut..])
  {
    assert finished == finished[..cut] + finished[cut..];
  }

  lemma EarlierIsLater(finished: seq<string>, cut: nat, watchers: Watchers, gone: string, kept: string)
    requires LatestFirst(finished, watchers) && cut <= |finished|
    requires gone in finished[cut..] && kept in finished[..cut]
    ensures watchers[gone].updatedAt <= watchers[kept].updatedAt
  {
    var i :| 0 <= i < |finished| - cut && finished[cut..][i] == gone;
    var j :| 0 <= j < cut && finished[..cut][j] == kept;
    assert finished[cut + i] == gone && finished[j] == kept;
  }

  // Keeping the first 256 of the prunable records prunes as promised.
  lemma CutPrunes(before: Watchers, held: set<string>, finished: seq<string>, cut: nat, after: Watchers)
    requires LatestFirst(finished, before) && forall id :: id in finished <==> Prunable(before, held, id)
    requires cut == if |finished| <= MAX_FINISHED_WATCHES then |finished| else MAX_FINISHED_WATCHES
    requires forall id :: id in after <==> id in before && id !in finished[cut..]
    requires forall id :: id in after ==> after[id] == before[id]
    ensures Pruned(before, held, after)
  {
    var others := set id | id in after && Prunable(before, held, id);
    forall id ensures id in others <==> id in finished[..cut] {
      CutSplits(finished, cut, id);
    }
    DistinctCount(finished[..cut], others);
    forall gone, kept | gone in before && gone !in after && kept in after && Prunable(before, held, kept)
      ensures before[gone].updatedAt <= before[kept].updatedAt
    {
      assert kept in others;
      EarlierIsLater(finished, cut, before, gone, kept);
    }
    forall id | id in before && !Prunable(before, held, id) ensures id in after {
      CutSplits(finished, cut, id);
    }
  }

  // ---- Timers over whole runs ---------------------------------------------------------------

  // The saved registry, the loop files, and the submissions of timers that a registered loop
  // was waiting for, whoever made them.
  datatype World = World(watchers: Watchers, loops: set<string>, files: LoopFiles, submitted: seq<string>)

  datatype Event =
    | Submit(id: string, at: Time)
    | Touch(id: string, watch: Watch)
    | Register(path: string)
    | Init(path: string, state: Loop.Loop)
    | Act(path: string, action: LoopRuns.Action, at: Time)
    | Crash

  ghost predicate WaitsFor(w: World, path: string, id: string) {
    path in w.files && Loop.IsWaiting(w.files[path]) && w.files[path].watchId == Some(id)
  }

  ghost predicate Awaited(w: World, id: string) {
    exists path :: path in w.loops && WaitsFor(w, path, id)
  }

  // A timer id that neither the registry's history nor any loop has seen.
  ghost predicate Unseen(w: World, id: string) {
    id != "" && id !in w.submitted && forall path :: !WaitsFor(w, path, id)
  }

  // One saved change; a crash before a save is the step that changes nothing. Commands may be
  // carried out whether or not the goal of a loop is open.
  ghost predicate WorldStep(w: World, v: World, e: Event) {
    match e
    case Submit(id, at) =>
      && id !in w.watchers
      && Pruned(w.watchers[id := Watch(true, at)], Protected(w.loops, w.files), v.watchers)
      && v == w.(watchers := v.watchers, submitted := w.submitted + (if Awaited(w, id) then [id] else []))
    case Touch(id, watch) =>
      && id in w.watchers
      && Pruned(w.watchers[id := watch], Protected(w.loops, w.files), v.watchers)
      && v == w.(watchers := v.watchers)
    case Register(path) =>
      && Pruned(w.watchers, Protected(w.loops + {path}, w.files), v.watchers)
      && v == w.(watchers := v.watchers, loops := w.loops + {path})
    case Init(path, state) =>
      && path !in w.files && Loop.ValidLoop(state) && Loop.IsRunning(state)
      && v == w.(files := w.files[path := state])
    case Act(path, action, at) =>
      && path in w.files
      && (action.DoComplete? ==> Unseen(w, action.watchId))
      && exists goal ::
           v == w.(files := w.files[path := Loop.After(w.files[path], LoopRuns.Perform(w.files[path], action, goal, at))])
    case Crash => v == w
  }

  ghost predicate Steps(w: World, v: World) {
    exists e :: WorldStep(w, v, e)
  }

  // No timer was submitted twice; a submitted timer its loop still waits for is on record;
  // loops the service does not know have submitted nothing; no two loops wait for one timer.
  ghost predicate TimersOnce(w: World) {
    && (forall i, j :: 0 <= i < j < |w.submitted| ==> w.submitted[i] != w.submitted[j])
    && (forall path :: path in w.files ==> Loop.ValidLoop(w.files[path]))
    && (forall path, id :: path in w.loops && WaitsFor(w, path, id) && id in w.submitted ==> id in w.watchers)
    && (forall path, id :: path !in w.loops && WaitsFor(w, path, id) ==> id !in w.submitted)
    && (forall p, q, id :: WaitsFor(w, p, id) && WaitsFor(w, q, id) ==> p == q)
  }

  // A save keeps the timer of every registered loop that waits for it.
  lemma WaitingTimerSurvives(w: World, loops: set<string>, before: Watchers, after: Watchers, path: string, id: string)
    requires path in loops && WaitsFor(w, path, id) && id in before
    requires Pruned(before, Protected(loops, w.files), after)
    ensures id in after
  {
    assert id in Protected(loops, w.files);
  }

  // A save protects exactly the timers that registered loops wait for.
  lemma ProtectedIffAwaited(w: World, id: string)
    requires TimersOnce(w)
    ensures id in Protected(w.loops, w.files) <==> Awaited(w, id)
  {
    if id in Protected(w.loops, w.files) {
      var path :| path in w.loops && path in w.files && w.files[path].watchId == Some(id);
      assert Loop.ValidLoop(w.files[path]) && WaitsFor(w, path, id);
    }
  }

  lemma SubmitKeepsTimers(w: World, v: World, id: string, at: Time)
    requires TimersOnce(w) && WorldStep(w, v, Submit(id, at))
    ensures TimersOnce(v)
  {
    var before := w.watchers[id := Watch(true, at)];
    forall p, t | p in v.loops && WaitsFor(v, p, t) && t in v.submitted ensures t in v.watchers {
      assert WaitsFor(w, p, t);
      WaitingTimerSurvives(w, w.loops, before, v.watchers, p, t);
    }
    forall p, t | p !in v.loops && WaitsFor(v, p, t) ensures t !in v.submitted {
      assert WaitsFor(w, p, t);
    }
    forall p, q, t | WaitsFor(v, p, t) && WaitsFor(v, q, t) ensures p == q {
      assert WaitsFor(w, p, t) && WaitsFor(w, q, t);
    }
  }

  lemma SaveKeepsTimers(w: World, v: World, loops: set<string>, before: Watchers)
    requires TimersOnce(w) && w.loops <= loops && w.watchers.Keys <= before.Keys
    requires Pruned(before, Protected(loops, w.files), v.watchers)
    requires v == w.(watchers := v.watchers, loops := loops)
    ensures TimersOnce(v)
  {
    forall p, t | p in v.loops && WaitsFor(v, p, t) && t in v.submitted ensures t in v.watchers {
      assert WaitsFor(w, p, t);
      WaitingTimerSurvives(w, loops, before, v.watchers, p, t);
    }
    forall p, t | p !in v.loops && WaitsFor(v, p, t) ensures t !in v.submitted {
      assert WaitsFor(w, p, t);
    }
    forall p, q, t | WaitsFor(v, p, t) && WaitsFor(v, q, t) ensures p == q {
      assert WaitsFor(w, p, t) && WaitsFor(w, q, t);
    }
  }

  // A loop file that changes waits for the timer it waited for, for a fresh one, or for none.
  lemma FileKeepsTimers(w: World, v: World, path: string, state: Loop.Loop)
    requires TimersOnce(w) && v == w.(files := w.files[path := state]) && Loop.ValidLoop(state)
    requires Loop.IsWaiting(state) ==> state.watchId.Some? && (WaitsFor(w, path, state.watchId.value) || Unseen(w, state.watchId.value))
    ensures TimersOnce(v)
  {
    forall p, t | WaitsFor(v, p, t)
      ensures WaitsFor(w, p, t) || (p == path && Unseen(w, t))
    {
    }
    forall p, q, t | WaitsFor(v, p, t) && WaitsFor(v, q, t) ensures p == q {
      assert WaitsFor(w, p, t) || Unseen(w, t);
      assert WaitsFor(w, q, t) || Unseen(w, t);
    }
  }

  lemma ActKeepsTimers(w: World, v: World, path: string, action: LoopRuns.Action, at: Time)
    requires TimersOnce(w) && WorldStep(w, v, Act(path, action, at))
    ensures TimersOnce(v)
  {
    var l := w.files[path];
    var goal :| v == w.(files := w.files[path := Loop.After(l, LoopRuns.Perform(l, action, goal, at))]);
    var m := Loop.After(l, LoopRuns.Perform(l, action, goal, at));
    LoopRuns.PerformKeepsValid(l, action, goal, at);
    LoopRuns.PerformTimes(l, action, goal, at);
    if Loop.IsWaiting(m) && m == l {
      assert WaitsFor(w, path, m.watchId.value);
    }
    FileKeepsTimers(w, v, path, m);
  }

  lemma WorldStepKeepsTimers(w: World, v: World, e: Event)
    requires TimersOnce(w) && WorldStep(w, v, e)
    ensures TimersOnce(v)
  {
    match e {
      case Submit(id, at) => SubmitKeepsTimers(w, v, id, at);
      case Touch(id, watch) => SaveKeepsTimers(w, v, w.loops, w.watchers[id := watch]);
      case Register(path) => SaveKeepsTimers(w, v, w.loops + {path}, w.watchers);
      case Init(path, state) => FileKeepsTimers(w, v, path, state);
      case Act(path, action, at) => ActKeepsTimers(w, v, path, action, at);
      case Crash =>
    }
  }

  // Over every run of a service that starts empty, each timer is submitted at most once while a
  // registered loop waits for it, whether by reconciliation or on request, and its record stays
  // as long as the loop waits for it.
  lemma {:induction false} TimersSubmittedOnce(run: seq<World>, i: nat)
    requires run != [] && run[0] == World(map[], {}, map[], [])
    requires forall k :: 0 <= k < |run| - 1 ==> Steps(run[k], run[k + 1])
    requires i < |run|
    ensures TimersOnce(run[i])
  {
    if i > 0 {
      TimersSubmittedOnce(run, i - 1);
      assert Steps(run[i - 1], run[i - 1 + 1]);
      var e :| WorldStep(run[i - 1], run[i], e);
      WorldStepKeepsTimers(run[i - 1], run[i], e);
    }
  }

  // A loop that goes on waiting for its timer never loses the timer's record.
  lemma WaitingTimerStays(w: World, v: World, e: Event, path: string, id: string)
    requires WorldStep(w, v, e) && path in w.loops && id in w.watchers
    requires WaitsFor(w, path, id) && WaitsFor(v, path, id)
    ensures id in v.watchers
  {
    match e {
      case Submit(t, at) => WaitingTimerSurvives(w, w.loops, w.watchers[t := Watch(true, at)], v.watchers, path, id);
      case Touch(t, watch) => WaitingTimerSurvives(w, w.loops, w.watchers[t := watch], v.watchers, path, id);
      case Register(p) => WaitingTimerSurvives(w, w.loops + {p}, w.watchers, v.watchers, path, id);
      case _ =>
    }
  }

  // ---- The service object --------------------------------------------------------------------

  // What any number of rounds of reconciliation may do: loop files stay or are cancelled, awaited
  // records stay, and only timers that were not on record are submitted.
  ghost predicate Rounds(w: World, v: World) {
    && v.loops == w.loops && v.files.Keys == w.files.Keys
    && (forall path :: path in v.files ==> v.files[path] == w.files[path] || v.files[path].status == Loop.Cancelled)
    && (forall path, id :: path in v.loops && WaitsFor(v, path, id) && id in w.watchers ==> id in v.watchers)
    && w.submitted <= v.submitted
    && (forall i :: |w.submitted| <= i < |v.submitted| ==> v.submitted[i] !in w.watchers)
    && (forall i :: |w.submitted| <= i < |v.submitted| ==> Awaited(w, v.submitted[i]))
  }

  // A loop that still waits has its timer on record, and a loop whose goal is closed is cancelled.
  ghost predicate Handled(w: World, v: World, path: string, goal: Option<GoalModel.Goal>) {
    && (forall id :: WaitsFor(v, path, id) ==> id in v.watchers)
    && (path in w.files && path in v.files && w.files[path].status == Loop.Active && !Loop.GoalIsOpen(w.files[path], goal) ==>
         v.files[path].status == Loop.Cancelled)
  }

  lemma RoundAfterRounds(w: World, u: World, v: World)
    requires Rounds(w, u) && Rounds(u, v)
    ensures Rounds(w, v)
  {
    forall path, id | path in v.loops && WaitsFor(v, path, id) ensures WaitsFor(u, path, id) && WaitsFor(w, path, id) {
    }
    forall i | |w.submitted| <= i < |v.submitted| ensures v.submitted[i] !in w.watchers && Awaited(w, v.submitted[i]) {
      if i < |u.submitted| {
        assert v.submitted[i] == u.submitted[i];
      } else {
        assert Awaited(u, v.submitted[i]);
        var path :| path in u.loops && WaitsFor(u, path, v.submitted[i]);
        assert WaitsFor(w, path, v.submitted[i]);
      }
    }
  }

  // An active loop whose goal is closed.
  predicate NeedsCancel(w: World, path: string, goal: Option<GoalModel.Goal>) {
    path in w.files && w.files[path].status == Loop.Active && !Loop.GoalIsOpen(w.files[path], goal)
  }

  // A loop that may go on waits for a timer that is not on record.
  ghost predicate NeedsTimer(w: World, path: string, goal: Option<GoalModel.Goal>, id: string) {
    WaitsFor(w, path, id) && Loop.GoalIsOpen(w.files[path], goal) && id !in w.watchers
  }

  // What it needs is refused: the submission of its timer, or the command that cancels it.
  ghost predicate Stuck(w: World, path: string, goal: Option<GoalModel.Goal>, refused: set<string>, broken: set<string>) {
    (NeedsCancel(w, path, goal) && path in broken) || exists id :: NeedsTimer(w, path, goal, id) && id in refused
  }

  // The loop file after its round.
  ghost function LeftAs(w: World, path: string, goal: Option<GoalModel.Goal>, broken: set<string>, now: Time): Loop.Loop
    requires path in w.files
  {
    var l := w.files[path];
    if NeedsCancel(w, path, goal) && path !in broken
    then l.(status := Loop.Cancelled, phase := None, nextRunAt := None, watchId := None,
            events := l.events + [Loop.LoopEvent(now, Loop.LogCancel)])
    else l
  }

  function GoalOf(goals: map<string, GoalModel.Goal>, path: string): Option<GoalModel.Goal> {
    if path in goals then Some(goals[path]) else None
  }

  ghost predicate AllHandled(w: World, v: World, paths: set<string>, goals: map<string, GoalModel.Goal>) {
    forall path :: path in paths ==> Handled(w, v, path, GoalOf(goals, path))
  }

  lemma StayHandled(w: World, u: World, v: World, paths: set<string>, goals: map<string, GoalModel.Goal>)
    requires Rounds(w, u) && Rounds(u, v) && paths <= w.loops && AllHandled(w, u, paths, goals)
    ensures AllHandled(w, v, paths, goals)
  {
    forall path | path in paths ensures Handled(w, v, path, GoalOf(goals, path)) {
      assert Handled(w, u, path, GoalOf(goals, path));
      forall id | WaitsFor(v, path, id) ensures id in v.watchers {
        assert WaitsFor(u, path, id);
      }
    }
  }

  // A loop that was not touched before its own round is handled by it.
  lemma NowHandled(w: World, u: World, v: World, path: string, goals: map<string, GoalModel.Goal>)
    requires Rounds(w, u) && Rounds(u, v) && Handled(u, v, path, GoalOf(goals, path))
    requires path in u.files ==> u.files[path] == w.files[path]
    ensures Handled(w, v, path, GoalOf(goals, path))
  {
  }

  // Everything on record was there before, or is a timer that a loop in `paths` needed and that was
  // not refused.
  ghost predicate OnlyNeeded(w: World, v: World, paths: set<string>, goals: map<string, GoalModel.Goal>, refused: set<string>) {
    forall id :: id in v.watchers ==>
      id in w.watchers || (id !in refused && exists path :: path in paths && NeedsTimer(w, path, GoalOf(goals, path), id))
  }

  lemma StaysAsItIs(w: World, path: string, goal: Option<GoalModel.Goal>, broken: set<string>, now: Time)
    requires path in w.files
    ensures !NeedsCancel(w, path, goal) || path in broken ==> w.files[path := LeftAs(w, path, goal, broken, now)] == w.files
    ensures NeedsCancel(w, path, goal) && path !in broken ==>
      LeftAs(w, path, goal, broken, now) == Loop.After(w.files[path], Loop.CancelLoop(w.files[path], now))
  {
  }

  // The rounds of other loops leave a loop with the needs it had.
  lemma NeedsStay(w: World, u: World, path: string, paths: set<string>, goals: map<string, GoalModel.Goal>, refused: set<string>, broken: set<string>)
    requires TimersOnce(w) && Rounds(w, u) && OnlyNeeded(w, u, paths, goals, refused) && path in w.loops && path !in paths
    requires path in u.files ==> u.files[path] == w.files[path]
    ensures var goal := GoalOf(goals, path);
            && NeedsCancel(u, path, goal) == NeedsCancel(w, path, goal)
            && (forall id :: NeedsTimer(u, path, goal, id) <==> NeedsTimer(w, path, goal, id))
            && Stuck(u, path, goal, refused, broken) == Stuck(w, path, goal, refused, broken)
  {
    var goal := GoalOf(goals, path);
    forall id ensures NeedsTimer(u, path, goal, id) <==> NeedsTimer(w, path, goal, id) {
    }
  }

  lemma StillOnlyNeeded(w: World, u: World, v: World, path: string, paths: set<string>, goals: map<string, GoalModel.Goal>, refused: set<string>)
    requires OnlyNeeded(w, u, paths, goals, refused)
    requires forall id :: NeedsTimer(u, path, GoalOf(goals, path), id) <==> NeedsTimer(w, path, GoalOf(goals, path), id)
    requires forall id :: id in v.watchers ==> id in u.watchers || (id !in refused && NeedsTimer(u, path, GoalOf(goals, path), id))
    ensures OnlyNeeded(w, v, paths + {path}, goals, refused)
  {
    forall id | id in v.watchers && id !in w.watchers
      ensures id !in refused && exists p :: p in paths + {path} && NeedsTimer(w, p, GoalOf(goals, p), id)
    {
      if id in u.watchers {
        var p :| p in paths && NeedsTimer(w, p, GoalOf(goals, p), id);
        assert p in paths + {path};
      } else {
        assert path in paths + {path} && NeedsTimer(w, path, GoalOf(goals, path), id);
      }
    }
  }

  // What one round may do to the world.
  ghost predicate IsRound(u: World, v: World, path: string, goal: Option<GoalModel.Goal>, refused: set<string>, broken: set<string>, now: Time, ok: bool) {
    && TimersOnce(v) && Rounds(u, v) && (ok ==> Handled(u, v, path, goal))
    && (ok <==> !Stuck(u, path, goal, refused, broken))
    && (v.files == if path in u.files then u.files[path := LeftAs(u, path, goal, broken, now)] else u.files)
    && (forall id :: id in v.watchers ==> id in u.watchers || (id !in refused && NeedsTimer(u, path, goal, id)))
  }

  // The files of the loops in `paths` are as their rounds leave them, all others as they were.
  ghost predicate FilesLeft(w: World, v: World, paths: set<string>, goals: map<string, GoalModel.Goal>, broken: set<string>, now: Time) {
    forall path :: path in v.files && path in w.files ==>
      v.files[path] == if path in paths then LeftAs(w, path, GoalOf(goals, path), broken, now) else w.files[path]
  }

  // Exactly the stuck loops were reported.
  ghost predicate Reports(failed: set<string>, w: World, paths: set<string>, goals: map<string, GoalModel.Goal>, refused: set<string>, broken: set<string>) {
    forall path :: path in failed <==> path in paths && Stuck(w, path, GoalOf(goals, path), refused, broken)
  }

  // The rounds of the loops in `paths` are done, and those in `failed` were reported.
  ghost predicate Reconciled(w: World, v: World, paths: set<string>, failed: set<string>, goals: map<string, GoalModel.Goal>,
                             refused: set<string>, broken: set<string>, now: Time)
  {
    && TimersOnce(v) && Rounds(w, v) && AllHandled(w, v, paths - failed, goals)
    && Reports(failed, w, paths, goals, refused, broken)
    && FilesLeft(w, v, paths, goals, broken, now)
    && OnlyNeeded(w, v, paths, goals, refused)
  }

  lemma NothingReconciled(w: World, goals: map<string, GoalModel.Goal>, refused: set<string>, broken: set<string>, now: Time)
    requires TimersOnce(w)
    ensures Reconciled(w, w, {}, {}, goals, refused, broken, now)
  {
  }

  lemma StillLeft(w: World, u: World, v: World, path: string, paths: set<string>, goals: map<string, GoalModel.Goal>, broken: set<string>, now: Time)
    requires Rounds(w, u) && FilesLeft(w, u, paths, goals, broken, now) && path !in paths
    requires NeedsCancel(u, path, GoalOf(goals, path)) == NeedsCancel(w, path, GoalOf(goals, path))
    requires v.files == if path in u.files then u.files[path := LeftAs(u, path, GoalOf(goals, path), broken, now)] else u.files
    ensures FilesLeft(w, v, paths + {path}, goals, broken, now)
  {
  }

  lemma RoundReconciles(w: World, u: World, v: World, path: string, paths: set<string>, failed: set<string>,
                        goals: map<string, GoalModel.Goal>, refused: set<string>, broken: set<string>, now: Time, ok: bool)
    requires TimersOnce(w) && Reconciled(w, u, paths, failed, goals, refused, broken, now)
    requires paths <= w.loops && path in w.loops && path !in paths
    requires IsRound(u, v, path, GoalOf(goals, path), refused, broken, now, ok)
    ensures Reconciled(w, v, paths + {path}, if ok then failed else failed + {path}, goals, refused, broken, now)
  {
    NeedsStay(w, u, path, paths, goals, refused, broken);
    RoundAfterRounds(w, u, v);
    StillLeft(w, u, v, path, paths, goals, broken, now);
    StillOnlyNeeded(w, u, v, path, paths, goals, refused);
    StillHandled(w, u, v, path, paths, failed, goals, ok);
    StillReports(w, path, paths, failed, goals, refused, broken, ok);
  }

  lemma StillReports(w: World, path: string, paths: set<string>, failed: set<string>, goals: map<string, GoalModel.Goal>,
                     refused: set<string>, broken: set<string>, ok: bool)
    requires Reports(failed, w, paths, goals, refused, broken) && path !in paths
    requires ok <==> !Stuck(w, path, GoalOf(goals, path), refused, broken)
    ensures Reports(if ok then failed else failed + {path}, w, paths + {path}, goals, refused, broken)
  {
  }

  lemma StillHandled(w: World, u: World, v: World, path: string, paths: set<string>, failed: set<string>, goals: map<string, GoalModel.Goal>, ok: bool)
    requires Rounds(w, u) && Rounds(u, v) && paths <= w.loops && AllHandled(w, u, paths - failed, goals)
    requires path in u.files ==> u.files[path] == w.files[path]
    requires ok ==> Handled(u, v, path, GoalOf(goals, path))
    ensures AllHandled(w, v, paths + {path} - (if ok then failed else failed + {path}), goals)
  {
    StayHandled(w, u, v, paths - failed, goals);
    if ok {
      NowHandled(w, u, v, path, goals);
    }
    assert paths + {path} - (if ok then failed else failed + {path}) <= (paths - failed) + (if ok then {path} else {});
  }

  lemma CancelKeepsTimers(w: World, v: World, path: string, now: Time)
    requires TimersOnce(w) && path in w.files && w.files[path].status == Loop.Active
    requires v == w.(files := w.files[path := Loop.After(w.files[path], Loop.CancelLoop(w.files[path], now))])
    ensures TimersOnce(v) && Rounds(w, v)
  {
    var e := Act(path, LoopRuns.DoCancel, now);
    assert v.files == w.files[path := Loop.After(w.files[path], LoopRuns.Perform(w.files[path], LoopRuns.DoCancel, None, now))];
    assert WorldStep(w, v, e);
    ActKeepsTimers(w, v, path, LoopRuns.DoCancel, now);
    forall p, id | p in v.loops && WaitsFor(v, p, id) ensures WaitsFor(w, p, id) {
    }
  }

  // What a submission can be refused for besides a known id: its arguments, or the channel its
  // wake would go through.
  datatype Refusal = Refused | AlreadyExists

  class WaitDaemon {
    var watchers: Watchers
    var loops: set<string>
    // The loop files that can be read, which state commands change.
    var files: LoopFiles
    // The registry file.
    var saved: Watchers
    // Submissions of timers that a registered loop was waiting for.
    ghost var submitted: seq<string>

    constructor ()
      ensures watchers == saved == map[] && loops == {} && files == map[] && submitted == []
    {
      watchers, saved, loops, files, submitted := map[], map[], {}, map[], [];
    }

    ghost function Seen(): World
      reads this
    {
      World(watchers, loops, files, submitted)
    }

    // `save`
    method Save()
      modifies `watchers, `saved
      ensures Pruned(old(watchers), Protected(loops, files), watchers) && saved == watchers
    {
      var held := Protected(loops, files);
      var finished := Finished(watchers, held);
      var cut := if |finished| <= MAX_FINISHED_WATCHES then |finished| else MAX_FINISHED_WATCHES;
      for i := cut to |finished|
        invariant forall id :: id in watchers <==> id in old(watchers) && id !in finished[cut..i]
        invariant forall id :: id in watchers ==> watchers[id] == old(watchers)[id]
      {
        assert finished[cut..i + 1] == finished[cut..i] + [finished[i]];
        watchers := map id | id in watchers && id != finished[i] :: watchers[id];
      }
      assert finished[cut..|finished|] == finished[cut..];
      CutPrunes(old(watchers), held, finished, cut, watchers);
      saved := watchers;
    }

    // `submit`, given its id and whether arguments and notification channel are accepted.
    method Submit(id: string, accepted: bool, now: Time) returns (e: Option<Refusal>)
      modifies `watchers, `saved, `submitted
      ensures e.None? <==> accepted && id !in old(watchers)
      ensures e.None? ==> WorldStep(old(Seen()), Seen(), Event.Submit(id, now)) && id in watchers && saved == watchers
      ensures e.Some? ==> watchers == old(watchers) && saved == old(saved) && submitted == old(submitted)
    {
      if id in watchers {
        return Some(AlreadyExists);
      }
      if !accepted {
        return Some(Refused);
      }
      ghost var before := Seen();
      watchers := watchers[id := Watch(true, now)];
      Save();
      submitted := submitted + (if Awaited(before, id) then [id] else []);
      return None;
    }

    // A state command that cancels a loop, unless it fails.
    method CancelLoop(path: string, works: bool, now: Time)
      requires TimersOnce(Seen()) && path in files && files[path].status == Loop.Active
      modifies `files
      ensures files == if works then old(files)[path := Loop.After(old(files)[path], Loop.CancelLoop(old(files)[path], now))] else old(files)
      ensures TimersOnce(Seen()) && Rounds(old(Seen()), Seen())
    {
      if works {
        ghost var before := Seen();
        files := files[path := Loop.After(files[path], Loop.CancelLoop(files[path], now))];
        CancelKeepsTimers(before, Seen(), path, now);
      }
    }

    // One round of `reconcile_loops`; `goal` is the goal file of the loop's owner, `refused` the
    // timers whose submission is refused, and `broken` the loops whose state command fails.
    method ReconcileLoop(path: string, goal: Option<GoalModel.Goal>, refused: set<string>, broken: set<string>, now: Time) returns (ok: bool)
      requires TimersOnce(Seen()) && path in loops
      modifies `watchers, `saved, `submitted, `files
      ensures IsRound(old(Seen()), Seen(), path, goal, refused, broken, now, ok)
    {
      ghost var before := Seen();
      if path !in files {
        return true;
      }
      StaysAsItIs(before, path, goal, broken, now);
      if files[path].status == Loop.Active && !Loop.GoalIsOpen(files[path], goal) {
        CancelLoop(path, path !in broken, now);
        return path !in broken;
      }
      if !Loop.IsWaiting(files[path]) || files[path].watchId.None? || files[path].watchId.value in watchers {
        return true;
      }
      ok := SubmitTimer(path, files[path].watchId.value, refused, now);
    }

    // The timer of a waiting loop, unless it is refused.
    method SubmitTimer(path: string, id: string, refused: set<string>, now: Time) returns (ok: bool)
      requires TimersOnce(Seen()) && path in loops && WaitsFor(Seen(), path, id) && id !in watchers
      modifies `watchers, `saved, `submitted
      ensures TimersOnce(Seen()) && Rounds(old(Seen()), Seen()) && (ok <==> id !in refused) && (ok ==> id in watchers)
      ensures forall t :: t in watchers ==> t in old(watchers) || (t == id && id !in refused)
    {
      ghost var before := Seen();
      var e := Submit(id, id !in refused, now);
      if e.None? {
        WorldStepKeepsTimers(before, Seen(), Event.Submit(id, now));
        forall p, t | p in loops && WaitsFor(Seen(), p, t) && t in before.watchers ensures t in watchers {
          assert WaitsFor(before, p, t);
          WaitingTimerStays(before, Seen(), Event.Submit(id, now), p, t);
        }
      }
      return e.None?;
    }

    // `reconcile_loops`: every readable loop that waits gets its timer, loops of closed goals are
    // cancelled, exactly what is refused or fails is reported, and nothing else is changed.
    method ReconcileLoops(goals: map<string, GoalModel.Goal>, refused: set<string>, broken: set<string>, now: Time) returns (failed: set<string>)
      requires TimersOnce(Seen())
      modifies `watchers, `saved, `submitted, `files
      ensures Reconciled(old(Seen()), Seen(), loops, failed, goals, refused, broken, now)
    {
      failed := {};
      var rest := loops;
      ghost var first, past := Seen(), {};
      NothingReconciled(first, goals, refused, broken, now);
      while rest != {}
        invariant rest <= loops && past == loops - rest && loops == first.loops
        invariant Reconciled(first, Seen(), past, failed, goals, refused, broken, now)
        decreases rest
      {
        var path :| path in rest;
        ghost var before, reported := Seen(), failed;
        rest := rest - {path};
        var ok := ReconcileLoop(path, GoalOf(goals, path), refused, broken, now);
        failed := if ok then failed else failed + {path};
        RoundReconciles(first, before, Seen(), path, past, reported, goals, refused, broken, now, ok);
        past := past + {path};
      }
      assert past == loops;
    }
  }
}
