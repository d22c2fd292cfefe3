/**
 Runs of the callback scheduler: ticks claim due callbacks and attempt each one, providers deliver
 outcomes, and callers ask for new callbacks, in any order. Each action is one atomic step; an action
 that is not enabled leaves the state alone.
 */
module CallbackScheduler {
  import opened Wrappers
  import opened EarliestFirst
  import opened Callbacks
  import QuietHours
  import Time
  import RunLifecycle

  const CLAIM_LIMIT: nat := 25

  /** `claimed`: handed to a tick and not yet attempted. `owed`: runs whose call went out, that carry a
      callback id, and whose outcome the provider has still to report. */
  datatype System = System(store: Store, claimed: set<int>, owed: set<int>)

  datatype Action =
    | Ask(request: Request, now: int, userZone: string, zones: map<string, int>)
    | Claim(now: int, locked: set<int>, ids: seq<int>)
    | Try(id: int, world: World, releases: bool)
    | Deliver(run: int, status: string, reason: string, world: World)

  /** The callback a run's outcome is passed on to: the one in its gathered context, whether the run is
      still open or not. */
  function Reported(s: Store, run: int): Option<int> {
    if run in s.runs && Truthy(s.runs[run].gatheredCallback) then s.runs[run].gatheredCallback else None
  }

  function Report(s: Store, run: int, status: string, reason: string, w: World): Store {
    if Reported(s, run).None? || !RunLifecycle.ConcludesCallback(status) then s
    else HandleOutcome(s, Reported(s, run).value, status, reason, w).store
  }

  ghost function Step(y: System, a: Action): System {
    match a
    case Ask(request, now, userZone, zones) =>
      y.(store := ScheduleForRun(y.store, request, now, userZone, zones).0)
    case Claim(now, locked, ids) =>
      if !IsSelection(Due(y.store, locked, now), ids, CLAIM_LIMIT) then y
      else y.(store := MarkInProgress(y.store, Elements(ids)), claimed := y.claimed + Elements(ids))
    case Try(id, world, releases) =>
      if id !in y.claimed then y
      else y.(store := Attempt(y.store, id, world, releases), claimed := y.claimed - {id},
              owed := if Owes(y.store, id, world) then y.owed + {y.store.nextRun} else y.owed)
    case Deliver(run, status, reason, world) =>
      y.(store := Report(y.store, run, status, reason, world),
         owed := if RunLifecycle.ConcludesCallback(status) then y.owed - {run} else y.owed)
  }

  ghost function RunAll(y: System, actions: seq<Action>): System
    decreases |actions|
  {
    if actions == [] then y else RunAll(Step(y, actions[0]), actions[1..])
  }

  ghost predicate Initial(y: System) {
    y == System(Store(map[], map[], [], y.store.nextCallback, y.store.nextRun), {}, {})
  }

  // ---------- What every operation leaves alone ----------

  ghost predicate HasRun(s: Store, id: int) {
    exists r :: r in s.runs && s.runs[r].initialCallback == Some(id)
  }

  ghost predicate IdsBelowNext(s: Store) {
    (forall id :: id in s.callbacks ==> id < s.nextCallback) && (forall r :: r in s.runs ==> r < s.nextRun)
  }

  /** An operation on `id` touches no other row and only adds scheduled callbacks and new runs. */
  ghost predicate Frame(s: Store, s': Store, id: int) {
    && s.callbacks.Keys <= s'.callbacks.Keys
    && (forall j :: j in s.callbacks && j != id ==> s'.callbacks[j] == s.callbacks[j])
    && (forall j :: j in s'.callbacks && j !in s.callbacks ==> s'.callbacks[j].state == Scheduled)
    && (forall r :: r in s.runs ==> r in s'.runs && s'.runs[r].initialCallback == s.runs[r].initialCallback)
    && IdsBelowNext(s')
  }

  lemma OutcomeFrame(s: Store, id: int, status: string, reason: string, w: World)
    requires IdsBelowNext(s)
    ensures Frame(s, HandleOutcome(s, id, status, reason, w).store, id)
  {
  }

  lemma DialFrame(s: Store, id: int, run: int, w: World)
    requires IdsBelowNext(s) && run in s.runs && s.runs[run].initialCallback == Some(id)
    ensures Frame(s, Dial(s, id, run, w).store, id)
  {
    OutcomeFrame(SetRun(s, run, Run(Some(id), Some(id), true)), id, "failed", w.error, w);
  }

  /** The store just before dialling: the run is recorded and the call is on the log. */
  function BeforeDial(s: Store, id: int, w: World): Store
    requires id in s.callbacks
  {
    SetRun(s, s.nextRun, Run(Some(id), None, false))
      .(nextRun := s.nextRun + 1, calls := s.calls + [Call(id, w.now, OffsetOf(s.callbacks[id], w))])
  }

  /** The offset of the zone the callback names, or else of its user's; UTC if that is empty or unknown. */
  function LocalOffset(cb: Callback, w: World): int {
    if cb.timezone.Some? && cb.timezone.value != "" then
      (if cb.timezone.value in w.zones then w.zones[cb.timezone.value] else 0)
    else if w.userZone != "" && w.userZone in w.zones then w.zones[w.userZone]
    else 0
  }

  /** From 08:00 to before 22:00 local time, in microseconds of the local day. */
  predicate ByDay(cb: Callback, w: World) {
    28_800_000_000 <= (w.now + LocalOffset(cb, w)) % 86_400_000_000 < 79_200_000_000
  }

  lemma ByDayIsNotQuiet(cb: Callback, w: World)
    ensures OffsetOf(cb, w) == LocalOffset(cb, w)
    ensures ByDay(cb, w) <==> !QuietHours.IsQuiet(w.now, OffsetOf(cb, w))
  {
    QuietHours.QuietFromTenToEight(w.now, OffsetOf(cb, w));
  }

  /** When a placement gets as far as dialling, stated on what a caller can see beforehand. */
  predicate Dials(s: Store, id: int, w: World) {
    && w.broken !! {LoadCallback, LoadWorkflow, ValidateProvider, CreateRun, Endpoints}
    && id in s.callbacks && s.callbacks[id].state in {InProgress, Scheduled}
    && ByDay(s.callbacks[id], w)
    && w.workflowOwner.Some?
    && (w.quota == Exhausted ==> PostponeForQuota in w.broken)
    && w.provider == Ready
    && (Truthy(s.callbacks[id].user) ==> s.callbacks[id].user == w.workflowOwner)
  }

  /** The provider took the call, whether or not its answer could be recorded. An `initiate_call` that
      raises although the provider took the call, because the answer was lost, counts as `RecordRun`:
      the handler does the same. */
  predicate CallOut(s: Store, id: int, w: World) {
    Dials(s, id, w) && Initiate !in w.broken
  }

  /** The call went out and its run was left with a callback id, so a status callback will be passed on. */
  predicate Owes(s: Store, id: int, w: World) {
    CallOut(s, id, w) && Reported(Place(s, id, w).store, s.nextRun).Some?
  }

  lemma ProceedsExactlyWhenDialling(s: Store, id: int, w: World)
    ensures Dials(s, id, w) <==>
            w.broken !! {LoadCallback, Endpoints} && id in s.callbacks && Decide(s.callbacks[id], w) == Proceed
  {
    if id in s.callbacks {
      ByDayIsNotQuiet(s.callbacks[id], w);
    }
  }

  lemma OutcomeMakesNoCall(s: Store, id: int, status: string, reason: string, w: World)
    ensures HandleOutcome(s, id, status, reason, w).store.calls == s.calls
  {
  }

  /** A placement makes a call exactly when it dials; then it makes one, for this callback, at this
      instant, in its own offset. In particular an exhausted quota does not stop it when recording
      the postponement raises. */
  lemma CallsExactlyWhenDialling(s: Store, id: int, w: World)
    ensures Dials(s, id, w) ==>
              && Place(s, id, w) == Dial(BeforeDial(s, id, w), id, s.nextRun, w)
              && Place(s, id, w).store.calls == s.calls + [Call(id, w.now, OffsetOf(s.callbacks[id], w))]
    ensures !Dials(s, id, w) ==> Place(s, id, w).store.calls == s.calls
  {
    ProceedsExactlyWhenDialling(s, id, w);
    if Dials(s, id, w) {
      var b := BeforeDial(s, id, w);
      OutcomeMakesNoCall(SetRun(b, s.nextRun, Run(Some(id), Some(id), true)), id, "failed", w.error, w);
    }
  }

  /** Rows keep their place in the retry forest, and no callback appears. */
  ghost predicate SameForest(s: Store, s': Store) {
    && s'.callbacks.Keys == s.callbacks.Keys && s'.nextCallback == s.nextCallback
    && forall j :: j in s.callbacks ==>
         s'.callbacks[j].parent == s.callbacks[j].parent && s'.callbacks[j].retryCount == s.callbacks[j].retryCount
  }

  lemma PlaceWithoutDial(s: Store, id: int, w: World)
    requires IdsBelowNext(s) && !Dials(s, id, w)
    ensures Frame(s, Place(s, id, w).store, id)
    ensures SameForest(s, Place(s, id, w).store)
    ensures Place(s, id, w).run.None?
  {
    ProceedsExactlyWhenDialling(s, id, w);
  }

  lemma PlaceFrame(s: Store, id: int, w: World)
    requires IdsBelowNext(s)
    ensures Frame(s, Place(s, id, w).store, id)
  {
    if !Dials(s, id, w) {
      PlaceWithoutDial(s, id, w);
    } else {
      CallsExactlyWhenDialling(s, id, w);
      var b := BeforeDial(s, id, w);
      DialFrame(b, id, s.nextRun, w);
      assert Frame(s, b, id);
      var e := Dial(b, id, s.nextRun, w).store;
      forall j | j in e.callbacks && j !in s.callbacks ensures e.callbacks[j].state == Scheduled {
        assert j !in b.callbacks;
      }
    }
  }

  // ---------- No callback is stranded ----------

  /** Not in progress, or in progress with a run that carries the callback's id. */
  ghost predicate Settled(s: Store, id: int) {
    id in s.callbacks && s.callbacks[id].state == InProgress ==> HasRun(s, id)
  }

  /** The placement raises before it has created a run: some step it gets to raises, or the callback names a
      user who does not own the workflow. */
  predicate RaisesBeforeRun(cb: Callback, w: World) {
    || LoadCallback in w.broken
    || (cb.state in {InProgress, Scheduled} &&
          if !ByDay(cb, w) then Postpone in w.broken
          else LoadWorkflow in w.broken || RaisesInChecks(cb, w))
  }

  /** The same for the checks made once it is day and the workflow was looked up. */
  predicate RaisesInChecks(cb: Callback, w: World) {
    if w.workflowOwner.None? then MarkFailed in w.broken
    else if w.quota == Exhausted && PostponeForQuota !in w.broken then false
    else if w.provider == Unavailable then MarkFailed in w.broken
    else if ValidateProvider in w.broken then true
    else if w.provider != Ready then MarkFailed in w.broken
    else CreateRun in w.broken || (cb.user.Some? && cb.user.value != 0 && cb.user != w.workflowOwner)
  }

  /** A placement leaves everything as it was and raises exactly when it raises before creating a run. */
  lemma RaisingChangesNothing(s: Store, id: int, w: World)
    requires IdsBelowNext(s) && id in s.callbacks
    ensures Place(s, id, w) == Placement(s, true, None) <==> RaisesBeforeRun(s.callbacks[id], w)
    ensures LoadCallback !in w.broken ==> (Decide(s.callbacks[id], w) == Raise <==> RaisesBeforeRun(s.callbacks[id], w))
  {
    ByDayIsNotQuiet(s.callbacks[id], w);
    CallsExactlyWhenDialling(s, id, w);
    assert s.nextRun !in s.runs;
    assert SetRun(s, s.nextRun, Run(Some(id), None, false)).runs != s.runs;
  }

  /** The one way an attempt can strand its callback: the placement raises before creating a run, no
      earlier attempt created one, and the release raises too. */
  lemma AttemptSettlesIffReleased(s: Store, id: int, w: World, releases: bool)
    requires IdsBelowNext(s) && id in s.callbacks && s.callbacks[id].state == InProgress
    ensures Settled(Attempt(s, id, w, releases), id) <==>
            releases || HasRun(s, id) || !RaisesBeforeRun(s.callbacks[id], w)
  {
    var p := Place(s, id, w);
    PlaceFrame(s, id, w);
    CallsExactlyWhenDialling(s, id, w);
    ProceedsExactlyWhenDialling(s, id, w);
    RaisingChangesNothing(s, id, w);
    if HasRun(s, id) {
      var r :| r in s.runs && s.runs[r].initialCallback == Some(id);
      assert p.store.runs[r].initialCallback == Some(id);
    }
    if Dials(s, id, w) {
      var b := BeforeDial(s, id, w);
      DialFrame(b, id, s.nextRun, w);
      assert b.runs[s.nextRun].initialCallback == Some(id);
      assert p.store.runs[s.nextRun].initialCallback == Some(id);
    } else if Decide(s.callbacks[id], w) == Proceed && LoadCallback !in w.broken {
      assert p.store.runs[s.nextRun].initialCallback == Some(id);
    }
  }

  ghost predicate NobodyStranded(y: System) {
    && IdsBelowNext(y.store)
    && forall id :: id in y.store.callbacks && id !in y.claimed ==> Settled(y.store, id)
  }

  lemma FrameKeepsSettled(s: Store, s': Store, id: int, j: int)
    requires Frame(s, s', id) && j != id && Settled(s, j)
    ensures Settled(s', j)
  {
    if j in s.callbacks && s.callbacks[j].state == InProgress {
      var r :| r in s.runs && s.runs[r].initialCallback == Some(j);
      assert r in s'.runs && s'.runs[r].initialCallback == Some(j);
    }
  }

  lemma AskFrame(s: Store, r: Request, now: int, userZone: string, zones: map<string, int>)
    requires IdsBelowNext(s)
    ensures var s' := ScheduleForRun(s, r, now, userZone, zones).0;
            && s'.runs == s.runs && s'.calls == s.calls && IdsBelowNext(s') && s.callbacks.Keys <= s'.callbacks.Keys
            && (forall j :: j in s.callbacks && s.callbacks[j].state != Scheduled ==> s'.callbacks[j] == s.callbacks[j])
            && (forall j :: j in s'.callbacks && !(j in s.callbacks && s.callbacks[j].state != Scheduled) ==>
                  s'.callbacks[j].state == Scheduled)
            && (forall j :: j in s.callbacks ==>
                  s'.callbacks[j].parent == s.callbacks[j].parent
                    && s'.callbacks[j].retryCount == s.callbacks[j].retryCount)
            && (forall j :: j in s'.callbacks && j !in s.callbacks ==>
                  s'.callbacks[j].parent == None && s'.callbacks[j].retryCount == 0)
  {
  }

  lemma StepKeepsUnstranded(y: System, a: Action)
    requires NobodyStranded(y) && (a.Try? ==> a.releases)
    ensures NobodyStranded(Step(y, a))
  {
    var s, y' := y.store, Step(y, a);
    match a
    case Ask(r, now, userZone, zones) =>
      AskFrame(s, r, now, userZone, zones);
      forall j | j in y'.store.callbacks && j !in y'.claimed ensures Settled(y'.store, j) {
        if j in s.callbacks && s.callbacks[j].state == InProgress {
          assert Settled(s, j);
        }
      }
    case Claim(_, _, _) =>
      forall j | j in y'.store.callbacks && j !in y'.claimed ensures Settled(y'.store, j) {
        assert Settled(s, j);
      }
    case Try(id, w, _) =>
      if id in y.claimed {
        PlaceFrame(s, id, w);
        if id in s.callbacks && s.callbacks[id].state == InProgress {
          AttemptSettlesIffReleased(s, id, w, true);
        }
        forall j | j in y'.store.callbacks && j !in y'.claimed ensures Settled(y'.store, j) {
          if j != id && j in s.callbacks {
            FrameKeepsSettled(s, Place(s, id, w).store, id, j);
          }
          if j == id {
            NotInProgressStaysSettled(s, id, w);
          }
        }
      }
    case Deliver(run, status, reason, w) =>
      var id := Reported(s, run).GetOr(0);
      OutcomeFrame(s, id, status, reason, w);
      forall j | j in y'.store.callbacks && j !in y'.claimed ensures Settled(y'.store, j) {
        if j != id && j in s.callbacks {
          FrameKeepsSettled(s, y'.store, id, j);
        } else if j == id && j in s.callbacks && s.callbacks[j].state == InProgress {
          assert Settled(s, j);
          var r :| r in s.runs && s.runs[r].initialCallback == Some(j);
          assert r in y'.store.runs && y'.store.runs[r].initialCallback == Some(j);
        }
      }
  }

  /** Attempting a callback that is no longer in progress never makes it in progress. */
  lemma NotInProgressStaysSettled(s: Store, id: int, w: World)
    requires IdsBelowNext(s)
    requires id in s.callbacks && s.callbacks[id].state == InProgress ==> Settled(Attempt(s, id, w, true), id)
    ensures Settled(Attempt(s, id, w, true), id)
  {
    PlaceFrame(s, id, w);
    CallsExactlyWhenDialling(s, id, w);
  }

  lemma {:induction false} RunKeepsUnstranded(y: System, actions: seq<Action>)
    requires NobodyStranded(y)
    requires forall k :: 0 <= k < |actions| && actions[k].Try? ==> actions[k].releases
    ensures NobodyStranded(RunAll(y, actions))
    decreases |actions|
  {
    if actions != [] {
      StepKeepsUnstranded(y, actions[0]);
      RunKeepsUnstranded(Step(y, actions[0]), actions[1..]);
    }
  }

  /** Whatever raises, in whatever interleaving, as long as releases themselves succeed: a claimed
      callback whose attempt is over is scheduled, failed, completed or cancelled, or in progress with a
      run carrying its id. */
  lemma NoCallbackIsStranded(y: System, actions: seq<Action>, id: int)
    requires Initial(y)
    requires forall k :: 0 <= k < |actions| && actions[k].Try? ==> actions[k].releases
    ensures var e := RunAll(y, actions);
            id in e.store.callbacks && id !in e.claimed && e.store.callbacks[id].state == InProgress ==>
              HasRun(e.store, id)
  {
    RunKeepsUnstranded(y, actions);
    assert id in RunAll(y, actions).store.callbacks && id !in RunAll(y, actions).claimed ==>
      Settled(RunAll(y, actions).store, id);
  }

  /** Releasing is needed: if loading the callback raises and so does the release, a claimed callback
      stays in progress with no run, for ever unclaimable. */
  lemma FailedReleaseStrands(s: Store, id: int, w: World)
    requires id in s.callbacks && s.callbacks[id].state == InProgress && !HasRun(s, id)
    requires LoadCallback in w.broken
    ensures !Settled(Attempt(s, id, w, false), id)
  {
  }

  // ---------- No call in quiet hours ----------

  /** A call was handed over in a placement, by day in the zone its callback then had. */
  ghost predicate CalledByDay(y: System, a: Action, call: Call) {
    && a.Try? && a.id in y.claimed && a.id in y.store.callbacks
    && ByDay(y.store.callbacks[a.id], a.world)
    && call == Call(a.id, a.world.now, LocalOffset(y.store.callbacks[a.id], a.world))
  }

  lemma StepCallsByDay(y: System, a: Action)
    ensures y.store.calls <= Step(y, a).store.calls
    ensures forall i :: |y.store.calls| <= i < |Step(y, a).store.calls| ==> CalledByDay(y, a, Step(y, a).store.calls[i])
  {
    match a
    case Ask(_, _, _, _) =>
    case Claim(_, _, _) =>
    case Try(id, w, _) =>
      CallsExactlyWhenDialling(y.store, id, w);
      if id in y.store.callbacks {
        ByDayIsNotQuiet(y.store.callbacks[id], w);
      }
    case Deliver(run, status, reason, w) =>
      OutcomeMakesNoCall(y.store, Reported(y.store, run).GetOr(0), status, reason, w);
  }

  lemma {:induction false} CallsAreKept(y: System, actions: seq<Action>)
    ensures y.store.calls <= RunAll(y, actions).store.calls
    decreases |actions|
  {
    if actions != [] {
      StepCallsByDay(y, actions[0]);
      CallsAreKept(Step(y, actions[0]), actions[1..]);
    }
  }

  /** Over every run each call was made by some action of it, k, at an instant that was day, from 08:00 to
      before 22:00, in the zone the callback had at that moment. */
  lemma {:induction false} NoCallInQuietHours(y: System, actions: seq<Action>, i: int) returns (k: int)
    requires |y.store.calls| <= i < |RunAll(y, actions).store.calls|
    ensures 0 <= k < |actions|
    ensures CalledByDay(RunAll(y, actions[..k]), actions[k], RunAll(y, actions).store.calls[i])
    decreases |actions|
  {
    var y1, rest := Step(y, actions[0]), actions[1..];
    StepCallsByDay(y, actions[0]);
    CallsAreKept(y1, rest);
    if i < |y1.store.calls| {
      k := 0;
      assert actions[..0] == [];
    } else {
      var j := NoCallInQuietHours(y1, rest, i);
      k := j + 1;
      assert actions[..k][0] == actions[0] && actions[..k][1..] == rest[..j];
    }
  }

  /** A placement attempted in quiet hours only reschedules, to the earliest allowed instant, which is
      08:00 local time. */
  lemma QuietPlacementReschedules(s: Store, id: int, w: World)
    requires id in s.callbacks && s.callbacks[id].state in {InProgress, Scheduled}
    requires !ByDay(s.callbacks[id], w) && w.broken !! {LoadCallback, Postpone}
    ensures var s', offset := Place(s, id, w).store, LocalOffset(s.callbacks[id], w);
            var later := s'.callbacks[id].scheduledFor;
            && s' == s.(callbacks := s.callbacks[id := s.callbacks[id].(state := Scheduled, scheduledFor := later)])
            && QuietHours.IsEarliestAllowed(later, w.now, offset)
            && (later + offset) % 86_400_000_000 == 28_800_000_000
  {
    var cb := s.callbacks[id];
    ByDayIsNotQuiet(cb, w);
    QuietHours.RollForwardIsEarliest(w.now, OffsetOf(cb, w));
    QuietHours.QuietFromTenToEight(w.now, OffsetOf(cb, w));
  }

  /** By day, with a workflow and an exhausted quota, a placement only postpones by an hour; made at
      21:00 local time or later that leaves a callback scheduled for a quiet instant, so the check at
      placement time is needed. */
  lemma QuotaPostponementCanBeQuiet(s: Store, id: int, w: World)
    requires id in s.callbacks && s.callbacks[id].state in {InProgress, Scheduled}
    requires ByDay(s.callbacks[id], w) && w.workflowOwner.Some? && w.quota == Exhausted
    requires w.broken !! {LoadCallback, LoadWorkflow, PostponeForQuota}
    ensures var cb, later := s.callbacks[id], w.now + 3_600_000_000;
            && Place(s, id, w).store == s.(callbacks := s.callbacks[id := cb.(
                 state := Scheduled, scheduledFor := later, failure := Some("quota_exceeded"))])
            && (QuietHours.IsQuiet(later, LocalOffset(cb, w)) <==>
                (w.now + LocalOffset(cb, w)) % 86_400_000_000 >= 75_600_000_000)
  {
    var cb := s.callbacks[id];
    ByDayIsNotQuiet(cb, w);
    QuietHours.QuietFromTenToEight(w.now + QUOTA_DELAY, OffsetOf(cb, w));
    QuietHours.TimeOfDayAdvances(w.now, w.now + QUOTA_DELAY, OffsetOf(cb, w));
  }

  // ---------- How placements and attempts end ----------

  ghost predicate FailedWith(s: Store, s': Store, id: int, why: string)
    requires id in s.callbacks
  {
    s' == s.(callbacks := s.callbacks[id := s.callbacks[id].(state := Failed, failure := Some(why))])
  }

  /** By day, with nothing raising, the first check that fails names the reason. */
  lemma FailedChecksNameTheReason(s: Store, id: int, w: World)
    requires id in s.callbacks && s.callbacks[id].state in {InProgress, Scheduled} && ByDay(s.callbacks[id], w)
    requires w.broken !! {LoadCallback, LoadWorkflow, MarkFailed, ValidateProvider}
    ensures var s' := Place(s, id, w).store;
            && (w.workflowOwner.None? ==> FailedWith(s, s', id, "workflow_not_found"))
            && (w.workflowOwner.Some? && w.quota != Exhausted ==>
                  && (w.provider == Unavailable ==> FailedWith(s, s', id, "no_provider: " + w.error))
                  && (w.provider == Misconfigured ==> FailedWith(s, s', id, "provider_not_configured"))
                  && (w.provider == WithoutNumbers ==> FailedWith(s, s', id, "no_from_number")))
  {
    ByDayIsNotQuiet(s.callbacks[id], w);
  }

  /** What a call leaves behind: one new run that names the callback, open and reporting to it when the
      provider took the call and the answer was recorded, closed when the attempt failed. */
  lemma CallLeavesItsRun(s: Store, id: int, w: World)
    requires IdsBelowNext(s) && Dials(s, id, w)
    ensures var p := Place(s, id, w);
            && (w.broken !! {Initiate, RecordRun} ==>
                  && !p.raised && p.run == Some(s.nextRun) && p.store.callbacks == s.callbacks
                  && p.store.runs == s.runs[s.nextRun :=
                       Run(Some(id), if w.metadataCallback.Some? then w.metadataCallback else Some(id), false)])
            && (!(w.broken !! {Initiate, RecordRun}) ==>
                  p.store.runs == s.runs[s.nextRun := if CloseRun in w.broken then Run(Some(id), None, false)
                                                      else Run(Some(id), Some(id), true)])
  {
    CallsExactlyWhenDialling(s, id, w);
  }

  /** What a recorded outcome does to the rows: "completed" completes, the four retryable statuses fail an
      original and add its retry, and everything else, such as "no-answer" or "voicemail", only fails. */
  lemma OutcomesEndTheirCallback(s: Store, id: int, status: string, reason: string, w: World)
    requires IdsBelowNext(s) && id in s.callbacks && w.broken !! {LoadOutcome, CreateChild, MarkOutcome}
    ensures var s', cb := HandleOutcome(s, id, status, reason, w).store, s.callbacks[id];
            var failed := cb.(state := Failed, failure := Some(if reason != "" then reason else status));
            if status == "completed" then s'.callbacks == s.callbacks[id := cb.(state := Completed)]
            else if status in {"busy", "failed", "canceled", "error"} && cb.retryCount == 0 then
              && s'.callbacks.Keys == s.callbacks.Keys + {s.nextCallback}
              && s'.callbacks - {s.nextCallback} == s.callbacks[id := failed]
              && s'.callbacks[s.nextCallback].parent == Some(id)
            else s'.callbacks == s.callbacks[id := failed]
  {
    assert s.nextCallback !in s.callbacks;
  }

  // ---------- What becomes due ----------

  /** A retry keeps its parent's destination and waits two hours, then until calling is allowed. */
  lemma RetryWaitsForAllowedTime(s: Store, id: int, status: string, reason: string, w: World)
    requires IdsBelowNext(s) && SpawnsRetry(s, id, status, w)
    ensures var s' := HandleOutcome(s, id, status, reason, w).store;
            var child, parent := s'.callbacks[s.nextCallback], s.callbacks[id];
            && child == parent.(scheduledFor := child.scheduledFor, timezone := child.timezone, state := Scheduled,
                                failure := None, retryCount := 1, parent := Some(id))
            && child.timezone == (if parent.timezone.Some? && parent.timezone.value != "" then parent.timezone
                                  else Some(w.userZone))
            && LocalOffset(child, w) == LocalOffset(parent, w)
            && QuietHours.IsEarliestAllowed(child.scheduledFor, w.now + 7_200_000_000, LocalOffset(child, w))
  {
    ByDayIsNotQuiet(s.callbacks[id], w);
    QuietHours.RollForwardIsEarliest(w.now + RETRY_DELAY, OffsetOf(s.callbacks[id], w));
  }

  /** What a raising step leaves of an outcome: nothing is done if loading raises or there is no such
      callback, or if the only row to write cannot be written; a stored retry stays though its parent could
      not be marked. */
  lemma RaisedOutcomesAreCutShort(s: Store, id: int, status: string, reason: string, w: World)
    requires IdsBelowNext(s)
    ensures var r := HandleOutcome(s, id, status, reason, w);
            && (LoadOutcome in w.broken ==> r == Result(s, true))
            && (LoadOutcome !in w.broken && id !in s.callbacks ==> r == Result(s, false))
            && (LoadOutcome !in w.broken && id in s.callbacks ==>
                  var retried := status in {"busy", "failed", "canceled", "error"} && s.callbacks[id].retryCount == 0;
                  && (r.raised <==> MarkOutcome in w.broken || (retried && CreateChild in w.broken))
                  && (retried && CreateChild in w.broken ==> r.store == s)
                  && (!retried && MarkOutcome in w.broken ==> r.store == s)
                  && (retried && CreateChild !in w.broken && MarkOutcome in w.broken ==>
                        r.store.callbacks - {s.nextCallback} == s.callbacks && s.nextCallback in r.store.callbacks))
  {
    assert s.nextCallback !in s.callbacks;
  }

  lemma PostponementIsLater(cb: Callback, w: World)
    ensures match Decide(cb, w)
            case Change(state, when, _) => state == Failed || (state == Scheduled && when.Some? && when.value > w.now)
            case _ => true
  {
    QuietHours.RollForwardIsEarliest(w.now, OffsetOf(cb, w));
  }

  lemma FailureMakesNothingDue(s: Store, id: int, w: World)
    requires IdsBelowNext(s) && id in s.callbacks && s.callbacks[id].state == InProgress
    ensures var r := HandleOutcome(s, id, "failed", w.error, w);
            && Due(r.store, {}, w.now).Keys == Due(s, {}, w.now).Keys
            && (r.raised ==> r.store.callbacks[id] == s.callbacks[id])
  {
    var s' := HandleOutcome(s, id, "failed", w.error, w).store;
    QuietHours.RollForwardIsEarliest(w.now + RETRY_DELAY, OffsetOf(s.callbacks[id], w));
    OutcomeFrame(s, id, "failed", w.error, w);
    forall j ensures j in Due(s', {}, w.now) <==> j in Due(s, {}, w.now) {
      assert j in s.callbacks && j != id ==> s'.callbacks[j] == s.callbacks[j];
      assert j in s'.callbacks && j !in s.callbacks ==> s'.callbacks[j].scheduledFor > w.now;
    }
  }

  ghost predicate PlacedWithoutDue(s: Store, id: int, w: World)
    requires id in s.callbacks
  {
    var p := Place(s, id, w);
    && Due(p.store, {}, w.now).Keys == Due(s, {}, w.now).Keys
    && p.store.callbacks.Keys >= s.callbacks.Keys
    && (p.raised ==> p.store.callbacks[id] == s.callbacks[id])
  }

  lemma DialMakesNothingDue(s: Store, id: int, w: World)
    requires IdsBelowNext(s) && id in s.callbacks && s.callbacks[id].state == InProgress && Dials(s, id, w)
    ensures PlacedWithoutDue(s, id, w)
  {
    CallsExactlyWhenDialling(s, id, w);
    PlaceFrame(s, id, w);
    var c := SetRun(BeforeDial(s, id, w), s.nextRun, Run(Some(id), Some(id), true));
    FailureMakesNothingDue(c, id, w);
    assert c.callbacks == s.callbacks;
  }

  lemma ScreeningMakesNothingDue(s: Store, id: int, w: World)
    requires IdsBelowNext(s) && id in s.callbacks && s.callbacks[id].state == InProgress && !Dials(s, id, w)
    ensures PlacedWithoutDue(s, id, w)
  {
    ProceedsExactlyWhenDialling(s, id, w);
    PostponementIsLater(s.callbacks[id], w);
    var s' := Place(s, id, w).store;
    forall j ensures j in Due(s', {}, w.now) <==> j in Due(s, {}, w.now) {
    }
  }

  /** An attempt makes nothing due again at its own instant, so a tick cannot feed itself, except its
      own callback when the placement raised and the release put it back. */
  lemma OnlyReleasesAreDueAgain(s: Store, id: int, w: World, releases: bool)
    requires IdsBelowNext(s) && id in s.callbacks && s.callbacks[id].state == InProgress
    ensures Due(Attempt(s, id, w, releases), {}, w.now).Keys ==
            Due(s, {}, w.now).Keys +
            if Place(s, id, w).raised && releases && s.callbacks[id].scheduledFor <= w.now then {id} else {}
  {
    if Dials(s, id, w) {
      DialMakesNothingDue(s, id, w);
    } else {
      ScreeningMakesNothingDue(s, id, w);
    }
    ReleaseMakesDue(Place(s, id, w).store, id, w.now);
  }

  lemma ReleaseMakesDue(s: Store, id: int, now: int)
    requires id in s.callbacks
    ensures var s' := Update(s, id, Some(Scheduled), None, None, None);
            Due(s', {}, now).Keys == Due(s, {}, now).Keys + if s.callbacks[id].scheduledFor <= now then {id} else {}
  {
  }

  // ---------- The retry forest ----------

  /** Retries have a parent and count 1; everything else has neither. */
  ghost predicate ForestRow(s: Store, id: int)
    requires id in s.callbacks
  {
    var cb := s.callbacks[id];
    match cb.parent
    case None => cb.retryCount == 0
    case Some(p) => cb.retryCount == 1 && p in s.callbacks && s.callbacks[p].retryCount == 0 && p < id
  }

  ghost predicate Forest(s: Store) {
    IdsBelowNext(s) && forall id :: id in s.callbacks ==> ForestRow(s, id)
  }

  /** What an outcome does to the forest: at most one new row, a retry of `id`. */
  predicate SpawnsRetry(s: Store, id: int, status: string, w: World) {
    && id in s.callbacks && Retryable(status) && s.callbacks[id].retryCount == 0
    && w.broken !! {LoadOutcome, CreateChild}
  }

  ghost predicate GrownBy(s: Store, s': Store, parent: int) {
    && s'.callbacks.Keys == s.callbacks.Keys + {s.nextCallback} && s'.nextCallback == s.nextCallback + 1
    && (forall j :: j in s.callbacks ==>
          s'.callbacks[j].parent == s.callbacks[j].parent && s'.callbacks[j].retryCount == s.callbacks[j].retryCount)
    && s'.callbacks[s.nextCallback].parent == Some(parent) && s'.callbacks[s.nextCallback].retryCount == 1
  }

  /** Whether a report on a run spawns a retry of `c`. */
  predicate ReportSpawns(s: Store, run: int, status: string, w: World, c: int) {
    Reported(s, run) == Some(c) && RunLifecycle.ConcludesCallback(status) && SpawnsRetry(s, c, status, w)
  }

  lemma ReportForest(s: Store, run: int, status: string, reason: string, w: World)
    requires IdsBelowNext(s)
    ensures var s', c := Report(s, run, status, reason, w), Reported(s, run);
            && (if c.Some? && ReportSpawns(s, run, status, w, c.value) then GrownBy(s, s', c.value)
                 else SameForest(s, s'))
            && IdsBelowNext(s') && s'.runs == s.runs
  {
    if Reported(s, run).Some? {
      OutcomeForest(s, Reported(s, run).value, status, reason, w);
    }
  }

  lemma OutcomeForest(s: Store, id: int, status: string, reason: string, w: World)
    requires IdsBelowNext(s)
    ensures var s' := HandleOutcome(s, id, status, reason, w).store;
            if SpawnsRetry(s, id, status, w) then GrownBy(s, s', id) else SameForest(s, s')
  {
  }

  /** An attempt spawns a retry when it dials, the provider or the record of its answer raises, and the
      failure can be closed and handled. */
  predicate AttemptSpawns(s: Store, id: int, w: World) {
    && Dials(s, id, w) && (Initiate in w.broken || RecordRun in w.broken)
    && s.callbacks[id].retryCount == 0 && w.broken !! {CloseRun, LoadOutcome, CreateChild}
  }

  lemma AttemptForest(s: Store, id: int, w: World, releases: bool)
    requires IdsBelowNext(s)
    ensures var s' := Attempt(s, id, w, releases);
            && (if AttemptSpawns(s, id, w) then GrownBy(s, s', id) else SameForest(s, s'))
            && IdsBelowNext(s')
  {
    PlaceFrame(s, id, w);
    if !Dials(s, id, w) {
      PlaceWithoutDial(s, id, w);
    } else {
      DialForest(s, id, w);
    }
  }

  lemma DialForest(s: Store, id: int, w: World)
    requires IdsBelowNext(s) && Dials(s, id, w)
    ensures var s' := Place(s, id, w).store;
            if AttemptSpawns(s, id, w) then GrownBy(s, s', id) else SameForest(s, s')
  {
    CallsExactlyWhenDialling(s, id, w);
    var b := BeforeDial(s, id, w);
    var c := SetRun(b, s.nextRun, Run(Some(id), Some(id), true));
    OutcomeForest(c, id, "failed", w.error, w);
  }

  lemma GrowthKeepsForest(s: Store, s': Store, parent: int)
    requires Forest(s) && GrownBy(s, s', parent) && IdsBelowNext(s')
    requires parent in s.callbacks && s.callbacks[parent].retryCount == 0
    ensures Forest(s')
  {
    forall id | id in s'.callbacks ensures ForestRow(s', id) {
      if id in s.callbacks {
        assert ForestRow(s, id);
      }
    }
  }

  lemma SameForestKeepsForest(s: Store, s': Store)
    requires Forest(s) && SameForest(s, s') && IdsBelowNext(s')
    ensures Forest(s')
  {
    forall id | id in s'.callbacks ensures ForestRow(s', id) {
      assert ForestRow(s, id);
    }
  }

  lemma StepKeepsForest(y: System, a: Action)
    requires Forest(y.store)
    ensures Forest(Step(y, a).store)
  {
    var s, s' := y.store, Step(y, a).store;
    match a
    case Ask(r, now, userZone, zones) =>
      AskFrame(s, r, now, userZone, zones);
      forall id | id in s'.callbacks ensures ForestRow(s', id) {
        if id in s.callbacks {
          assert ForestRow(s, id);
        }
      }
    case Claim(_, _, _) => SameForestKeepsForest(s, s');
    case Try(id, w, releases) =>
      if id in y.claimed {
        AttemptForest(s, id, w, releases);
        if AttemptSpawns(s, id, w) {
          GrowthKeepsForest(s, s', id);
        } else {
          SameForestKeepsForest(s, s');
        }
      }
    case Deliver(run, status, reason, w) =>
      ReportForest(s, run, status, reason, w);
      var c := Reported(s, run);
      if c.Some? && ReportSpawns(s, run, status, w, c.value) {
        GrowthKeepsForest(s, s', c.value);
      } else {
        SameForestKeepsForest(s, s');
      }
  }

  lemma {:induction false} RunKeepsForest(y: System, actions: seq<Action>)
    requires Forest(y.store)
    ensures Forest(RunAll(y, actions).store)
    decreases |actions|
  {
    if actions != [] {
      StepKeepsForest(y, actions[0]);
      RunKeepsForest(Step(y, actions[0]), actions[1..]);
    }
  }

  /** A chain of retries: each row is the parent of the next. */
  ghost predicate IsChain(s: Store, chain: seq<int>) {
    && (forall i :: 0 <= i < |chain| ==> chain[i] in s.callbacks)
    && (forall i :: 0 <= i < |chain| - 1 ==> s.callbacks[chain[i + 1]].parent == Some(chain[i]))
  }

  lemma NoGrandchildren(s: Store, a: int, b: int, c: int)
    requires Forest(s) && b in s.callbacks && c in s.callbacks
    ensures !(s.callbacks[b].parent == Some(a) && s.callbacks[c].parent == Some(b))
  {
    assert ForestRow(s, b) && ForestRow(s, c);
  }

  /** In every reachable state the retry count is 1 exactly for rows with a parent and 0 otherwise,
      parents have count 0, and no chain of retries is longer than two, whatever outcomes arrived. */
  lemma RetryChainsAreShort(y: System, actions: seq<Action>, chain: seq<int>)
    requires Initial(y)
    ensures Forest(RunAll(y, actions).store)
    ensures IsChain(RunAll(y, actions).store, chain) ==> |chain| <= 2
  {
    RunKeepsForest(y, actions);
    var s := RunAll(y, actions).store;
    if IsChain(s, chain) && |chain| > 2 {
      assert s.callbacks[chain[0 + 1]].parent == Some(chain[0]);
      NoGrandchildren(s, chain[0], chain[1], chain[1 + 1]);
    }
  }

  // ---------- How many retries ----------

  ghost function Children(s: Store, c: int): set<int> {
    set id | id in s.callbacks && s.callbacks[id].parent == Some(c)
  }

  /** Whether an action records a retryable outcome of `c` and manages to create its retry. */
  predicate Spawns(y: System, a: Action, c: int) {
    match a
    case Ask(_, _, _, _) => false
    case Claim(_, _, _) => false
    case Try(id, w, _) => id == c && id in y.claimed && AttemptSpawns(y.store, id, w)
    case Deliver(run, status, _, w) => ReportSpawns(y.store, run, status, w, c)
  }

  ghost function Spawnings(y: System, actions: seq<Action>, c: int): nat
    decreases |actions|
  {
    if actions == [] then 0
    else (if Spawns(y, actions[0], c) then 1 else 0) + Spawnings(Step(y, actions[0]), actions[1..], c)
  }

  lemma SameForestSameChildren(s: Store, s': Store, c: int)
    requires SameForest(s, s')
    ensures Children(s', c) == Children(s, c)
  {
    assert forall id :: id in Children(s', c) <==> id in Children(s, c);
  }

  lemma GrowthAddsOneChild(s: Store, s': Store, parent: int, c: int)
    requires IdsBelowNext(s) && GrownBy(s, s', parent)
    ensures |Children(s', c)| == |Children(s, c)| + if parent == c then 1 else 0
  {
    var n := s.nextCallback;
    assert n !in s.callbacks && n !in Children(s, c);
    if parent == c {
      assert forall id :: id in Children(s', c) <==> id in Children(s, c) + {n};
      assert Children(s', c) == Children(s, c) + {n};
    } else {
      assert forall id :: id in Children(s', c) <==> id in Children(s, c);
      assert Children(s', c) == Children(s, c);
    }
  }

  lemma StepCountsChildren(y: System, a: Action, c: int)
    requires IdsBelowNext(y.store)
    ensures |Children(Step(y, a).store, c)| == |Children(y.store, c)| + if Spawns(y, a, c) then 1 else 0
  {
    var s, s' := y.store, Step(y, a).store;
    match a
    case Ask(r, now, userZone, zones) =>
      AskFrame(s, r, now, userZone, zones);
      assert forall id :: id in Children(s', c) <==> id in Children(s, c);
      assert Children(s', c) == Children(s, c);
    case Claim(_, _, _) => SameForestSameChildren(s, s', c);
    case Try(id, w, releases) =>
      if id in y.claimed {
        AttemptForest(s, id, w, releases);
        CountAfter(s, s', id, AttemptSpawns(s, id, w), c);
      }
    case Deliver(run, status, reason, w) =>
      ReportForest(s, run, status, reason, w);
      var r := Reported(s, run);
      CountAfter(s, s', r.GetOr(c), r.Some? && ReportSpawns(s, run, status, w, r.value), c);
  }

  lemma CountAfter(s: Store, s': Store, id: int, spawned: bool, c: int)
    requires IdsBelowNext(s) && (if spawned then GrownBy(s, s', id) else SameForest(s, s'))
    ensures |Children(s', c)| == |Children(s, c)| + if spawned && id == c then 1 else 0
  {
    if spawned {
      GrowthAddsOneChild(s, s', id, c);
    } else {
      SameForestSameChildren(s, s', c);
    }
  }

  /** Over every run a callback gains exactly one child per retryable outcome that was recorded for it
      while its own retry count was 0 and whose retry could be stored; so it has at most one child
      exactly when there was at most one such outcome. */
  lemma {:induction false} ChildrenCountRecordedFailures(y: System, actions: seq<Action>, c: int)
    requires Forest(y.store)
    ensures |Children(RunAll(y, actions).store, c)| == |Children(y.store, c)| + Spawnings(y, actions, c)
    decreases |actions|
  {
    if actions != [] {
      StepCountsChildren(y, actions[0], c);
      StepKeepsForest(y, actions[0]);
      ChildrenCountRecordedFailures(Step(y, actions[0]), actions[1..], c);
    }
  }

  // ---------- One retry each, when every outcome is delivered once ----------

  /** Providers report at most one outcome for each call that went out, and put no other callback's id in
      the metadata. Any step may raise, recordings and releases included. */
  predicate Orderly(y: System, a: Action) {
    match a
    case Deliver(run, status, _, _) => RunLifecycle.ConcludesCallback(status) ==> run in y.owed
    case Try(id, w, _) => OwnMetadata(id, w)
    case _ => true
  }

  predicate OwnMetadata(id: int, w: World) {
    w.metadataCallback.Some? ==> w.metadataCallback == Some(id)
  }

  ghost predicate OrderlyRun(y: System, actions: seq<Action>)
    decreases |actions|
  {
    actions == [] || (Orderly(y, actions[0]) && OrderlyRun(Step(y, actions[0]), actions[1..]))
  }

  /** The call went out, its answer was lost or could not be recorded, and the handler closed the run as a
      failed attempt although the provider will still report on it. */
  predicate LeavesCallOut(s: Store, id: int, w: World) {
    CallOut(s, id, w) && RecordRun in w.broken && CloseRun !in w.broken && s.callbacks[id].retryCount == 0
  }

  /** The attempt stored a retry but could not record the failure, and put its callback back. */
  predicate ReleasesRetried(s: Store, id: int, w: World, releases: bool) {
    AttemptSpawns(s, id, w) && MarkOutcome in w.broken && releases
  }

  /** The attempts that make a second retry possible. A call left out does when the attempt itself
      stored a retry, or else when its callback is put back and can be called again. */
  predicate InvitesSecondRetry(s: Store, id: int, w: World, releases: bool) {
    || ReleasesRetried(s, id, w, releases)
    || (LeavesCallOut(s, id, w) && (AttemptSpawns(s, id, w) || releases))
  }

  /** An orderly run without such attempts. */
  ghost predicate CleanRun(y: System, actions: seq<Action>)
    decreases |actions|
  {
    actions == [] || (Clean(y, actions[0]) && CleanRun(Step(y, actions[0]), actions[1..]))
  }

  predicate Clean(y: System, a: Action) {
    && Orderly(y, a)
    && (a.Try? && a.id in y.claimed ==> !InvitesSecondRetry(y.store, a.id, a.world, a.releases))
  }

  ghost predicate IsChildOf(s: Store, id: int, p: int) {
    id in s.callbacks && s.callbacks[id].parent == Some(p)
  }

  ghost predicate OneRetryEach(s: Store) {
    forall i, j, p :: IsChildOf(s, i, p) && IsChildOf(s, j, p) ==> i == j
  }

  ghost predicate InState(s: Store, id: int, states: set<CallbackState>) {
    id in s.callbacks && s.callbacks[id].state in states
  }

  ghost predicate IsOriginal(s: Store, id: int) {
    id in s.callbacks && s.callbacks[id].retryCount == 0
  }

  /** Nothing can attempt the callback again or report on it. */
  ghost predicate Past(y: System, id: int) {
    && id in y.store.callbacks && y.store.callbacks[id].state != Scheduled && id !in y.claimed
    && forall r :: r in y.owed ==> Reported(y.store, r) != Some(id)
  }

  ghost predicate ParentsPast(y: System) {
    forall i, p :: IsChildOf(y.store, i, p) ==> Past(y, p)
  }

  /** A run owing an outcome belongs to a callback that is in progress and not up for another attempt. */
  ghost predicate OwedOk(y: System, run: int) {
    && Reported(y.store, run).Some?
    && var c := Reported(y.store, run).value;
       && c in y.store.callbacks
       && (IsOriginal(y.store, c) ==> InState(y.store, c, {InProgress}) && c !in y.claimed)
  }

  ghost predicate OwedOnce(y: System, q: int, r: int) {
    && Reported(y.store, q) == Reported(y.store, r) && Reported(y.store, r).Some?
    && IsOriginal(y.store, Reported(y.store, r).value)
    ==> q == r
  }

  ghost predicate ClaimedOk(y: System) {
    && y.claimed <= y.store.callbacks.Keys
    && forall c :: c in y.claimed && IsOriginal(y.store, c) ==> InState(y.store, c, {InProgress})
  }

  ghost predicate OwedAllOk(y: System) {
    && (forall r :: r in y.owed ==> OwedOk(y, r))
    && (forall q, r :: q in y.owed && r in y.owed ==> OwedOnce(y, q, r))
  }

  ghost predicate Accounted(y: System) {
    Forest(y.store) && OneRetryEach(y.store) && ParentsPast(y) && ClaimedOk(y) && OwedAllOk(y)
  }

  /** Growing under a callback that had no retry. */
  lemma GrowthKeepsOneRetry(s: Store, s': Store, p: int)
    requires Forest(s) && OneRetryEach(s) && GrownBy(s, s', p)
    requires forall i :: !IsChildOf(s, i, p)
    ensures OneRetryEach(s')
    ensures forall i, q :: IsChildOf(s', i, q) ==> q == p || IsChildOf(s, i, q)
  {
    forall i, q | IsChildOf(s', i, q) ensures if i == s.nextCallback then q == p else IsChildOf(s, i, q) && q != p {
      if i != s.nextCallback {
        assert IsChildOf(s, i, q);
      }
    }
  }

  lemma SameForestKeepsOneRetry(s: Store, s': Store)
    requires OneRetryEach(s) && SameForest(s, s')
    ensures OneRetryEach(s')
    ensures forall i, q :: IsChildOf(s', i, q) ==> IsChildOf(s, i, q)
  {
    assert forall i, q :: IsChildOf(s', i, q) ==> IsChildOf(s, i, q);
  }

  /** Originals stay originals, and a retry is none. */
  lemma OriginalsStay(s: Store, s': Store, parent: int, c: int)
    requires IdsBelowNext(s) && (SameForest(s, s') || GrownBy(s, s', parent))
    ensures IsOriginal(s', c) <==> IsOriginal(s, c)
  {
  }

  lemma PlaceKeepsRuns(s: Store, id: int, w: World)
    requires IdsBelowNext(s)
    ensures forall r :: r in s.runs ==> r in Place(s, id, w).store.runs && Place(s, id, w).store.runs[r] == s.runs[r]
  {
    CallsExactlyWhenDialling(s, id, w);
    ProceedsExactlyWhenDialling(s, id, w);
    assert s.nextRun !in s.runs;
  }

  lemma AttemptFrame(s: Store, id: int, w: World, releases: bool)
    requires IdsBelowNext(s)
    ensures Frame(s, Attempt(s, id, w, releases), id)
    ensures forall r :: r in s.runs ==> Reported(Attempt(s, id, w, releases), r) == Reported(s, r)
  {
    PlaceFrame(s, id, w);
    PlaceKeepsRuns(s, id, w);
  }

  lemma OwingReportsItself(s: Store, id: int, w: World, releases: bool)
    requires Owes(s, id, w) && OwnMetadata(id, w)
    ensures Reported(Attempt(s, id, w, releases), s.nextRun) == Some(id)
  {
    CallsExactlyWhenDialling(s, id, w);
  }

  /** What an attempt that invites no second retry leaves of an original in progress: with a retry
      stored it is past, and with an outcome owed it stays in progress. */
  lemma InnocentAttempt(s: Store, id: int, w: World, releases: bool)
    requires IdsBelowNext(s) && InState(s, id, {InProgress}) && IsOriginal(s, id)
    requires !InvitesSecondRetry(s, id, w, releases)
    ensures var s' := Attempt(s, id, w, releases);
            && (AttemptSpawns(s, id, w) ==> InState(s', id, {InProgress, Failed}) && !Owes(s, id, w))
            && (Owes(s, id, w) ==> InState(s', id, {InProgress}))
            && (AttemptSpawns(s, id, w) && MarkOutcome !in w.broken ==> InState(s', id, {Failed}))
  {
    CallsExactlyWhenDialling(s, id, w);
  }

  lemma StepTryAccounted(y: System, a: Action)
    requires Accounted(y) && a.Try? && Clean(y, a) && a.id in y.claimed
    ensures Accounted(Step(y, a))
  {
    var s, y', id, w := y.store, Step(y, a), a.id, a.world;
    StepKeepsForest(y, a);
    AttemptFrame(s, id, w, a.releases);
    AttemptForest(s, id, w, a.releases);
    assert forall i :: !IsChildOf(s, i, id) by {
      assert forall i :: IsChildOf(s, i, id) ==> Past(y, id);
    }
    if AttemptSpawns(s, id, w) {
      GrowthKeepsOneRetry(s, y'.store, id);
    } else {
      SameForestKeepsOneRetry(s, y'.store);
    }
    forall c ensures IsOriginal(y'.store, c) <==> IsOriginal(s, c) {
      OriginalsStay(s, y'.store, id, c);
    }
    if IsOriginal(s, id) {
      InnocentAttempt(s, id, w, a.releases);
    }
    if Owes(s, id, w) {
      OwingReportsItself(s, id, w, a.releases);
    }
    TryKeepsOwed(y, a);
    TryKeepsParentsPast(y, a);
  }

  lemma OwedBefore(y: System, a: Action, r: int)
    requires Accounted(y) && a.Try? && r in y.owed
    ensures OwedOk(y, r) && r != y.store.nextRun
    ensures Reported(Attempt(y.store, a.id, a.world, a.releases), r) == Reported(y.store, r)
  {
    assert OwedOk(y, r);
    AttemptFrame(y.store, a.id, a.world, a.releases);
  }

  lemma TryKeepsOwed(y: System, a: Action)
    requires Accounted(y) && a.Try? && Clean(y, a) && a.id in y.claimed
    requires forall c :: IsOriginal(Step(y, a).store, c) <==> IsOriginal(y.store, c)
    ensures OwedAllOk(Step(y, a)) && ClaimedOk(Step(y, a))
  {
    var s, y', id, w := y.store, Step(y, a), a.id, a.world;
    AttemptFrame(s, id, w, a.releases);
    if Owes(s, id, w) {
      OwingReportsItself(s, id, w, a.releases);
      if IsOriginal(s, id) {
        InnocentAttempt(s, id, w, a.releases);
      }
    }
    forall r | r in y.owed ensures OwedOk(y', r) && r != s.nextRun && Reported(y'.store, r) == Reported(s, r) {
      OwedBefore(y, a, r);
    }
    forall q, r | q in y'.owed && r in y'.owed ensures OwedOnce(y', q, r) {
      if q in y.owed && r in y.owed {
        assert OwedOnce(y, q, r);
      }
      if q in y.owed {
        OwedBefore(y, a, q);
      }
      if r in y.owed {
        OwedBefore(y, a, r);
      }
    }
  }

  lemma TryKeepsParentsPast(y: System, a: Action)
    requires Accounted(y) && a.Try? && Clean(y, a) && a.id in y.claimed
    ensures ParentsPast(Step(y, a))
  {
    var s, y', id, w := y.store, Step(y, a), a.id, a.world;
    AttemptFrame(s, id, w, a.releases);
    AttemptForest(s, id, w, a.releases);
    if Owes(s, id, w) {
      OwingReportsItself(s, id, w, a.releases);
    }
    forall i, p | IsChildOf(y'.store, i, p) ensures Past(y', p) {
      forall r | r in y'.owed && r in y.owed ensures Reported(y'.store, r) == Reported(s, r) && OwedOk(y, r) {
        OwedBefore(y, a, r);
      }
      if i in s.callbacks {
        assert IsChildOf(s, i, p) && Past(y, p);
      } else {
        assert p == id && AttemptSpawns(s, id, w) && IsOriginal(s, id);
        InnocentAttempt(s, id, w, a.releases);
      }
    }
  }

  lemma ReportFrame(s: Store, run: int, status: string, reason: string, w: World, c: int)
    requires IdsBelowNext(s) && Reported(s, run) == Some(c)
    ensures var s' := Report(s, run, status, reason, w);
            Frame(s, s', c) && (c in s.callbacks && s.callbacks[c].state != Scheduled ==>
              s'.callbacks[c].state != Scheduled)
  {
    OutcomeFrame(s, c, status, reason, w);
  }

  lemma StepDeliverAccounted(y: System, a: Action)
    requires Accounted(y) && a.Deliver? && Orderly(y, a) && RunLifecycle.ConcludesCallback(a.status)
    ensures Accounted(Step(y, a))
  {
    var s, y' := y.store, Step(y, a);
    assert OwedOk(y, a.run);
    var c := Reported(s, a.run).value;
    StepKeepsForest(y, a);
    ReportFrame(s, a.run, a.status, a.reason, a.world, c);
    ReportForest(s, a.run, a.status, a.reason, a.world);
    assert forall i :: !IsChildOf(s, i, c) by {
      assert forall i :: IsChildOf(s, i, c) ==> Past(y, c);
    }
    if ReportSpawns(s, a.run, a.status, a.world, c) {
      GrowthKeepsOneRetry(s, y'.store, c);
    } else {
      SameForestKeepsOneRetry(s, y'.store);
    }
    forall d ensures IsOriginal(y'.store, d) <==> IsOriginal(s, d) {
      OriginalsStay(s, y'.store, c, d);
    }
    forall r | r in y'.owed ensures OwedOk(y', r) && (IsOriginal(s, c) ==> Reported(y'.store, r) != Some(c)) {
      assert OwedOk(y, r) && OwedOnce(y, a.run, r);
    }
    forall q, r | q in y'.owed && r in y'.owed ensures OwedOnce(y', q, r) {
      assert OwedOnce(y, q, r);
    }
    forall i, p | IsChildOf(y'.store, i, p) ensures Past(y', p) {
      if p != c {
        assert IsChildOf(s, i, p) && Past(y, p);
      }
    }
  }

  /** Requests and claims move only scheduled callbacks, which are neither parents nor owed. */
  lemma StepQuietAccounted(y: System, a: Action)
    requires Accounted(y) && (a.Ask? || a.Claim?)
    ensures Accounted(Step(y, a))
  {
    var s, y' := y.store, Step(y, a);
    StepKeepsForest(y, a);
    if a.Ask? {
      AskFrame(s, a.request, a.now, a.userZone, a.zones);
    }
    forall r | r in y'.owed ensures OwedOk(y', r) && Reported(y'.store, r) == Reported(s, r) {
      assert OwedOk(y, r);
    }
    forall q, r | q in y'.owed && r in y'.owed ensures OwedOnce(y', q, r) {
      assert OwedOk(y, r) && OwedOnce(y, q, r);
    }
    forall i, p | IsChildOf(y'.store, i, p) ensures IsChildOf(s, i, p) && Past(y', p) {
      assert IsChildOf(s, i, p) && Past(y, p);
    }
  }

  lemma StepKeepsAccounted(y: System, a: Action)
    requires Accounted(y) && Clean(y, a)
    ensures Accounted(Step(y, a))
  {
    match a
    case Ask(_, _, _, _) => StepQuietAccounted(y, a);
    case Claim(_, _, _) => StepQuietAccounted(y, a);
    case Try(id, _, _) =>
      if id in y.claimed {
        StepTryAccounted(y, a);
      }
    case Deliver(_, status, _, _) =>
      if RunLifecycle.ConcludesCallback(status) {
        StepDeliverAccounted(y, a);
      }
  }

  lemma {:induction false} CleanRunAccounted(y: System, actions: seq<Action>)
    requires Accounted(y) && CleanRun(y, actions)
    ensures Accounted(RunAll(y, actions))
    decreases |actions|
  {
    if actions != [] {
      StepKeepsAccounted(y, actions[0]);
      CleanRunAccounted(Step(y, actions[0]), actions[1..]);
    }
  }

  /** When every call's outcome is delivered at most once and no attempt invites a second retry, each
      callback has at most one retry, and nothing attempts a retried callback again or reports on it. */
  lemma OneRetryPerCallback(y: System, actions: seq<Action>)
    requires Initial(y) && CleanRun(y, actions)
    ensures OneRetryEach(RunAll(y, actions).store)
    ensures ParentsPast(RunAll(y, actions))
  {
    CleanRunAccounted(y, actions);
  }

  ghost predicate ParentsEnded(s: Store) {
    forall i, p :: IsChildOf(s, i, p) ==> InState(s, p, {Completed, Failed})
  }

  predicate Records(a: Action) {
    match a
    case Try(_, w, _) => MarkOutcome !in w.broken
    case Deliver(_, _, _, w) => MarkOutcome !in w.broken
    case _ => true
  }

  lemma StepKeepsParentsEnded(y: System, a: Action)
    requires Accounted(y) && Clean(y, a) && ParentsEnded(y.store) && Records(a)
    ensures ParentsEnded(Step(y, a).store)
  {
    var s, s' := y.store, Step(y, a).store;
    match a {
      case Ask(r, now, userZone, zones) => AskFrame(s, r, now, userZone, zones);
      case Claim(_, _, _) =>
      case Try(id, w, releases) =>
        AttemptFrame(s, id, w, releases);
        AttemptForest(s, id, w, releases);
        if id in y.claimed && IsOriginal(s, id) {
          InnocentAttempt(s, id, w, releases);
        }
      case Deliver(run, status, reason, w) =>
        ReportForest(s, run, status, reason, w);
        OutcomeFrame(s, Reported(s, run).GetOr(0), status, reason, w);
    }
    forall i, p | IsChildOf(s', i, p) ensures InState(s', p, {Completed, Failed}) {
      if i in s.callbacks {
        assert IsChildOf(s, i, p) && Past(y, p);
      }
    }
  }

  /** While recording works, a retried callback has failed or completed. */
  lemma {:induction false} RetriedCallbacksHaveEnded(y: System, actions: seq<Action>)
    requires Accounted(y) && CleanRun(y, actions) && ParentsEnded(y.store)
    requires forall k :: 0 <= k < |actions| ==> Records(actions[k])
    ensures ParentsEnded(RunAll(y, actions).store)
    decreases |actions|
  {
    if actions != [] {
      StepKeepsAccounted(y, actions[0]);
      StepKeepsParentsEnded(y, actions[0]);
      RetriedCallbacksHaveEnded(Step(y, actions[0]), actions[1..]);
    }
  }

  // ---------- Which attempts make a second retry possible ----------

  /** The retries of one attempt and the one outcome its call is owed: two exactly when the call went
      out, its answer was not recorded, the failure could be closed, loaded and stored, and the outcome
      itself is retryable and can be stored; whatever else raises. */
  lemma OneCallTwoRetries(y: System, c: int, w: World, releases: bool, status: string, reason: string, w': World)
    requires Accounted(y) && c in y.claimed && IsOriginal(y.store, c) && c != 0
    requires Orderly(y, Try(c, w, releases))
    requires Orderly(Step(y, Try(c, w, releases)), Deliver(y.store.nextRun, status, reason, w'))
    ensures var e := Step(Step(y, Try(c, w, releases)), Deliver(y.store.nextRun, status, reason, w'));
            |Children(e.store, c)| == 2 <==>
            && CallOut(y.store, c, w) && RecordRun in w.broken && w.broken !! {CloseRun, LoadOutcome, CreateChild}
            && Retryable(status) && w'.broken !! {LoadOutcome, CreateChild}
  {
    var s := y.store;
    var y1 := Step(y, Try(c, w, releases));
    ClaimedHasNoChildren(y, c);
    StepCountsChildren(y, Try(c, w, releases), c);
    AttemptForest(s, c, w, releases);
    OriginalsStay(s, y1.store, c, c);
    StepCountsChildren(y1, Deliver(s.nextRun, status, reason, w'), c);
    assert forall r :: r in y.owed ==> OwedOk(y, r) && r in s.runs;
    if Owes(s, c, w) {
      OwingReportsItself(s, c, w, releases);
    }
    if LeavesCallOut(s, c, w) {
      CallLeftOutOwes(s, c, w);
    }
  }

  lemma ClaimedHasNoChildren(y: System, c: int)
    requires ParentsPast(y) && c in y.claimed
    ensures Children(y.store, c) == {}
  {
    forall i ensures i !in Children(y.store, c) {
      assert IsChildOf(y.store, i, c) ==> Past(y, c);
    }
  }

  lemma CallLeftOutOwes(s: Store, c: int, w: World)
    requires LeavesCallOut(s, c, w) && c != 0
    ensures Owes(s, c, w)
  {
    CallsExactlyWhenDialling(s, c, w);
  }

  /** Continuing cleanly can give the callback a second retry. */
  ghost predicate GetsTwoRetries(y: System, rest: seq<Action>, c: int) {
    CleanRun(y, rest) && |Children(RunAll(y, rest).store, c)| >= 2
  }

  lemma RunOne(y: System, a: Action, rest: seq<Action>)
    ensures RunAll(y, [a] + rest) == RunAll(Step(y, a), rest)
    ensures CleanRun(y, [a] + rest) <==> Clean(y, a) && CleanRun(Step(y, a), rest)
  {
    assert ([a] + rest)[1..] == rest;
  }

  lemma ReportingBusySpawns(y: System, run: int, c: int, w: World)
    requires IdsBelowNext(y.store) && run in y.owed && Reported(y.store, run) == Some(c) && IsOriginal(y.store, c)
    requires w.broken == {}
    ensures var a := Deliver(run, "busy", "busy", w);
            && Clean(y, a) && IdsBelowNext(Step(y, a).store) && IsOriginal(Step(y, a).store, c)
            && |Children(Step(y, a).store, c)| == |Children(y.store, c)| + 1
            && Step(y, a).owed == y.owed - {run} && Step(y, a).store.runs == y.store.runs
  {
    ReportForest(y.store, run, "busy", "busy", w);
    OriginalsStay(y.store, Step(y, Deliver(run, "busy", "busy", w)).store, c, c);
    StepCountsChildren(y, Deliver(run, "busy", "busy", w), c);
  }

  /** A scheduled callback can be claimed alone. */
  lemma ClaimAlone(y: System, c: int) returns (claim: Action)
    requires InState(y.store, c, {Scheduled})
    ensures claim.Claim?
    ensures Step(y, claim) == y.(store := MarkInProgress(y.store, {c}), claimed := y.claimed + {c})
  {
    var s, at := y.store, y.store.callbacks[c].scheduledFor;
    claim := Claim(at, s.callbacks.Keys - {c}, [c]);
    var due := Due(s, s.callbacks.Keys - {c}, at);
    assert due == map[c := at];
    assert |due| == 1 && IsSelection(due, [c], CLAIM_LIMIT);
    assert Elements([c]) == {c};
  }

  lemma HealthyCallOwes(s: Store, c: int, w: World)
    requires Dials(s, c, w) && w.broken == {} && w.metadataCallback == None && c != 0
    ensures Owes(s, c, w) && Reported(Attempt(s, c, w, true), s.nextRun) == Some(c)
    ensures !InvitesSecondRetry(s, c, w, true) && !AttemptSpawns(s, c, w)
  {
    CallsExactlyWhenDialling(s, c, w);
  }

  /** A callback released at an allowed instant can be claimed alone and called again, and then owes the
      outcome of that call. */
  lemma ClaimAndCallAgain(y: System, c: int, w: World) returns (claim: Action, again: Action)
    requires IdsBelowNext(y.store) && IsOriginal(y.store, c) && c != 0 && InState(y.store, c, {Scheduled})
    requires Dials(y.store, c, w)
    ensures Clean(y, claim) && Clean(Step(y, claim), again)
    ensures var e := Step(Step(y, claim), again);
            && IdsBelowNext(e.store) && IsOriginal(e.store, c)
            && Children(e.store, c) == Children(y.store, c)
            && e.owed == y.owed + {y.store.nextRun} && Reported(e.store, y.store.nextRun) == Some(c)
            && (forall r :: r in y.store.runs ==> Reported(e.store, r) == Reported(y.store, r))
  {
    var s := y.store;
    claim := ClaimAlone(y, c);
    var y1 := Step(y, claim);
    var healthy := w.(broken := {}, quota := Granted, metadataCallback := None);
    again := Try(c, healthy, true);
    assert Dials(y1.store, c, healthy);
    HealthyCallOwes(y1.store, c, healthy);
    AttemptFrame(y1.store, c, healthy, true);
    AttemptForest(y1.store, c, healthy, true);
    SameForestSameChildren(s, y1.store, c);
    SameForestSameChildren(y1.store, Step(y1, again).store, c);
  }

  /** The attempt stored a retry and left its call out: the call's own outcome makes the second. */
  lemma HandledFailureThenOutcome(y: System, c: int, w: World, releases: bool) returns (rest: seq<Action>)
    requires Accounted(y) && c in y.claimed && c != 0 && OwnMetadata(c, w)
    requires LeavesCallOut(y.store, c, w) && AttemptSpawns(y.store, c, w)
    ensures GetsTwoRetries(Step(y, Try(c, w, releases)), rest, c)
  {
    var y1, healthy := Step(y, Try(c, w, releases)), w.(broken := {});
    CallLeftOutOwes(y.store, c, w);
    OwingReportsItself(y.store, c, w, releases);
    AttemptForest(y.store, c, w, releases);
    OriginalsStay(y.store, y1.store, c, c);
    StepCountsChildren(y, Try(c, w, releases), c);
    ReportingBusySpawns(y1, y.store.nextRun, c, healthy);
    rest := [Deliver(y.store.nextRun, "busy", "busy", healthy)] + [];
    RunOne(y1, Deliver(y.store.nextRun, "busy", "busy", healthy), []);
  }

  /** The attempt stored a retry it could not record, and was released: the next call makes the second. */
  lemma UnrecordedFailureThenOutcome(y: System, c: int, w: World) returns (rest: seq<Action>)
    requires Accounted(y) && c in y.claimed && c != 0 && ReleasesRetried(y.store, c, w, true)
    ensures GetsTwoRetries(Step(y, Try(c, w, true)), rest, c)
  {
    var s, y1, healthy := y.store, Step(y, Try(c, w, true)), w.(broken := {});
    UnrecordedFailureReleases(s, c, w);
    AttemptForest(s, c, w, true);
    OriginalsStay(s, y1.store, c, c);
    StepCountsChildren(y, Try(c, w, true), c);
    var claim, again := ClaimAndCallAgain(y1, c, w);
    var y2 := Step(y1, claim);
    var y3 := Step(y2, again);
    var report := Deliver(y1.store.nextRun, "busy", "busy", healthy);
    ReportingBusySpawns(y3, y1.store.nextRun, c, healthy);
    RunOne(y3, report, []);
    RunOne(y2, again, [report] + []);
    RunOne(y1, claim, [again] + ([report] + []));
    rest := [claim] + ([again] + ([report] + []));
  }

  lemma UnrecordedFailureReleases(s: Store, c: int, w: World)
    requires IdsBelowNext(s) && ReleasesRetried(s, c, w, true)
    ensures var s' := Attempt(s, c, w, true);
            InState(s', c, {Scheduled}) && Dials(s', c, w) && IdsBelowNext(s')
  {
    CallsExactlyWhenDialling(s, c, w);
    PlaceFrame(s, c, w);
    assert Attempt(s, c, w, true).callbacks[c] == s.callbacks[c].(state := Scheduled);
  }

  /** A call left out whose failure could not be handled: the callback is released with the call owed. */
  lemma UnhandledFailureReleases(s: Store, c: int, w: World)
    requires IdsBelowNext(s) && LeavesCallOut(s, c, w) && !AttemptSpawns(s, c, w) && c != 0 && OwnMetadata(c, w)
    requires InState(s, c, {InProgress})
    ensures var s' := Attempt(s, c, w, true);
            && s'.callbacks == s.callbacks[c := s.callbacks[c].(state := Scheduled)]
            && s'.nextRun == s.nextRun + 1 && IdsBelowNext(s')
            && Reported(s', s.nextRun) == Some(c) && Owes(s, c, w)
  {
    CallsExactlyWhenDialling(s, c, w);
    CallLeftOutOwes(s, c, w);
    OwingReportsItself(s, c, w, true);
    PlaceFrame(s, c, w);
  }

  /** Then both calls report, and each report makes a retry. */
  lemma UnhandledFailureThenOutcomes(y: System, c: int, w: World) returns (rest: seq<Action>)
    requires Accounted(y) && c in y.claimed && c != 0 && OwnMetadata(c, w)
    requires LeavesCallOut(y.store, c, w) && !AttemptSpawns(y.store, c, w)
    ensures GetsTwoRetries(Step(y, Try(c, w, true)), rest, c)
  {
    var s, y1, healthy := y.store, Step(y, Try(c, w, true)), w.(broken := {});
    assert IsOriginal(s, c);
    UnhandledFailureReleases(s, c, w);
    assert Dials(y1.store, c, w);
    var claim, again := ClaimAndCallAgain(y1, c, w);
    var y2 := Step(y1, claim);
    var y3 := Step(y2, again);
    var first := Deliver(s.nextRun, "busy", "busy", healthy);
    var second := Deliver(y1.store.nextRun, "busy", "busy", healthy);
    ReportingBusySpawns(y3, s.nextRun, c, healthy);
    var y4 := Step(y3, first);
    ReportingBusySpawns(y4, y1.store.nextRun, c, healthy);
    RunOne(y4, second, []);
    RunOne(y3, first, [second] + []);
    RunOne(y2, again, [first] + ([second] + []));
    RunOne(y1, claim, [again] + ([first] + ([second] + [])));
    rest := [claim] + ([again] + ([first] + ([second] + [])));
  }

  /** Whatever raises in an attempt of an unretried callback, some clean continuation gives the callback a
      second retry exactly when the attempt invites one: it left its call out and stored a retry or was
      released, or it stored a retry, could not record it, and was released. */
  lemma SecondRetryIffInvited(y: System, c: int, w: World, releases: bool)
    requires Accounted(y) && c in y.claimed && IsOriginal(y.store, c) && c != 0 && OwnMetadata(c, w)
    ensures (exists rest :: GetsTwoRetries(Step(y, Try(c, w, releases)), rest, c)) <==>
            InvitesSecondRetry(y.store, c, w, releases)
  {
    if !InvitesSecondRetry(y.store, c, w, releases) {
      var y1 := Step(y, Try(c, w, releases));
      StepKeepsAccounted(y, Try(c, w, releases));
      forall rest | CleanRun(y1, rest) ensures |Children(RunAll(y1, rest).store, c)| < 2 {
        CleanRunAccounted(y1, rest);
        AtMostOneChild(RunAll(y1, rest).store, c);
      }
    } else if !LeavesCallOut(y.store, c, w) {
      var rest := UnrecordedFailureThenOutcome(y, c, w);
    } else if AttemptSpawns(y.store, c, w) {
      var rest := HandledFailureThenOutcome(y, c, w, releases);
    } else {
      var rest := UnhandledFailureThenOutcomes(y, c, w);
    }
  }

  lemma AtMostOneChild(s: Store, c: int)
    requires OneRetryEach(s)
    ensures |Children(s, c)| < 2
  {
    if i :| IsChildOf(s, i, c) {
      forall j ensures j in Children(s, c) <==> j == i {
        assert j in Children(s, c) <==> IsChildOf(s, j, c);
      }
      assert Children(s, c) == {i};
    } else {
      forall j ensures j !in Children(s, c) {
        assert !IsChildOf(s, j, c);
      }
      assert Children(s, c) == {};
    }
  }

  // ---------- How much retrying there can be ----------

  /** Original callbacks that have not been retried yet. */
  ghost function Unspent(s: Store): set<int> {
    set c | c in s.callbacks && s.callbacks[c].retryCount == 0 && Children(s, c) == {}
  }

  /** Each retry spends one unspent original, and nothing but a new request makes another. */
  lemma RetriesSpendOriginals(y: System, a: Action, c: int)
    requires Accounted(y) && Orderly(y, a) && !a.Ask? && Spawns(y, a, c)
    ensures c in Unspent(y.store)
    ensures Unspent(Step(y, a).store) == Unspent(y.store) - {c}
  {
    var s, s' := y.store, Step(y, a).store;
    match a {
      case Try(id, w, releases) => AttemptForest(s, id, w, releases);
      case Deliver(run, status, reason, w) => ReportForest(s, run, status, reason, w);
    }
    forall i ensures i !in Children(s, c) {
      assert IsChildOf(s, i, c) ==> Past(y, c);
    }
    assert s'.callbacks[s.nextCallback].parent == Some(c);
    assert s.nextCallback in Children(s', c);
    forall d | d in s.callbacks && d != c ensures Children(s', d) == Children(s, d) {
      assert forall i :: i in Children(s', d) <==> i in Children(s, d);
    }
  }

  ghost function Retries(s: Store): set<int> {
    set i | i in s.callbacks && s.callbacks[i].parent.Some?
  }

  ghost function Originals(s: Store): set<int> {
    set i | i in s.callbacks && s.callbacks[i].parent.None?
  }

  lemma {:induction false} DistinctParents(s: Store, retries: set<int>, originals: set<int>)
    requires Forest(s) && OneRetryEach(s) && retries <= Retries(s)
    requires forall i :: i in retries ==> s.callbacks[i].parent.value in originals
    ensures |retries| <= |originals|
    decreases retries
  {
    if i :| IsRetryIn(s, retries, i) {
      var p := s.callbacks[i].parent.value;
      forall j | j in retries - {i} ensures s.callbacks[j].parent.value in originals - {p} {
        assert IsChildOf(s, i, p) && IsChildOf(s, j, s.callbacks[j].parent.value);
      }
      DistinctParents(s, retries - {i}, originals - {p});
    } else {
      forall i ensures i !in retries {
        assert !IsRetryIn(s, retries, i);
      }
      assert retries == {};
    }
  }

  ghost predicate IsRetryIn(s: Store, retries: set<int>, i: int) {
    i in retries && i in s.callbacks
  }

  /** Over every clean run there are no more retries than callbacks that were asked for. */
  lemma RetriesAreFewerThanOriginals(y: System, actions: seq<Action>)
    requires Initial(y) && CleanRun(y, actions)
    ensures |Retries(RunAll(y, actions).store)| <= |Originals(RunAll(y, actions).store)|
  {
    CleanRunAccounted(y, actions);
    var s := RunAll(y, actions).store;
    forall i | i in Retries(s) ensures s.callbacks[i].parent.value in Originals(s) {
      assert ForestRow(s, i) && ForestRow(s, s.callbacks[i].parent.value);
    }
    DistinctParents(s, Retries(s), Originals(s));
  }

  ghost predicate WithinCalls(y: System) {
    IdsBelowNext(y.store) && |Retries(y.store)| + |y.owed| <= 2 * |y.store.calls|
  }

  lemma GrowthAddsOneRetry(s: Store, s': Store, parent: int)
    requires IdsBelowNext(s) && GrownBy(s, s', parent)
    ensures |Retries(s')| == |Retries(s)| + 1
  {
    assert forall i :: i in Retries(s') <==> i in Retries(s) + {s.nextCallback};
    assert Retries(s') == Retries(s) + {s.nextCallback};
  }

  lemma SameForestSameRetries(s: Store, s': Store)
    requires SameForest(s, s')
    ensures Retries(s') == Retries(s)
  {
    assert forall i :: i in Retries(s') <==> i in Retries(s);
  }

  lemma TryKeepsWithinCalls(y: System, a: Action)
    requires WithinCalls(y) && a.Try? && a.id in y.claimed
    ensures WithinCalls(Step(y, a))
  {
    var s, s' := y.store, Step(y, a).store;
    AttemptForest(s, a.id, a.world, a.releases);
    CallsExactlyWhenDialling(s, a.id, a.world);
    if AttemptSpawns(s, a.id, a.world) {
      GrowthAddsOneRetry(s, s', a.id);
    } else {
      SameForestSameRetries(s, s');
    }
  }

  lemma StepKeepsWithinCalls(y: System, a: Action)
    requires WithinCalls(y) && Orderly(y, a)
    ensures WithinCalls(Step(y, a))
  {
    var s, s' := y.store, Step(y, a).store;
    match a
    case Ask(r, now, userZone, zones) =>
      AskFrame(s, r, now, userZone, zones);
      assert forall i :: i in Retries(s') <==> i in Retries(s);
      assert Retries(s') == Retries(s);
    case Claim(_, _, _) => SameForestSameRetries(s, s');
    case Try(id, w, _) =>
      if id in y.claimed {
        TryKeepsWithinCalls(y, a);
      }
    case Deliver(run, status, reason, w) =>
      ReportForest(s, run, status, reason, w);
      var c := Reported(s, run);
      OutcomeMakesNoCall(s, c.GetOr(0), status, reason, w);
      if c.Some? && ReportSpawns(s, run, status, w, c.value) {
        GrowthAddsOneRetry(s, s', c.value);
      } else {
        SameForestSameRetries(s, s');
      }
  }

  /** Over every orderly run, calls left out or not, there are at most two retries for each call made. */
  lemma {:induction false} RetriesAreBoundedByCalls(y: System, actions: seq<Action>)
    requires WithinCalls(y) && OrderlyRun(y, actions)
    ensures WithinCalls(RunAll(y, actions))
    decreases |actions|
  {
    if actions != [] {
      StepKeepsWithinCalls(y, actions[0]);
      RetriesAreBoundedByCalls(Step(y, actions[0]), actions[1..]);
    }
  }

  /** Delivering the same failure twice makes two retries, so single delivery is needed. */
  lemma RepeatedFailureMakesTwoRetries(s: Store, c: int, w: World)
    requires Forest(s) && c in s.callbacks && s.callbacks[c].retryCount == 0 && w.broken == {}
    ensures var once := HandleOutcome(s, c, "busy", "busy", w).store;
            var twice := HandleOutcome(once, c, "busy", "busy", w).store;
            IsChildOf(twice, s.nextCallback, c) && IsChildOf(twice, s.nextCallback + 1, c)
  {
  }

  /** A callback whose attempt stored a retry is up for another attempt exactly when the failure could not
      be recorded and the release worked; failing the same way again then makes the second retry. */
  lemma UnrecordedFailureMakesTwoRetries(s: Store, c: int, w: World, releases: bool, w': World)
    requires Forest(s) && InState(s, c, {InProgress}) && AttemptSpawns(s, c, w)
    requires w' == w.(broken := w.broken - {MarkOutcome})
    ensures var once := Attempt(s, c, w, releases);
            && (InState(once, c, {Scheduled}) <==> MarkOutcome in w.broken && releases)
            && (InState(once, c, {Scheduled}) ==>
                  var twice := Attempt(once, c, w', true);
                  IsChildOf(twice, s.nextCallback, c) && IsChildOf(twice, s.nextCallback + 1, c))
  {
    SpawningAttempt(s, c, w, releases);
    AttemptForest(s, c, w, releases);
    var once := Attempt(s, c, w, releases);
    if InState(once, c, {Scheduled}) {
      FailsAgain(once, c, w');
      assert IsChildOf(once, s.nextCallback, c);
    }
  }

  lemma FailsAgain(s: Store, c: int, w: World)
    requires IdsBelowNext(s) && AttemptSpawns(s, c, w)
    ensures var s' := Attempt(s, c, w, true);
            && IsChildOf(s', s.nextCallback, c)
            && (forall i :: IsChildOf(s, i, c) ==> IsChildOf(s', i, c))
  {
    AttemptForest(s, c, w, true);
  }

  lemma SpawningAttempt(s: Store, c: int, w: World, releases: bool)
    requires IdsBelowNext(s) && InState(s, c, {InProgress}) && AttemptSpawns(s, c, w)
    ensures var once := Attempt(s, c, w, releases);
            && (InState(once, c, {Scheduled}) <==> MarkOutcome in w.broken && releases)
            && (InState(once, c, {Scheduled}) ==> once.callbacks[c] == s.callbacks[c].(state := Scheduled))
  {
    CallsExactlyWhenDialling(s, c, w);
  }
}
