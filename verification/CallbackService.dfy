/**
 The callback operations as the code performs them on its stored tables, each proved to do what
 `Callbacks` says, and the scheduler tick built from them.
 */
module CallbackService {
  import opened Wrappers
  import opened EarliestFirst
  import opened Callbacks
  import opened CallbackScheduler
  import QuietHours

  /** The attempts of one tick, in claim order. */
  ghost function AttemptAll(s: Store, ids: seq<int>, worlds: int -> World, releases: int -> bool): Store {
    if ids == [] then s
    else
      var last := ids[|ids| - 1];
      Attempt(AttemptAll(s, ids[..|ids| - 1], worlds, releases), last, worlds(last), releases(last))
  }

  /** How many of a tick's placements do not raise. */
  ghost function Unraised(s: Store, ids: seq<int>, worlds: int -> World, releases: int -> bool): nat {
    if ids == [] then 0
    else
      var front, last := ids[..|ids| - 1], ids[|ids| - 1];
      Unraised(s, front, worlds, releases)
      + if Place(AttemptAll(s, front, worlds, releases), last, worlds(last)).raised then 0 else 1
  }

  /** A tick's attempts are scheduler steps, whatever other callbacks are claimed by other ticks. */
  lemma {:induction false} AttemptsLeaveNobodyStranded(s: Store, ids: seq<int>, worlds: int -> World, claimed: set<int>)
    requires Distinct(ids) && Elements(ids) <= claimed && NobodyStranded(System(s, claimed, {}))
    ensures NobodyStranded(System(AttemptAll(s, ids, worlds, _ => true), claimed - Elements(ids), {}))
    decreases |ids|
  {
    if ids != [] {
      var front, last := ids[..|ids| - 1], ids[|ids| - 1];
      assert Elements(ids) == Elements(front) + {last};
      AttemptsLeaveNobodyStranded(s, front, worlds, claimed);
      var y := System(AttemptAll(s, front, worlds, _ => true), claimed - Elements(front), {});
      StepKeepsUnstranded(y, Try(last, worlds(last), true));
      assert claimed - Elements(front) - {last} == claimed - Elements(ids);
    }
  }

  /** A scheduled callback whose time has come and that nobody else has locked. */
  ghost predicate ClaimableNow(s: Store, locked: set<int>, now: int, id: int) {
    && id in s.callbacks && id !in locked
    && s.callbacks[id].state == Scheduled && s.callbacks[id].scheduledFor <= now
  }

  /** What a claim takes and leaves: at most 25 scheduled callbacks whose time has come and that nobody else
      has locked; one is left behind only if 25 others, none of them later, were taken. */
  lemma ClaimTakesDueCallbacks(s: Store, locked: set<int>, now: int, ids: seq<int>, id: int)
    requires IsSelection(Due(s, locked, now), ids, CLAIM_LIMIT)
    ensures |ids| <= 25
    ensures forall i, j :: 0 <= i < j < |ids| ==>
              && ids[i] != ids[j] && ids[i] in s.callbacks && ids[j] in s.callbacks
              && s.callbacks[ids[i]].scheduledFor <= s.callbacks[ids[j]].scheduledFor
    ensures id in ids ==> ClaimableNow(s, locked, now, id)
    ensures id !in ids && ClaimableNow(s, locked, now, id) ==>
              && |ids| == 25
              && forall i :: 0 <= i < |ids| ==> s.callbacks[ids[i]].scheduledFor <= s.callbacks[id].scheduledFor
  {
    var due := Due(s, locked, now);
    assert forall j :: j in ids ==> j in Elements(ids) && j in due;
    if |ids| < 25 {
      ShortSelectionTakesAll(due, ids, CLAIM_LIMIT);
      assert id in due ==> id in Elements(ids);
    }
    forall i | 0 <= i < |ids| && id in due && id !in ids
      ensures s.callbacks[ids[i]].scheduledFor <= s.callbacks[id].scheduledFor
    {
      assert due[ids[i]] <= due[id];
    }
  }

  /** Which requests are scheduled: those of a run with a workflow, a number under one of three keys tried
      in order, an organization of the workflow or else of its user, and a time in the next sixty days. */
  lemma UsableRequestsAreScheduled(s: Store, r: Request, now: int, userZone: string, zones: map<string, int>)
    ensures ScheduleForRun(s, r, now, userZone, zones).1.Some? <==>
            && r.workflow.Some?
            && (exists key :: key in {"phone_number", "caller_number", "called_number"} && key in r.context
                 && r.context[key] != "")
            && (|| (r.workflow.value.organization.Some? && r.workflow.value.organization.value != 0)
                || (r.workflow.value.userOrganization.Some? && r.workflow.value.userOrganization.value != 0))
            && now < r.when <= now + 5_184_000_000_000
    ensures ScheduleForRun(s, r, now, userZone, zones).1.None? ==> ScheduleForRun(s, r, now, userZone, zones).0 == s
  {
    QuietHours.NormalizeKeepsTheHorizon(r.when, now, QuietHours.ResolveOffset(zones, Some(userZone)));
    assert PhoneOf(r.context) == FirstPhone(r.context) by {
      PhoneKeysInOrder(r.context);
    }
  }

  /** The outbound number, else the caller's, else the called one. */
  function FirstPhone(context: map<string, string>): string {
    if "phone_number" in context && context["phone_number"] != "" then context["phone_number"]
    else if "caller_number" in context && context["caller_number"] != "" then context["caller_number"]
    else if "called_number" in context then context["called_number"]
    else ""
  }

  lemma PhoneKeysInOrder(context: map<string, string>)
    ensures PhoneOf(context) == FirstPhone(context)
  {
    var keys := ["phone_number", "caller_number", "called_number"];
    assert keys[1..] == ["caller_number", "called_number"];
    assert ["caller_number", "called_number"][1..] == ["called_number"];
    assert ["called_number"][1..] == [];
    assert PhoneIn(context, ["called_number"]) ==
           if "called_number" in context && context["called_number"] != "" then context["called_number"]
           else PhoneIn(context, []);
    assert PhoneIn(context, ["caller_number", "called_number"]) ==
           if "caller_number" in context && context["caller_number"] != "" then context["caller_number"]
           else PhoneIn(context, ["called_number"]);
  }

  /** What a usable request does: the latest still scheduled callback of the run is moved, with its note
      replaced if one is given, or else one new callback appears; always to the earliest allowed instant
      in the user's zone. */
  lemma ScheduledRequest(s: Store, r: Request, now: int, userZone: string, zones: map<string, int>)
    requires ScheduleForRun(s, r, now, userZone, zones).1.Some?
    ensures var (s', answer) := ScheduleForRun(s, r, now, userZone, zones);
            var id := answer.value;
            var offset := if userZone != "" && userZone in zones then zones[userZone] else 0;
            && id in s'.callbacks && r.workflow.Some?
            && QuietHours.IsEarliestAllowed(s'.callbacks[id].scheduledFor, r.when, offset)
            && (IsLatestPending(s, id, r.sourceRun) ==>
                  s' == s.(callbacks := s.callbacks[id := s.callbacks[id].(
                          scheduledFor := s'.callbacks[id].scheduledFor,
                          note := if r.note.Some? then r.note else s.callbacks[id].note)]))
            && (!IsLatestPending(s, id, r.sourceRun) ==>
                  var w := r.workflow.value;
                  && id == s.nextCallback && (forall j :: !IsLatestPending(s, j, r.sourceRun))
                  && s'.callbacks - {id} == s.callbacks - {id} && s'.runs == s.runs && s'.calls == s.calls
                  && s'.callbacks[id] == Callback(
                       if w.organization.Some? && w.organization.value != 0 then w.organization.value
                       else w.userOrganization.GetOr(0),
                       w.id, w.user, Some(r.sourceRun), FirstPhone(r.context), s'.callbacks[id].scheduledFor,
                       Some(userZone), r.note, Scheduled, None, 0, None))
  {
    QuietHours.NormalizeKeepsTheHorizon(r.when, now, QuietHours.ResolveOffset(zones, Some(userZone)));
    PhoneKeysInOrder(r.context);
    if j :| IsLatestPending(s, j, r.sourceRun) {
      assert IsLatestPending(s, LatestPending(s, r.sourceRun).value, r.sourceRun);
    }
  }

  class Service {
    var callbacks: map<int, Callback>
    var runs: map<int, Run>
    var calls: seq<Call>
    var nextCallback: int
    var nextRun: int

    ghost function Now(): Store
      reads this
    {
      Store(callbacks, runs, calls, nextCallback, nextRun)
    }

    method UpdateCallback(id: int, state: Option<CallbackState>, scheduledFor: Option<int>,
                          failure: Option<string>, note: Option<string>)
      modifies this
      ensures Now() == Update(old(Now()), id, state, scheduledFor, failure, note)
      ensures Now() == old(Now()).(callbacks := callbacks) && callbacks.Keys == old(callbacks).Keys
      ensures forall j :: j in callbacks && j != id ==> callbacks[j] == old(callbacks)[j]
      ensures id in callbacks ==>
                && (state.Some? ==> callbacks[id].state == state.value)
                && (scheduledFor.Some? ==> callbacks[id].scheduledFor == scheduledFor.value)
                && (failure.Some? ==> callbacks[id].failure == failure)
                && (note.Some? ==> callbacks[id].note == note)
                && callbacks[id] == old(callbacks)[id].(
                     state := if state.None? then old(callbacks)[id].state else callbacks[id].state,
                     scheduledFor := if scheduledFor.None? then old(callbacks)[id].scheduledFor
                       else callbacks[id].scheduledFor,
                     failure := if failure.None? then old(callbacks)[id].failure else callbacks[id].failure,
                     note := if note.None? then old(callbacks)[id].note else callbacks[id].note)
    {
      if id !in callbacks {
        return;
      }
      var cb := callbacks[id];
      if state.Some? {
        cb := cb.(state := state.value);
      }
      if scheduledFor.Some? {
        cb := cb.(scheduledFor := scheduledFor.value);
      }
      if failure.Some? {
        cb := cb.(failure := failure);
      }
      if note.Some? {
        cb := cb.(note := note);
      }
      callbacks := callbacks[id := cb];
    }

    method CreateCallback(cb: Callback) returns (id: int)
      modifies this
      ensures id == old(nextCallback) && Now() == Insert(old(Now()), cb)
      ensures nextCallback > id && callbacks == old(callbacks)[id := cb]
    {
      id := nextCallback;
      callbacks := callbacks[id := cb];
      nextCallback := nextCallback + 1;
    }

    /** Claims the earliest due callbacks that no other transaction has locked. */
    method ClaimDueCallbacks(now: int, locked: set<int>) returns (ids: seq<int>)
      modifies this
      ensures IsSelection(Due(old(Now()), locked, now), ids, CLAIM_LIMIT)
      ensures Now() == MarkInProgress(old(Now()), Elements(ids))
      ensures Now() == old(Now()).(callbacks := callbacks) && callbacks.Keys == old(callbacks).Keys
      ensures forall id :: id in callbacks ==>
                callbacks[id] == if id in ids then old(callbacks)[id].(state := InProgress) else old(callbacks)[id]
    {
      var due := map id | id in callbacks && id !in locked && callbacks[id].state == Scheduled
        && callbacks[id].scheduledFor <= now
                        :: callbacks[id].scheduledFor;
      ids := Select(due, CLAIM_LIMIT);
      for i := 0 to |ids|
        invariant Now() == MarkInProgress(old(Now()), Elements(ids[..i]))
      {
        assert ids[i] in Elements(ids);
        assert Elements(ids[..i + 1]) == Elements(ids[..i]) + {ids[i]};
        callbacks := callbacks[ids[i] := callbacks[ids[i]].(state := InProgress)];
      }
      assert ids[..|ids|] == ids;
    }

    method HandleCallbackAttemptOutcome(id: int, status: string, reason: string, w: World) returns (raised: bool)
      modifies this
      ensures Result(Now(), raised) == HandleOutcome(old(Now()), id, status, reason, w)
    {
      if LoadOutcome in w.broken {
        return true;
      }
      if id !in callbacks {
        return false;
      }
      if status == "completed" {
        if MarkOutcome in w.broken {
          return true;
        }
        UpdateCallback(id, Some(Completed), None, None, None);
        return false;
      }
      var cb := callbacks[id];
      var failure := Some(if reason != "" then reason else status);
      if Retryable(status) && cb.retryCount == 0 {
        if CreateChild in w.broken {
          return true;
        }
        var child := CreateCallback(Retry(cb, id, w));
        if MarkOutcome in w.broken {
          return true;
        }
        UpdateCallback(id, Some(Failed), None, failure, None);
        return false;
      }
      if MarkOutcome in w.broken {
        return true;
      }
      UpdateCallback(id, Some(Failed), None, failure, None);
      return false;
    }

    method FailPlacement(id: int, why: string, w: World) returns (raised: bool)
      modifies this
      ensures raised <==> MarkFailed in w.broken
      ensures Now() == if raised then old(Now()) else Update(old(Now()), id, Some(Failed), None, Some(why), None)
    {
      if MarkFailed in w.broken {
        return true;
      }
      UpdateCallback(id, Some(Failed), None, Some(why), None);
      return false;
    }

    /** The checks before the call; `go` when all of them pass. */
    method ScreenPlacement(id: int, w: World) returns (raised: bool, go: bool)
      requires id in callbacks
      modifies this
      ensures match Decide(old(callbacks)[id], w)
              case Skip => !raised && !go && Now() == old(Now())
              case Raise => raised && !go && Now() == old(Now())
              case Change(state, when, why) => !raised && !go
                && Now() == Update(old(Now()), id, Some(state), when, why, None)
              case Proceed => !raised && go && Now() == old(Now())
    {
      raised, go := false, false;
      var cb := callbacks[id];
      if cb.state != InProgress && cb.state != Scheduled {
        return;
      }
      var offset := OffsetOf(cb, w);
      if QuietHours.IsQuiet(w.now, offset) {
        if Postpone in w.broken {
          return true, false;
        }
        UpdateCallback(id, Some(Scheduled), Some(QuietHours.RollForward(w.now, offset)), None, None);
        return;
      }
      if LoadWorkflow in w.broken {
        return true, false;
      }
      if w.workflowOwner.None? {
        raised := FailPlacement(id, "workflow_not_found", w);
        return;
      }
      if w.quota == Exhausted && PostponeForQuota !in w.broken {
        UpdateCallback(id, Some(Scheduled), Some(w.now + QUOTA_DELAY), Some("quota_exceeded"), None);
        return;
      }
      if w.provider == Unavailable {
        raised := FailPlacement(id, "no_provider: " + w.error, w);
        return;
      }
      if ValidateProvider in w.broken {
        return true, false;
      }
      if w.provider == Misconfigured {
        raised := FailPlacement(id, "provider_not_configured", w);
        return;
      }
      if w.provider == WithoutNumbers {
        raised := FailPlacement(id, "no_from_number", w);
        return;
      }
      var owner := if Truthy(cb.user) then cb.user else w.workflowOwner;
      if CreateRun in w.broken || owner != w.workflowOwner {
        return true, false;
      }
      go := true;
    }

    method PlaceCallbackCall(id: int, w: World) returns (raised: bool, run: Option<int>)
      modifies this
      ensures Placement(Now(), raised, run) == Place(old(Now()), id, w)
    {
      if LoadCallback in w.broken {
        return true, None;
      }
      if id !in callbacks {
        return false, None;
      }
      var go;
      raised, go := ScreenPlacement(id, w);
      if !go {
        return raised, None;
      }
      var runId := nextRun;
      runs := runs[runId := Run(Some(id), None, false)];
      nextRun := nextRun + 1;
      if Endpoints in w.broken {
        return true, None;
      }
      calls := calls + [Call(id, w.now, OffsetOf(callbacks[id], w))];
      if Initiate !in w.broken && RecordRun !in w.broken {
        var gathered := if w.metadataCallback.Some? then w.metadataCallback else Some(id);
        runs := runs[runId := Run(Some(id), gathered, false)];
        return false, Some(runId);
      }
      if CloseRun in w.broken {
        return true, None;
      }
      runs := runs[runId := Run(Some(id), Some(id), true)];
      raised := HandleCallbackAttemptOutcome(id, "failed", w.error, w);
      run := if raised then None else Some(runId);
    }

    /** One tick. The count covers every placement that did not raise, including those that only
        postponed or failed their callback. */
    method CheckDueCallbacks(now: int, locked: set<int>, worlds: int -> World, releases: int -> bool)
      returns (placed: nat, ids: seq<int>)
      modifies this
      ensures IsSelection(Due(old(Now()), locked, now), ids, CLAIM_LIMIT)
      ensures Now() == AttemptAll(MarkInProgress(old(Now()), Elements(ids)), ids, worlds, releases)
      ensures placed == Unraised(MarkInProgress(old(Now()), Elements(ids)), ids, worlds, releases)
    {
      ids := ClaimDueCallbacks(now, locked);
      ghost var claimed := Now();
      placed := 0;
      for i := 0 to |ids|
        invariant Now() == AttemptAll(claimed, ids[..i], worlds, releases)
        invariant placed == Unraised(claimed, ids[..i], worlds, releases)
      {
        assert ids[..i + 1][..i] == ids[..i];
        var w := worlds(ids[i]);
        var raised, run := PlaceCallbackCall(ids[i], w);
        if !raised {
          placed := placed + 1;
        } else if releases(ids[i]) {
          UpdateCallback(ids[i], Some(Scheduled), None, None, None);
        }
      }
      assert ids[..|ids|] == ids;
    }

    method LatestPendingFor(run: int) returns (latest: Option<int>)
      ensures latest == LatestPending(Now(), run)
    {
      var todo := callbacks.Keys;
      latest := None;
      while todo != {}
        invariant todo <= callbacks.Keys
        invariant latest.Some? ==> IsPending(Now(), latest.value, run)
        invariant forall j :: IsPending(Now(), j, run) && j !in todo ==> latest.Some? && j <= latest.value
        decreases todo
      {
        var id := Pick(todo);
        if callbacks[id].sourceRun == Some(run) && callbacks[id].state == Scheduled
           && (latest.None? || latest.value < id)
        {
          latest := Some(id);
        }
        todo := todo - {id};
      }
      assert latest.Some? ==> IsLatestPending(Now(), latest.value, run);
    }

    method ScheduleCallbackForRun(r: Request, now: int, userZone: string, zones: map<string, int>)
        returns (id: Option<int>)
      modifies this
      ensures (Now(), id) == ScheduleForRun(old(Now()), r, now, userZone, zones)
    {
      if r.workflow.None? || PhoneOf(r.context) == "" {
        return None;
      }
      var organization := r.workflow.value.organization;
      if !Truthy(organization) {
        organization := r.workflow.value.userOrganization;
      }
      if !Truthy(organization) {
        return None;
      }
      var when := QuietHours.Normalize(r.when, now, QuietHours.ResolveOffset(zones, Some(userZone)));
      if when.None? {
        return None;
      }
      var existing := LatestPendingFor(r.sourceRun);
      if existing.Some? {
        UpdateCallback(existing.value, None, when, None, r.note);
        return existing;
      }
      var created := CreateCallback(NewCallback(r, when.value, userZone));
      return Some(created);
    }
  }

  /** After a tick in which releases succeed, whatever other ticks hold claimed, every callback it claimed
      is scheduled, failed, completed or cancelled, or in progress with a run that carries its id; and
      so is every callback nobody holds. */
  lemma TickSettlesItsClaims(s: Store, now: int, locked: set<int>, ids: seq<int>, worlds: int -> World,
      others: set<int>)
    requires NobodyStranded(System(s, others, {})) && IsSelection(Due(s, locked, now), ids, CLAIM_LIMIT)
    ensures var e := AttemptAll(MarkInProgress(s, Elements(ids)), ids, worlds, _ => true);
            && (forall id :: id in ids ==> Settled(e, id))
            && NobodyStranded(System(e, others - Elements(ids), {}))
  {
    var claimed, held := MarkInProgress(s, Elements(ids)), others + Elements(ids);
    forall j | j in claimed.callbacks && j !in held ensures Settled(claimed, j) {
      assert Settled(s, j);
    }
    AttemptsLeaveNobodyStranded(claimed, ids, worlds, held);
    assert held - Elements(ids) == others - Elements(ids);
    var e := AttemptAll(claimed, ids, worlds, _ => true);
    forall id | id in ids ensures Settled(e, id) {
      assert id in Elements(ids);
      assert id in e.callbacks ==> Settled(e, id);
    }
  }
}
