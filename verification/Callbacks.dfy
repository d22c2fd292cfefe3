/**
 Follow-up callbacks (api/tasks/callback_tasks.py, api/db/callback_client.py,
 api/services/callbacks.py): what each operation does to the stored rows.

 Everything outside the store is an input of the operation: the clock, the zone database, what the
 telephony provider and the quota service answer, and which steps raise (`broken`).
 */
module Callbacks {
  import opened Wrappers
  import QuietHours
  import Time

  const MINUTE: int := 60 * Time.SECOND
  const RETRY_DELAY: int := 120 * MINUTE
  const QUOTA_DELAY: int := 60 * MINUTE

  datatype CallbackState = Scheduled | InProgress | Completed | Failed | Cancelled

  datatype Callback = Callback(
    organization: int, workflow: int, user: Option<int>, sourceRun: Option<int>, phone: string,
    scheduledFor: int, timezone: Option<string>, note: Option<string>, state: CallbackState,
    failure: Option<string>, retryCount: int, parent: Option<int>)

  /** A workflow run, as far as callbacks are concerned: the callback ids in its two contexts. */
  datatype Run = Run(initialCallback: Option<int>, gatheredCallback: Option<int>, completed: bool)

  /** A call handed to the provider: when, for which callback, in which offset from UTC. */
  datatype Call = Call(callback: int, at: int, offset: int)

  datatype Store = Store(
    callbacks: map<int, Callback>, runs: map<int, Run>, calls: seq<Call>, nextCallback: int, nextRun: int)

  /** `Initiate` raises when the provider did not take the call, `RecordRun` when it did but its answer was
      lost or could not be recorded. */
  datatype Stage =
    | LoadCallback | Postpone | LoadWorkflow | MarkFailed | PostponeForQuota | ValidateProvider | CreateRun
    | Endpoints | Initiate | RecordRun | CloseRun | LoadOutcome | CreateChild | MarkOutcome

  datatype Quota = Granted | Exhausted | CheckRaised
  datatype Provider = Unavailable | Misconfigured | WithoutNumbers | Ready

  datatype World = World(
    now: int, userZone: string, zones: map<string, int>, workflowOwner: Option<int>, quota: Quota,
    provider: Provider, metadataCallback: Option<int>, error: string, broken: set<Stage>)

  predicate Truthy(id: Option<int>) {
    id.Some? && id.value != 0
  }

  /** `callback.timezone or` the user's zone. */
  function ZoneOf(cb: Callback, w: World): Option<string> {
    if cb.timezone.Some? && cb.timezone.value != "" then cb.timezone else Some(w.userZone)
  }

  function OffsetOf(cb: Callback, w: World): int {
    QuietHours.ResolveOffset(w.zones, ZoneOf(cb, w))
  }

  // ---------- Rows ----------

  function Update(s: Store, id: int, state: Option<CallbackState>, scheduledFor: Option<int>,
                  failure: Option<string>, note: Option<string>): Store
  {
    if id !in s.callbacks then s else
      var cb := s.callbacks[id];
      s.(callbacks := s.callbacks[id := cb.(
        state := state.GetOr(cb.state), scheduledFor := scheduledFor.GetOr(cb.scheduledFor),
        failure := if failure.Some? then failure else cb.failure, note := if note.Some? then note else cb.note)])
  }

  function Insert(s: Store, cb: Callback): Store {
    s.(callbacks := s.callbacks[s.nextCallback := cb], nextCallback := s.nextCallback + 1)
  }

  function SetRun(s: Store, run: int, row: Run): Store {
    s.(runs := s.runs[run := row])
  }

  // ---------- Outcomes and the single retry ----------

  predicate Retryable(status: string) {
    status in {"busy", "failed", "canceled", "error"}
  }

  function Retry(cb: Callback, id: int, w: World): Callback {
    Callback(cb.organization, cb.workflow, cb.user, cb.sourceRun, cb.phone,
             QuietHours.RollForward(w.now + RETRY_DELAY, OffsetOf(cb, w)),
             ZoneOf(cb, w), cb.note, Scheduled, None, 1, Some(id))
  }

  /** `raised` when some step raised; what was committed before stays. */
  datatype Result = Result(store: Store, raised: bool)

  function HandleOutcome(s: Store, id: int, status: string, reason: string, w: World): Result {
    var failure := Some(if reason != "" then reason else status);
    if LoadOutcome in w.broken then Result(s, true)
    else if id !in s.callbacks then Result(s, false)
    else if status == "completed" then
      if MarkOutcome in w.broken then Result(s, true)
      else Result(Update(s, id, Some(Completed), None, None, None), false)
    else if Retryable(status) && s.callbacks[id].retryCount == 0 then
      if CreateChild in w.broken then Result(s, true)
      else
        var s1 := Insert(s, Retry(s.callbacks[id], id, w));
        if MarkOutcome in w.broken then Result(s1, true)
        else Result(Update(s1, id, Some(Failed), None, failure, None), false)
    else if MarkOutcome in w.broken then Result(s, true)
    else Result(Update(s, id, Some(Failed), None, failure, None), false)
  }

  // ---------- Placement ----------

  datatype Placement = Placement(store: Store, raised: bool, run: Option<int>)

  function Raised(s: Store): Placement {
    Placement(s, true, None)
  }

  /** What the checks before the call decide for a loaded callback. */
  datatype Decision =
    | Skip
    | Raise
    | Change(state: CallbackState, when: Option<int>, why: Option<string>)
    | Proceed

  function FailWith(why: string, w: World): Decision {
    if MarkFailed in w.broken then Raise else Change(Failed, None, Some(why))
  }

  function Decide(cb: Callback, w: World): Decision {
    if cb.state !in {InProgress, Scheduled} then Skip
    else if QuietHours.IsQuiet(w.now, OffsetOf(cb, w)) then
      if Postpone in w.broken then Raise
      else Change(Scheduled, Some(QuietHours.RollForward(w.now, OffsetOf(cb, w))), None)
    else if LoadWorkflow in w.broken then Raise
    else if w.workflowOwner.None? then FailWith("workflow_not_found", w)
    // A raising quota check, and a raising postponement, are both swallowed: the call goes on.
    else if w.quota == Exhausted && PostponeForQuota !in w.broken then
      Change(Scheduled, Some(w.now + QUOTA_DELAY), Some("quota_exceeded"))
    else if w.provider == Unavailable then FailWith("no_provider: " + w.error, w)
    else if ValidateProvider in w.broken then Raise
    else if w.provider == Misconfigured then FailWith("provider_not_configured", w)
    else if w.provider == WithoutNumbers then FailWith("no_from_number", w)
    else if CreateRun in w.broken || (Truthy(cb.user) && cb.user != w.workflowOwner) then Raise
    else Proceed
  }

  function Place(s: Store, id: int, w: World): Placement {
    if LoadCallback in w.broken then Raised(s)
    else if id !in s.callbacks then Placement(s, false, None)
    else
      match Decide(s.callbacks[id], w)
      case Skip => Placement(s, false, None)
      case Raise => Raised(s)
      case Change(state, when, why) => Placement(Update(s, id, Some(state), when, why, None), false, None)
      case Proceed =>
        var s1 := SetRun(s, s.nextRun, Run(Some(id), None, false)).(nextRun := s.nextRun + 1);
        if Endpoints in w.broken then Raised(s1)
        else Dial(s1.(calls := s1.calls + [Call(id, w.now, OffsetOf(s.callbacks[id], w))]), id, s.nextRun, w)
  }

  /** From the provider's answer on; a failure here counts as a failed attempt. */
  function Dial(s: Store, id: int, run: int, w: World): Placement {
    if Initiate !in w.broken && RecordRun !in w.broken then
      var gathered := if w.metadataCallback.Some? then w.metadataCallback else Some(id);
      Placement(SetRun(s, run, Run(Some(id), gathered, false)), false, Some(run))
    else if CloseRun in w.broken then Raised(s)
    else
      var r := HandleOutcome(SetRun(s, run, Run(Some(id), Some(id), true)), id, "failed", w.error, w);
      if r.raised then Raised(r.store) else Placement(r.store, false, Some(run))
  }

  /** One iteration of the tick: a raised placement releases the callback, if the release works. */
  function Attempt(s: Store, id: int, w: World, releases: bool): Store {
    var p := Place(s, id, w);
    if p.raised && releases then Update(p.store, id, Some(Scheduled), None, None, None) else p.store
  }

  /** Scheduled rows that are due and not locked elsewhere, with their times. */
  function Due(s: Store, locked: set<int>, now: int): map<int, int> {
    map id | id in s.callbacks && id !in locked && s.callbacks[id].state == Scheduled
      && s.callbacks[id].scheduledFor <= now
           :: s.callbacks[id].scheduledFor
  }

  function MarkInProgress(s: Store, ids: set<int>): Store {
    s.(callbacks := map id | id in s.callbacks ::
                      if id in ids then s.callbacks[id].(state := InProgress) else s.callbacks[id])
  }

  // ---------- Requests made during or after a call ----------

  datatype WorkflowInfo = WorkflowInfo(
    id: int, user: Option<int>, organization: Option<int>, userOrganization: Option<int>)

  datatype Request = Request(
    sourceRun: int, workflow: Option<WorkflowInfo>, context: map<string, string>, when: int, note: Option<string>)

  function PhoneIn(context: map<string, string>, keys: seq<string>): string {
    if keys == [] then ""
    else if keys[0] in context && context[keys[0]] != "" then context[keys[0]]
    else PhoneIn(context, keys[1..])
  }

  function PhoneOf(context: map<string, string>): string {
    PhoneIn(context, ["phone_number", "caller_number", "called_number"])
  }

  function OrganizationOf(info: WorkflowInfo): Option<int> {
    if Truthy(info.organization) then info.organization else info.userOrganization
  }

  predicate IsPending(s: Store, id: int, run: int) {
    id in s.callbacks && s.callbacks[id].sourceRun == Some(run) && s.callbacks[id].state == Scheduled
  }

  /** The most recently created still-scheduled callback of a run. */
  ghost predicate IsLatestPending(s: Store, id: int, run: int) {
    IsPending(s, id, run) && forall j :: IsPending(s, j, run) ==> j <= id
  }

  ghost function LatestPending(s: Store, run: int): Option<int> {
    if id :| IsLatestPending(s, id, run) then Some(id) else None
  }

  /** Acceptable requests carry a phone number, an organization and a time within the horizon. */
  function AcceptedTime(r: Request, now: int, userZone: string, zones: map<string, int>): Option<int> {
    if r.workflow.None? || PhoneOf(r.context) == "" || !Truthy(OrganizationOf(r.workflow.value)) then None
    else QuietHours.Normalize(r.when, now, QuietHours.ResolveOffset(zones, Some(userZone)))
  }

  function NewCallback(r: Request, when: int, userZone: string): Callback
    requires r.workflow.Some? && Truthy(OrganizationOf(r.workflow.value))
  {
    Callback(OrganizationOf(r.workflow.value).value, r.workflow.value.id, r.workflow.value.user, Some(r.sourceRun),
             PhoneOf(r.context), when, Some(userZone), r.note, Scheduled, None, 0, None)
  }

  ghost function ScheduleForRun(s: Store, r: Request, now: int, userZone: string, zones: map<string, int>)
    : (Store, Option<int>)
  {
    match AcceptedTime(r, now, userZone, zones)
    case None => (s, None)
    case Some(when) =>
      match LatestPending(s, r.sourceRun)
      case Some(id) => (Update(s, id, None, Some(when), None, r.note), Some(id))
      case None => (Insert(s, NewCallback(r, when, userZone)), Some(s.nextCallback))
  }
}
