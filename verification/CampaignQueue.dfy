/**
 The campaign run queue (api/db/campaign_client.py): many workers claim work at once, each in one
 transaction that locks due retries, then regular rows, marks them `processing` and commits.

 The protocol is a state machine over a committed table and the open transactions. A transaction's
 own updates stay invisible until it commits. An action that is not enabled leaves the state alone,
 so a run is any sequence of actions.
 */
module CampaignQueue {
  import opened Wrappers
  import opened EarliestFirst

  datatype RunState = Queued | Processing | Processed | Failed

  datatype QueuedRun = QueuedRun(
    campaign: int, sourceUuid: string, state: RunState, retryCount: int,
    parent: Option<int>, scheduledFor: Option<int>)

  type Table = map<int, QueuedRun>

  // ---------- The two queries ----------

  predicate IsDueRetry(r: QueuedRun, campaign: int, before: int) {
    r.campaign == campaign && r.state == Queued && r.scheduledFor.Some? && r.scheduledFor.value <= before
  }

  predicate IsRegular(r: QueuedRun, campaign: int) {
    r.campaign == campaign && r.state == Queued && r.scheduledFor.None?
  }

  /** Due retries nobody else has locked, with their times. */
  function DueRetries(rows: Table, locked: set<int>, campaign: int, before: int): map<int, int> {
    map id | id in rows && id !in locked && IsDueRetry(rows[id], campaign, before) :: rows[id].scheduledFor.value
  }

  function RegularRows(rows: Table, locked: set<int>, campaign: int): set<int> {
    set id | id in rows && id !in locked && IsRegular(rows[id], campaign)
  }

  /** A possible result of the second query, whose order is random. */
  ghost predicate IsDraw(regular: set<int>, picked: seq<int>, limit: int) {
    && Distinct(picked)
    && Elements(picked) <= regular
    && |picked| == (if limit <= 0 then 0 else if limit <= |regular| then limit else |regular|)
  }

  function MarkProcessing(rows: Table, ids: set<int>): Table {
    map id | id in rows :: if id in ids then rows[id].(state := Processing) else rows[id]
  }

  // ---------- The protocol ----------

  datatype Phase = Begun | RetriesLocked | RegularLocked

  /** An open claim; `due` remembers what the first query had to choose from. */
  datatype Claim = Claim(
    campaign: int, before: int, limit: int, phase: Phase,
    retries: seq<int>, regular: seq<int>, due: map<int, int>)

  datatype System = System(
    rows: Table, open: map<int, Claim>, ledger: seq<seq<int>>, requeued: seq<int>)

  datatype Action =
    | Begin(tx: int, campaign: int, before: int, limit: int)
    | LockRetries(tx: int, picked: seq<int>)
    | LockRegular(tx: int, picked: seq<int>)
    | Commit(tx: int)
    | Rollback(tx: int)
    | Create(id: int, row: QueuedRun)
    | SetState(id: int, state: RunState)

  ghost function Held(c: Claim): set<int> {
    Elements(c.retries + c.regular)
  }

  /** Rows locked by open transactions other than `tx`. */
  ghost function LockedByOthers(s: System, tx: int): set<int> {
    set t, id | t in s.open && t != tx && id in Held(s.open[t]) :: id
  }

  ghost function Locked(s: System): set<int> {
    set t, id | t in s.open && id in Held(s.open[t]) :: id
  }

  /** The constraint unique_campaign_source_retry admits the row. */
  predicate KeyIsFree(rows: Table, row: QueuedRun) {
    forall id :: id in rows ==>
      !(rows[id].campaign == row.campaign && rows[id].sourceUuid == row.sourceUuid
        && rows[id].retryCount == row.retryCount)
  }

  ghost predicate Enabled(s: System, a: Action) {
    match a
    case Begin(tx, _, _, _) => tx !in s.open
    case LockRetries(tx, picked) =>
      && tx in s.open && s.open[tx].phase == Begun && s.open[tx].limit >= 0
      && var c := s.open[tx];
         IsSelection(DueRetries(s.rows, LockedByOthers(s, tx), c.campaign, c.before), picked, c.limit)
    case LockRegular(tx, picked) =>
      && tx in s.open && s.open[tx].phase == RetriesLocked
      && var c := s.open[tx];
         IsDraw(RegularRows(s.rows, LockedByOthers(s, tx), c.campaign), picked, c.limit - |c.retries|)
    case Commit(tx) => tx in s.open && s.open[tx].phase == RegularLocked
    case Rollback(tx) => tx in s.open
    case Create(id, row) => id !in s.rows && KeyIsFree(s.rows, row)
    case SetState(id, _) => id in s.rows && id !in Locked(s)
  }

  ghost function Step(s: System, a: Action): System {
    if !Enabled(s, a) then s else
      match a
      case Begin(tx, campaign, before, limit) =>
        s.(open := s.open[tx := Claim(campaign, before, limit, Begun, [], [], map[])])
      case LockRetries(tx, picked) =>
        var c := s.open[tx];
        var due := DueRetries(s.rows, LockedByOthers(s, tx), c.campaign, c.before);
        s.(open := s.open[tx := c.(phase := RetriesLocked, retries := picked, due := due)])
      case LockRegular(tx, picked) =>
        s.(open := s.open[tx := s.open[tx].(phase := RegularLocked, regular := picked)])
      case Commit(tx) =>
        var c := s.open[tx];
        s.(rows := MarkProcessing(s.rows, Held(c)), open := s.open - {tx}, ledger := s.ledger + [c.retries + c.regular])
      case Rollback(tx) => s.(open := s.open - {tx})
      case Create(id, row) => s.(rows := s.rows[id := row])
      case SetState(id, state) =>
        s.(rows := s.rows[id := s.rows[id].(state := state)],
           requeued := if state == Queued then s.requeued + [id] else s.requeued)
  }

  ghost function Run(s: System, actions: seq<Action>): System
    decreases |actions|
  {
    if actions == [] then s else Run(Step(s, actions[0]), actions[1..])
  }

  // ---------- Safety of one claim ----------

  /** What an open claim has promised itself so far: at most `limit` rows, retries chosen earliest
      first, and regular rows only once every due retry was taken. */
  ghost predicate ClaimOk(c: Claim) {
    && Distinct(c.retries + c.regular)
    && (c.phase == Begun ==> c.retries == [] && c.regular == [])
    && (c.phase == RetriesLocked ==> c.regular == [])
    && (c.phase != Begun ==>
          && c.limit >= 0
          && IsSelection(c.due, c.retries, c.limit)
          && |c.retries| + |c.regular| <= c.limit
          && (c.regular != [] ==> Elements(c.retries) == c.due.Keys))
  }

  ghost predicate Disjoint(c: Claim, d: Claim) {
    Held(c) !! Held(d)
  }

  /** Times a row occurs in committed claims. */
  ghost function TimesClaimed(ledger: seq<seq<int>>, id: int): nat {
    if ledger == [] then 0
    else TimesClaimed(ledger[..|ledger| - 1], id) + if id in ledger[|ledger| - 1] then 1 else 0
  }

  ghost function TimesRequeued(requeued: seq<int>, id: int): nat {
    multiset(requeued)[id]
  }

  /** Every commit of a row spends its creation as queued or one later reset to queued. */
  ghost predicate WithinBudget(rows: Table, ledger: seq<seq<int>>, requeued: seq<int>, id: int) {
    TimesClaimed(ledger, id) + (if id in rows && rows[id].state == Queued then 1 else 0)
    <= TimesRequeued(requeued, id) + (if id in rows then 1 else 0)
  }

  ghost predicate BudgetsOk(rows: Table, ledger: seq<seq<int>>, requeued: seq<int>) {
    forall id :: WithinBudget(rows, ledger, requeued, id)
  }

  ghost predicate SameRetryKey(r: QueuedRun, q: QueuedRun) {
    r.campaign == q.campaign && r.sourceUuid == q.sourceUuid && r.retryCount == q.retryCount
  }

  ghost predicate UniqueKeys(rows: Table) {
    forall i, j :: i in rows && j in rows && i != j ==> !SameRetryKey(rows[i], rows[j])
  }

  ghost predicate HoldsQueued(rows: Table, c: Claim) {
    && (forall id :: id in Held(c) ==> id in rows && rows[id].state == Queued && rows[id].campaign == c.campaign)
    && (forall id :: id in c.retries ==>
          id in rows && rows[id].scheduledFor.Some? && rows[id].scheduledFor.value <= c.before)
    && (forall id :: id in c.regular ==> id in rows && rows[id].scheduledFor.None?)
  }

  ghost predicate ClaimsOk(rows: Table, open: map<int, Claim>) {
    && (forall t :: t in open ==> ClaimOk(open[t]) && HoldsQueued(rows, open[t]))
    && (forall t, u :: t in open && u in open && t != u ==> Disjoint(open[t], open[u]))
  }

  ghost predicate Inv(s: System) {
    ClaimsOk(s.rows, s.open) && UniqueKeys(s.rows) && BudgetsOk(s.rows, s.ledger, s.requeued)
  }

  ghost predicate Initial(s: System) {
    s.open == map[] && s.ledger == [] && s.requeued == [] && UniqueKeys(s.rows)
  }

  lemma DistinctUnion(a: seq<int>, b: seq<int>)
    requires Distinct(a) && Distinct(b) && Elements(a) !! Elements(b)
    ensures Distinct(a + b)
  {
    assert forall i :: 0 <= i < |a| ==> a[i] in Elements(a);
    assert forall i :: 0 <= i < |b| ==> b[i] in Elements(b);
  }

  lemma OthersAreLocked(s: System, tx: int, u: int)
    requires u in s.open && u != tx
    ensures Held(s.open[u]) <= LockedByOthers(s, tx)
  {
    forall id | id in Held(s.open[u]) ensures id in LockedByOthers(s, tx) {
      assert u in s.open && u != tx && id in Held(s.open[u]);
    }
  }

  /** Replacing one claim by a good one that keeps clear of the others' rows. */
  lemma ReplaceClaim(s: System, tx: int, c: Claim)
    requires Inv(s)
    requires ClaimOk(c) && HoldsQueued(s.rows, c)
    requires forall u :: u in s.open && u != tx ==> Disjoint(c, s.open[u])
    ensures Inv(s.(open := s.open[tx := c]))
  {
  }

  lemma StepLockRetries(s: System, tx: int, picked: seq<int>)
    requires Inv(s) && Enabled(s, LockRetries(tx, picked))
    ensures Inv(Step(s, LockRetries(tx, picked)))
  {
    var c := Step(s, LockRetries(tx, picked)).open[tx];
    assert c.retries + c.regular == picked;
    assert Held(c) == Elements(picked);
    assert forall id :: id in picked ==> id in Elements(picked) && id in c.due;
    forall u | u in s.open && u != tx ensures Disjoint(c, s.open[u]) {
      OthersAreLocked(s, tx, u);
    }
    ReplaceClaim(s, tx, c);
  }

  lemma DrawHoldsQueued(s: System, tx: int, picked: seq<int>)
    requires Inv(s) && Enabled(s, LockRegular(tx, picked))
    ensures HoldsQueued(s.rows, Step(s, LockRegular(tx, picked)).open[tx])
    ensures Elements(s.open[tx].retries) !! Elements(picked)
  {
    var b := s.open[tx];
    assert HoldsQueued(s.rows, b) && b.retries + b.regular == b.retries;
    forall id | id in picked
      ensures id in s.rows && s.rows[id].state == Queued && s.rows[id].campaign == b.campaign
      ensures s.rows[id].scheduledFor.None?
    {
      assert id in Elements(picked);
    }
    assert forall id :: id in b.retries ==> id in Held(b);
    forall id | id in Elements(b.retries) ensures id !in Elements(picked) {
      assert id in b.retries && s.rows[id].scheduledFor.Some?;
    }
  }

  lemma StepLockRegular(s: System, tx: int, picked: seq<int>)
    requires Inv(s) && Enabled(s, LockRegular(tx, picked))
    ensures Inv(Step(s, LockRegular(tx, picked)))
  {
    var b := s.open[tx];
    var c := Step(s, LockRegular(tx, picked)).open[tx];
    assert b.retries + b.regular == b.retries;
    assert Held(b) == Elements(b.retries) && Held(c) == Elements(b.retries) + Elements(picked);
    DrawHoldsQueued(s, tx, picked);
    DistinctUnion(b.retries, picked);
    forall u | u in s.open && u != tx ensures Disjoint(c, s.open[u]) {
      OthersAreLocked(s, tx, u);
      assert Disjoint(b, s.open[u]);
    }
    if picked != [] {
      ShortSelectionTakesAll(b.due, b.retries, b.limit);
    }
    ReplaceClaim(s, tx, c);
  }

  lemma StepCommit(s: System, tx: int)
    requires Inv(s) && Enabled(s, Commit(tx))
    ensures Inv(Step(s, Commit(tx)))
  {
    var s', c := Step(s, Commit(tx)), s.open[tx];
    assert s'.ledger[..|s'.ledger| - 1] == s.ledger;
    forall id ensures WithinBudget(s'.rows, s'.ledger, s'.requeued, id) {
      assert WithinBudget(s.rows, s.ledger, s.requeued, id);
      assert id in Held(c) <==> id in c.retries + c.regular;
    }
    forall t | t in s'.open ensures ClaimOk(s'.open[t]) && HoldsQueued(s'.rows, s'.open[t]) {
      assert Disjoint(s.open[t], c);
      assert forall id :: id in s.open[t].retries ==> id in Held(s.open[t]);
    }
    forall i, j | i in s'.rows && j in s'.rows && i != j ensures !SameRetryKey(s'.rows[i], s'.rows[j]) {
      assert !SameRetryKey(s.rows[i], s.rows[j]);
    }
  }

  lemma StepCreate(s: System, id: int, row: QueuedRun)
    requires Inv(s) && Enabled(s, Create(id, row))
    ensures Inv(Step(s, Create(id, row)))
  {
    var s' := Step(s, Create(id, row));
    forall i ensures WithinBudget(s'.rows, s'.ledger, s'.requeued, i) {
      assert WithinBudget(s.rows, s.ledger, s.requeued, i);
    }
    forall t | t in s'.open ensures HoldsQueued(s'.rows, s'.open[t]) {
      assert HoldsQueued(s.rows, s.open[t]);
    }
  }

  lemma StepSetState(s: System, id: int, state: RunState)
    requires Inv(s) && Enabled(s, SetState(id, state))
    ensures Inv(Step(s, SetState(id, state)))
  {
    var s' := Step(s, SetState(id, state));
    forall i ensures WithinBudget(s'.rows, s'.ledger, s'.requeued, i) {
      assert WithinBudget(s.rows, s.ledger, s.requeued, i);
    }
    forall t | t in s'.open ensures HoldsQueued(s'.rows, s'.open[t]) {
      assert HoldsQueued(s.rows, s.open[t]);
      assert Held(s.open[t]) <= Locked(s);
      assert forall r :: r in s.open[t].retries ==> r in Held(s.open[t]);
    }
    forall i, j | i in s'.rows && j in s'.rows && i != j ensures !SameRetryKey(s'.rows[i], s'.rows[j]) {
      assert !SameRetryKey(s.rows[i], s.rows[j]);
    }
  }

  /** Every action keeps the invariant. */
  lemma StepKeepsInv(s: System, a: Action)
    requires Inv(s)
    ensures Inv(Step(s, a))
  {
    if Enabled(s, a) {
      match a
      case Begin(tx, campaign, before, limit) =>
        assert Held(Claim(campaign, before, limit, Begun, [], [], map[])) == {};
        ReplaceClaim(s, tx, Claim(campaign, before, limit, Begun, [], [], map[]));
      case LockRetries(tx, picked) => StepLockRetries(s, tx, picked);
      case LockRegular(tx, picked) => StepLockRegular(s, tx, picked);
      case Commit(tx) => StepCommit(s, tx);
      case Rollback(_) =>
      case Create(id, row) => StepCreate(s, id, row);
      case SetState(id, state) => StepSetState(s, id, state);
    }
  }

  lemma {:induction false} RunKeepsInv(s: System, actions: seq<Action>)
    requires Inv(s)
    ensures Inv(Run(s, actions))
    decreases |actions|
  {
    if actions != [] {
      StepKeepsInv(s, actions[0]);
      RunKeepsInv(Step(s, actions[0]), actions[1..]);
    }
  }

  lemma InitialInv(s: System)
    requires Initial(s)
    ensures Inv(s)
  {
    forall id ensures WithinBudget(s.rows, s.ledger, s.requeued, id) {
      assert TimesClaimed([], id) == 0;
    }
  }

  // ---------- Main results, over every interleaving ----------

  /** No row is held by two open transactions. */
  lemma NoRowHeldTwice(s: System, actions: seq<Action>, t: int, u: int)
    requires Initial(s)
    ensures var e := Run(s, actions);
            t in e.open && u in e.open && t != u ==> Held(e.open[t]) !! Held(e.open[u])
  {
    InitialInv(s);
    RunKeepsInv(s, actions);
    var e := Run(s, actions);
    assert t in e.open && u in e.open && t != u ==> Disjoint(e.open[t], e.open[u]);
  }

  /** A row is handed out at most once more often than it is reset to queued. */
  lemma ClaimsAreBoundedByRequeues(s: System, actions: seq<Action>, id: int)
    requires Initial(s)
    ensures var e := Run(s, actions);
            TimesClaimed(e.ledger, id) <= 1 + TimesRequeued(e.requeued, id)
  {
    InitialInv(s);
    RunKeepsInv(s, actions);
    var e := Run(s, actions);
    assert WithinBudget(e.rows, e.ledger, e.requeued, id);
  }

  lemma {:induction false} TwoEntriesCountTwice(ledger: seq<seq<int>>, i: int, j: int, id: int)
    requires 0 <= i < j < |ledger| && id in ledger[i] && id in ledger[j]
    ensures TimesClaimed(ledger, id) >= 2
    decreases |ledger|
  {
    var front := ledger[..|ledger| - 1];
    if j < |front| {
      TwoEntriesCountTwice(front, i, j, id);
    } else {
      OneEntryCounts(front, i, id);
    }
  }

  lemma {:induction false} OneEntryCounts(ledger: seq<seq<int>>, i: int, id: int)
    requires 0 <= i < |ledger| && id in ledger[i]
    ensures TimesClaimed(ledger, id) >= 1
    decreases |ledger|
  {
    if i < |ledger| - 1 {
      OneEntryCounts(ledger[..|ledger| - 1], i, id);
    }
  }

  /** While nothing resets a row to queued, the committed claims of all workers are pairwise disjoint. */
  lemma CommittedClaimsAreDisjoint(s: System, actions: seq<Action>, i: int, j: int, id: int)
    requires Initial(s)
    requires forall k :: 0 <= k < |actions| ==> !(actions[k].SetState? && actions[k].state == Queued)
    requires 0 <= i < j < |Run(s, actions).ledger|
    ensures id !in Run(s, actions).ledger[i] || id !in Run(s, actions).ledger[j]
  {
    ClaimsAreBoundedByRequeues(s, actions, id);
    NothingRequeued(s, actions);
    if id in Run(s, actions).ledger[i] && id in Run(s, actions).ledger[j] {
      TwoEntriesCountTwice(Run(s, actions).ledger, i, j, id);
    }
  }

  lemma {:induction false} NothingRequeued(s: System, actions: seq<Action>)
    requires forall k :: 0 <= k < |actions| ==> !(actions[k].SetState? && actions[k].state == Queued)
    ensures Run(s, actions).requeued == s.requeued
    decreases |actions|
  {
    if actions != [] {
      assert !(actions[0].SetState? && actions[0].state == Queued);
      NothingRequeued(Step(s, actions[0]), actions[1..]);
    }
  }

  /** Rolling back at any point leaves the table as it was, with exactly the rows the transaction
      held queued again for others to lock. */
  lemma RollbackRestores(s: System, actions: seq<Action>, tx: int)
    requires Initial(s) && tx in Run(s, actions).open
    ensures var e := Run(s, actions);
            var r := Step(e, Rollback(tx));
            && r.rows == e.rows && r.ledger == e.ledger
            && (forall id :: id in Held(e.open[tx]) ==> id in r.rows && r.rows[id].state == Queued)
            && Locked(r) == Locked(e) - Held(e.open[tx])
  {
    InitialInv(s);
    RunKeepsInv(s, actions);
    var e := Run(s, actions);
    var r := Step(e, Rollback(tx));
    assert HoldsQueued(e.rows, e.open[tx]);
    forall id ensures id in Locked(r) <==> id in Locked(e) && id !in Held(e.open[tx]) {
      if id in Locked(r) {
        var t :| t in r.open && id in Held(r.open[t]);
        assert Disjoint(e.open[t], e.open[tx]);
      }
      if id in Locked(e) && id !in Held(e.open[tx]) {
        var t :| t in e.open && id in Held(e.open[t]);
        assert t in r.open && id in Held(r.open[t]);
      }
    }
  }

  /** Every claim ready to commit is within its limit, took its retries earliest first, and took a
      fresh row only if it had taken every due retry that nobody else held. */
  lemma RetriesComeFirst(s: System, actions: seq<Action>, tx: int)
    requires Initial(s) && Enabled(Run(s, actions), Commit(tx))
    ensures var c := Run(s, actions).open[tx];
            && c.limit >= 0 && |c.retries + c.regular| <= c.limit
            && Distinct(c.retries + c.regular)
            && IsSelection(c.due, c.retries, c.limit)
            && (c.regular != [] ==> Elements(c.retries) == c.due.Keys)
  {
    InitialInv(s);
    RunKeepsInv(s, actions);
    assert ClaimOk(Run(s, actions).open[tx]);
  }

  /** A claim ready to commit holds rows of its campaign that are queued, each retry due by the given time
      and each fresh row without a time. */
  lemma ClaimedRowsAreDue(s: System, actions: seq<Action>, tx: int, id: int)
    requires Initial(s) && Enabled(Run(s, actions), Commit(tx))
    ensures var rows, c := Run(s, actions).rows, Run(s, actions).open[tx];
            && (id in c.retries ==>
                  && id in rows && rows[id].campaign == c.campaign && rows[id].state == Queued
                  && rows[id].scheduledFor.Some? && rows[id].scheduledFor.value <= c.before)
            && (id in c.regular ==>
                  && id in rows && rows[id].campaign == c.campaign && rows[id].state == Queued
                  && rows[id].scheduledFor.None?)
  {
    InitialInv(s);
    RunKeepsInv(s, actions);
    var c := Run(s, actions).open[tx];
    assert HoldsQueued(Run(s, actions).rows, c);
    assert id in c.retries || id in c.regular ==> id in c.retries + c.regular;
  }

  /** What a commit does to the table: exactly the claimed rows become processing, in that field alone. */
  lemma CommitMarksTheClaim(s: System, tx: int, id: int)
    requires Enabled(s, Commit(tx))
    ensures var c, rows := s.open[tx], Step(s, Commit(tx)).rows;
            && rows.Keys == s.rows.Keys
            && (id in rows ==>
                  rows[id] == if id in c.retries || id in c.regular then s.rows[id].(state := Processing)
                    else s.rows[id])
  {
  }

  /** A queued row of the campaign that nobody else has locked. */
  ghost predicate Claimable(rows: Table, locked: set<int>, campaign: int, id: int) {
    id in rows && id !in locked && rows[id].campaign == campaign && rows[id].state == Queued
  }

  /** A claimable row whose time has come. */
  ghost predicate ClaimableNow(rows: Table, locked: set<int>, campaign: int, before: int, id: int) {
    Claimable(rows, locked, campaign, id) && rows[id].scheduledFor.Some? && rows[id].scheduledFor.value <= before
  }

  /** A claimable row without a time. */
  ghost predicate ClaimableFresh(rows: Table, locked: set<int>, campaign: int, id: int) {
    Claimable(rows, locked, campaign, id) && rows[id].scheduledFor.None?
  }

  /** A possible first selection takes only rows that are claimable now, and leaves one of those behind only
      when it is full with rows no later. */
  lemma SelectedRetries(rows: Table, locked: set<int>, campaign: int, before: int, limit: nat, retries: seq<int>,
      id: int)
    requires IsSelection(DueRetries(rows, locked, campaign, before), retries, limit)
    ensures forall i, j :: 0 <= i < j < |retries| ==>
              && retries[i] != retries[j] && retries[i] in rows && retries[j] in rows
              && rows[retries[i]].scheduledFor.GetOr(0) <= rows[retries[j]].scheduledFor.GetOr(0)
    ensures id in retries ==> ClaimableNow(rows, locked, campaign, before, id)
    ensures id !in retries && ClaimableNow(rows, locked, campaign, before, id) ==>
              && |retries| == limit
              && forall i :: 0 <= i < |retries| ==>
                   && ClaimableNow(rows, locked, campaign, before, retries[i])
                   && rows[retries[i]].scheduledFor.value <= rows[id].scheduledFor.value
  {
    var due := DueRetries(rows, locked, campaign, before);
    assert forall j :: j in retries ==> j in Elements(retries) && j in due;
    if |retries| < limit {
      ShortSelectionTakesAll(due, retries, limit);
      assert id in due ==> id in Elements(retries);
    }
    forall i | 0 <= i < |retries| && id in due && id !in retries
      ensures ClaimableNow(rows, locked, campaign, before, retries[i]) && due[retries[i]] <= due[id]
    {
      assert retries[i] in retries;
    }
  }

  /** The rows `RetriesComeFirst` measures a claim against are those claimable when it locked its retries. */
  lemma DueAreTheClaimable(s: System, tx: int, picked: seq<int>, id: int)
    requires Enabled(s, LockRetries(tx, picked))
    ensures var c := Step(s, LockRetries(tx, picked)).open[tx];
            && c.retries == picked
            && (id in c.due <==> ClaimableNow(s.rows, LockedByOthers(s, tx), c.campaign, c.before, id))
  {
  }

  /** A possible draw takes only claimable rows without a time, and leaves one of those behind only when the
      limit is reached. */
  lemma DrawnRows(rows: Table, locked: set<int>, campaign: int, limit: int, drawn: seq<int>, id: int)
    requires IsDraw(RegularRows(rows, locked, campaign), drawn, limit)
    ensures id in drawn ==> ClaimableFresh(rows, locked, campaign, id)
    ensures id !in drawn && ClaimableFresh(rows, locked, campaign, id) ==> |drawn| >= limit
  {
    var regular := RegularRows(rows, locked, campaign);
    assert forall j :: j in drawn ==> j in Elements(drawn) && j in regular;
    if |drawn| < limit {
      DistinctCardinality(drawn);
      SubsetCardinality(Elements(drawn), regular);
      assert id in regular ==> id in Elements(drawn);
    }
  }

  /** Where rows may be locked, by anyone but the transaction itself. */
  lemma LockedByOthersMeans(s: System, tx: int, id: int)
    ensures id in LockedByOthers(s, tx) <==>
            exists t :: t in s.open && t != tx && (id in s.open[t].retries || id in s.open[t].regular)
  {
    if t :| t in s.open && t != tx && (id in s.open[t].retries || id in s.open[t].regular) {
      assert id in Held(s.open[t]);
    }
    if id in LockedByOthers(s, tx) {
      var t :| t in s.open && t != tx && id in Held(s.open[t]);
      assert id in s.open[t].retries || id in s.open[t].regular;
    }
  }

  // ---------- The transaction as written ----------

  lemma MarkingRetriesKeepsRegular(rows: Table, retries: seq<int>, locked: set<int>, campaign: int, before: int)
    requires Elements(retries) <= DueRetries(rows, locked, campaign, before).Keys
    ensures RegularRows(MarkProcessing(rows, Elements(retries)), locked, campaign) ==
        RegularRows(rows, locked, campaign)
  {
    var marked := MarkProcessing(rows, Elements(retries));
    forall id | id in rows ensures IsRegular(marked[id], campaign) <==> IsRegular(rows[id], campaign) {
      if id in Elements(retries) {
        assert id in DueRetries(rows, locked, campaign, before);
      }
    }
  }

  lemma MarkTwice(rows: Table, a: seq<int>, b: seq<int>)
    ensures MarkProcessing(MarkProcessing(rows, Elements(a)), Elements(b)) == MarkProcessing(rows, Elements(a + b))
    ensures MarkProcessing(rows, Elements([])) == rows
  {
  }

  lemma ClaimIsOfClaimableRows(rows: Table, locked: set<int>, campaign: int, before: int, limit: nat,
      retries: seq<int>, drawn: seq<int>)
    requires IsSelection(DueRetries(rows, locked, campaign, before), retries, limit)
    requires IsDraw(RegularRows(rows, locked, campaign), drawn, limit - |retries|)
    ensures forall id :: id in retries ==> ClaimableNow(rows, locked, campaign, before, id)
    ensures forall id :: id in drawn ==> ClaimableFresh(rows, locked, campaign, id)
    ensures drawn != [] ==> forall id :: ClaimableNow(rows, locked, campaign, before, id) ==> id in retries
    ensures |retries| + |drawn| < limit ==> forall id :: ClaimableFresh(rows, locked, campaign, id) ==> id in drawn
  {
    forall id
      ensures id in retries ==> ClaimableNow(rows, locked, campaign, before, id)
      ensures id in drawn ==> ClaimableFresh(rows, locked, campaign, id)
      ensures drawn != [] && ClaimableNow(rows, locked, campaign, before, id) ==> id in retries
      ensures |retries| + |drawn| < limit && ClaimableFresh(rows, locked, campaign, id) ==> id in drawn
    {
      SelectedRetries(rows, locked, campaign, before, limit, retries, id);
      DrawnRows(rows, locked, campaign, limit - |retries|, drawn, id);
    }
  }

  lemma MarkingMeans(rows: Table, ids: seq<int>)
    ensures MarkProcessing(rows, Elements(ids)).Keys == rows.Keys
    ensures forall id :: id in rows ==>
              MarkProcessing(rows, Elements(ids))[id] ==
              if id in ids then rows[id].(state := Processing) else rows[id]
  {
  }

  class CampaignClient {
    var rows: Table
    var nextId: int

    ghost predicate Valid()
      reads this
    {
      forall id :: id in rows ==> id < nextId
    }

    /** Inserts a queued run unless its campaign, source and retry count are already taken. */
    method CreateQueuedRun(row: QueuedRun) returns (created: Option<int>)
      requires Valid()
      modifies this
      ensures Valid()
      ensures created.None? <==> exists id :: id in old(rows) && SameRetryKey(old(rows)[id], row)
      ensures created.Some? ==> created.value !in old(rows) && rows == old(rows)[created.value := row]
      ensures created.None? ==> rows == old(rows)
    {
      if !KeyIsFree(rows, row) {
        return None;
      }
      created := Some(nextId);
      rows := rows[nextId := row];
      nextId := nextId + 1;
    }

    /** One claim while other transactions hold `locked`. A negative limit makes the query fail. */
    method ClaimQueuedRunsForProcessing(locked: set<int>, campaign: int, before: int, limit: int)
      returns (claimed: Option<seq<int>>, ghost retries: seq<int>)
      modifies this`rows
      ensures limit < 0 ==> claimed.None? && rows == old(rows)
      ensures limit >= 0 ==>
                && claimed.Some? && retries <= claimed.value
                && IsSelection(DueRetries(old(rows), locked, campaign, before), retries, limit)
                && IsDraw(RegularRows(old(rows), locked, campaign), claimed.value[|retries|..], limit - |retries|)
                && |claimed.value| <= limit
                && (|retries| < |claimed.value| ==>
                     Elements(retries) == DueRetries(old(rows), locked, campaign, before).Keys)
                && rows == MarkProcessing(old(rows), Elements(claimed.value))
      ensures rows.Keys == old(rows).Keys
      ensures limit >= 0 ==> forall id :: id in rows ==>
                rows[id] == if id in claimed.value then old(rows)[id].(state := Processing) else old(rows)[id]
      ensures limit >= 0 ==>
                && (forall id :: id in retries ==> ClaimableNow(old(rows), locked, campaign, before, id))
                && (forall id :: id in claimed.value[|retries|..] ==> ClaimableFresh(old(rows), locked, campaign, id))
      ensures limit >= 0 && |retries| < |claimed.value| ==>
                forall id :: ClaimableNow(old(rows), locked, campaign, before, id) ==> id in retries
      ensures limit >= 0 && |claimed.value| < limit ==>
                forall id :: ClaimableFresh(old(rows), locked, campaign, id) ==> id in claimed.value
    {
      retries := [];
      if limit < 0 {
        return None, [];
      }
      var scheduledRuns := Select(DueRetries(rows, locked, campaign, before), limit);
      retries := scheduledRuns;
      var claimedRuns := MarkAndCollect(scheduledRuns, []);
      var remaining := limit - |scheduledRuns|;
      MarkingRetriesKeepsRegular(old(rows), scheduledRuns, locked, campaign, before);
      var regularRuns: seq<int> := [];
      if remaining > 0 {
        ShortSelectionTakesAll(DueRetries(old(rows), locked, campaign, before), scheduledRuns, limit);
        regularRuns := Draw(RegularRows(rows, locked, campaign), remaining);
        claimedRuns := MarkAndCollect(regularRuns, claimedRuns);
      }
      MarkTwice(old(rows), scheduledRuns, regularRuns);
      MarkingMeans(old(rows), scheduledRuns + regularRuns);
      assert claimedRuns == scheduledRuns + regularRuns && claimedRuns[|scheduledRuns|..] == regularRuns;
      ClaimIsOfClaimableRows(old(rows), locked, campaign, before, limit, scheduledRuns, regularRuns);
      claimed := Some(claimedRuns);
    }

    method MarkAndCollect(runs: seq<int>, collected: seq<int>) returns (claimed: seq<int>)
      requires Elements(runs) <= rows.Keys
      modifies this`rows
      ensures claimed == collected + runs
      ensures rows == MarkProcessing(old(rows), Elements(runs))
    {
      claimed := collected;
      for i := 0 to |runs|
        invariant claimed == collected + runs[..i]
        invariant rows == MarkProcessing(old(rows), Elements(runs[..i]))
      {
        assert runs[i] in Elements(runs);
        assert Elements(runs[..i + 1]) == Elements(runs[..i]) + {runs[i]};
        rows := rows[runs[i] := rows[runs[i]].(state := Processing)];
        claimed := claimed + [runs[i]];
      }
      assert runs[..|runs|] == runs;
    }

    /** Rows in the order a random sort happens to give. */
    static method Draw(pool: set<int>, limit: nat) returns (picked: seq<int>)
      ensures IsDraw(pool, picked, limit)
    {
      picked := [];
      var rest := pool;
      while |picked| < limit && rest != {}
        invariant Distinct(picked) && |picked| <= limit
        invariant rest == pool - Elements(picked) && Elements(picked) <= pool
        invariant |picked| + |rest| == |pool|
      {
        var id := Pick(rest);
        picked := picked + [id];
        rest := rest - {id};
      }
    }
  }

  /** The transaction as written is the protocol run begin, lock retries, lock fresh, commit. */
  lemma ClaimRefinesProtocol(s: System, tx: int, campaign: int, before: int, limit: nat, retries: seq<int>,
      regular: seq<int>)
    requires Inv(s) && tx !in s.open
    requires IsSelection(DueRetries(s.rows, Locked(s), campaign, before), retries, limit)
    requires IsDraw(RegularRows(s.rows, Locked(s), campaign), regular, limit - |retries|)
    ensures var e := Run(s, [Begin(tx, campaign, before, limit), LockRetries(tx, retries), LockRegular(tx, regular),
        Commit(tx)]);
            && e.rows == MarkProcessing(s.rows, Elements(retries + regular))
            && e.ledger == s.ledger + [retries + regular]
            && e.open == s.open
  {
    var a, b, c, d := Begin(tx, campaign, before, limit), LockRetries(tx, retries), LockRegular(tx, regular),
      Commit(tx);
    var s2 := Step(Step(s, a), b);
    LockedRetriesOf(s, tx, campaign, before, limit, retries);
    OwnClaimLocksNothingForItself(s, tx, s2.open[tx]);
    var s3 := Step(s2, c);
    var done := s3.open[tx];
    assert done.retries == retries && done.regular == regular && done.phase == RegularLocked;
    assert s3.open == s.open[tx := done];
    CommitOf(s, s3, tx, done);
    RunFour(s, a, b, c, d);
  }

  lemma LockedRetriesOf(s: System, tx: int, campaign: int, before: int, limit: nat, retries: seq<int>)
    requires tx !in s.open
    requires IsSelection(DueRetries(s.rows, Locked(s), campaign, before), retries, limit)
    ensures var due := DueRetries(s.rows, Locked(s), campaign, before);
            Step(Step(s, Begin(tx, campaign, before, limit)), LockRetries(tx, retries)) ==
            s.(open := s.open[tx := Claim(campaign, before, limit, RetriesLocked, retries, [], due)])
  {
    var s1 := Step(s, Begin(tx, campaign, before, limit));
    OwnClaimLocksNothingForItself(s, tx, s1.open[tx]);
    var s2 := Step(s1, LockRetries(tx, retries));
    assert s2.open == s.open[tx := s2.open[tx]];
  }

  lemma CommitOf(s: System, t: System, tx: int, c: Claim)
    requires tx !in s.open && t == s.(open := s.open[tx := c]) && c.phase == RegularLocked
    ensures Step(t, Commit(tx)) ==
            s.(rows := MarkProcessing(s.rows, Elements(c.retries + c.regular)), ledger := s.ledger
              + [c.retries + c.regular])
  {
    assert s.open[tx := c] - {tx} == s.open;
  }

  lemma OwnClaimLocksNothingForItself(s: System, tx: int, c: Claim)
    requires tx !in s.open
    ensures LockedByOthers(s.(open := s.open[tx := c]), tx) == Locked(s)
  {
    var t' := s.(open := s.open[tx := c]);
    forall id ensures id in LockedByOthers(t', tx) <==> id in Locked(s) {
      if id in Locked(s) {
        var t :| t in s.open && id in Held(s.open[t]);
        assert t in t'.open && t != tx && id in Held(t'.open[t]);
      }
    }
  }

  lemma RunFour(s: System, a: Action, b: Action, c: Action, d: Action)
    ensures Run(s, [a, b, c, d]) == Step(Step(Step(Step(s, a), b), c), d)
  {
    assert [a, b, c, d][1..] == [b, c, d];
    assert [b, c, d][1..] == [c, d];
    var s2 := Step(Step(s, a), b);
    assert Run(s, [a, b, c, d]) == Run(Step(s, a), [b, c, d]) == Run(s2, [c, d]);
    assert [c, d][1..] == [d];
    assert [d][1..] == [];
    assert Run(s2, [c, d]) == Run(Step(s2, c), [d]) == Run(Step(Step(s2, c), d), []);
  }
}
