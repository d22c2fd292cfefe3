/**
 Usage cycles, quota reservations and charges (api/db/organization_usage_client.py), by any number of
 concurrent transactions.

 A transaction looks its cycle up, inserts it when missing (waiting while another open transaction has
 inserted the same key), locks the row, and writes back from the value read under the lock. An action
 that is not enabled leaves the state alone. Nothing an open transaction did is visible to others.
 */
module UsageLedger {
  import opened Wrappers
  import opened BillingPeriod

  datatype Organization = Organization(settings: Settings, quotaTokens: int, quotaEnabled: bool)

  datatype Cycle = Cycle(
    organization: int, period: Period, quota: int, used: int, seconds: int, usd: Option<real>)

  datatype Request =
    | Reserve(organization: int, tokens: int)
    | Charge(organization: int, tokens: int, seconds: int, usd: Option<real>)

  datatype Phase = Searching | Missing | Located | Locked | Refused

  /** `created` is the row this transaction inserted, `base` the row it read under the lock. */
  datatype Tx = Tx(request: Request, now: DateTime, period: Period, phase: Phase,
                   id: int, created: Option<Cycle>, base: Option<Cycle>)

  datatype Entry = Entry(tx: int, request: Request, now: DateTime, id: int)

  datatype State = State(
    organizations: map<int, Organization>, cycles: map<int, Cycle>, nextId: int,
    open: map<int, Tx>, ledger: seq<Entry>)

  datatype Action =
    | Begin(tx: int, request: Request, now: DateTime)
    | Find(tx: int, id: int)
    | Miss(tx: int)
    | Insert(tx: int)
    | Lock(tx: int)
    | Refuse(tx: int)
    | Commit(tx: int)
    | Abort(tx: int)

  /** None when the period cannot be computed. */
  function PeriodFor(o: Organization, now: DateTime): Option<Period> {
    if now.Valid() && (o.settings.Annual? ==> o.settings.start.Valid()) then CurrentPeriod(o.settings, now) else None
  }

  /** Regular settings always give a period, and it contains the instant it is computed at. */
  lemma RegularPeriodContainsNow(o: Organization, now: DateTime)
    requires Regular(o.settings) && now.Valid()
    ensures PeriodFor(o, now).Some?
    ensures PeriodFor(o, now).value.start <= Instant(now) < PeriodFor(o, now).value.end + 1_000_000
  {
    PeriodsPartitionTime(o.settings, now, now);
  }

  predicate Matches(c: Cycle, organization: int, period: Period) {
    c.organization == organization && c.period == period
  }

  function NewCycle(o: Organization, organization: int, period: Period): Cycle {
    Cycle(organization, period, o.quotaTokens, 0, 0, Some(0.0))
  }

  predicate Admits(c: Cycle, request: Request) {
    request.Reserve? ==> c.used + request.tokens <= c.quota
  }

  function Post(c: Cycle, request: Request): Cycle {
    match request
    case Reserve(_, tokens) => c.(used := c.used + tokens)
    case Charge(_, tokens, seconds, usd) =>
      c.(used := c.used + tokens, seconds := c.seconds + seconds,
         usd := if usd.Some? then Some(c.usd.GetOr(0.0) + usd.value) else c.usd)
  }

  /** Reservations are only made for organizations that enforce a quota. */
  predicate Proceeds(organizations: map<int, Organization>, request: Request) {
    && request.organization in organizations
    && (request.Reserve? ==> organizations[request.organization].quotaEnabled)
  }

  /** The row as the transaction sees it: committed, or its own insert. */
  function Seen(s: State, t: Tx): Option<Cycle> {
    if t.id in s.cycles then Some(s.cycles[t.id]) else t.created
  }

  ghost predicate Enabled(s: State, a: Action) {
    match a
    case Begin(tx, request, now) =>
      && tx !in s.open && Proceeds(s.organizations, request)
      && PeriodFor(s.organizations[request.organization], now).Some?
    case Find(tx, id) =>
      && tx in s.open && s.open[tx].phase in {Searching, Missing}
      && id in s.cycles && Matches(s.cycles[id], s.open[tx].request.organization, s.open[tx].period)
    case Miss(tx) =>
      && tx in s.open && s.open[tx].phase == Searching
      && NoneMatches(s.cycles, s.open[tx].request.organization, s.open[tx].period)
    case Insert(tx) =>
      && tx in s.open && s.open[tx].phase == Missing
      && var t := s.open[tx];
         && t.request.organization in s.organizations
         && NoneMatches(s.cycles, t.request.organization, t.period)
         && (forall u :: u in s.open && s.open[u].created.Some? ==>
               !Matches(s.open[u].created.value, t.request.organization, t.period))
    case Lock(tx) =>
      && tx in s.open && s.open[tx].phase == Located
      && var t := s.open[tx];
         && Seen(s, t).Some? && Admits(Seen(s, t).value, t.request)
         && (forall u :: u in s.open && s.open[u].phase == Locked ==> s.open[u].id != t.id)
    case Refuse(tx) =>
      && tx in s.open && s.open[tx].phase == Located
      && Seen(s, s.open[tx]).Some? && !Admits(Seen(s, s.open[tx]).value, s.open[tx].request)
    case Commit(tx) => tx in s.open && s.open[tx].phase == Locked && s.open[tx].base.Some?
    case Abort(tx) => tx in s.open
  }

  predicate NoneMatches(cycles: map<int, Cycle>, organization: int, period: Period) {
    forall id :: id in cycles ==> !Matches(cycles[id], organization, period)
  }

  ghost function Step(s: State, a: Action): State {
    if !Enabled(s, a) then s else
      match a
      case Begin(tx, request, now) =>
        var period := PeriodFor(s.organizations[request.organization], now).value;
        s.(open := s.open[tx := Tx(request, now, period, Searching, -1, None, None)])
      case Find(tx, id) => s.(open := s.open[tx := s.open[tx].(phase := Located, id := id)])
      case Miss(tx) => s.(open := s.open[tx := s.open[tx].(phase := Missing)])
      case Insert(tx) =>
        var t := s.open[tx];
        var row := NewCycle(s.organizations[t.request.organization], t.request.organization, t.period);
        s.(open := s.open[tx := t.(phase := Located, id := s.nextId, created := Some(row))], nextId := s.nextId + 1)
      case Lock(tx) => s.(open := s.open[tx := s.open[tx].(phase := Locked, base := Seen(s, s.open[tx]))])
      case Refuse(tx) => s.(open := s.open[tx := s.open[tx].(phase := Refused)])
      case Commit(tx) =>
        var t := s.open[tx];
        s.(cycles := s.cycles[t.id := Post(t.base.value, t.request)], open := s.open - {tx},
           ledger := s.ledger + [Entry(tx, t.request, t.now, t.id)])
      case Abort(tx) => s.(open := s.open - {tx})
  }

  ghost function Run(s: State, actions: seq<Action>): State
    decreases |actions|
  {
    if actions == [] then s else Run(Step(s, actions[0]), actions[1..])
  }

  // ---------- What the ledger says ----------

  ghost function Tokens(ledger: seq<Entry>, id: int): int {
    if ledger == [] then 0
    else Tokens(ledger[..|ledger| - 1], id) +
         var e := ledger[|ledger| - 1]; if e.id == id then e.request.tokens else 0
  }

  ghost function Charged(ledger: seq<Entry>, id: int): int {
    if ledger == [] then 0
    else Charged(ledger[..|ledger| - 1], id) +
         var e := ledger[|ledger| - 1]; if e.id == id && e.request.Charge? then e.request.tokens else 0
  }

  ghost function Seconds(ledger: seq<Entry>, id: int): int {
    if ledger == [] then 0
    else Seconds(ledger[..|ledger| - 1], id) +
         var e := ledger[|ledger| - 1]; if e.id == id && e.request.Charge? then e.request.seconds else 0
  }

  ghost function Usd(ledger: seq<Entry>, id: int): real {
    if ledger == [] then 0.0
    else Usd(ledger[..|ledger| - 1], id) +
         var e := ledger[|ledger| - 1]; if e.id == id && e.request.Charge? then e.request.usd.GetOr(0.0) else 0.0
  }

  /** A row's counters before the run: zero for rows created in it. */
  ghost function Opening(cycles: map<int, Cycle>, id: int): Cycle {
    if id in cycles then cycles[id] else Cycle(0, Period(0, 0), 0, 0, 0, None)
  }

  ghost predicate Balanced(opening: Cycle, c: Cycle, ledger: seq<Entry>, id: int) {
    && c.used == opening.used + Tokens(ledger, id)
    && c.seconds == opening.seconds + Seconds(ledger, id)
    && c.usd.GetOr(0.0) == opening.usd.GetOr(0.0) + Usd(ledger, id)
  }

  ghost predicate Unposted(ledger: seq<Entry>, id: int) {
    Tokens(ledger, id) == 0 && Seconds(ledger, id) == 0 && Usd(ledger, id) == 0.0
  }

  // ---------- Invariant ----------

  /** The unique_org_period constraint over committed rows. */
  ghost predicate UniqueKeys(cycles: map<int, Cycle>) {
    forall i, j :: i in cycles && j in cycles && Matches(cycles[i], cycles[j].organization, cycles[j].period) ==> i == j
  }

  ghost predicate TxOk(s: State, t: Tx) {
    && t.request.organization in s.organizations
    && PeriodFor(s.organizations[t.request.organization], t.now) == Some(t.period)
    && (t.created.Some? ==>
          && t.id !in s.cycles && t.id < s.nextId
          && t.created == Some(NewCycle(s.organizations[t.request.organization], t.request.organization, t.period))
          && NoneMatches(s.cycles, t.request.organization, t.period))
    && (t.phase in {Searching, Missing} ==> t.created.None?)
    && (t.phase in {Located, Locked, Refused} && t.created.None? ==>
          t.id in s.cycles && Matches(s.cycles[t.id], t.request.organization, t.period))
    && (t.phase == Locked ==> t.base.Some? && t.base == Seen(s, t) && Admits(t.base.value, t.request))
  }

  /** Inserts of open transactions never collide, and a row has one locker. */
  ghost predicate TxsCompatible(t: Tx, u: Tx) {
    && (t.created.Some? && u.created.Some? ==>
          t.id != u.id && !Matches(t.created.value, u.request.organization, u.period))
    && (t.phase == Locked && u.phase == Locked ==> t.id != u.id)
  }

  ghost predicate OpenOk(s: State) {
    && (forall x :: x in s.open ==> TxOk(s, s.open[x]))
    && (forall x, y :: x in s.open && y in s.open && x != y ==> TxsCompatible(s.open[x], s.open[y]))
  }

  ghost predicate LedgerOk(s: State, opening: map<int, Cycle>) {
    && (forall id :: id in s.cycles ==> id < s.nextId && Balanced(Opening(opening, id), s.cycles[id], s.ledger, id))
    && (forall id :: id !in s.cycles ==> Unposted(s.ledger, id) && id !in opening)
    && (forall i :: 0 <= i < |s.ledger| ==> EntryOk(s, s.ledger[i]))
  }

  ghost predicate EntryOk(s: State, e: Entry) {
    && e.id in s.cycles && e.request.organization in s.organizations
    && s.cycles[e.id].organization == e.request.organization
    && PeriodFor(s.organizations[e.request.organization], e.now) == Some(s.cycles[e.id].period)
  }

  ghost predicate Inv(s: State, opening: map<int, Cycle>) {
    UniqueKeys(s.cycles) && OpenOk(s) && LedgerOk(s, opening)
  }

  ghost predicate Initial(s: State) {
    && s.open == map[] && s.ledger == [] && UniqueKeys(s.cycles)
    && forall id :: id in s.cycles ==> id < s.nextId
  }

  /** Replacing one open transaction. */
  lemma ReplaceTx(s: State, opening: map<int, Cycle>, tx: int, t: Tx)
    requires Inv(s, opening)
    requires TxOk(s, t)
    requires forall u :: u in s.open && u != tx ==> TxsCompatible(t, s.open[u]) && TxsCompatible(s.open[u], t)
    ensures Inv(s.(open := s.open[tx := t]), opening)
  {
    var s' := s.(open := s.open[tx := t]);
    forall x | x in s'.open ensures TxOk(s', s'.open[x]) {
      assert x != tx ==> TxOk(s, s.open[x]);
    }
    forall i | 0 <= i < |s'.ledger| ensures EntryOk(s', s'.ledger[i]) {
      assert EntryOk(s, s.ledger[i]);
    }
  }

  lemma StepInsert(s: State, opening: map<int, Cycle>, tx: int)
    requires Inv(s, opening) && Enabled(s, Insert(tx))
    ensures Inv(Step(s, Insert(tx)), opening)
  {
    assert TxOk(s, s.open[tx]);
    var s' := s.(nextId := s.nextId + 1);
    forall x | x in s'.open ensures TxOk(s', s'.open[x]) {
      assert TxOk(s, s.open[x]);
    }
    forall i | 0 <= i < |s'.ledger| ensures EntryOk(s', s'.ledger[i]) {
      assert EntryOk(s, s.ledger[i]);
    }
    var t := Step(s, Insert(tx)).open[tx];
    forall u | u in s.open && u != tx ensures TxsCompatible(t, s.open[u]) && TxsCompatible(s.open[u], t) {
      assert TxOk(s, s.open[u]);
      if s.open[u].created.Some? {
        assert !Matches(s.open[u].created.value, t.request.organization, t.period);
      }
    }
    ReplaceTx(s', opening, tx, t);
  }

  lemma StepCommit(s: State, opening: map<int, Cycle>, tx: int)
    requires Inv(s, opening) && Enabled(s, Commit(tx))
    ensures Inv(Step(s, Commit(tx)), opening)
  {
    var s', t := Step(s, Commit(tx)), s.open[tx];
    assert TxOk(s, t);
    CommitKeepsOpen(s, opening, tx);
    CommitKeepsLedger(s, opening, tx);
    forall i, j | i in s'.cycles && j in s'.cycles
      && Matches(s'.cycles[i], s'.cycles[j].organization, s'.cycles[j].period)
      ensures i == j
    {
      if i in s.cycles && j in s.cycles {
        assert Matches(s.cycles[i], s.cycles[j].organization, s.cycles[j].period);
      }
    }
  }

  lemma CommitKeepsOpen(s: State, opening: map<int, Cycle>, tx: int)
    requires Inv(s, opening) && Enabled(s, Commit(tx))
    ensures OpenOk(Step(s, Commit(tx)))
  {
    var s', t := Step(s, Commit(tx)), s.open[tx];
    assert TxOk(s, t);
    forall x | x in s'.open ensures TxOk(s', s'.open[x]) {
      assert TxOk(s, s.open[x]) && TxsCompatible(s.open[x], t);
    }
    forall x, y | x in s'.open && y in s'.open && x != y ensures TxsCompatible(s'.open[x], s'.open[y]) {
      assert TxsCompatible(s.open[x], s.open[y]);
    }
  }

  lemma CommitKeepsLedger(s: State, opening: map<int, Cycle>, tx: int)
    requires Inv(s, opening) && Enabled(s, Commit(tx))
    ensures LedgerOk(Step(s, Commit(tx)), opening)
  {
    var s', t := Step(s, Commit(tx)), s.open[tx];
    assert TxOk(s, t);
    assert s'.ledger[..|s'.ledger| - 1] == s.ledger;
    forall i | 0 <= i < |s'.ledger| ensures EntryOk(s', s'.ledger[i]) {
      if i < |s.ledger| {
        assert EntryOk(s, s.ledger[i]);
      }
    }
    forall id | id in s'.cycles ensures id < s'.nextId && Balanced(Opening(opening, id), s'.cycles[id], s'.ledger, id) {
      if id != t.id {
        OtherRowsUnposted(s.ledger, Entry(tx, t.request, t.now, t.id), id);
      } else {
        PostBalances(Opening(opening, id), t.base.value, s.ledger, Entry(tx, t.request, t.now, t.id));
      }
    }
    forall id | id !in s'.cycles ensures Unposted(s'.ledger, id) {
      OtherRowsUnposted(s.ledger, Entry(tx, t.request, t.now, t.id), id);
    }
  }

  lemma PostBalances(opening: Cycle, c: Cycle, ledger: seq<Entry>, e: Entry)
    requires Balanced(opening, c, ledger, e.id)
    ensures Balanced(opening, Post(c, e.request), ledger + [e], e.id)
  {
    assert (ledger + [e])[..|ledger + [e]| - 1] == ledger;
  }

  lemma OtherRowsUnposted(ledger: seq<Entry>, e: Entry, id: int)
    requires e.id != id
    ensures Tokens(ledger + [e], id) == Tokens(ledger, id)
    ensures Seconds(ledger + [e], id) == Seconds(ledger, id)
    ensures Usd(ledger + [e], id) == Usd(ledger, id)
  {
    assert (ledger + [e])[..|ledger + [e]| - 1] == ledger;
  }

  /** Every action keeps the invariant. */
  lemma StepKeepsInv(s: State, opening: map<int, Cycle>, a: Action)
    requires Inv(s, opening)
    ensures Inv(Step(s, a), opening)
  {
    if Enabled(s, a) {
      match a
      case Begin(tx, request, now) => ReplaceTx(s, opening, tx, Step(s, a).open[tx]);
      case Find(tx, id) => StepOwn(s, opening, a, tx);
      case Miss(tx) => StepOwn(s, opening, a, tx);
      case Lock(tx) => StepOwn(s, opening, a, tx);
      case Refuse(tx) => StepOwn(s, opening, a, tx);
      case Insert(tx) => StepInsert(s, opening, tx);
      case Commit(tx) => StepCommit(s, opening, tx);
      case Abort(tx) => StepAbort(s, opening, tx);
    }
  }

  lemma StepOwn(s: State, opening: map<int, Cycle>, a: Action, tx: int)
    requires Inv(s, opening) && Enabled(s, a) && a.tx == tx
    requires a.Find? || a.Miss? || a.Lock? || a.Refuse?
    ensures Inv(Step(s, a), opening)
  {
    var t := Step(s, a).open[tx];
    assert TxOk(s, s.open[tx]);
    forall u | u in s.open && u != tx ensures TxsCompatible(t, s.open[u]) && TxsCompatible(s.open[u], t) {
      assert TxsCompatible(s.open[tx], s.open[u]) && TxsCompatible(s.open[u], s.open[tx]);
    }
    ReplaceTx(s, opening, tx, t);
  }

  lemma StepAbort(s: State, opening: map<int, Cycle>, tx: int)
    requires Inv(s, opening) && Enabled(s, Abort(tx))
    ensures Inv(Step(s, Abort(tx)), opening)
  {
    var s' := Step(s, Abort(tx));
    forall x | x in s'.open ensures TxOk(s', s'.open[x]) {
      assert TxOk(s, s.open[x]);
    }
    forall i | 0 <= i < |s'.ledger| ensures EntryOk(s', s'.ledger[i]) {
      assert EntryOk(s, s.ledger[i]);
    }
  }

  lemma {:induction false} RunKeepsInv(s: State, opening: map<int, Cycle>, actions: seq<Action>)
    requires Inv(s, opening)
    ensures Inv(Run(s, actions), opening)
    decreases |actions|
  {
    if actions != [] {
      StepKeepsInv(s, opening, actions[0]);
      RunKeepsInv(Step(s, actions[0]), opening, actions[1..]);
    }
  }

  lemma InitialInv(s: State)
    requires Initial(s)
    ensures Inv(s, s.cycles)
  {
    assert forall id :: Unposted([], id);
    assert forall id :: id in s.cycles ==> Balanced(s.cycles[id], s.cycles[id], [], id);
  }

  // ---------- Main results, over every interleaving ----------

  /** No update is lost: each row's counters are what it started with (zero if created in the run)
      plus exactly the requests committed on it. */
  lemma NothingIsLost(s: State, actions: seq<Action>, id: int)
    requires Initial(s) && id in Run(s, actions).cycles
    ensures var e := Run(s, actions);
            && e.cycles[id].used == Opening(s.cycles, id).used + Tokens(e.ledger, id)
            && e.cycles[id].seconds == Opening(s.cycles, id).seconds + Seconds(e.ledger, id)
            && e.cycles[id].usd.GetOr(0.0) == Opening(s.cycles, id).usd.GetOr(0.0) + Usd(e.ledger, id)
  {
    InitialInv(s);
    RunKeepsInv(s, s.cycles, actions);
    var e := Run(s, actions);
    assert Balanced(Opening(s.cycles, id), e.cycles[id], e.ledger, id);
  }

  /** Charges are never negative. */
  ghost predicate Sensible(a: Action) {
    a.Begin? && a.request.Charge? ==> a.request.tokens >= 0
  }

  ghost predicate TxSensible(t: Tx) {
    t.request.Charge? ==> t.request.tokens >= 0
  }

  ghost predicate QuotaOk(s: State) {
    && (forall x :: x in s.open ==> TxSensible(s.open[x]))
    && (forall id :: Charged(s.ledger, id) >= 0)
    && (forall id :: id in s.cycles ==> s.cycles[id].used <= s.cycles[id].quota + Charged(s.ledger, id))
  }

  ghost predicate QuotasNonNegative(s: State) {
    forall o :: o in s.organizations ==> s.organizations[o].quotaTokens >= 0
  }

  ghost predicate AllSensible(actions: seq<Action>) {
    forall k :: 0 <= k < |actions| ==> Sensible(actions[k])
  }

  lemma ChargedAfter(ledger: seq<Entry>, e: Entry, id: int)
    ensures Charged(ledger + [e], id) ==
            Charged(ledger, id) + if e.id == id && e.request.Charge? then e.request.tokens else 0
  {
    assert (ledger + [e])[..|ledger + [e]| - 1] == ledger;
  }

  /** The row a transaction is about to post to is within its quota but for charges. */
  lemma BaseWithinQuota(s: State, opening: map<int, Cycle>, tx: int)
    requires Inv(s, opening) && QuotaOk(s) && Enabled(s, Commit(tx))
    requires QuotasNonNegative(s)
    ensures var t := s.open[tx];
            && t.base.value.used <= t.base.value.quota + Charged(s.ledger, t.id)
            && (t.request.Reserve? ==> t.base.value.used + t.request.tokens <= t.base.value.quota)
  {
    assert TxOk(s, s.open[tx]);
    assert Charged(s.ledger, s.open[tx].id) >= 0;
  }

  lemma CommitKeepsQuota(s: State, opening: map<int, Cycle>, tx: int)
    requires Inv(s, opening) && QuotaOk(s) && Enabled(s, Commit(tx))
    requires QuotasNonNegative(s)
    ensures QuotaOk(Step(s, Commit(tx)))
  {
    var s', t := Step(s, Commit(tx)), s.open[tx];
    var e := Entry(tx, t.request, t.now, t.id);
    assert TxSensible(t);
    BaseWithinQuota(s, opening, tx);
    forall id ensures Charged(s'.ledger, id) >= Charged(s.ledger, id) >= 0 {
      ChargedAfter(s.ledger, e, id);
    }
    forall id | id in s'.cycles ensures s'.cycles[id].used <= s'.cycles[id].quota + Charged(s'.ledger, id) {
      ChargedAfter(s.ledger, e, id);
    }
    forall x | x in s'.open ensures TxSensible(s'.open[x]) {
      assert TxSensible(s.open[x]);
    }
  }

  lemma StepKeepsQuota(s: State, opening: map<int, Cycle>, a: Action)
    requires Inv(s, opening) && QuotaOk(s) && Sensible(a)
    requires QuotasNonNegative(s)
    ensures QuotaOk(Step(s, a))
  {
    if Enabled(s, a) {
      if a.Commit? {
        CommitKeepsQuota(s, opening, a.tx);
      } else {
        var s' := Step(s, a);
        assert s'.cycles == s.cycles && s'.ledger == s.ledger;
        forall x | x in s'.open ensures TxSensible(s'.open[x]) {
          assert x in s.open ==> TxSensible(s.open[x]);
        }
      }
    }
  }

  lemma StepKeepsSettings(s: State, a: Action)
    ensures Step(s, a).organizations == s.organizations
  {
  }

  lemma {:induction false} RunKeepsQuota(s: State, opening: map<int, Cycle>, actions: seq<Action>)
    requires Inv(s, opening) && QuotaOk(s)
    requires AllSensible(actions)
    requires QuotasNonNegative(s)
    ensures QuotaOk(Run(s, actions))
    decreases |actions|
  {
    if actions != [] {
      var s' := Step(s, actions[0]);
      assert Sensible(actions[0]) && AllSensible(actions[1..]);
      StepKeepsInv(s, opening, actions[0]);
      StepKeepsQuota(s, opening, actions[0]);
      StepKeepsSettings(s, actions[0]);
      RunKeepsQuota(s', opening, actions[1..]);
    }
  }

  /** Only charges can push a row past its quota, and by no more than they add up to; so with
      reservations alone the quota is never exceeded. */
  lemma OnlyChargesExceedTheQuota(s: State, actions: seq<Action>, id: int)
    requires Initial(s)
    requires forall c :: c in s.cycles ==> s.cycles[c].used <= s.cycles[c].quota
    requires QuotasNonNegative(s)
    requires AllSensible(actions)
    requires id in Run(s, actions).cycles
    ensures var e := Run(s, actions);
            e.cycles[id].used <= e.cycles[id].quota + Charged(e.ledger, id)
  {
    InitialInv(s);
    assert forall c :: Charged([], c) == 0;
    RunKeepsQuota(s, s.cycles, actions);
  }

  /** Rows created in the run carry their organization's quota, and so do the rows about to be. */
  ghost predicate OwnQuotas(s: State, opening: map<int, Cycle>) {
    && (forall id :: id in s.cycles && id !in opening ==>
          && s.cycles[id].organization in s.organizations
          && s.cycles[id].quota == s.organizations[s.cycles[id].organization].quotaTokens)
    && (forall x :: x in s.open && s.open[x].created.Some? ==>
          && s.open[x].created.value.organization in s.organizations
          && s.open[x].created.value.quota == s.organizations[s.open[x].created.value.organization].quotaTokens)
  }

  lemma StepKeepsOwnQuotas(s: State, opening: map<int, Cycle>, a: Action)
    requires Inv(s, opening) && OwnQuotas(s, opening)
    ensures OwnQuotas(Step(s, a), opening)
  {
    StepKeepsSettings(s, a);
    if a.Commit? && Enabled(s, a) {
      assert TxOk(s, s.open[a.tx]);
    }
  }

  lemma {:induction false} RunKeepsOwnQuotas(s: State, opening: map<int, Cycle>, actions: seq<Action>)
    requires Inv(s, opening) && OwnQuotas(s, opening)
    ensures OwnQuotas(Run(s, actions), opening)
    decreases |actions|
  {
    if actions != [] {
      StepKeepsInv(s, opening, actions[0]);
      StepKeepsOwnQuotas(s, opening, actions[0]);
      RunKeepsOwnQuotas(Step(s, actions[0]), opening, actions[1..]);
    }
  }

  /** A row created in the run has its organization's quota, so what is used on it is at most that and the
      charges on it. */
  lemma NewRowsObeyTheOrganizationsQuota(s: State, actions: seq<Action>, id: int)
    requires Initial(s) && AllSensible(actions) && QuotasNonNegative(s)
    requires forall c :: c in s.cycles ==> s.cycles[c].used <= s.cycles[c].quota
    requires id in Run(s, actions).cycles && id !in s.cycles
    ensures var e := Run(s, actions);
            && e.cycles[id].organization in s.organizations
            && var quota := s.organizations[e.cycles[id].organization].quotaTokens;
               e.cycles[id].quota == quota && e.cycles[id].used <= quota + Charged(e.ledger, id)
  {
    InitialInv(s);
    RunKeepsOwnQuotas(s, s.cycles, actions);
    SettingsAreFixed(s, actions);
    OnlyChargesExceedTheQuota(s, actions, id);
  }

  // ---------- Refused reservations ----------

  predicate Begins(a: Action, tx: int) {
    a.Begin? && a.tx == tx
  }

  /** After its refusal: the transaction is as it was or gone, and nothing has been committed by it or on
      the row it inserted. */
  ghost predicate LeftNothing(m: State, e: State, tx: int)
    requires tx in m.open
  {
    && (tx in e.open ==> e.open[tx] == m.open[tx])
    && m.ledger <= e.ledger
    && (forall i :: |m.ledger| <= i < |e.ledger| ==> e.ledger[i].tx != tx)
    && (m.open[tx].created.Some? ==>
          && m.open[tx].id !in e.cycles && m.open[tx].id < e.nextId
          && forall u :: u in e.open && u != tx && e.open[u].phase in {Located, Locked, Refused} ==>
               e.open[u].id != m.open[tx].id)
  }

  lemma StepLeavesNothing(m: State, e: State, tx: int, a: Action)
    requires tx in m.open && m.open[tx].phase == Refused && LeftNothing(m, e, tx) && !Begins(a, tx)
    ensures LeftNothing(m, Step(e, a), tx)
  {
  }

  lemma {:induction false} RunLeavesNothing(m: State, e: State, tx: int, actions: seq<Action>)
    requires tx in m.open && m.open[tx].phase == Refused && LeftNothing(m, e, tx)
    requires forall k :: 0 <= k < |actions| ==> !Begins(actions[k], tx)
    ensures LeftNothing(m, Run(e, actions), tx)
    decreases |actions|
  {
    if actions != [] {
      StepLeavesNothing(m, e, tx, actions[0]);
      RunLeavesNothing(m, Step(e, actions[0]), tx, actions[1..]);
    }
  }

  /** A reservation that does not fit commits nothing whatever follows: no later ledger entry is its own
      until it begins anew, and the cycle row it had inserted never becomes a row of the table. */
  lemma RefusedReservationChangesNothing(s: State, before: seq<Action>, after: seq<Action>, tx: int)
    requires Initial(s) && tx in Run(s, before).open && Run(s, before).open[tx].phase == Refused
    requires forall k :: 0 <= k < |after| ==> !Begins(after[k], tx)
    ensures var m, e := Run(s, before), Run(Run(s, before), after);
            && m.ledger <= e.ledger
            && (forall i :: |m.ledger| <= i < |e.ledger| ==> e.ledger[i].tx != tx)
            && (m.open[tx].created.Some? ==> m.open[tx].id !in e.cycles)
  {
    InitialInv(s);
    RunKeepsInv(s, s.cycles, before);
    var m := Run(s, before);
    assert TxOk(m, m.open[tx]);
    forall u | u in m.open && u != tx && m.open[tx].created.Some? && m.open[u].phase in {Located, Locked, Refused}
      ensures m.open[u].id != m.open[tx].id
    {
      assert TxOk(m, m.open[u]) && TxsCompatible(m.open[tx], m.open[u]);
    }
    RunLeavesNothing(m, m, tx, after);
  }

  /** Neither an insert nor a lock that others could notice. */
  predicate Unnoticed(t: Tx) {
    t.created.None? && t.phase != Locked
  }

  function Erase(s: State, tx: int): State {
    s.(open := s.open - {tx})
  }

  function Without(actions: seq<Action>, tx: int): seq<Action> {
    if actions == [] then []
    else (if actions[0].tx == tx then [] else [actions[0]]) + Without(actions[1..], tx)
  }

  lemma StepOfOther(s: State, tx: int, a: Action)
    requires a.tx != tx && (tx in s.open ==> Unnoticed(s.open[tx]))
    ensures Erase(Step(s, a), tx) == Step(Erase(s, tx), a)
    ensures tx in Step(s, a).open <==> tx in s.open
    ensures tx in s.open ==> Step(s, a).open[tx] == s.open[tx]
  {
    EnabledForOther(s, tx, a);
    if Enabled(s, a) {
      if a.tx in Step(s, a).open {
        PutAndErase(s.open, a.tx, Step(s, a).open[a.tx], tx);
      }
      EraseTwice(s.open, a.tx, tx);
    }
  }

  lemma PutAndErase(open: map<int, Tx>, u: int, t: Tx, tx: int)
    requires u != tx
    ensures open[u := t] - {tx} == (open - {tx})[u := t]
  {
  }

  lemma EraseTwice(open: map<int, Tx>, u: int, tx: int)
    ensures open - {u} - {tx} == open - {tx} - {u}
  {
  }

  lemma EnabledForOther(s: State, tx: int, a: Action)
    requires a.tx != tx && (tx in s.open ==> Unnoticed(s.open[tx]))
    ensures Enabled(Erase(s, tx), a) <==> Enabled(s, a)
  {
    var e := Erase(s, tx);
    assert forall u :: u in s.open ==> u in e.open || u == tx;
  }

  /** What others may notice stays until the transaction ends, and an ended one stays away. */
  lemma {:induction false} NoticedUntilTheEnd(s: State, tx: int, actions: seq<Action>)
    requires tx in s.open ==> !Unnoticed(s.open[tx])
    requires forall k :: 0 <= k < |actions| ==> !Begins(actions[k], tx)
    ensures tx in Run(s, actions).open ==> !Unnoticed(Run(s, actions).open[tx])
    decreases |actions|
  {
    if actions != [] {
      NoticedUntilTheEnd(Step(s, actions[0]), tx, actions[1..]);
    }
  }

  lemma ErasedStep(s: State, tx: int, a: Action, rest: seq<Action>)
    requires tx in s.open && Unnoticed(s.open[tx]) && !Begins(a, tx)
    requires tx in Step(s, a).open && Unnoticed(Step(s, a).open[tx])
    ensures Run(Erase(Step(s, a), tx), Without(rest, tx)) == Run(Erase(s, tx), Without([a] + rest, tx))
  {
    assert ([a] + rest)[1..] == rest;
    if a.tx != tx {
      StepOfOther(s, tx, a);
      RunCons(Erase(s, tx), a, Without(rest, tx));
    } else {
      assert Erase(Step(s, a), tx) == Erase(s, tx);
      assert Without([a] + rest, tx) == Without(rest, tx);
    }
  }

  lemma {:induction false} UnnoticedIsErased(s: State, tx: int, actions: seq<Action>)
    requires tx in s.open && Unnoticed(s.open[tx])
    requires forall k :: 0 <= k < |actions| ==> !Begins(actions[k], tx)
    requires tx in Run(s, actions).open && Unnoticed(Run(s, actions).open[tx])
    ensures Erase(Run(s, actions), tx) == Run(Erase(s, tx), Without(actions, tx))
    decreases |actions|
  {
    if actions != [] {
      var s' := Step(s, actions[0]);
      if tx !in s'.open || !Unnoticed(s'.open[tx]) {
        NoticedUntilTheEnd(s', tx, actions[1..]);
      } else {
        UnnoticedIsErased(s', tx, actions[1..]);
        ErasedStep(s, tx, actions[0], actions[1..]);
        assert [actions[0]] + actions[1..] == actions;
      }
    }
  }

  /** A refused reservation that had inserted nothing leaves no trace at all: however long it stays open,
      table and ledger are those of the same run without it, and once it ends so is the whole state. */
  lemma RefusedReservationIsErased(s: State, actions: seq<Action>, tx: int, request: Request, now: DateTime)
    requires tx !in s.open
    requires forall k :: 0 <= k < |actions| ==> !Begins(actions[k], tx)
    requires var e := Run(s, [Begin(tx, request, now)] + actions);
             tx in e.open && e.open[tx].phase == Refused && e.open[tx].created.None?
    ensures var e := Run(s, [Begin(tx, request, now)] + actions);
            && Step(e, Abort(tx)) == Run(s, Without(actions, tx))
            && e.cycles == Run(s, Without(actions, tx)).cycles && e.ledger == Run(s, Without(actions, tx)).ledger
  {
    var s' := Step(s, Begin(tx, request, now));
    RunCons(s, Begin(tx, request, now), actions);
    if tx !in s'.open {
      NoticedUntilTheEnd(s', tx, actions);
    } else {
      UnnoticedIsErased(s', tx, actions);
      assert Erase(s', tx) == s;
    }
  }

  lemma {:induction false} SettingsAreFixed(s: State, actions: seq<Action>)
    ensures Run(s, actions).organizations == s.organizations
    decreases |actions|
  {
    if actions != [] {
      SettingsAreFixed(Step(s, actions[0]), actions[1..]);
    }
  }

  /** The second entry was made by the same organization within the billing period of the first. */
  ghost predicate SamePeriod(organizations: map<int, Organization>, d: Entry, e: Entry) {
    && d.request.organization == e.request.organization && d.request.organization in organizations
    && d.now.Valid() && e.now.Valid()
    && var settings := organizations[d.request.organization].settings;
       Regular(settings) && CurrentPeriod(settings, d.now).Some?
         && Contains(CurrentPeriod(settings, d.now).value, Instant(e.now))
  }

  /** Everything an organization commits within one billing period lands on one cycle row, even when
      several transactions raced to create it. */
  lemma OnePeriodOneRow(s: State, actions: seq<Action>, d: Entry, e: Entry)
    requires Initial(s)
    requires d in Run(s, actions).ledger && e in Run(s, actions).ledger
    ensures SamePeriod(s.organizations, d, e) ==> d.id == e.id
  {
    InitialInv(s);
    RunKeepsInv(s, s.cycles, actions);
    SettingsAreFixed(s, actions);
    assert EntryOk(Run(s, actions), d) && EntryOk(Run(s, actions), e);
    if SamePeriod(s.organizations, d, e) {
      PeriodsPartitionTime(s.organizations[d.request.organization].settings, d.now, e.now);
    }
  }

  // ---------- The transactions as written ----------

  /** The row a request posts to and the table holding it, inserted if missing. */
  ghost function WithCycle(cycles: map<int, Cycle>, nextId: int, o: Organization, organization: int, period: Period)
    : (r: (map<int, Cycle>, int))
  {
    if id :| id in cycles && Matches(cycles[id], organization, period) then (cycles, id)
    else (cycles[nextId := NewCycle(o, organization, period)], nextId)
  }

  /** Run alone, a transaction posts its request to the current cycle, or changes nothing when the
      reservation does not fit: the same effect as the sequential methods below. */
  lemma SerialTransaction(s: State, tx: int, request: Request, now: DateTime) returns (actions: seq<Action>)
    requires Initial(s) && Enabled(s, Begin(tx, request, now))
    ensures var o := s.organizations[request.organization];
            var (table, id) := WithCycle(s.cycles, s.nextId, o, request.organization, PeriodFor(o, now).value);
            && table[id].organization == request.organization && PeriodFor(o, now) == Some(table[id].period)
            && Run(s, actions).cycles ==
               match request
               case Reserve(_, tokens) =>
                 if table[id].used + tokens <= table[id].quota then table[id := table[id].(used := table[id].used
                   + tokens)]
                 else s.cycles
               case Charge(_, tokens, seconds, usd) =>
                 table[id := table[id].(used := table[id].used + tokens, seconds := table[id].seconds + seconds,
                   usd := if usd.Some? then Some(table[id].usd.GetOr(0.0) + usd.value) else table[id].usd)]
  {
    var o := s.organizations[request.organization];
    var period := PeriodFor(o, now).value;
    var (table, id) := WithCycle(s.cycles, s.nextId, o, request.organization, period);
    if id in s.cycles {
      actions := SerialFound(s, tx, request, now, id);
    } else {
      actions := SerialMissing(s, tx, request, now);
    }
  }

  lemma SerialFound(s: State, tx: int, request: Request, now: DateTime, id: int) returns (actions: seq<Action>)
    requires Initial(s) && Enabled(s, Begin(tx, request, now)) && id in s.cycles
    requires Matches(s.cycles[id], request.organization, PeriodFor(s.organizations[request.organization], now).value)
    ensures Run(s, actions).cycles ==
            if Admits(s.cycles[id], request) then s.cycles[id := Post(s.cycles[id], request)] else s.cycles
  {
    var s1 := Step(s, Begin(tx, request, now));
    var s2 := Step(s1, Find(tx, id));
    var ending := if Admits(s.cycles[id], request) then [Lock(tx), Commit(tx)] else [Refuse(tx), Abort(tx)];
    EndTransaction(s2, tx, s.cycles[id]);
    RunCons(s1, Find(tx, id), ending);
    RunCons(s, Begin(tx, request, now), [Find(tx, id)] + ending);
    actions := [Begin(tx, request, now)] + ([Find(tx, id)] + ending);
  }

  lemma SerialMissing(s: State, tx: int, request: Request, now: DateTime) returns (actions: seq<Action>)
    requires Initial(s) && Enabled(s, Begin(tx, request, now))
    requires NoneMatches(s.cycles, request.organization, PeriodFor(s.organizations[request.organization], now).value)
    ensures var o := s.organizations[request.organization];
            var row := NewCycle(o, request.organization, PeriodFor(o, now).value);
            Run(s, actions).cycles == if Admits(row, request) then s.cycles[s.nextId := Post(row, request)]
              else s.cycles
  {
    var o := s.organizations[request.organization];
    var row := NewCycle(o, request.organization, PeriodFor(o, now).value);
    var s1 := Step(s, Begin(tx, request, now));
    var s2 := Step(s1, Miss(tx));
    var s3 := Step(s2, Insert(tx));
    var ending := if Admits(row, request) then [Lock(tx), Commit(tx)] else [Refuse(tx), Abort(tx)];
    EndTransaction(s3, tx, row);
    RunCons(s2, Insert(tx), ending);
    RunCons(s1, Miss(tx), [Insert(tx)] + ending);
    RunCons(s, Begin(tx, request, now), [Miss(tx)] + ([Insert(tx)] + ending));
    actions := [Begin(tx, request, now)] + ([Miss(tx)] + ([Insert(tx)] + ending));
  }

  lemma RunCons(s: State, a: Action, rest: seq<Action>)
    ensures Run(s, [a] + rest) == Run(Step(s, a), rest)
  {
    assert ([a] + rest)[1..] == rest;
  }

  lemma EndTransaction(s: State, tx: int, row: Cycle)
    requires tx in s.open && s.open[tx].phase == Located && Seen(s, s.open[tx]) == Some(row)
    requires forall u :: u in s.open ==> u == tx
    ensures var request := s.open[tx].request;
            && (Admits(row, request) ==>
                  Run(s, [Lock(tx), Commit(tx)]).cycles == s.cycles[s.open[tx].id := Post(row, request)])
            && (!Admits(row, request) ==> Run(s, [Refuse(tx), Abort(tx)]).cycles == s.cycles)
  {
    if Admits(row, s.open[tx].request) {
      var s' := Step(s, Lock(tx));
      assert [Lock(tx), Commit(tx)][1..] == [Commit(tx)];
      assert [Commit(tx)][1..] == [];
      assert Run(s, [Lock(tx), Commit(tx)]) == Run(s', [Commit(tx)]) == Run(Step(s', Commit(tx)), []);
    } else {
      var s' := Step(s, Refuse(tx));
      assert [Refuse(tx), Abort(tx)][1..] == [Abort(tx)];
      assert [Abort(tx)][1..] == [];
      assert Run(s, [Refuse(tx), Abort(tx)]) == Run(s', [Abort(tx)]) == Run(Step(s', Abort(tx)), []);
    }
  }

  class UsageClient {
    const organizations: map<int, Organization>
    var cycles: map<int, Cycle>
    var nextId: int

    ghost predicate Valid()
      reads this
    {
      UniqueKeys(cycles) && forall id :: id in cycles ==> id < nextId
    }

    /** Under regular settings a period can always be computed. */
    ghost predicate CanBill(organization: int, now: DateTime)
      requires organization in organizations
    {
      Regular(organizations[organization].settings) && now.Valid()
    }

    /** No row's period contains the instant. */
    ghost predicate NoCurrentCycle(rows: map<int, Cycle>, organization: int, now: DateTime)
      requires now.Valid()
    {
      forall c :: c in rows && rows[c].organization == organization ==> !Contains(rows[c].period, Instant(now))
    }

    method GetOrCreateCurrentCycle(organization: int, period: Period) returns (id: int)
      requires Valid() && organization in organizations
      modifies this
      ensures Valid()
      ensures id in cycles && cycles[id].organization == organization && cycles[id].period == period
      ensures id !in old(cycles) ==>
                && (forall c :: c in old(cycles) ==>
                     old(cycles)[c].organization != organization || old(cycles)[c].period != period)
                && cycles == old(cycles)[id := Cycle(organization, period, organizations[organization].quotaTokens,
                   0, 0, Some(0.0))]
      ensures id in old(cycles) ==> cycles == old(cycles)
      ensures (cycles, id) == WithCycle(old(cycles), old(nextId), organizations[organization], organization, period)
    {
      var todo := cycles.Keys;
      while todo != {}
        invariant todo <= cycles.Keys
        invariant forall i :: i in cycles && i !in todo ==> !Matches(cycles[i], organization, period)
        invariant cycles == old(cycles) && nextId == old(nextId)
        decreases todo
      {
        id := Pick(todo);
        if Matches(cycles[id], organization, period) {
          return;
        }
        todo := todo - {id};
      }
      id := nextId;
      cycles := cycles[id := NewCycle(organizations[organization], organization, period)];
      nextId := nextId + 1;
    }

    /** Some(answer), or None when the period computation raises. */
    method CheckAndReserveQuota(organization: int, tokens: int, now: DateTime) returns (reserved: Option<bool>)
      requires Valid()
      modifies this
      ensures Valid()
      ensures !Proceeds(organizations, Reserve(organization, tokens)) ==>
          reserved == Some(true) && cycles == old(cycles)
      ensures Proceeds(organizations, Reserve(organization, tokens)) ==>
                var o := organizations[organization];
                match PeriodFor(o, now)
                case None => reserved == None && cycles == old(cycles)
                case Some(period) =>
                  var (table, id) := WithCycle(old(cycles), old(nextId), o, organization, period);
                  && reserved == Some(table[id].used + tokens <= table[id].quota)
                  && cycles == (if reserved.value then table[id := table[id].(used := table[id].used + tokens)]
                                else old(cycles))
                  && table[id].organization == organization && table[id].period == period
      ensures (organization in organizations && organizations[organization].quotaEnabled
               && CanBill(organization, now)) ==>
                && reserved.Some?
                && (NoCurrentCycle(old(cycles), organization, now) ==>
                      reserved == Some(tokens <= organizations[organization].quotaTokens))
    {
      if organization !in organizations || !organizations[organization].quotaEnabled {
        return Some(true);
      }
      if CanBill(organization, now) {
        RegularPeriodContainsNow(organizations[organization], now);
      }
      var period := PeriodFor(organizations[organization], now);
      if period.None? {
        return None;
      }
      var before := cycles;
      var id := GetOrCreateCurrentCycle(organization, period.value);
      if cycles[id].used + tokens <= cycles[id].quota {
        cycles := cycles[id := cycles[id].(used := cycles[id].used + tokens)];
        return Some(true);
      }
      // The session closes without a commit: an inserted cycle goes with it.
      cycles := before;
      return Some(false);
    }

    /** False when the organization or its period cannot be resolved. */
    method UpdateUsageAfterRun(organization: int, tokens: int, seconds: int, usd: Option<real>, now: DateTime)
        returns (ok: bool)
      requires Valid()
      modifies this
      ensures Valid()
      ensures ok <==> organization in organizations && PeriodFor(organizations[organization], now).Some?
      ensures organization in organizations && CanBill(organization, now) ==> ok
      ensures !ok ==> cycles == old(cycles)
      ensures ok ==>
                var o := organizations[organization];
                var (table, id) := WithCycle(old(cycles), old(nextId), o, organization, PeriodFor(o, now).value);
                && table[id].organization == organization
                && (CanBill(organization, now) ==> Contains(table[id].period, Instant(now)))
                && cycles == table[id := table[id].(
                     used := table[id].used + tokens, seconds := table[id].seconds + seconds,
                     usd := if usd.Some? then Some(table[id].usd.GetOr(0.0) + usd.value) else table[id].usd)]
    {
      if organization !in organizations {
        return false;
      }
      if CanBill(organization, now) {
        RegularPeriodContainsNow(organizations[organization], now);
      }
      var period := PeriodFor(organizations[organization], now);
      if period.None? {
        return false;
      }
      var id := GetOrCreateCurrentCycle(organization, period.value);
      var row := cycles[id].(used := cycles[id].used + tokens, seconds := cycles[id].seconds + seconds);
      if usd.Some? {
        if row.usd.None? {
          row := row.(usd := Some(0.0));
        }
        row := row.(usd := Some(row.usd.value + usd.value));
      }
      cycles := cycles[id := row];
      return true;
    }
  }
}
