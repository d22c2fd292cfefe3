/**
 Bounded use of an embed token (api/routes/public_embed.py, api/db/embed_token_client.py): an
 initialisation checks the usage limit, creates a run and a session, and only then increments the
 counter, so the limit is soft while initialisations overlap.
 */
module EmbedUsage {
  import opened Wrappers

  // ---------- Concurrent initialisations of one token ----------

  /** How far an initialisation that passed the check has got. */
  datatype Stage = Passed | HasRun | HasSession

  /** `count` is usage_count, `sessions` the sessions created for the token so far. */
  datatype State = State(count: int, sessions: int, flights: map<int, Stage>)

  datatype Action =
    | Check(flight: int, otherwiseValid: bool)
    | CreateRun(flight: int, succeeds: bool)
    | CreateSession(flight: int, succeeds: bool)
    | Increment(flight: int, succeeds: bool)

  /** A missing or zero limit means no limit. */
  predicate LimitReached(limit: Option<int>, count: int) {
    limit.Some? && limit.value != 0 && count >= limit.value
  }

  /** At most `inFlight` initialisations overlap. An action that is not enabled changes nothing. */
  function Step(limit: Option<int>, inFlight: nat, s: State, a: Action): State {
    match a
    case Check(f, otherwiseValid) =>
      if f in s.flights || |s.flights| >= inFlight || !otherwiseValid || LimitReached(limit, s.count) then s
      else s.(flights := s.flights[f := Passed])
    case CreateRun(f, succeeds) =>
      if !(f in s.flights && s.flights[f] == Passed) then s
      else if succeeds then s.(flights := s.flights[f := HasRun])
      else s.(flights := s.flights - {f})
    case CreateSession(f, succeeds) =>
      if !(f in s.flights && s.flights[f] == HasRun) then s
      else if succeeds then s.(flights := s.flights[f := HasSession], sessions := s.sessions + 1)
      else s.(flights := s.flights - {f})
    case Increment(f, succeeds) =>
      if !(f in s.flights && s.flights[f] == HasSession) then s
      else s.(flights := s.flights - {f}, count := if succeeds then s.count + 1 else s.count)
  }

  function Run(limit: Option<int>, inFlight: nat, s: State, actions: seq<Action>): State
    decreases |actions|
  {
    if actions == [] then s else Run(limit, inFlight, Step(limit, inFlight, s, actions[0]), actions[1..])
  }

  /** An initialisation passes the check exactly if the token is otherwise valid and has no limit, or zero
      for one, or a count below it; as far as the overlap allows. */
  lemma ChecksPassBelowTheLimit(limit: Option<int>, inFlight: nat, s: State, f: int, otherwiseValid: bool)
    requires f !in s.flights && |s.flights| < inFlight
    ensures f in Step(limit, inFlight, s, Check(f, otherwiseValid)).flights <==>
            otherwiseValid && (limit.None? || limit.value == 0 || s.count < limit.value)
  {
  }

  function WithSession(flights: map<int, Stage>): set<int> {
    set f | f in flights && flights[f] == HasSession
  }

  ghost predicate Inv(limit: int, inFlight: nat, s: State, surplus: int) {
    && |s.flights| <= inFlight
    && s.count + |s.flights| <= limit + inFlight - 1
    && s.count + |WithSession(s.flights)| <= s.sessions + surplus
  }

  lemma RemoveFlight(flights: map<int, Stage>, f: int)
    requires f in flights
    ensures |flights - {f}| == |flights| - 1
    ensures WithSession(flights - {f}) == WithSession(flights) - {f}
  {
    assert (flights - {f}).Keys == flights.Keys - {f};
    assert WithSession(flights - {f}) == WithSession(flights) - {f};
  }

  lemma AdvanceFlight(flights: map<int, Stage>, f: int, stage: Stage)
    ensures |flights[f := stage]| == |flights| + if f in flights then 0 else 1
  {
    assert flights[f := stage].Keys == flights.Keys + {f};
  }

  lemma AdvanceBeforeSession(flights: map<int, Stage>, f: int, stage: Stage)
    requires stage != HasSession
    ensures |WithSession(flights[f := stage])| <= |WithSession(flights)|
  {
    SubsetCardinality(WithSession(flights[f := stage]), WithSession(flights));
  }

  lemma AdvanceToSession(flights: map<int, Stage>, f: int)
    requires f in flights && flights[f] != HasSession
    ensures |WithSession(flights[f := HasSession])| == |WithSession(flights)| + 1
  {
    assert WithSession(flights[f := HasSession]) == WithSession(flights) + {f};
  }

  lemma StepDrop(limit: int, inFlight: nat, s: State, surplus: int, f: int)
    requires Inv(limit, inFlight, s, surplus) && f in s.flights
    ensures Inv(limit, inFlight, s.(flights := s.flights - {f}), surplus)
  {
    RemoveFlight(s.flights, f);
    SubsetCardinality(WithSession(s.flights) - {f}, WithSession(s.flights));
  }

  lemma StepKeepsInv(limit: int, inFlight: nat, s: State, surplus: int, a: Action)
    requires limit > 0 && Inv(limit, inFlight, s, surplus)
    ensures Inv(limit, inFlight, Step(Some(limit), inFlight, s, a), surplus)
  {
    var s' := Step(Some(limit), inFlight, s, a);
    if s' != s {
      match a
      case Check(f, _) =>
        AdvanceFlight(s.flights, f, Passed);
        AdvanceBeforeSession(s.flights, f, Passed);
      case CreateRun(f, succeeds) =>
        if succeeds {
          AdvanceFlight(s.flights, f, HasRun);
          AdvanceBeforeSession(s.flights, f, HasRun);
        } else {
          StepDrop(limit, inFlight, s, surplus, f);
        }
      case CreateSession(f, succeeds) =>
        if succeeds {
          AdvanceFlight(s.flights, f, HasSession);
          AdvanceToSession(s.flights, f);
        } else {
          StepDrop(limit, inFlight, s, surplus, f);
        }
      case Increment(f, succeeds) =>
        if succeeds {
          RemoveFlight(s.flights, f);
          assert f in WithSession(s.flights);
        } else {
          StepDrop(limit, inFlight, s, surplus, f);
        }
    }
  }

  lemma {:induction false} RunKeepsInv(limit: int, inFlight: nat, s: State, surplus: int, actions: seq<Action>)
    requires limit > 0 && Inv(limit, inFlight, s, surplus)
    ensures Inv(limit, inFlight, Run(Some(limit), inFlight, s, actions), surplus)
    decreases |actions|
  {
    if actions != [] {
      StepKeepsInv(limit, inFlight, s, surplus, actions[0]);
      RunKeepsInv(limit, inFlight, Step(Some(limit), inFlight, s, actions[0]), surplus, actions[1..]);
    }
  }

  /** With at most `inFlight` overlapping initialisations the counter passes a positive limit by at most
      `inFlight` - 1, over every interleaving and every pattern of failures; run one at a time it never
      passes it. No use is counted without its session. */
  lemma CounterIsNearlyBounded(limit: int, inFlight: nat, s: State, actions: seq<Action>)
    requires limit > 0 && inFlight >= 1 && s.flights == map[] && s.count <= limit
    ensures var e := Run(Some(limit), inFlight, s, actions);
            && e.count <= limit + inFlight - 1
            && (inFlight == 1 ==> e.count <= limit)
            && e.count - s.count <= e.sessions - s.sessions
  {
    assert WithSession(s.flights) == {};
    RunKeepsInv(limit, inFlight, s, s.count - s.sessions, actions);
  }

  // ---------- The bound is tight ----------

  /** n initialisations, numbered from 0, all pass the check before any of them counts. */
  function Checks(n: nat): seq<Action> {
    if n == 0 then [] else Checks(n - 1) + [Check(n - 1, true)]
  }

  function Completions(n: nat): seq<Action> {
    if n == 0 then []
    else Completion(n - 1) + Completions(n - 1)
  }

  function Completion(f: int): seq<Action> {
    [CreateRun(f, true), CreateSession(f, true), Increment(f, true)]
  }

  function AllPassed(n: nat): map<int, Stage> {
    if n == 0 then map[] else AllPassed(n - 1)[n - 1 := Passed]
  }

  lemma {:induction false} RunConcat(limit: Option<int>, inFlight: nat, s: State, a: seq<Action>, b: seq<Action>)
    ensures Run(limit, inFlight, s, a + b) == Run(limit, inFlight, Run(limit, inFlight, s, a), b)
    decreases |a|
  {
    if a == [] {
      assert a + b == b;
    } else {
      assert (a + b)[1..] == a[1..] + b;
      RunConcat(limit, inFlight, Step(limit, inFlight, s, a[0]), a[1..], b);
    }
  }

  lemma {:induction false} AllPassedSize(n: nat)
    ensures |AllPassed(n)| == n
    ensures forall f :: f in AllPassed(n) <==> 0 <= f < n
  {
    if n > 0 {
      AllPassedSize(n - 1);
      AdvanceFlight(AllPassed(n - 1), n - 1, Passed);
    }
  }

  lemma {:induction false} ChecksAllPass(limit: int, inFlight: nat, s: State, n: nat)
    requires limit > 0 && s.count < limit && s.flights == map[] && n <= inFlight
    ensures Run(Some(limit), inFlight, s, Checks(n)) == s.(flights := AllPassed(n))
  {
    if n > 0 {
      ChecksAllPass(limit, inFlight, s, n - 1);
      RunConcat(Some(limit), inFlight, s, Checks(n - 1), [Check(n - 1, true)]);
      AllPassedSize(n - 1);
      var m := s.(flights := AllPassed(n - 1));
      RunOne(Some(limit), inFlight, m, Check(n - 1, true));
    }
  }

  lemma {:induction false} CompletionsAllCount(limit: Option<int>, inFlight: nat, s: State, n: nat)
    requires s.flights == AllPassed(n)
    ensures Run(limit, inFlight, s, Completions(n)).count == s.count + n
    decreases n
  {
    if n > 0 {
      AllPassedSize(n - 1);
      OneCompletion(limit, inFlight, s, n - 1);
      var s1 := Run(limit, inFlight, s, Completion(n - 1));
      assert s1.flights == AllPassed(n - 1);
      RunConcat(limit, inFlight, s, Completion(n - 1), Completions(n - 1));
      CompletionsAllCount(limit, inFlight, s1, n - 1);
    }
  }

  lemma RunOne(limit: Option<int>, inFlight: nat, s: State, a: Action)
    ensures Run(limit, inFlight, s, [a]) == Step(limit, inFlight, s, a)
  {
    assert [a][1..] == [];
  }

  lemma OneCompletion(limit: Option<int>, inFlight: nat, s: State, f: int)
    requires f in s.flights && s.flights[f] == Passed
    ensures Run(limit, inFlight, s, Completion(f)) == State(s.count + 1, s.sessions + 1, s.flights - {f})
  {
    var s1 := s.(flights := s.flights[f := HasRun]);
    var s2 := State(s.count, s.sessions + 1, s.flights[f := HasSession]);
    assert s1.flights[f := HasSession] == s2.flights;
    assert s2.flights - {f} == s.flights - {f};
    RunOne(limit, inFlight, s2, Increment(f, true));
    assert Completion(f)[1..] == [CreateSession(f, true), Increment(f, true)];
    assert [CreateSession(f, true), Increment(f, true)][1..] == [Increment(f, true)];
    assert Run(limit, inFlight, s1, [CreateSession(f, true), Increment(f, true)]) ==
      Run(limit, inFlight, s2, [Increment(f, true)]);
  }

  /** Some interleaving of `inFlight` initialisations does reach the bound. */
  lemma BoundIsReached(limit: int, inFlight: nat, s: State)
    requires limit > 0 && inFlight >= 1 && s.flights == map[] && s.count == limit - 1
    ensures Run(Some(limit), inFlight, s, Checks(inFlight) + Completions(inFlight)).count == limit + inFlight - 1
  {
    RunConcat(Some(limit), inFlight, s, Checks(inFlight), Completions(inFlight));
    ChecksAllPass(limit, inFlight, s, inFlight);
    CompletionsAllCount(Some(limit), inFlight, s.(flights := AllPassed(inFlight)), inFlight);
  }

  // ---------- One initialisation as written ----------

  datatype Token = Token(id: int, isActive: bool, expiresAt: Option<int>, usageLimit: Option<int>, usageCount: int)

  /** Not above a positive limit. */
  predicate WithinLimit(t: Token) {
    t.usageLimit.Some? && t.usageLimit.value > 0 && t.usageCount <= t.usageLimit.value
  }

  class EmbedClient {
    var tokens: map<string, Token>
    var sessions: seq<(string, int)>

    /** Adds one to the stored counter; other tokens are untouched. */
    method IncrementEmbedTokenUsage(token: string)
      requires token in tokens
      modifies this`tokens
      ensures tokens == old(tokens)[token := old(tokens)[token].(usageCount := old(tokens)[token].usageCount + 1)]
    {
      tokens := tokens[token := tokens[token].(usageCount := tokens[token].usageCount + 1)];
    }

    /** The HTTP status. A use is counted exactly when the initialisation succeeds, and a token within a
        positive limit stays within it. */
    method InitializeEmbedSession(token: string, now: int, originAllowed: bool, runCreated: bool,
        sessionToken: Option<string>)
      returns (status: int)
      modifies this
      ensures status == 404 <==> token !in old(tokens)
      ensures status == 200 <==>
                && token in old(tokens) && originAllowed && runCreated && sessionToken.Some?
                && var t := old(tokens)[token];
                   && t.isActive && (t.expiresAt.Some? ==> now <= t.expiresAt.value)
                   && (t.usageLimit.None? || t.usageLimit.value == 0 || t.usageCount < t.usageLimit.value)
      ensures status == 200 ==>
                && tokens == old(tokens)[token := old(tokens)[token].(usageCount := old(tokens)[token].usageCount + 1)]
                && sessions == old(sessions) + [(sessionToken.value, old(tokens)[token].id)]
      ensures status != 200 ==> tokens == old(tokens) && sessions == old(sessions)
      ensures forall t :: t in old(tokens) && WithinLimit(old(tokens)[t]) ==> t in tokens && WithinLimit(tokens[t])
    {
      if token !in tokens {
        return 404;
      }
      var t := tokens[token];
      if !t.isActive {
        return 403;
      }
      if t.expiresAt.Some? && t.expiresAt.value < now {
        return 403;
      }
      if LimitReached(t.usageLimit, t.usageCount) {
        return 403;
      }
      if !originAllowed {
        return 403;
      }
      if !runCreated {
        return 500;
      }
      if sessionToken.None? {
        return 500;
      }
      sessions := sessions + [(sessionToken.value, t.id)];
      IncrementEmbedTokenUsage(token);
      return 200;
    }
  }
}
