/**
 The query built by similarity search (api/db/knowledge_base_client.py, `search_similar_chunks`):
 numbered placeholders and the parameter list are grown side by side.
 */
module ChunkSearch {
  import opened Wrappers

  datatype Param = Embedding(vector: seq<real>) | Number(n: int) | Text(s: string)

  /** WHERE conditions; numbers are placeholders, `$1` being the first parameter. */
  datatype Condition =
    | OrganizationIs(k: int)
    | DocumentActive
    | DocumentIdIn(ks: seq<int>)
    | DocumentUuidIn(ks: seq<int>)
    | ModelIs(k: int)

  /** `$1` is also the vector in the ordering and `$3` the LIMIT. */
  datatype Query = Query(conditions: seq<Condition>, params: seq<Param>)

  /** Missing and empty filters are the same. */
  datatype Request = Request(
    embedding: seq<real>, organization: int, limit: int, documentIds: seq<int>, documentUuids: seq<string>,
      model: string)

  /** A chunk joined with its document. */
  datatype Row = Row(organization: int, documentActive: bool, documentId: int, documentUuid: string,
      model: Option<string>)

  // ---------- Evaluation ----------

  /** The parameter a placeholder denotes. */
  function Denoted(params: seq<Param>, k: int): Option<Param> {
    if 1 <= k <= |params| then Some(params[k - 1]) else None
  }

  predicate Holds(c: Condition, params: seq<Param>, r: Row) {
    match c
    case OrganizationIs(k) => Denoted(params, k) == Some(Number(r.organization))
    case DocumentActive => r.documentActive
    case DocumentIdIn(ks) => exists i :: 0 <= i < |ks| && Denoted(params, ks[i]) == Some(Number(r.documentId))
    case DocumentUuidIn(ks) => exists i :: 0 <= i < |ks| && Denoted(params, ks[i]) == Some(Text(r.documentUuid))
    case ModelIs(k) => r.model.Some? && Denoted(params, k) == Some(Text(r.model.value))
  }

  predicate Selects(q: Query, r: Row) {
    forall i :: 0 <= i < |q.conditions| ==> Holds(q.conditions[i], q.params, r)
  }

  /** What the search is for. */
  predicate Wanted(request: Request, r: Row) {
    && r.organization == request.organization
    && r.documentActive
    && (request.documentIds != [] ==> r.documentId in request.documentIds)
    && (request.documentUuids != [] ==> r.documentUuid in request.documentUuids)
    && (request.model != "" ==> r.model == Some(request.model))
  }

  function PlaceholdersOf(c: Condition): set<int> {
    match c
    case OrganizationIs(k) => {k}
    case DocumentActive => {}
    case DocumentIdIn(ks) => set k | k in ks
    case DocumentUuidIn(ks) => set k | k in ks
    case ModelIs(k) => {k}
  }

  function Placeholders(conditions: seq<Condition>): set<int> {
    if conditions == [] then {}
    else Placeholders(conditions[..|conditions| - 1]) + PlaceholdersOf(conditions[|conditions| - 1])
  }

  /** Adding parameters at the end never changes what the placeholders so far denote. */
  lemma ExtensionKeepsDenotations(c: Condition, params: seq<Param>, longer: seq<Param>, r: Row)
    requires params <= longer
    requires forall k :: k in PlaceholdersOf(c) ==> 1 <= k <= |params|
    ensures Holds(c, longer, r) <==> Holds(c, params, r)
  {
    match c
    case DocumentIdIn(ks) =>
      assert forall i :: 0 <= i < |ks| ==> ks[i] in PlaceholdersOf(c);
      assert forall i :: 0 <= i < |ks| ==> Denoted(longer, ks[i]) == Denoted(params, ks[i]);
    case DocumentUuidIn(ks) =>
      assert forall i :: 0 <= i < |ks| ==> ks[i] in PlaceholdersOf(c);
      assert forall i :: 0 <= i < |ks| ==> Denoted(longer, ks[i]) == Denoted(params, ks[i]);
    case OrganizationIs(k) => assert k in PlaceholdersOf(c);
    case ModelIs(k) => assert k in PlaceholdersOf(c);
    case DocumentActive =>
  }

  // ---------- Construction ----------

  /** The `n` placeholders from `first` on. */
  method NextPlaceholders(first: int, n: nat) returns (ks: seq<int>)
    ensures |ks| == n && forall i :: 0 <= i < n ==> ks[i] == first + i
  {
    ks := [];
    for i := 0 to n
      invariant |ks| == i && forall j :: 0 <= j < i ==> ks[j] == first + j
    {
      ks := ks + [first + i];
    }
  }

  /** What has been added: organization and activity, then ids, then uuids, then the model. */
  predicate WantedSoFar(request: Request, stage: int, r: Row) {
    && r.organization == request.organization
    && r.documentActive
    && (stage >= 1 && request.documentIds != [] ==> r.documentId in request.documentIds)
    && (stage >= 2 && request.documentUuids != [] ==> r.documentUuid in request.documentUuids)
    && (stage >= 3 && request.model != "" ==> r.model == Some(request.model))
  }

  /** Conditions under construction: every parameter but the two used elsewhere is referred to, and the
      conjunction selects what is wanted so far. */
  ghost predicate Progress(request: Request, stage: int, q: Query) {
    && |q.params| >= 3
    && Denoted(q.params, 1) == Some(Embedding(request.embedding))
    && Denoted(q.params, 3) == Some(Number(request.limit))
    && (forall k :: k in Placeholders(q.conditions) <==> k == 2 || 3 < k <= |q.params|)
    && (forall r: Row :: Selects(q, r) <==> WantedSoFar(request, stage, r))
  }

  lemma {:induction false} PlaceholdersCover(conditions: seq<Condition>, i: int)
    requires 0 <= i < |conditions|
    ensures PlaceholdersOf(conditions[i]) <= Placeholders(conditions)
    decreases |conditions|
  {
    if i < |conditions| - 1 {
      PlaceholdersCover(conditions[..|conditions| - 1], i);
    }
  }

  function With(q: Query, c: Condition, more: seq<Param>): Query {
    Query(q.conditions + [c], q.params + more)
  }

  lemma SelectsWith(q: Query, c: Condition, more: seq<Param>, r: Row)
    requires forall k :: k in Placeholders(q.conditions) ==> 1 <= k <= |q.params|
    ensures Selects(With(q, c, more), r) <==> Selects(q, r) && Holds(c, q.params + more, r)
  {
    var q' := With(q, c, more);
    assert q'.conditions[|q.conditions|] == c;
    forall i | 0 <= i < |q.conditions|
      ensures Holds(q'.conditions[i], q'.params, r) <==> Holds(q.conditions[i], q.params, r)
    {
      PlaceholdersCover(q.conditions, i);
      ExtensionKeepsDenotations(q.conditions[i], q.params, q'.params, r);
    }
    if Selects(q', r) {
      assert forall i :: 0 <= i < |q.conditions| ==> Holds(q'.conditions[i], q'.params, r);
    }
  }

  /** One more condition over exactly the freshly appended parameters completes the next stage. */
  lemma Extend(request: Request, stage: int, next: int, q: Query, c: Condition, more: seq<Param>)
    requires Progress(request, stage, q)
    requires forall k :: k in PlaceholdersOf(c) <==> |q.params| < k <= |q.params| + |more|
    requires forall r: Row :: WantedSoFar(request, next, r) <==>
        WantedSoFar(request, stage, r) && Holds(c, q.params + more, r)
    ensures Progress(request, next, With(q, c, more))
  {
    var q' := With(q, c, more);
    assert q'.conditions[..|q'.conditions| - 1] == q.conditions;
    forall r: Row ensures Selects(q', r) <==> WantedSoFar(request, next, r) {
      SelectsWith(q, c, more, r);
    }
  }

  function Numbers(ids: seq<int>): seq<Param> {
    seq(|ids|, i requires 0 <= i < |ids| => Number(ids[i]))
  }

  function Texts(uuids: seq<string>): seq<Param> {
    seq(|uuids|, i requires 0 <= i < |uuids| => Text(uuids[i]))
  }

  /** A list of placeholders for freshly appended numbers tests membership in those numbers. */
  lemma IdsDenote(params: seq<Param>, ids: seq<int>, ks: seq<int>, r: Row)
    requires |ks| == |ids| && forall i :: 0 <= i < |ks| ==> ks[i] == |params| + 1 + i
    ensures Holds(DocumentIdIn(ks), params + Numbers(ids), r) <==> r.documentId in ids
  {
    assert forall i :: 0 <= i < |ks| ==> Denoted(params + Numbers(ids), ks[i]) == Some(Number(ids[i]));
    if r.documentId in ids {
      var i :| 0 <= i < |ids| && ids[i] == r.documentId;
      assert Denoted(params + Numbers(ids), ks[i]) == Some(Number(r.documentId));
    }
  }

  lemma UuidsDenote(params: seq<Param>, uuids: seq<string>, ks: seq<int>, r: Row)
    requires |ks| == |uuids| && forall i :: 0 <= i < |ks| ==> ks[i] == |params| + 1 + i
    ensures Holds(DocumentUuidIn(ks), params + Texts(uuids), r) <==> r.documentUuid in uuids
  {
    assert forall i :: 0 <= i < |ks| ==> Denoted(params + Texts(uuids), ks[i]) == Some(Text(uuids[i]));
    if r.documentUuid in uuids {
      var i :| 0 <= i < |uuids| && uuids[i] == r.documentUuid;
      assert Denoted(params + Texts(uuids), ks[i]) == Some(Text(r.documentUuid));
    }
  }

  lemma PlaceholdersInRange(ks: seq<int>, first: int)
    requires forall i :: 0 <= i < |ks| ==> ks[i] == first + i
    ensures forall k :: k in ks <==> first <= k < first + |ks|
  {
    forall k | first <= k < first + |ks| ensures k in ks {
      assert ks[k - first] == k;
    }
  }

  lemma Base(request: Request)
    ensures Progress(request, 0, Query([OrganizationIs(2), DocumentActive],
                                       [Embedding(request.embedding), Number(request.organization),
                                         Number(request.limit)]))
  {
    var cs := [OrganizationIs(2), DocumentActive];
    assert cs[..1] == [OrganizationIs(2)] && cs[..1][..0] == [];
    assert Placeholders(cs[..1]) == {2};
    var ps := [Embedding(request.embedding), Number(request.organization), Number(request.limit)];
    forall r: Row ensures Selects(Query(cs, ps), r) <==> WantedSoFar(request, 0, r) {
      assert Denoted(ps, 2) == Some(Number(request.organization));
      assert Selects(Query(cs, ps), r) ==> Holds(cs[0], ps, r) && Holds(cs[1], ps, r);
    }
  }

  method AddIds(request: Request, q: Query, index: int) returns (q': Query, index': int)
    requires Progress(request, 0, q) && index == |q.params| + 1
    ensures Progress(request, 1, q') && index' == |q'.params| + 1
  {
    q', index' := q, index;
    if request.documentIds != [] {
      var ks := NextPlaceholders(index, |request.documentIds|);
      PlaceholdersInRange(ks, index);
      forall r: Row
        ensures Holds(DocumentIdIn(ks), q.params + Numbers(request.documentIds), r) <==>
                r.documentId in request.documentIds
      {
        IdsDenote(q.params, request.documentIds, ks, r);
      }
      Extend(request, 0, 1, q, DocumentIdIn(ks), Numbers(request.documentIds));
      q' := With(q, DocumentIdIn(ks), Numbers(request.documentIds));
      index' := index + |request.documentIds|;
    }
  }

  method AddUuids(request: Request, q: Query, index: int) returns (q': Query, index': int)
    requires Progress(request, 1, q) && index == |q.params| + 1
    ensures Progress(request, 2, q') && index' == |q'.params| + 1
  {
    q', index' := q, index;
    if request.documentUuids != [] {
      var ks := NextPlaceholders(index, |request.documentUuids|);
      PlaceholdersInRange(ks, index);
      forall r: Row
        ensures Holds(DocumentUuidIn(ks), q.params + Texts(request.documentUuids), r) <==>
                r.documentUuid in request.documentUuids
      {
        UuidsDenote(q.params, request.documentUuids, ks, r);
      }
      Extend(request, 1, 2, q, DocumentUuidIn(ks), Texts(request.documentUuids));
      q' := With(q, DocumentUuidIn(ks), Texts(request.documentUuids));
      index' := index + |request.documentUuids|;
    }
  }

  method AddModel(request: Request, q: Query, index: int) returns (q': Query, index': int)
    requires Progress(request, 2, q) && index == |q.params| + 1
    ensures Progress(request, 3, q') && index' == |q'.params| + 1
  {
    q', index' := q, index;
    if request.model != "" {
      assert Denoted(q.params + [Text(request.model)], index) == Some(Text(request.model));
      Extend(request, 2, 3, q, ModelIs(index), [Text(request.model)]);
      q' := With(q, ModelIs(index), [Text(request.model)]);
      index' := index + 1;
    }
  }

  /** Builds the query. For every combination of filters the clause selects exactly the wanted chunks,
      `$1` is the vector, `$3` the limit, and the placeholders are exactly the parameters. */
  method BuildQuery(request: Request) returns (q: Query)
    ensures forall r: Row :: Selects(q, r) <==> Wanted(request, r)
    ensures forall k :: k in Placeholders(q.conditions) + {1, 3} <==> 1 <= k <= |q.params|
    ensures Denoted(q.params, 1) == Some(Embedding(request.embedding))
    ensures Denoted(q.params, 3) == Some(Number(request.limit))
  {
    q := Query([OrganizationIs(2), DocumentActive],
               [Embedding(request.embedding), Number(request.organization), Number(request.limit)]);
    Base(request);
    var index := 4;
    q, index := AddIds(request, q, index);
    q, index := AddUuids(request, q, index);
    q, index := AddModel(request, q, index);
  }
}
