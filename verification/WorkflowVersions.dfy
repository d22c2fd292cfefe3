/**
 Workflow definitions and their versions (api/db/workflow_client.py): a store of definitions addressed
 by content hash, with one current version per workflow.

 The hash is taken as injective: a digest is the canonical content it was computed from.
 */
module WorkflowVersions {
  import opened Wrappers
  import opened Json

  datatype Digest = Sha256(content: Object)

  datatype Workflow = Workflow(
    name: string, legacy: Object, user: int, organization: Option<int>, templateVariables: Object,
      configurations: Object)

  datatype Definition = Definition(hash: Digest, json: Object, workflow: int, isCurrent: bool)

  datatype Store = Store(
    workflows: map<int, Workflow>, definitions: map<int, Definition>, nextWorkflow: int, nextDefinition: int)

  const SUMMARIES: string := "node_summaries"

  // ---------- Operations ----------

  ghost predicate Holds(s: Store, id: int, content: Object, workflow: int) {
    id in s.definitions && s.definitions[id].hash == Sha256(content) && s.definitions[id].workflow == workflow
  }

  /** The store with a definition of this content for the workflow, and the definition's id. */
  ghost function GetOrCreate(s: Store, content: Object, workflow: int): (Store, int) {
    if id :| Holds(s, id, content, workflow) then (s, id)
    else (s.(definitions := s.definitions[s.nextDefinition := Definition(Sha256(content), content, workflow, false)],
             nextDefinition := s.nextDefinition + 1),
          s.nextDefinition)
  }

  function MakeCurrent(definitions: map<int, Definition>, workflow: int, current: int): map<int, Definition> {
    map id | id in definitions ::
      if id == current then definitions[id].(isCurrent := true)
      else if definitions[id].workflow == workflow then definitions[id].(isCurrent := false)
      else definitions[id]
  }

  ghost function Save(s: Store, content: Object, workflow: int): (Store, int) {
    var (s', id) := GetOrCreate(s, content, workflow);
    (s'.(definitions := MakeCurrent(s'.definitions, workflow, id)), id)
  }

  datatype Edit = Edit(name: Option<string>, content: Option<Object>, templateVariables: Option<Object>,
                       configurations: Option<Object>)

  /** Organization first, user as the fallback, no filter when neither is given. */
  predicate Visible(w: Workflow, user: int, organization: int) {
    if organization != 0 then w.organization == Some(organization)
    else user != 0 ==> w.user == user
  }

  function Edited(w: Workflow, e: Edit): Workflow {
    w.(name := e.name.GetOr(w.name),
       templateVariables := e.templateVariables.GetOr(w.templateVariables),
       configurations := e.configurations.GetOr(w.configurations),
       legacy := if SavesContent(e) then e.content.value else w.legacy)
  }

  /** An empty definition counts as none given. */
  predicate SavesContent(e: Edit) {
    e.content.Some? && e.content.value != map[]
  }

  datatype Action =
    | Create(name: string, content: Object, user: int, organization: Option<int>)
    | Update(workflow: int, edit: Edit, byUser: int, byOrganization: int)
    | Summarize(definition: int, summaries: Object)

  ghost function Step(s: Store, a: Action): Store {
    match a
    case Create(name, content, user, organization) =>
      var row := Workflow(name, content, user, organization, map[], map[]);
      Save(s.(workflows := s.workflows[s.nextWorkflow := row], nextWorkflow := s.nextWorkflow + 1), content,
        s.nextWorkflow).0
    case Update(id, edit, user, organization) =>
      if !(id in s.workflows && Visible(s.workflows[id], user, organization)) then s
      else
        var s1 := s.(workflows := s.workflows[id := Edited(s.workflows[id], edit)]);
        if SavesContent(edit) then Save(s1, edit.content.value, id).0 else s1
    case Summarize(id, summaries) =>
      if id !in s.definitions then s
      else
        var d := s.definitions[id];
        s.(definitions := s.definitions[id := d.(json := d.json[SUMMARIES := Obj(summaries)])])
  }

  ghost function Run(s: Store, actions: seq<Action>): Store
    decreases |actions|
  {
    if actions == [] then s else Run(Step(s, actions[0]), actions[1..])
  }

  // ---------- Invariant ----------

  /** Equal everywhere but at the node summaries. */
  ghost predicate AgreeButSummaries(a: Object, b: Object) {
    a - {SUMMARIES} == b - {SUMMARIES}
  }

  ghost predicate IsCurrentOf(s: Store, id: int, workflow: int) {
    id in s.definitions && s.definitions[id].workflow == workflow && s.definitions[id].isCurrent
  }

  ghost predicate UniqueHashes(s: Store) {
    forall i, j :: (i in s.definitions && j in s.definitions && s.definitions[i].hash == s.definitions[j].hash
                    && s.definitions[i].workflow == s.definitions[j].workflow) ==> i == j
  }

  ghost predicate DefinitionsOk(s: Store) {
    forall id :: id in s.definitions ==>
      && id < s.nextDefinition && s.definitions[id].workflow in s.workflows
      && AgreeButSummaries(s.definitions[id].json, s.definitions[id].hash.content)
  }

  /** The workflow has one current definition, and it is the one of its legacy field. */
  ghost predicate WorkflowOk(s: Store, w: int)
    requires w in s.workflows
  {
    && w < s.nextWorkflow
    && (exists id :: IsCurrentOf(s, id, w))
    && (forall i, j :: IsCurrentOf(s, i, w) && IsCurrentOf(s, j, w) ==> i == j)
    && (forall id :: IsCurrentOf(s, id, w) ==> s.definitions[id].hash == Sha256(s.workflows[w].legacy))
  }

  ghost predicate Inv(s: Store) {
    UniqueHashes(s) && DefinitionsOk(s) && forall w :: w in s.workflows ==> WorkflowOk(s, w)
  }

  lemma GetOrCreateKeeps(s: Store, content: Object, w: int)
    requires UniqueHashes(s) && DefinitionsOk(s) && w in s.workflows
    ensures var (s', id) := GetOrCreate(s, content, w);
            && Holds(s', id, content, w) && UniqueHashes(s') && DefinitionsOk(s') && Kept(s, s')
            && (forall v, i :: IsCurrentOf(s', i, v) <==> IsCurrentOf(s, i, v))
  {
    var (s', id) := GetOrCreate(s, content, w);
    if exists i :: Holds(s, i, content, w) {
    } else {
      assert id == s.nextDefinition;
      forall j | j in s.definitions
        ensures !(s.definitions[j].hash == Sha256(content) && s.definitions[j].workflow == w)
      {
        assert !Holds(s, j, content, w);
      }
    }
  }

  /** Saving makes the definition of that content the one current definition, leaving every other
      workflow's versions alone. */
  lemma SaveMakesCurrent(s: Store, content: Object, w: int)
    requires UniqueHashes(s) && DefinitionsOk(s) && w in s.workflows
    ensures var (s', id) := Save(s, content, w);
            && Holds(s', id, content, w) && UniqueHashes(s') && DefinitionsOk(s')
            && (forall i :: IsCurrentOf(s', i, w) <==> i == id)
            && (forall v, i :: v != w ==> (IsCurrentOf(s', i, v) <==> IsCurrentOf(s, i, v)))
            && s'.workflows == s.workflows && s'.nextWorkflow == s.nextWorkflow
            && Kept(s, s')
  {
    GetOrCreateKeeps(s, content, w);
    MakeCurrentKeeps(GetOrCreate(s, content, w).0, w, GetOrCreate(s, content, w).1);
  }

  lemma MakeCurrentKeeps(s: Store, w: int, id: int)
    requires UniqueHashes(s) && DefinitionsOk(s) && id in s.definitions && s.definitions[id].workflow == w
    ensures var s' := s.(definitions := MakeCurrent(s.definitions, w, id));
            && UniqueHashes(s') && DefinitionsOk(s') && Kept(s, s')
            && (forall i :: IsCurrentOf(s', i, w) <==> i == id)
            && (forall v, i :: v != w ==> (IsCurrentOf(s', i, v) <==> IsCurrentOf(s, i, v)))
  {
    var s' := s.(definitions := MakeCurrent(s.definitions, w, id));
    forall i, j | i in s'.definitions && j in s'.definitions
        && s'.definitions[i].hash == s'.definitions[j].hash && s'.definitions[i].workflow == s'.definitions[j].workflow
      ensures i == j
    {
      assert s.definitions[i].hash == s.definitions[j].hash;
    }
  }

  /** Definitions are never lost, and their hash, owner and content but for summaries never change. */
  ghost predicate Kept(s: Store, s': Store) {
    forall id :: id in s.definitions ==>
      && id in s'.definitions
      && s'.definitions[id].hash == s.definitions[id].hash
      && s'.definitions[id].workflow == s.definitions[id].workflow
      && AgreeButSummaries(s'.definitions[id].json, s.definitions[id].json)
  }

  lemma SavedWorkflowOk(s: Store, content: Object, w: int)
    requires UniqueHashes(s) && DefinitionsOk(s) && w in s.workflows && w < s.nextWorkflow
    requires s.workflows[w].legacy == content
    requires forall v :: v in s.workflows && v != w ==> WorkflowOk(s, v)
    ensures Inv(Save(s, content, w).0) && Kept(s, Save(s, content, w).0)
  {
    SaveMakesCurrent(s, content, w);
    var (s', id) := Save(s, content, w);
    assert IsCurrentOf(s', id, w);
    forall v | v in s'.workflows && v != w ensures WorkflowOk(s', v) {
      var i :| IsCurrentOf(s, i, v);
      assert IsCurrentOf(s', i, v);
    }
  }

  lemma CreateKeepsInv(s: Store, name: string, content: Object, user: int, organization: Option<int>)
    requires Inv(s)
    ensures var s' := Step(s, Create(name, content, user, organization)); Inv(s') && Kept(s, s')
  {
    var row := Workflow(name, content, user, organization, map[], map[]);
    var s1 := s.(workflows := s.workflows[s.nextWorkflow := row], nextWorkflow := s.nextWorkflow + 1);
    forall v | v in s1.workflows && v != s.nextWorkflow ensures WorkflowOk(s1, v) {
      OtherRowsSame(s, s1, v);
    }
    SavedWorkflowOk(s1, content, s.nextWorkflow);
  }

  lemma UpdateKeepsInv(s: Store, id: int, edit: Edit, user: int, organization: int)
    requires Inv(s) && id in s.workflows && Visible(s.workflows[id], user, organization)
    ensures var s' := Step(s, Update(id, edit, user, organization)); Inv(s') && Kept(s, s')
  {
    assert WorkflowOk(s, id);
    var s1 := s.(workflows := s.workflows[id := Edited(s.workflows[id], edit)]);
    forall v | v in s1.workflows && (v != id || !SavesContent(edit)) ensures WorkflowOk(s1, v) {
      OtherRowsSame(s, s1, v);
    }
    if SavesContent(edit) {
      SavedWorkflowOk(s1, edit.content.value, id);
    }
  }

  lemma SummarizeKeepsInv(s: Store, id: int, summaries: Object)
    requires Inv(s)
    ensures var s' := Step(s, Summarize(id, summaries)); Inv(s') && Kept(s, s')
  {
    var s' := Step(s, Summarize(id, summaries));
    SummarizeKeepsRows(s, id, summaries);
    forall v | v in s'.workflows ensures WorkflowOk(s', v) {
      assert WorkflowOk(s, v);
      var i :| IsCurrentOf(s, i, v);
      assert IsCurrentOf(s', i, v);
    }
  }

  lemma SummarizeKeepsRows(s: Store, id: int, summaries: Object)
    requires UniqueHashes(s) && DefinitionsOk(s)
    ensures var s' := Step(s, Summarize(id, summaries));
            && UniqueHashes(s') && DefinitionsOk(s') && Kept(s, s')
            && (forall v, j :: IsCurrentOf(s', j, v) <==> IsCurrentOf(s, j, v))
            && (forall j :: j in s'.definitions ==>
                  j in s.definitions && s'.definitions[j].hash == s.definitions[j].hash)
  {
    var s' := Step(s, Summarize(id, summaries));
    forall j | j in s.definitions
      ensures j in s'.definitions && s'.definitions[j].hash == s.definitions[j].hash
      ensures s'.definitions[j].workflow == s.definitions[j].workflow
      ensures s'.definitions[j].isCurrent == s.definitions[j].isCurrent
      ensures AgreeButSummaries(s'.definitions[j].json, s.definitions[j].json)
    {
    }
  }

  lemma StepKeepsInv(s: Store, a: Action)
    requires Inv(s)
    ensures Inv(Step(s, a)) && Kept(s, Step(s, a))
  {
    match a
    case Create(name, content, user, organization) => CreateKeepsInv(s, name, content, user, organization);
    case Update(id, edit, user, organization) =>
      if id in s.workflows && Visible(s.workflows[id], user, organization) {
        UpdateKeepsInv(s, id, edit, user, organization);
      }
    case Summarize(id, summaries) => SummarizeKeepsInv(s, id, summaries);
  }

  lemma OtherRowsSame(s: Store, s': Store, v: int)
    requires v in s.workflows && WorkflowOk(s, v) && v in s'.workflows
    requires s'.definitions == s.definitions && s'.nextWorkflow >= s.nextWorkflow
    requires s'.workflows[v].legacy == s.workflows[v].legacy
    ensures WorkflowOk(s', v)
  {
    var i :| IsCurrentOf(s, i, v);
    assert IsCurrentOf(s', i, v);
    assert forall j :: IsCurrentOf(s', j, v) <==> IsCurrentOf(s, j, v);
  }

  lemma {:induction false} RunKeepsInv(s: Store, actions: seq<Action>)
    requires Inv(s)
    ensures Inv(Run(s, actions)) && Kept(s, Run(s, actions))
    decreases |actions|
  {
    if actions != [] {
      StepKeepsInv(s, actions[0]);
      RunKeepsInv(Step(s, actions[0]), actions[1..]);
    }
  }

  // ---------- Main results ----------

  ghost predicate Empty(s: Store) {
    s.workflows == map[] && s.definitions == map[]
  }

  /** After any sequence of create, update and summary calls every workflow has exactly one current
      definition, with the hash of the legacy field and its JSON but for the summaries, and hash and
      workflow together stay unique. */
  lemma OneCurrentDefinition(s: Store, actions: seq<Action>, w: int) returns (current: int)
    requires Empty(s) && w in Run(s, actions).workflows
    ensures var e := Run(s, actions);
            && UniqueHashes(e)
            && (forall id :: IsCurrentOf(e, id, w) <==> id == current)
            && current in e.definitions
            && e.definitions[current].hash == Sha256(e.workflows[w].legacy)
            && AgreeButSummaries(e.definitions[current].json, e.workflows[w].legacy)
  {
    RunKeepsInv(s, actions);
    assert WorkflowOk(Run(s, actions), w);
    current :| IsCurrentOf(Run(s, actions), current, w);
  }

  /** Saving a content again, whatever happened in between, returns the row it was saved in before. */
  lemma SavingAgainReusesTheRow(s: Store, content: Object, w: int, between: seq<Action>)
    requires Inv(s) && w in s.workflows && s.workflows[w].legacy == content
    ensures var (s1, id) := Save(s, content, w);
            Save(Run(s1, between), content, w).1 == id
  {
    SaveMakesCurrent(s, content, w);
    var (s1, id) := Save(s, content, w);
    SavedWorkflowOk(s, content, w);
    RunKeepsInv(s1, between);
    var s2 := Run(s1, between);
    assert Holds(s2, id, content, w);
    var again := GetOrCreate(s2, content, w).1;
    assert Holds(s2, again, content, w);
  }

  /** Going back to an earlier content makes its old row current again. */
  lemma RevertingRestoresTheRow(s: Store, w: int, edit: Edit, user: int, organization: int, between: seq<Action>,
      earlier: int)
    requires Inv(s) && IsCurrentOf(s, earlier, w) && w in s.workflows
    requires SavesContent(edit) && edit.content == Some(s.workflows[w].legacy)
    requires w in Run(s, between).workflows && Visible(Run(s, between).workflows[w], user, organization)
    ensures IsCurrentOf(Step(Run(s, between), Update(w, edit, user, organization)), earlier, w)
  {
    var content := edit.content.value;
    assert WorkflowOk(s, w);
    RunKeepsInv(s, between);
    var m := Run(s, between);
    assert Holds(m, earlier, content, w);
    var m1 := m.(workflows := m.workflows[w := Edited(m.workflows[w], edit)]);
    SaveMakesCurrent(m1, content, w);
    assert Holds(m1, earlier, content, w);
    assert Holds(m1, GetOrCreate(m1, content, w).1, content, w);
  }

  // ---------- Who may change a workflow ----------

  /** An update of the workflow by its own organization, or, when no organization is given, by its user or
      by nobody in particular. */
  predicate OwnUpdate(w: Workflow, id: int, a: Action) {
    && a.Update? && a.workflow == id
    && (|| (a.byOrganization != 0 && w.organization == Some(a.byOrganization))
        || (a.byOrganization == 0 && (a.byUser == 0 || a.byUser == w.user)))
  }

  /** Another organization's update, or another user's, changes nothing at all. */
  lemma ForeignUpdatesChangeNothing(s: Store, id: int, edit: Edit, user: int, organization: int)
    requires id in s.workflows && !OwnUpdate(s.workflows[id], id, Update(id, edit, user, organization))
    ensures Step(s, Update(id, edit, user, organization)) == s
  {
  }

  /** An own update sets the fields it gives, leaves the others, and touches no other workflow's row; its
      content becomes the legacy field and the current version, unless it is missing or empty. */
  lemma OwnUpdatesSetTheGivenFields(s: Store, id: int, edit: Edit, user: int, organization: int, w: int)
    requires Inv(s) && id in s.workflows && OwnUpdate(s.workflows[id], id, Update(id, edit, user, organization))
    ensures var s', before := Step(s, Update(id, edit, user, organization)), s.workflows[id];
            && s'.workflows.Keys == s.workflows.Keys
            && (w in s.workflows && w != id ==> s'.workflows[w] == s.workflows[w])
            && s'.workflows[id].user == before.user && s'.workflows[id].organization == before.organization
            && s'.workflows[id].name == (if edit.name.Some? then edit.name.value else before.name)
            && s'.workflows[id].templateVariables ==
               (if edit.templateVariables.Some? then edit.templateVariables.value else before.templateVariables)
            && s'.workflows[id].configurations ==
               (if edit.configurations.Some? then edit.configurations.value else before.configurations)
            && (edit.content.Some? && edit.content.value != map[] ==>
                  && s'.workflows[id].legacy == edit.content.value
                  && exists d :: IsCurrentOf(s', d, id) && s'.definitions[d].hash == Sha256(edit.content.value))
            && (edit.content.None? || edit.content.value == map[] ==>
                  s'.workflows[id].legacy == before.legacy && s'.definitions == s.definitions)
  {
    if SavesContent(edit) {
      var s1 := s.(workflows := s.workflows[id := Edited(s.workflows[id], edit)]);
      SaveMakesCurrent(s1, edit.content.value, id);
      assert IsCurrentOf(Save(s1, edit.content.value, id).0, Save(s1, edit.content.value, id).1, id);
    }
  }

  /** The row of the workflow and which of its versions is current. */
  ghost predicate Untouched(s: Store, s': Store, w: int)
    requires w in s.workflows
  {
    && w in s'.workflows && s'.workflows[w] == s.workflows[w]
    && forall i :: IsCurrentOf(s', i, w) <==> IsCurrentOf(s, i, w)
  }

  lemma StepLeavesUntouched(s: Store, a: Action, w: int)
    requires Inv(s) && w in s.workflows && !OwnUpdate(s.workflows[w], w, a)
    ensures Untouched(s, Step(s, a), w)
  {
    assert WorkflowOk(s, w);
    match a
    case Create(name, content, user, organization) =>
      var row := Workflow(name, content, user, organization, map[], map[]);
      SaveLeavesUntouched(s, s.(workflows := s.workflows[s.nextWorkflow := row], nextWorkflow := s.nextWorkflow + 1),
                          content, s.nextWorkflow, w);
    case Update(id, edit, user, organization) =>
      if id == w {
        ForeignUpdatesChangeNothing(s, id, edit, user, organization);
      } else if id in s.workflows && SavesContent(edit) {
        SaveLeavesUntouched(s, s.(workflows := s.workflows[id := Edited(s.workflows[id], edit)]), edit.content.value,
          id, w);
      }
    case Summarize(id, summaries) => SummarizeKeepsRows(s, id, summaries);
  }

  lemma SaveLeavesUntouched(s: Store, s1: Store, content: Object, id: int, w: int)
    requires UniqueHashes(s1) && DefinitionsOk(s1) && id in s1.workflows && id != w
    requires w in s.workflows && w in s1.workflows && s1.workflows[w] == s.workflows[w]
        && s1.definitions == s.definitions
    ensures Untouched(s, Save(s1, content, id).0, w)
  {
    SaveMakesCurrent(s1, content, id);
    assert forall i :: IsCurrentOf(s1, i, w) <==> IsCurrentOf(s, i, w);
  }

  /** Over every run a workflow's row, its definition included, and its current version are changed by its
      own updates only. */
  lemma {:induction false} OnlyOwnUpdatesChange(s: Store, actions: seq<Action>, w: int)
    requires Inv(s) && w in s.workflows
    requires forall k :: 0 <= k < |actions| ==> !OwnUpdate(s.workflows[w], w, actions[k])
    ensures Untouched(s, Run(s, actions), w)
    decreases |actions|
  {
    if actions != [] {
      StepLeavesUntouched(s, actions[0], w);
      StepKeepsInv(s, actions[0]);
      OnlyOwnUpdatesChange(Step(s, actions[0]), actions[1..], w);
    }
  }

  /** A run as created: the definition it is pinned to and the context it starts with. */
  datatype NewRun = NewRun(workflow: int, definition: Option<int>, initialContext: Object)

  // ---------- The operations as written ----------

  class WorkflowClient {
    var workflows: map<int, Workflow>
    var definitions: map<int, Definition>
    var nextWorkflow: int
    var nextDefinition: int

    ghost function Now(): Store
      reads this
    {
      Store(workflows, definitions, nextWorkflow, nextDefinition)
    }

    method GetOrCreateWorkflowDefinition(content: Object, workflow: int) returns (id: int)
      requires UniqueHashes(Now())
      modifies this`definitions, this`nextDefinition
      ensures (Now(), id) == GetOrCreate(old(Now()), content, workflow)
      ensures id in definitions && definitions[id].hash == Sha256(content) && definitions[id].workflow == workflow
      ensures if exists d :: d in old(definitions) && old(definitions)[d].hash == Sha256(content)
                             && old(definitions)[d].workflow == workflow
              then definitions == old(definitions)
              else definitions == old(definitions)[id := Definition(Sha256(content), content, workflow, false)]
    {
      var todo := definitions.Keys;
      while todo != {}
        invariant todo <= definitions.Keys && Now() == old(Now())
        invariant forall i :: Holds(Now(), i, content, workflow) ==> i in todo
        decreases todo
      {
        id := Pick(todo);
        if definitions[id].hash == Sha256(content) && definitions[id].workflow == workflow {
          assert Holds(Now(), id, content, workflow);
          return;
        }
        todo := todo - {id};
      }
      assert forall d :: d in definitions ==> !Holds(Now(), d, content, workflow);
      id := nextDefinition;
      definitions := definitions[id := Definition(Sha256(content), content, workflow, false)];
      nextDefinition := nextDefinition + 1;
    }

    method SaveDefinition(content: Object, workflow: int) returns (id: int)
      requires UniqueHashes(Now())
      modifies this`definitions, this`nextDefinition
      ensures (Now(), id) == Save(old(Now()), content, workflow)
    {
      id := GetOrCreateWorkflowDefinition(content, workflow);
      MarkCurrent(id, workflow);
    }

    /** Sets the flag on one row, then clears it on the workflow's other rows. */
    method MarkCurrent(id: int, workflow: int)
      requires id in definitions
      modifies this`definitions
      ensures definitions == MakeCurrent(old(definitions), workflow, id)
      ensures definitions.Keys == old(definitions).Keys
      ensures forall d :: d in definitions ==>
                definitions[d] == old(definitions)[d].(isCurrent :=
                  d == id || (old(definitions)[d].workflow != workflow && old(definitions)[d].isCurrent))
    {
      definitions := definitions[id := definitions[id].(isCurrent := true)];
      definitions := map d | d in definitions ::
        if definitions[d].workflow == workflow && d != id then definitions[d].(isCurrent := false) else definitions[d];
    }

    method CreateWorkflow(name: string, content: Object, user: int, organization: Option<int>) returns (id: int)
      requires Inv(Now())
      modifies this
      ensures Now() == Step(old(Now()), Create(name, content, user, organization)) && Inv(Now())
      ensures id == old(nextWorkflow)
          && workflows == old(workflows)[id := Workflow(name, content, user, organization, map[], map[])]
    {
      StepKeepsInv(Now(), Create(name, content, user, organization));
      id := nextWorkflow;
      workflows := workflows[id := Workflow(name, content, user, organization, map[], map[])];
      nextWorkflow := nextWorkflow + 1;
      var definition := SaveDefinition(content, id);
    }

    /** False when the workflow does not exist or is not visible to the caller. */
    method UpdateWorkflow(id: int, edit: Edit, user: int, organization: int) returns (found: bool)
      requires Inv(Now())
      modifies this
      ensures Now() == Step(old(Now()), Update(id, edit, user, organization)) && Inv(Now())
      ensures found <==> id in old(workflows) && OwnUpdate(old(workflows)[id], id, Update(id, edit, user, organization))
    {
      StepKeepsInv(Now(), Update(id, edit, user, organization));
      if id !in workflows || !Visible(workflows[id], user, organization) {
        return false;
      }
      var row := workflows[id];
      if edit.name.Some? {
        row := row.(name := edit.name.value);
      }
      if edit.templateVariables.Some? {
        row := row.(templateVariables := edit.templateVariables.value);
      }
      if edit.configurations.Some? {
        row := row.(configurations := edit.configurations.value);
      }
      if edit.content.Some? && edit.content.value != map[] {
        row := row.(legacy := edit.content.value);
      }
      workflows := workflows[id := row];
      if edit.content.Some? && edit.content.value != map[] {
        var definition := SaveDefinition(edit.content.value, id);
      }
      return true;
    }

    /** None when the workflow is missing or not the user's. A run is pinned to the current definition,
        which is the one last saved, and starts from the template variables unless given a context. */
    method CreateWorkflowRun(workflow: int, user: int, initialContext: Object) returns (run: Option<NewRun>)
      requires Inv(Now())
      ensures run.Some? <==> workflow in workflows && workflows[workflow].user == user
      ensures run.Some? ==>
                && run.value.workflow == workflow && run.value.definition.Some?
                && IsCurrentOf(Now(), run.value.definition.value, workflow)
                && Holds(Now(), run.value.definition.value, workflows[workflow].legacy, workflow)
                && run.value.initialContext ==
                   if initialContext != map[] then initialContext else workflows[workflow].templateVariables
    {
      if workflow !in workflows || workflows[workflow].user != user {
        return None;
      }
      assert WorkflowOk(Now(), workflow);
      var current := None;
      var todo := definitions.Keys;
      while todo != {} && current.None?
        invariant todo <= definitions.Keys
        invariant current.Some? ==> IsCurrentOf(Now(), current.value, workflow)
        invariant current.None? ==> forall i :: IsCurrentOf(Now(), i, workflow) ==> i in todo
        decreases todo, current.None?
      {
        var id := Pick(todo);
        if definitions[id].workflow == workflow && definitions[id].isCurrent {
          current := Some(id);
        }
        todo := todo - {id};
      }
      var context := if initialContext != map[] then initialContext else workflows[workflow].templateVariables;
      run := Some(NewRun(workflow, current, context));
    }

    method UpdateDefinitionNodeSummaries(id: int, summaries: Object)
      requires Inv(Now())
      modifies this
      ensures Now() == Step(old(Now()), Summarize(id, summaries)) && Inv(Now())
      ensures workflows == old(workflows) && definitions.Keys == old(definitions).Keys
      ensures forall d :: d in definitions && d != id ==> definitions[d] == old(definitions)[d]
      ensures id in definitions ==>
                definitions[id] == old(definitions)[id].(
                  json := old(definitions)[id].json["node_summaries" := Obj(summaries)])
    {
      StepKeepsInv(Now(), Summarize(id, summaries));
      if id !in definitions {
        return;
      }
      var json := definitions[id].json[SUMMARIES := Obj(summaries)];
      definitions := definitions[id := definitions[id].(json := json)];
    }
  }
}
