/**
 The trigger index (api/db/agent_trigger_client.py) and what feeds it: the trigger paths of a workflow
 definition and their regeneration (api/routes/workflow.py).
 */
module Triggers {
  import opened Wrappers
  import opened Json

  datatype TriggerState = Active | Archived

  datatype Trigger = Trigger(workflow: int, organization: int, state: TriggerState)

  /** One row per path: the path is unique. */
  type Index = map<string, Trigger>

  // ---------- Trigger paths of a definition ----------

  predicate IsTriggerNode(node: Json) {
    node.Obj? && Get(node.fields, "type") == Str("trigger")
  }

  /** What a trigger node gives as its path, of whatever JSON type; None when reading it raises. */
  function PathOf(node: Json): Option<Json>
    requires IsTriggerNode(node)
  {
    if "data" !in node.fields then Some(Null)
    else match node.fields["data"]
         case Obj(data) => Some(Get(data, "trigger_path"))
         case _ => None
  }

  /** The truthy trigger paths in node order; None when some node cannot be read. */
  function NodePaths(nodes: seq<Json>): Option<seq<Json>> {
    if nodes == [] then Some([])
    else
      var node := nodes[|nodes| - 1];
      var front := NodePaths(nodes[..|nodes| - 1]);
      if front.None? || !node.Obj? then None
      else if !IsTriggerNode(node) then front
      else if PathOf(node).None? then None
      else if !Truthy(PathOf(node).value) then front
      else Some(front.value + [PathOf(node).value])
  }

  /** What iterating over the nodes visits: an empty object or string has none, like a missing entry, and
      the keys or characters of a nonempty one cannot be read as nodes. */
  function NodesOf(definition: Object): Option<seq<Json>> {
    if "nodes" !in definition then Some([])
    else match definition["nodes"]
         case Arr(nodes) => Some(nodes)
         case Obj(fields) => if fields == map[] then Some([]) else None
         case Str(text) => if text == "" then Some([]) else None
         case _ => None
  }

  function TriggerPaths(definition: Object): Option<seq<Json>> {
    if NodesOf(definition).None? then None else NodePaths(NodesOf(definition).value)
  }

  /** The paths as stored in the index; None when one is not a string, which the database refuses. */
  function Strings(paths: seq<Json>): Option<seq<string>> {
    if paths == [] then Some([])
    else
      var front := Strings(paths[..|paths| - 1]);
      match paths[|paths| - 1]
      case Str(path) => if front.None? then None else Some(front.value + [path])
      case _ => None
  }

  /** The paths a definition gives the index; None when extraction or storing them raises. */
  function IndexPaths(definition: Object): Option<seq<string>> {
    if TriggerPaths(definition).None? then None else Strings(TriggerPaths(definition).value)
  }

  /** The node is of type "trigger" and this is the value, not falsy, under "trigger_path" in its "data". */
  predicate GivesPath(node: Json, path: Json) {
    && node.Obj? && "type" in node.fields && node.fields["type"] == Str("trigger")
    && "data" in node.fields && node.fields["data"].Obj?
    && "trigger_path" in node.fields["data"].fields && node.fields["data"].fields["trigger_path"] == path
    && path !in {Null, Bool(false), Num(0), Str(""), Arr([]), Obj(map[])}
  }

  /** Reading this node raises: it is no object, or its data is none. */
  predicate Unreadable(node: Json) {
    || !node.Obj?
    || ("type" in node.fields && node.fields["type"] == Str("trigger") && "data" in node.fields
        && !node.fields["data"].Obj?)
  }

  /** Nodes that can all be read give exactly the paths of their trigger nodes. */
  lemma {:induction false} NodePathsAreThePathsGiven(nodes: seq<Json>, path: Json)
    ensures NodePaths(nodes).None? <==> exists k :: 0 <= k < |nodes| && Unreadable(nodes[k])
    ensures NodePaths(nodes).Some? ==>
              (path in NodePaths(nodes).value <==> exists k :: 0 <= k < |nodes| && GivesPath(nodes[k], path))
    decreases |nodes|
  {
    if nodes != [] {
      var front, n := nodes[..|nodes| - 1], |nodes| - 1;
      NodePathsAreThePathsGiven(front, path);
      assert forall k :: 0 <= k < n ==> front[k] == nodes[k];
      OneNode(nodes[n], path);
      if k :| 0 <= k < n && Unreadable(front[k]) {
        assert Unreadable(nodes[k]);
      }
      if k :| 0 <= k < n && GivesPath(front[k], path) {
        assert GivesPath(nodes[k], path);
      }
    }
  }

  lemma OneNode(node: Json, path: Json)
    ensures Unreadable(node) <==> !node.Obj? || (IsTriggerNode(node) && PathOf(node).None?)
    ensures !Unreadable(node) ==>
              (GivesPath(node, path) <==> IsTriggerNode(node) && PathOf(node).value == path && Truthy(path))
  {
  }

  /** The same for definitions, where a missing or empty node list gives none. */
  lemma PathsAreThePathsGiven(definition: Object, path: Json)
    ensures "nodes" in definition && definition["nodes"].Arr? ==>
              var nodes := definition["nodes"].items;
              && (TriggerPaths(definition).None? <==> exists k :: 0 <= k < |nodes| && Unreadable(nodes[k]))
              && (TriggerPaths(definition).Some? ==>
                    (path in TriggerPaths(definition).value <==>
                      exists k :: 0 <= k < |nodes| && GivesPath(nodes[k], path)))
    ensures "nodes" !in definition || definition["nodes"] in {Obj(map[]), Str("")} ==>
        TriggerPaths(definition) == Some([])
    ensures "nodes" in definition && !definition["nodes"].Arr? && definition["nodes"] !in {Obj(map[]), Str("")} ==>
              TriggerPaths(definition) == None
  {
    if "nodes" in definition && definition["nodes"].Arr? {
      NodePathsAreThePathsGiven(definition["nodes"].items, path);
    }
  }

  /** Paths are stored if and only if all are strings, and then as they are. */
  lemma {:induction false} StringsAreThePaths(paths: seq<Json>)
    ensures Strings(paths).Some? <==> forall k :: 0 <= k < |paths| ==> paths[k].Str?
    ensures Strings(paths).Some? ==> AsJson(Strings(paths).value) == paths
    decreases |paths|
  {
    if paths != [] {
      var n := |paths| - 1;
      StringsAreThePaths(paths[..n]);
      assert forall k :: 0 <= k < n ==> paths[..n][k] == paths[k];
      if Strings(paths).Some? {
        assert AsJson(Strings(paths).value) == AsJson(Strings(paths[..n]).value) + [paths[n]];
      }
    }
  }

  function AsJson(paths: seq<string>): seq<Json> {
    seq(|paths|, k requires 0 <= k < |paths| => Str(paths[k]))
  }

  lemma {:induction false} StringsOfJson(paths: seq<string>)
    ensures Strings(AsJson(paths)) == Some(paths)
    decreases |paths|
  {
    if paths != [] {
      var front := paths[..|paths| - 1];
      StringsOfJson(front);
      assert AsJson(paths)[..|paths| - 1] == AsJson(front);
      assert front + [paths[|paths| - 1]] == paths;
    }
  }

  method ExtractTriggerPaths(definition: Object) returns (paths: Option<seq<Json>>)
    ensures paths == TriggerPaths(definition)
  {
    if NodesOf(definition).None? {
      return None;
    }
    var nodes := NodesOf(definition).value;
    var triggerPaths: seq<Json> := [];
    for i := 0 to |nodes|
      invariant NodePaths(nodes[..i]) == Some(triggerPaths)
    {
      assert nodes[..i + 1][..i] == nodes[..i];
      if !nodes[i].Obj? || (IsTriggerNode(nodes[i]) && PathOf(nodes[i]).None?) {
        UnreadableNode(nodes, i);
        return None;
      }
      if IsTriggerNode(nodes[i]) && Truthy(PathOf(nodes[i]).value) {
        triggerPaths := triggerPaths + [PathOf(nodes[i]).value];
      }
    }
    assert nodes[..|nodes|] == nodes;
    return Some(triggerPaths);
  }

  lemma {:induction false} UnreadableNode(nodes: seq<Json>, i: int)
    requires 0 <= i < |nodes|
    requires !nodes[i].Obj? || (IsTriggerNode(nodes[i]) && PathOf(nodes[i]).None?)
    ensures NodePaths(nodes).None?
    decreases |nodes|
  {
    if i < |nodes| - 1 {
      UnreadableNode(nodes[..|nodes| - 1], i);
    }
  }

  // ---------- Synchronising the index ----------

  function ToSet(paths: seq<string>): set<string> {
    set p | p in paths
  }

  function PathsOf(index: Index, workflow: int): set<string> {
    set p | p in index && index[p].workflow == workflow
  }

  function ActiveOf(index: Index, workflow: int): set<string> {
    set p | p in index && index[p].workflow == workflow && index[p].state == Active
  }

  /** The index after a sync: named paths belong to the workflow and are active, its other paths are
      archived, and the rest is as before. A path it already owned keeps its organization. */
  function Synced(index: Index, workflow: int, organization: int, paths: set<string>): Index {
    map p | p in index.Keys + paths ::
      if p in paths then
        if p in index && index[p].workflow == workflow then index[p].(state := Active)
        else Trigger(workflow, organization, Active)
      else if index[p].workflow == workflow then index[p].(state := Archived)
      else index[p]
  }

  /** After a sync the active triggers of the workflow are exactly the named paths; other workflows lose
      only named paths, and only those they had; and syncing again changes nothing. */
  lemma SyncAgreesWithDefinition(index: Index, workflow: int, organization: int, paths: seq<string>, other: int)
    ensures var after := Synced(index, workflow, organization, ToSet(paths));
            && (forall p :: p in after && after[p].workflow == workflow && after[p].state == Active <==> p in paths)
            && (forall p :: p in paths ==>
                  after[p].organization ==
                  if p in index && index[p].workflow == workflow then index[p].organization else organization)
            && (forall p :: p in index && p !in paths ==>
                  && p in after
                  && after[p] == if index[p].workflow == workflow then index[p].(state := Archived) else index[p])
            && ActiveOf(after, workflow) == ToSet(paths)
            && PathsOf(after, workflow) == PathsOf(index, workflow) + ToSet(paths)
            && (other != workflow ==>
                  && ActiveOf(after, other) == ActiveOf(index, other) - ToSet(paths)
                  && PathsOf(after, other) == PathsOf(index, other) - ToSet(paths))
            && Synced(after, workflow, organization, ToSet(paths)) == after
  {
    var after := Synced(index, workflow, organization, ToSet(paths));
    assert ActiveOf(after, workflow) == ToSet(paths);
    assert PathsOf(after, workflow) == PathsOf(index, workflow) + ToSet(paths);
    if other != workflow {
      assert ActiveOf(after, other) == ActiveOf(index, other) - ToSet(paths);
      assert PathsOf(after, other) == PathsOf(index, other) - ToSet(paths);
    }
    var again := Synced(after, workflow, organization, ToSet(paths));
    assert again.Keys == after.Keys;
    forall p | p in again ensures again[p] == after[p] {
    }
  }

  /** Archiving and reactivating the workflow's own rows. */
  function Settled(index: Index, workflow: int, paths: set<string>): Index {
    map p | p in index ::
      if index[p].workflow == workflow then index[p].(state := if p in paths then Active else Archived) else index[p]
  }

  lemma SettledThenAdded(index: Index, workflow: int, organization: int, paths: set<string>)
    ensures var added := map p | p in paths - PathsOf(index, workflow) :: Trigger(workflow, organization, Active);
            Settled(index, workflow, paths) + added == Synced(index, workflow, organization, paths)
  {
  }

  class TriggerClient {
    var index: Index

    /** Raises, and rolls back, when a path is not a string or the database fails. */
    method SyncTriggersForWorkflow(workflow: int, organization: int, triggerPaths: seq<Json>, fails: bool)
      returns (raised: bool)
      modifies this
      ensures raised <==> fails || Strings(triggerPaths).None?
      ensures raised ==> index == old(index)
      ensures !raised ==> index == Synced(old(index), workflow, organization, ToSet(Strings(triggerPaths).value))
    {
      if fails || Strings(triggerPaths).None? {
        return true;
      }
      var existing := PathsOf(index, workflow);
      var named := ToSet(Strings(triggerPaths).value);
      SettledThenAdded(index, workflow, organization, named);
      ArchiveAndReactivate(workflow, existing - named, named * existing, named);
      AddPaths(workflow, organization, named - existing);
      return false;
    }

    /** Archives the paths no longer named and reactivates archived ones that are named again. */
    method ArchiveAndReactivate(workflow: int, toArchive: set<string>, toReactivate: set<string>,
        ghost named: set<string>)
      requires toArchive == PathsOf(index, workflow) - named && toReactivate == named * PathsOf(index, workflow)
      modifies this
      ensures index == Settled(old(index), workflow, named)
    {
      if toArchive != {} {
        index := map p | p in index :: if p in toArchive then index[p].(state := Archived) else index[p];
      }
      assert forall p :: p in index ==>
        index[p] == if p in toArchive then old(index)[p].(state := Archived) else old(index)[p];
      if toReactivate != {} {
        index := map p | p in index ::
          if p in toReactivate && index[p].state == Archived then index[p].(state := Active) else index[p];
      }
      forall p | p in index ensures index[p] == Settled(old(index), workflow, named)[p] {
        assert old(index)[p].workflow == workflow <==> p in toArchive || p in toReactivate;
      }
    }

    /** Inserts each path, taking the row over when another workflow has it. */
    method AddPaths(workflow: int, organization: int, paths: set<string>)
      modifies this
      ensures index == old(index) + map p | p in paths :: Trigger(workflow, organization, Active)
    {
      var toAdd := paths;
      while toAdd != {}
        invariant toAdd <= paths
        invariant index == old(index) + map p | p in paths - toAdd :: Trigger(workflow, organization, Active)
        decreases toAdd
      {
        var path := Pick(toAdd);
        toAdd := toAdd - {path};
        index := index[path := Trigger(workflow, organization, Active)];
      }
    }
  }

  // ---------- Any sequence of saves ----------

  /** A workflow saved with a definition; an empty definition saves nothing, and one whose triggers
      cannot be read or stored is saved without reaching the index. */
  datatype Save = Save(workflow: int, organization: int, definition: Object)

  predicate ReachesIndex(save: Save) {
    save.definition != map[] && IndexPaths(save.definition).Some?
  }

  function SavedPaths(save: Save): set<string>
    requires ReachesIndex(save)
  {
    ToSet(IndexPaths(save.definition).value)
  }

  function IndexAfter(saves: seq<Save>): Index {
    if saves == [] then map[]
    else
      var before, last := IndexAfter(saves[..|saves| - 1]), saves[|saves| - 1];
      if ReachesIndex(last) then Synced(before, last.workflow, last.organization, SavedPaths(last)) else before
  }

  /** The paths of the workflow's latest definition that reached the index. */
  ghost function LatestPaths(saves: seq<Save>, workflow: int): set<string> {
    if saves == [] then {}
    else
      var last := saves[|saves| - 1];
      if last.workflow == workflow && ReachesIndex(last) then SavedPaths(last)
      else LatestPaths(saves[..|saves| - 1], workflow)
  }

  /** The paths other workflows have named since. */
  ghost function TakenSince(saves: seq<Save>, workflow: int): set<string> {
    if saves == [] then {}
    else
      var last, before := saves[|saves| - 1], TakenSince(saves[..|saves| - 1], workflow);
      if !ReachesIndex(last) then before
      else if last.workflow == workflow then {}
      else before + SavedPaths(last)
  }

  /** After any sequence of saves, a workflow's active triggers are exactly the paths of its latest
      definition that no other workflow has named since. */
  lemma {:induction false} IndexLaw(saves: seq<Save>, workflow: int)
    ensures ActiveOf(IndexAfter(saves), workflow) == LatestPaths(saves, workflow) - TakenSince(saves, workflow)
    decreases |saves|
  {
    if saves == [] {
      assert ActiveOf(map[], workflow) == {};
    } else {
      var front, last := saves[..|saves| - 1], saves[|saves| - 1];
      IndexLaw(front, workflow);
      if ReachesIndex(last) {
        SyncAgreesWithDefinition(IndexAfter(front), last.workflow, last.organization,
                                 IndexPaths(last.definition).value, workflow);
      }
    }
  }

  ghost predicate NoSharedPaths(saves: seq<Save>) {
    forall i, j :: (0 <= i < |saves| && 0 <= j < |saves| && ReachesIndex(saves[i]) && ReachesIndex(saves[j])
                    && saves[i].workflow != saves[j].workflow) ==> SavedPaths(saves[i]) !! SavedPaths(saves[j])
  }

  lemma {:induction false} LatestIsSaved(saves: seq<Save>, workflow: int)
    ensures LatestPaths(saves, workflow) != {} ==>
              exists i :: 0 <= i < |saves| && ReachesIndex(saves[i]) && saves[i].workflow == workflow
                && LatestPaths(saves, workflow) == SavedPaths(saves[i])
    decreases |saves|
  {
    if saves != [] {
      LatestIsSaved(saves[..|saves| - 1], workflow);
    }
  }

  /** When workflows never share a path, as with regenerated ones, every index entry agrees with the
      latest definition of its workflow. */
  lemma {:induction false} IndexAgreesWhenPathsAreNotShared(saves: seq<Save>, workflow: int)
    requires NoSharedPaths(saves)
    ensures ActiveOf(IndexAfter(saves), workflow) == LatestPaths(saves, workflow)
    decreases |saves|
  {
    if saves == [] {
      assert ActiveOf(map[], workflow) == {};
    } else {
      var front, last := saves[..|saves| - 1], saves[|saves| - 1];
      IndexAgreesWhenPathsAreNotShared(front, workflow);
      LatestIsSaved(front, workflow);
      if ReachesIndex(last) {
        SyncAgreesWithDefinition(IndexAfter(front), last.workflow, last.organization,
                                 IndexPaths(last.definition).value, workflow);
      }
    }
  }

  // ---------- Regenerating trigger paths ----------

  function TriggerCount(nodes: seq<Json>): nat {
    if nodes == [] then 0
    else TriggerCount(nodes[..|nodes| - 1]) + if IsTriggerNode(nodes[|nodes| - 1]) then 1 else 0
  }

  function DataOf(node: Json): Option<Object>
    requires node.Obj?
  {
    if "data" !in node.fields then Some(map[])
    else match node.fields["data"]
         case Obj(data) => Some(data)
         case _ => None
  }

  function WithPath(node: Json, path: string): Json
    requires node.Obj? && DataOf(node).Some?
  {
    Obj(node.fields["data" := Obj(DataOf(node).value["trigger_path" := Str(path)])])
  }

  /** Each trigger node gets the next fresh path; None when some node cannot be rewritten. */
  function Regenerated(nodes: seq<Json>, uuids: seq<string>): Option<seq<Json>>
    requires TriggerCount(nodes) <= |uuids|
  {
    if nodes == [] then Some([])
    else
      var last, rest := nodes[|nodes| - 1], nodes[..|nodes| - 1];
      var front := Regenerated(rest, uuids);
      if front.None? || !last.Obj? then None
      else if !IsTriggerNode(last) then Some(front.value + [last])
      else if DataOf(last).None? then None
      else Some(front.value + [WithPath(last, uuids[TriggerCount(rest)])])
  }

  lemma PathIsReadBack(node: Json, path: string)
    requires IsTriggerNode(node) && DataOf(node).Some?
    ensures IsTriggerNode(WithPath(node, path)) && PathOf(WithPath(node, path)) == Some(Str(path))
  {
    assert Get(WithPath(node, path).fields, "type") == Get(node.fields, "type");
  }

  lemma PathsOfRegeneratedNode(front: seq<Json>, paths: seq<Json>, node: Json, path: string)
    requires NodePaths(front) == Some(paths) && IsTriggerNode(node) && DataOf(node).Some? && path != ""
    ensures NodePaths(front + [WithPath(node, path)]) == Some(paths + [Str(path)])
  {
    PathIsReadBack(node, path);
    var nodes := front + [WithPath(node, path)];
    assert nodes[..|nodes| - 1] == front;
  }

  lemma PathsOfOtherNode(front: seq<Json>, node: Json)
    requires NodePaths(front).Some? && node.Obj? && !IsTriggerNode(node)
    ensures NodePaths(front + [node]) == NodePaths(front)
  {
    assert (front + [node])[..|front + [node]| - 1] == front;
  }

  /** The regenerated nodes carry exactly the fresh paths, in order. */
  lemma {:induction false} RegeneratedPaths(nodes: seq<Json>, uuids: seq<string>)
    requires TriggerCount(nodes) <= |uuids| && "" !in uuids
    requires Regenerated(nodes, uuids).Some?
    ensures NodePaths(Regenerated(nodes, uuids).value) == Some(AsJson(uuids[..TriggerCount(nodes)]))
    decreases |nodes|
  {
    if nodes != [] {
      var last, rest := nodes[|nodes| - 1], nodes[..|nodes| - 1];
      RegeneratedPaths(rest, uuids);
      var front, n := Regenerated(rest, uuids).value, TriggerCount(rest);
      if IsTriggerNode(last) {
        assert uuids[n] in uuids;
        PathsOfRegeneratedNode(front, AsJson(uuids[..n]), last, uuids[n]);
        assert AsJson(uuids[..n + 1]) == AsJson(uuids[..n]) + [Str(uuids[n])];
      } else {
        PathsOfOtherNode(front, last);
      }
    } else {
      assert AsJson(uuids[..0]) == [];
    }
  }

  /** Regenerating keeps every node but for the paths of its trigger nodes. */
  lemma {:induction false} RegeneratedKeepsTheRest(nodes: seq<Json>, uuids: seq<string>, i: int)
    requires TriggerCount(nodes) <= |uuids| && Regenerated(nodes, uuids).Some? && 0 <= i < |nodes|
    ensures var nodes' := Regenerated(nodes, uuids).value;
            && |nodes'| == |nodes| && nodes[i].Obj?
            && (!IsTriggerNode(nodes[i]) ==> nodes'[i] == nodes[i])
            && (IsTriggerNode(nodes[i]) ==>
                  DataOf(nodes[i]).Some? && exists p :: p in uuids && nodes'[i] == WithPath(nodes[i], p))
            && nodes'[i].Obj? && nodes'[i].fields - {"data"} == nodes[i].fields - {"data"}
            && (IsTriggerNode(nodes[i]) ==>
                  && "data" in nodes'[i].fields && nodes'[i].fields["data"].Obj?
                  && nodes'[i].fields["data"].fields - {"trigger_path"} ==
                     (if "data" in nodes[i].fields && nodes[i].fields["data"].Obj? then nodes[i].fields["data"].fields
                      else map[]) - {"trigger_path"})
    decreases |nodes|
  {
    var rest := nodes[..|nodes| - 1];
    if i < |rest| {
      RegeneratedKeepsTheRest(rest, uuids, i);
    } else {
      RegeneratedLength(rest, uuids);
      if IsTriggerNode(nodes[i]) {
        assert uuids[TriggerCount(rest)] in uuids;
      }
    }
  }

  lemma {:induction false} RegeneratedLength(nodes: seq<Json>, uuids: seq<string>)
    requires TriggerCount(nodes) <= |uuids| && Regenerated(nodes, uuids).Some?
    ensures |Regenerated(nodes, uuids).value| == |nodes|
    decreases |nodes|
  {
    if nodes != [] {
      RegeneratedLength(nodes[..|nodes| - 1], uuids);
    }
  }

  /** Syncing a definition with regenerated, hitherto unused paths leaves every row of every other
      workflow untouched. */
  lemma FreshPathsTouchNobody(index: Index, workflow: int, organization: int, nodes: seq<Json>, uuids: seq<string>,
      path: string)
    requires TriggerCount(nodes) <= |uuids| && "" !in uuids
    requires Regenerated(nodes, uuids).Some?
    requires forall p :: p in uuids ==> p !in index
    requires path in index && index[path].workflow != workflow
    ensures var paths := NodePaths(Regenerated(nodes, uuids).value);
            && paths.Some? && Strings(paths.value).Some?
            && var after := Synced(index, workflow, organization, ToSet(Strings(paths.value).value));
               path in after && after[path] == index[path]
  {
    RegeneratedPaths(nodes, uuids);
    StringsOfJson(uuids[..TriggerCount(nodes)]);
  }

  /** Rewrites the nodes of a copy in place, drawing one fresh path per trigger node. */
  method RegenerateTriggerUuids(nodes: seq<Json>, uuids: seq<string>) returns (copied: Option<seq<Json>>)
    requires TriggerCount(nodes) <= |uuids|
    ensures copied == Regenerated(nodes, uuids)
  {
    var updated := nodes;
    var drawn := 0;
    for i := 0 to |nodes|
      invariant |updated| == |nodes| && updated[i..] == nodes[i..]
      invariant drawn == TriggerCount(nodes[..i]) && TriggerCount(nodes[..i]) <= TriggerCount(nodes)
      invariant Regenerated(nodes[..i], uuids) == Some(updated[..i])
    {
      assert nodes[..i + 1][..i] == nodes[..i] && updated[i] == nodes[i];
      CountOfPrefix(nodes, i + 1);
      if !updated[i].Obj? || (IsTriggerNode(updated[i]) && DataOf(updated[i]).None?) {
        UnwritableNode(nodes, i, uuids);
        return None;
      }
      ghost var before := updated;
      if IsTriggerNode(updated[i]) {
        updated := updated[i := WithPath(updated[i], uuids[drawn])];
        drawn := drawn + 1;
      }
      assert updated[i + 1..] == before[i..][1..] == nodes[i + 1..];
      assert updated[..i + 1] == before[..i] + [updated[i]];
    }
    assert nodes[..|nodes|] == nodes && updated[..|nodes|] == updated;
    return Some(updated);
  }

  lemma {:induction false} CountOfPrefix(nodes: seq<Json>, i: int)
    requires 0 <= i <= |nodes|
    ensures TriggerCount(nodes[..i]) <= TriggerCount(nodes)
    decreases |nodes|
  {
    if i < |nodes| {
      CountOfPrefix(nodes[..|nodes| - 1], i);
      assert nodes[..|nodes| - 1][..i] == nodes[..i];
    } else {
      assert nodes[..i] == nodes;
    }
  }

  lemma {:induction false} UnwritableNode(nodes: seq<Json>, i: int, uuids: seq<string>)
    requires 0 <= i < |nodes| && TriggerCount(nodes) <= |uuids|
    requires !nodes[i].Obj? || (IsTriggerNode(nodes[i]) && DataOf(nodes[i]).None?)
    ensures Regenerated(nodes, uuids).None?
    decreases |nodes|
  {
    if i < |nodes| - 1 {
      UnwritableNode(nodes[..|nodes| - 1], i, uuids);
    }
  }
}
