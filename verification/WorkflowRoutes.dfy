/** Saving a workflow through the API (api/routes/workflow.py, `update_workflow`): the version store
    first, then the trigger index. */
module WorkflowRoutes {
  import opened Wrappers
  import opened Json
  import WorkflowVersions
  import Triggers

  datatype Answer = Ok | NotFound | ServerError

  /** The database calls that raise something other than not finding the workflow. */
  datatype Failing = Failing(store: bool, index: bool)

  /** `edit` holds the definition after masked keys were restored. A definition whose triggers cannot be
      read or indexed is stored all the same, and only then fails the request. */
  method UpdateWorkflow(versions: WorkflowVersions.WorkflowClient, triggers: Triggers.TriggerClient,
                        id: int, edit: WorkflowVersions.Edit, organization: int, failing: Failing)
    returns (answer: Answer)
    requires WorkflowVersions.Inv(versions.Now())
    modifies versions, triggers
    ensures WorkflowVersions.Inv(versions.Now())
    ensures var update := WorkflowVersions.Update(id, edit, 0, organization);
            versions.Now() == if failing.store then old(versions.Now())
              else WorkflowVersions.Step(old(versions.Now()), update)
    ensures answer == NotFound <==>
            && !failing.store
            && !(id in old(versions.workflows)
                 && (organization != 0 ==> old(versions.workflows)[id].organization == Some(organization)))
    ensures answer == NotFound ==> versions.Now() == old(versions.Now()) && triggers.index == old(triggers.index)
    ensures answer == ServerError <==>
            && answer != NotFound
            && (|| failing.store
                || (edit.content.Some? && edit.content.value != map[]
                    && (failing.index || Triggers.IndexPaths(edit.content.value).None?)))
    ensures answer == Ok && edit.content.Some? && edit.content.value != map[] ==>
              && id in versions.workflows && Triggers.IndexPaths(versions.workflows[id].legacy).Some?
              && var paths := Triggers.ToSet(Triggers.IndexPaths(versions.workflows[id].legacy).value);
                 && Triggers.ActiveOf(triggers.index, id) == paths
                 && triggers.index == Triggers.Synced(old(triggers.index), id, organization, paths)
    ensures answer != Ok || edit.content.GetOr(map[]) == map[] ==> triggers.index == old(triggers.index)
  {
    if failing.store {
      return ServerError;
    }
    var found := versions.UpdateWorkflow(id, edit, 0, organization);
    if !found {
      return NotFound;
    }
    if !(edit.content.Some? && edit.content.value != map[]) {
      return Ok;
    }
    var paths := Triggers.ExtractTriggerPaths(edit.content.value);
    if paths.None? {
      return ServerError;
    }
    ghost var before := triggers.index;
    var raised := triggers.SyncTriggersForWorkflow(id, organization, paths.value, failing.index);
    if raised {
      return ServerError;
    }
    Triggers.SyncAgreesWithDefinition(before, id, organization, Triggers.Strings(paths.value).value, id);
    return Ok;
  }
}
