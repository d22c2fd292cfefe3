/**
 Deleting a campaign (api/db/campaign_client.py, `delete_campaign`) from a table graph in which only
 the key from queued run to campaign cascades: references are nulled first, then rows go one by one. Every statement's
 outcome is kept in `trail`, so that validity is claimed of each intermediate step.
 */
module CampaignDeletion {
  import opened Wrappers
  import opened CampaignQueue

  datatype WorkflowRun = WorkflowRun(campaign: Option<int>, queuedRun: Option<int>)

  /** `campaigns` maps each campaign to its organization. */
  datatype Tables = Tables(campaigns: map<int, int>, queued: map<int, QueuedRun>, runs: map<int, WorkflowRun>)

  /** The four foreign keys among campaigns, queued runs and workflow runs. */
  ghost predicate ReferencesValid(t: Tables) {
    && (forall r :: r in t.runs && t.runs[r].campaign.Some? ==> t.runs[r].campaign.value in t.campaigns)
    && (forall r :: r in t.runs && t.runs[r].queuedRun.Some? ==> t.runs[r].queuedRun.value in t.queued)
    && (forall q :: q in t.queued && t.queued[q].parent.Some? ==> t.queued[q].parent.value in t.queued)
    && (forall q :: q in t.queued ==> t.queued[q].campaign in t.campaigns)
  }

  function QueuedOf(t: Tables, campaign: int): set<int> {
    set q | q in t.queued && t.queued[q].campaign == campaign
  }

  function RunsOf(t: Tables, campaign: int): set<int> {
    set r | r in t.runs && t.runs[r].campaign == Some(campaign)
  }

  function Without(reference: Option<int>, gone: set<int>): Option<int> {
    if reference.Some? && reference.value in gone then None else reference
  }

  function DetachRuns(t: Tables, runs: set<int>): Tables {
    t.(runs := map r | r in t.runs :: if r in runs then t.runs[r].(campaign := None) else t.runs[r])
  }

  function ClearQueuedReferences(t: Tables, gone: set<int>): Tables {
    t.(runs := map r | r in t.runs :: t.runs[r].(queuedRun := Without(t.runs[r].queuedRun, gone)))
  }

  function ClearParents(t: Tables, gone: set<int>): Tables {
    t.(queued := map q | q in t.queued :: t.queued[q].(parent := Without(t.queued[q].parent, gone)))
  }

  function DropQueued(t: Tables, gone: set<int>): Tables {
    t.(queued := map q | q in t.queued && q !in gone :: t.queued[q])
  }

  function DropCampaign(t: Tables, campaign: int): Tables {
    t.(campaigns := t.campaigns - {campaign})
  }

  /** A queued row may be dropped alone exactly when nothing that stays refers to it. */
  lemma DropIsSafeIffUnreferenced(t: Tables, id: int)
    requires ReferencesValid(t) && id in t.queued
    ensures ReferencesValid(DropQueued(t, {id})) <==>
            && (forall r :: r in t.runs ==> t.runs[r].queuedRun != Some(id))
            && (forall q :: q in t.queued && q != id ==> t.queued[q].parent != Some(id))
  {
    var d := DropQueued(t, {id});
    if ReferencesValid(d) {
      forall r | r in t.runs ensures t.runs[r].queuedRun != Some(id) {
        assert r in d.runs;
      }
      forall q | q in t.queued && q != id ensures t.queued[q].parent != Some(id) {
        assert q in d.queued;
      }
    }
  }

  /** What deletion may do to the rows of everybody else: null references into the deleted set. */
  ghost predicate OthersKept(before: Tables, after: Tables, campaign: int) {
    var gone := QueuedOf(before, campaign);
    && after.runs.Keys == before.runs.Keys
    && after.queued.Keys == before.queued.Keys - gone
    && after.campaigns == before.campaigns - {campaign}
    && (forall q :: q in after.queued ==>
          after.queued[q] == before.queued[q].(parent := Without(before.queued[q].parent, gone)))
    && (forall r :: r in after.runs ==>
          after.runs[r] == WorkflowRun(Without(before.runs[r].campaign, {campaign}),
            Without(before.runs[r].queuedRun, gone)))
  }

  /** Deletions of different campaigns commute, so their order is not observable. */
  lemma DeletionsCommute(t: Tables, a: int, b: int, ta: Tables, tab: Tables, tb: Tables, tba: Tables)
    requires a != b
    requires OthersKept(t, ta, a) && OthersKept(ta, tab, b)
    requires OthersKept(t, tb, b) && OthersKept(tb, tba, a)
    ensures tab == tba
  {
    assert QueuedOf(ta, b) == QueuedOf(t, b) by {
      assert forall q :: q in QueuedOf(ta, b) <==> q in QueuedOf(t, b);
    }
    assert QueuedOf(tb, a) == QueuedOf(t, a) by {
      assert forall q :: q in QueuedOf(tb, a) <==> q in QueuedOf(t, a);
    }
    var ga, gb := QueuedOf(t, a), QueuedOf(t, b);
    assert tab.queued.Keys == tba.queued.Keys == t.queued.Keys - ga - gb;
    forall q | q in tab.queued ensures tab.queued[q] == tba.queued[q] {
      assert tab.queued[q] == ta.queued[q].(parent := Without(ta.queued[q].parent, gb));
      assert tba.queued[q] == tb.queued[q].(parent := Without(tb.queued[q].parent, ga));
    }
    assert tab.runs.Keys == tba.runs.Keys;
    forall r | r in tab.runs ensures tab.runs[r] == tba.runs[r] {
      assert r in ta.runs && r in tb.runs;
    }
    assert tab.campaigns == tba.campaigns;
  }

  /** Without queued rows of the campaign there is nothing to clear. */
  lemma ClearingNothing(t: Tables)
    ensures ClearParents(ClearQueuedReferences(t, {}), {}) == t
  {
    forall r | r in t.runs ensures ClearQueuedReferences(t, {}).runs[r] == t.runs[r] {
      assert t.runs[r].(queuedRun := t.runs[r].queuedRun) == t.runs[r];
    }
    assert ClearQueuedReferences(t, {}).runs == t.runs;
    forall q | q in t.queued ensures ClearParents(t, {}).queued[q] == t.queued[q] {
      assert t.queued[q].(parent := t.queued[q].parent) == t.queued[q];
    }
    assert ClearParents(t, {}).queued == t.queued;
  }

  lemma DetachedAndCleared(t: Tables, campaign: int)
    requires ReferencesValid(t)
    ensures var gone := QueuedOf(t, campaign);
            var detached := DetachRuns(t, RunsOf(t, campaign));
            var cleared := ClearParents(ClearQueuedReferences(detached, gone), gone);
            && QueuedOf(detached, campaign) == gone
            && OthersKept(t, DropCampaign(DropQueued(cleared, gone), campaign), campaign)
            && ReferencesValid(DropCampaign(DropQueued(cleared, gone), campaign))
  {
  }

  ghost predicate OfCampaign(t: Tables, q: int, campaign: int) {
    q in t.queued && t.queued[q].campaign == campaign
  }

  class CampaignStore {
    var tables: Tables
    ghost var trail: seq<Tables>

    ghost predicate Valid()
      reads this
    {
      ReferencesValid(tables)
    }

    /** Everything recorded since `mark` satisfies the foreign keys. */
    ghost predicate TrailValid(mark: nat)
      reads this
    {
      mark <= |trail| && forall i :: mark <= i < |trail| ==> ReferencesValid(trail[i])
    }

    /** Returns false, changing nothing, when the organization has no such campaign. */
    method DeleteCampaign(campaign: int, organization: int) returns (found: bool)
      requires Valid()
      modifies this
      ensures found <==> campaign in old(tables).campaigns && old(tables).campaigns[campaign] == organization
      ensures !found ==> tables == old(tables) && trail == old(trail)
      ensures found ==> OthersKept(old(tables), tables, campaign) && trail != [] && trail[|trail| - 1] == tables
      ensures Valid() && old(trail) <= trail && TrailValid(|old(trail)|)
      ensures found ==>
                && tables.campaigns == old(tables).campaigns - {campaign}
                && (forall q :: q in tables.queued <==>
                     q in old(tables).queued && old(tables).queued[q].campaign != campaign)
                && tables.runs.Keys == old(tables).runs.Keys
                && (forall r :: r in tables.runs ==>
                      var run := old(tables).runs[r];
                      && (tables.runs[r].campaign == if run.campaign == Some(campaign) then None else run.campaign)
                      && (tables.runs[r].queuedRun ==
                          if run.queuedRun.Some? && OfCampaign(old(tables), run.queuedRun.value, campaign) then None
                          else run.queuedRun))
                && (forall q :: q in tables.queued ==>
                      var row := old(tables).queued[q];
                      tables.queued[q] == row.(parent :=
                        if row.parent.Some? && OfCampaign(old(tables), row.parent.value, campaign) then None
                          else row.parent))
    {
      if !(campaign in tables.campaigns && tables.campaigns[campaign] == organization) {
        return false;
      }
      found := true;
      var gone := QueuedOf(tables, campaign);
      DetachedAndCleared(tables, campaign);
      DetachAll(campaign);
      ClearingNothing(tables);
      if gone != {} {
        ClearReferences(gone);
      }
      DropAll(gone);
      tables := DropCampaign(tables, campaign);
      trail := trail + [tables];
    }

    /** Nulls `campaign_id` run by run. */
    method DetachAll(campaign: int)
      requires Valid()
      modifies this
      ensures tables == DetachRuns(old(tables), RunsOf(old(tables), campaign))
      ensures Valid() && old(trail) <= trail && TrailValid(|old(trail)|)
    {
      var todo := RunsOf(tables, campaign);
      ghost var all := todo;
      while todo != {}
        invariant todo <= all
        invariant tables == DetachRuns(old(tables), all - todo)
        invariant Valid() && old(trail) <= trail && TrailValid(|old(trail)|)
        decreases todo
      {
        var r := Pick(todo);
        todo := todo - {r};
        tables := tables.(runs := tables.runs[r := tables.runs[r].(campaign := None)]);
        trail := trail + [tables];
      }
    }

    method ClearReferences(gone: set<int>)
      requires Valid()
      modifies this
      ensures tables == ClearParents(ClearQueuedReferences(old(tables), gone), gone)
      ensures Valid() && old(trail) <= trail && TrailValid(|old(trail)|)
    {
      tables := ClearQueuedReferences(tables, gone);
      trail := trail + [tables];
      tables := ClearParents(tables, gone);
      trail := trail + [tables];
    }

    /** Deletes the rows one at a time, in any order; nothing may refer to any of them. */
    method DropAll(gone: set<int>)
      requires Valid()
      requires forall r :: r in tables.runs && tables.runs[r].queuedRun.Some? ==>
          tables.runs[r].queuedRun.value !in gone
      requires forall q :: q in tables.queued && tables.queued[q].parent.Some? ==>
          tables.queued[q].parent.value !in gone
      modifies this
      ensures tables == DropQueued(old(tables), gone)
      ensures Valid() && old(trail) <= trail && TrailValid(|old(trail)|)
    {
      var todo := gone;
      while todo != {}
        invariant todo <= gone
        invariant tables == DropQueued(old(tables), gone - todo)
        invariant Valid() && old(trail) <= trail && TrailValid(|old(trail)|)
        decreases todo
      {
        var q := Pick(todo);
        todo := todo - {q};
        tables := tables.(queued := tables.queued - {q});
        trail := trail + [tables];
      }
    }
  }
}
