/**
 `SELECT ... ORDER BY time LIMIT n FOR UPDATE SKIP LOCKED`, as the campaign queue and the callback
 scheduler use it. `due` maps each matching row that no other transaction has locked to its time.

 SQL assumptions, here and in every module: a locked row is seen at its latest committed version, the
 WHERE clause is rechecked on that version, and rows locked by others are skipped.
 */
module EarliestFirst {
  import opened Wrappers

  ghost predicate Distinct(ids: seq<int>) {
    forall i, j :: 0 <= i < j < |ids| ==> ids[i] != ids[j]
  }

  ghost function Elements(ids: seq<int>): set<int> {
    set id | id in ids
  }

  /** `picked` is a possible result: as many rows as there are up to the limit, in time order, and
      no row left behind is earlier than a row taken. */
  ghost predicate IsSelection(due: map<int, int>, picked: seq<int>, limit: nat) {
    && Distinct(picked)
    && Elements(picked) <= due.Keys
    && |picked| == (if limit <= |due| then limit else |due|)
    && (forall i, j :: 0 <= i < j < |picked| ==> due[picked[i]] <= due[picked[j]])
    && (forall i, id :: 0 <= i < |picked| && id in due && id !in picked ==> due[picked[i]] <= due[id])
  }

  lemma {:induction false} DistinctCardinality(ids: seq<int>)
    requires Distinct(ids)
    ensures |Elements(ids)| == |ids|
  {
    if ids != [] {
      var front, last := ids[..|ids| - 1], ids[|ids| - 1];
      DistinctCardinality(front);
      assert Elements(ids) == Elements(front) + {last};
    }
  }

  /** A selection that stays below its limit has taken every matching row. */
  lemma ShortSelectionTakesAll(due: map<int, int>, picked: seq<int>, limit: nat)
    requires IsSelection(due, picked, limit) && |picked| < limit
    ensures Elements(picked) == due.Keys
  {
    DistinctCardinality(picked);
    assert |due.Keys| == |due|;
    SubsetCardinality(Elements(picked), due.Keys);
  }

  method Earliest(due: map<int, int>) returns (first: int)
    requires due != map[]
    ensures first in due
    ensures forall id :: id in due ==> due[first] <= due[id]
  {
    var todo := due.Keys;
    first := Pick(todo);
    while todo != {}
      invariant todo <= due.Keys && first in due
      invariant forall id :: id in due && id !in todo ==> due[first] <= due[id]
      decreases todo
    {
      var id := Pick(todo);
      if due[id] <= due[first] {
        first := id;
      }
      todo := todo - {id};
    }
  }

  method Select(due: map<int, int>, limit: nat) returns (picked: seq<int>)
    ensures IsSelection(due, picked, limit)
  {
    picked := [];
    var rest := due;
    while |picked| < limit && rest != map[]
      invariant Distinct(picked) && |picked| <= limit
      invariant rest == map id | id in due && id !in picked :: due[id]
      invariant Elements(picked) <= due.Keys && |picked| + |rest| == |due|
      invariant forall i, j :: 0 <= i < j < |picked| ==> due[picked[i]] <= due[picked[j]]
      invariant forall i, id :: 0 <= i < |picked| && id in rest ==> due[picked[i]] <= due[id]
    {
      var first := Earliest(rest);
      var left := rest - {first};
      assert left.Keys == rest.Keys - {first};
      assert |left.Keys| == |rest.Keys| - 1;
      picked := picked + [first];
      rest := left;
    }
  }
}
