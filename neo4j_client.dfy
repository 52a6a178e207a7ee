/** The query builder of `Neo4jClient.update_task`
    (`Backend/database/neo4j_client.py`): the loop that turns an update
    dict into `SET` clauses and query parameters, and the early return when
    nothing may be updated. Running the query is left to the driver. */
module Neo4jClient {
  import opened Wrappers
  import opened Seqs
  import opened Strings
  import opened Json

  /** Fields an update never touches. */
  const ProtectedKeys: seq<string> := ["id", "created_at"]

  predicate Permitted(e: Entry) {
    e.key !in ProtectedKeys
  }

  /** The clause `t.<key> = $<key>`. */
  function Clause(key: string): string {
    "t." + key + " = $" + key
  }

  function EntryClause(e: Entry): string {
    Clause(e.key)
  }

  /** Different keys give different clauses. */
  lemma ClauseInjective(k1: string, k2: string)
    requires Clause(k1) == Clause(k2)
    ensures k1 == k2
  {
    assert |k1| == |k2|;
    assert Clause(k1)[2..2 + |k1|] == k1;
    assert Clause(k2)[2..2 + |k2|] == k2;
  }

  /** `set_clauses` after the loop has seen `updates`. */
  function SetClauses(updates: seq<Entry>): seq<string>
    decreases |updates|
  {
    if updates == [] then []
    else
      var last := updates[|updates| - 1];
      SetClauses(updates[..|updates| - 1]) + (if Permitted(last) then [Clause(last.key)] else [])
  }

  /** `params` after the loop has seen `updates`: the task id first, then
      each permitted entry assigned in turn. */
  function UpdateParams(taskId: string, updates: seq<Entry>): seq<Entry>
    decreases |updates|
  {
    if updates == [] then [Entry("id", Str(taskId))]
    else
      var last := updates[|updates| - 1];
      var params := UpdateParams(taskId, updates[..|updates| - 1]);
      if Permitted(last) then Put(params, last.key, last.val) else params
  }

  /** The `SET` line: the clauses joined by ", ", then the update time. */
  function SetLine(clauses: seq<string>): string {
    "SET " + Join(clauses, ", ") + ", t.updated_at = datetime()"
  }

  const QueryHead: string := "\n            MATCH (t:Task {id: $id})\n            "
  const QueryTail: string := "\n            RETURN t.id as id\n            "

  /** The Cypher text for a list of clauses. */
  function UpdateQuery(clauses: seq<string>): string {
    QueryHead + SetLine(clauses) + QueryTail
  }

  /** `NoUpdate` is the early `return False`; otherwise the query and its
      parameters go to the driver. */
  datatype UpdatePlan = NoUpdate | RunQuery(query: string, params: seq<Entry>)

  function Plan(taskId: string, updates: seq<Entry>): UpdatePlan {
    var clauses := SetClauses(updates);
    if clauses == [] then NoUpdate else RunQuery(UpdateQuery(clauses), UpdateParams(taskId, updates))
  }

  /** The loop of `update_task` and the query it builds. */
  method BuildUpdate(taskId: string, updates: seq<Entry>) returns (plan: UpdatePlan)
    ensures plan == Plan(taskId, updates)
  {
    var clauses: seq<string> := [];
    var params := [Entry("id", Str(taskId))];
    for i := 0 to |updates|
      invariant clauses == SetClauses(updates[..i])
      invariant params == UpdateParams(taskId, updates[..i])
    {
      var key, value := updates[i].key, updates[i].val;
      assert updates[..i + 1][..i] == updates[..i];
      if key !in ["id", "created_at"] {
        clauses := clauses + ["t." + key + " = $" + key];
        params := Put(params, key, value);
      }
    }
    assert updates[..|updates|] == updates;
    if clauses == [] {
      return NoUpdate;
    }
    plan := RunQuery(UpdateQuery(clauses), params);
  }

  /** An independent statement of the clauses: one per permitted entry, in
      iteration order. */
  lemma {:induction false} SetClausesAreFiltered(updates: seq<Entry>)
    ensures SetClauses(updates) == Map(Filter(updates, Permitted), EntryClause)
    decreases |updates|
  {
    if updates != [] {
      var init := updates[..|updates| - 1];
      var last := updates[|updates| - 1];
      SetClausesAreFiltered(init);
      assert updates == init + [last];
      FilterAppend(init, [last], Permitted);
      assert Filter([last], Permitted) == if Permitted(last) then [last] else [];
    }
  }

  /** No clause updates `id` or `created_at`. */
  lemma NoClauseForProtected(updates: seq<Entry>)
    ensures Clause("id") !in SetClauses(updates)
    ensures Clause("created_at") !in SetClauses(updates)
  {
    SetClausesAreFiltered(updates);
    var kept := Filter(updates, Permitted);
    forall i | 0 <= i < |kept|
      ensures EntryClause(kept[i]) != Clause("id") && EntryClause(kept[i]) != Clause("created_at")
    {
      if EntryClause(kept[i]) == Clause("id") {
        ClauseInjective(kept[i].key, "id");
      }
      if EntryClause(kept[i]) == Clause("created_at") {
        ClauseInjective(kept[i].key, "created_at");
      }
    }
  }

  /** `params["id"]` is always the task id. */
  lemma {:induction false} ParamsKeepTaskId(taskId: string, updates: seq<Entry>)
    ensures Lookup(UpdateParams(taskId, updates), "id") == Some(Str(taskId))
    decreases |updates|
  {
    if updates != [] {
      var init := updates[..|updates| - 1];
      var last := updates[|updates| - 1];
      ParamsKeepTaskId(taskId, init);
      if Permitted(last) {
        PutLookupOther(UpdateParams(taskId, init), last.key, last.val, "id");
      }
    }
  }

  /** Every permitted entry of the update dict (whose keys are distinct) is
      passed as the parameter of the same name. */
  lemma {:induction false} ParamsCarryUpdates(taskId: string, updates: seq<Entry>, i: nat)
    requires DistinctKeys(updates)
    requires i < |updates| && Permitted(updates[i])
    ensures Lookup(UpdateParams(taskId, updates), updates[i].key) == Some(updates[i].val)
    decreases |updates|
  {
    var n := |updates|;
    var init := updates[..n - 1];
    var last := updates[n - 1];
    if i == n - 1 {
      PutLookupSame(UpdateParams(taskId, init), last.key, last.val);
    } else {
      assert Keys(updates)[i] != Keys(updates)[n - 1];
      DistinctKeysPrefix(updates, n - 1);
      assert init[i] == updates[i];
      ParamsCarryUpdates(taskId, init, i);
      if Permitted(last) {
        PutLookupOther(UpdateParams(taskId, init), last.key, last.val, updates[i].key);
      }
    }
  }

  /** `params` holds `id` and the keys of the permitted entries, and no
      other key. */
  lemma {:induction false} ParamsKeys(taskId: string, updates: seq<Entry>, k: string)
    ensures HasKey(UpdateParams(taskId, updates), k) <==>
      k == "id" || exists i :: 0 <= i < |updates| && Permitted(updates[i]) && updates[i].key == k
    decreases |updates|
  {
    if updates == [] {
      assert Keys([Entry("id", Str(taskId))]) == ["id"];
    } else {
      var n := |updates|;
      var init := updates[..n - 1];
      var last := updates[n - 1];
      ParamsKeys(taskId, init, k);
      if Permitted(last) {
        PutKeys(UpdateParams(taskId, init), last.key, last.val);
      }
      if exists i :: 0 <= i < n && Permitted(updates[i]) && updates[i].key == k {
        var i :| 0 <= i < n && Permitted(updates[i]) && updates[i].key == k;
        if i < n - 1 {
          assert init[i] == updates[i];
        }
      }
      if exists i :: 0 <= i < n - 1 && Permitted(init[i]) && init[i].key == k {
        var i :| 0 <= i < n - 1 && Permitted(init[i]) && init[i].key == k;
        assert updates[i] == init[i];
      }
    }
  }

  /** The loop collects no clause exactly when every key is protected. */
  lemma {:induction false} NoClausesIffAllProtected(updates: seq<Entry>)
    ensures SetClauses(updates) == [] <==> forall i :: 0 <= i < |updates| ==> !Permitted(updates[i])
    decreases |updates|
  {
    if updates != [] {
      var init := updates[..|updates| - 1];
      NoClausesIffAllProtected(init);
      assert forall i :: 0 <= i < |init| ==> init[i] == updates[i];
    }
  }

  /** The method returns without a query exactly when every key is
      protected. */
  lemma NoUpdateIffAllProtected(taskId: string, updates: seq<Entry>)
    ensures Plan(taskId, updates) == NoUpdate <==> forall i :: 0 <= i < |updates| ==> !Permitted(updates[i])
  {
    NoClausesIffAllProtected(updates);
  }

  /** A query sets the joined clauses and then the update time. */
  lemma QuerySetsClausesThenTime(taskId: string, updates: seq<Entry>)
    requires Plan(taskId, updates).RunQuery?
    ensures Contains(Plan(taskId, updates).query, SetLine(SetClauses(updates)))
  {
    var line := SetLine(SetClauses(updates));
    var q := Plan(taskId, updates).query;
    assert q[|QueryHead|..|QueryHead| + |line|] == line;
    assert OccursAt(q, line, |QueryHead|);
  }
}
