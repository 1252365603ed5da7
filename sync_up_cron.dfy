/**
 * The periodic sync-up job. It gathers every node's report of the models it has
 * loaded and the load tasks it is running. From those reports it rebuilds two maps
 * from scratch: model id to the set of worker node ids holding that model, and
 * load-task id to the set of node ids running that task. It then broadcasts them
 * to the same nodes. When no model is loaded anywhere, it sends a signal to clear
 * the routing table instead of the model map.
 */
module SyncUpCron {
  import opened Wrappers
  import opened Streams
  import opened SyncNodeResponse

  /** Id (of a model or a task) to the set of ids of the nodes that reported it. */
  type WorkerMap = map<string, set<string>>

  /** Which of a report's two id arrays a map is built from. */
  datatype IdKind = LoadedModel | RunningLoadTask

  /** The ids a report lists of the given kind; a null array lists none. */
  function IdsOf(r: MLSyncUpNodeResponse, kind: IdKind): seq<string> {
    var ids := if kind == LoadedModel then r.loadedModelIds else r.runningLoadModelTaskIds;
    if ids.Some? then ids.value else []
  }

  // ---- the reconciliation, as a left fold over the reports ----

  /** Adds the node to the id's set, creating the set when the id is new. */
  function AddWorker(m: WorkerMap, id: string, node: string): WorkerMap {
    m[id := (if id in m then m[id] else {}) + {node}]
  }

  /** Adds one node under each of the given ids, in order. */
  function AddWorkers(m: WorkerMap, ids: seq<string>, node: string): WorkerMap {
    if ids == [] then m
    else AddWorker(AddWorkers(m, ids[..|ids| - 1], node), ids[|ids| - 1], node)
  }

  /** The map built from the reports, one report after another. */
  function Reconcile(reports: seq<MLSyncUpNodeResponse>, kind: IdKind): WorkerMap {
    if reports == [] then map[]
    else
      var last := reports[|reports| - 1];
      AddWorkers(Reconcile(reports[..|reports| - 1], kind), IdsOf(last, kind), last.node.id)
  }

  // ---- what the reconciliation means ----

  /** Some report lists the id. */
  predicate Reported(reports: seq<MLSyncUpNodeResponse>, kind: IdKind, id: string) {
    exists r :: r in reports && id in IdsOf(r, kind)
  }

  /** The ids of the nodes whose reports list the id. */
  function Holders(reports: seq<MLSyncUpNodeResponse>, kind: IdKind, id: string): set<string> {
    set r | r in reports && id in IdsOf(r, kind) :: r.node.id
  }

  /**
   * Adding a node under a list of ids adds exactly those ids as keys, adds the node
   * to each of their sets, and leaves every other key as it was; listing an id twice
   * adds the node once.
   */
  lemma {:induction false} AddWorkersEffect(m: WorkerMap, ids: seq<string>, node: string)
    ensures forall id :: id in AddWorkers(m, ids, node) <==> id in m || id in ids
    ensures forall id :: id in ids ==> AddWorkers(m, ids, node)[id] == (if id in m then m[id] else {}) + {node}
    ensures forall id :: id in m && id !in ids ==> AddWorkers(m, ids, node)[id] == m[id]
  {
    if ids != [] {
      var init := ids[..|ids| - 1];
      AddWorkersEffect(m, init, node);
      assert ids == init + [ids[|ids| - 1]];
      assert forall id :: id in ids <==> id in init || id == ids[|ids| - 1];
    }
  }

  /**
   * The reconciled map has a key exactly for each id some report lists, and maps it
   * to exactly the set of the ids of the nodes whose reports list it.
   */
  lemma {:induction false} ReconcileMeaning(reports: seq<MLSyncUpNodeResponse>, kind: IdKind)
    ensures forall id :: id in Reconcile(reports, kind) <==> Reported(reports, kind, id)
    ensures forall id :: id in Reconcile(reports, kind) ==> Reconcile(reports, kind)[id] == Holders(reports, kind, id)
  {
    if reports != [] {
      var init, last := reports[..|reports| - 1], reports[|reports| - 1];
      assert reports == init + [last];
      ReconcileMeaning(init, kind);
      AddWorkersEffect(Reconcile(init, kind), IdsOf(last, kind), last.node.id);
      forall id {
        AppendReport(init, last, kind, id);
      }
    }
  }

  /** What one more report adds to the ids reported and to their holders. */
  lemma AppendReport(init: seq<MLSyncUpNodeResponse>, last: MLSyncUpNodeResponse, kind: IdKind, id: string)
    ensures Reported(init + [last], kind, id) <==> Reported(init, kind, id) || id in IdsOf(last, kind)
    ensures Holders(init + [last], kind, id)
         == Holders(init, kind, id) + (if id in IdsOf(last, kind) then {last.node.id} else {})
  {
    var reports := init + [last];
    assert forall r :: r in reports <==> r in init || r == last;
    if id in IdsOf(last, kind) {
      assert last in reports;
    }
  }

  /** Every key maps to a non-empty set: an id is only ever added together with a node. */
  lemma WorkerSetsNonEmpty(reports: seq<MLSyncUpNodeResponse>, kind: IdKind, id: string)
    requires id in Reconcile(reports, kind)
    ensures Reconcile(reports, kind)[id] != {}
  {
    ReconcileMeaning(reports, kind);
    var r :| r in reports && id in IdsOf(r, kind);
    assert r.node.id in Holders(reports, kind, id);
  }

  /** Reports with the same members list the same ids, from the same nodes. */
  lemma SameMembersAgree(a: seq<MLSyncUpNodeResponse>, b: seq<MLSyncUpNodeResponse>, kind: IdKind, id: string)
    requires forall r :: r in a <==> r in b
    ensures Reported(a, kind, id) <==> Reported(b, kind, id)
    ensures Holders(a, kind, id) == Holders(b, kind, id)
  {
  }

  /** The maps depend only on which reports there are, not on their order or repetition. */
  lemma SameReportsSameMap(a: seq<MLSyncUpNodeResponse>, b: seq<MLSyncUpNodeResponse>, kind: IdKind)
    requires forall r :: r in a <==> r in b
    ensures Reconcile(a, kind) == Reconcile(b, kind)
  {
    ReconcileMeaning(a, kind);
    ReconcileMeaning(b, kind);
    var ma, mb := Reconcile(a, kind), Reconcile(b, kind);
    forall id
      ensures id in ma <==> id in mb
      ensures id in ma ==> ma[id] == mb[id]
    {
      SameMembersAgree(a, b, kind, id);
    }
    assert ma.Keys == mb.Keys;
  }

  /** The maps are unions over the reports: reordering the reports gives the same maps. */
  lemma OrderIndependent(a: seq<MLSyncUpNodeResponse>, b: seq<MLSyncUpNodeResponse>, kind: IdKind)
    requires multiset(a) == multiset(b)
    ensures Reconcile(a, kind) == Reconcile(b, kind)
  {
    forall r
      ensures r in a <==> r in b
    {
      assert r in a <==> r in multiset(a);
      assert r in b <==> r in multiset(b);
    }
    SameReportsSameMap(a, b, kind);
  }

  /** A report listing no ids of a kind (null or empty) adds nothing to that kind's map. */
  lemma SilentReportContributesNothing(
    before: seq<MLSyncUpNodeResponse>, r: MLSyncUpNodeResponse, after: seq<MLSyncUpNodeResponse>, kind: IdKind)
    requires IdsOf(r, kind) == []
    ensures Reconcile(before + [r] + after, kind) == Reconcile(before + after, kind)
  {
    var withR, without := before + [r] + after, before + after;
    var rest := without + [r];
    assert forall x :: x in withR <==> x in rest;
    SameReportsSameMap(withR, rest, kind);
    assert rest[..|rest| - 1] == without;
    assert Reconcile(rest, kind) == AddWorkers(Reconcile(without, kind), [], r.node.id);
  }

  /** The routing map is empty exactly when no report lists a loaded model. */
  lemma {:induction false} EmptyIffNothingReported(reports: seq<MLSyncUpNodeResponse>, kind: IdKind)
    ensures Reconcile(reports, kind) == map[] <==> forall r :: r in reports ==> IdsOf(r, kind) == []
  {
    ReconcileMeaning(reports, kind);
    if Reconcile(reports, kind) != map[] {
      var id :| id in Reconcile(reports, kind);
      var r :| r in reports && id in IdsOf(r, kind);
      assert IdsOf(r, kind) != [];
    } else if !forall r :: r in reports ==> IdsOf(r, kind) == [] {
      var r :| r in reports && IdsOf(r, kind) != [];
      assert Reported(reports, kind, IdsOf(r, kind)[0]);
      assert IdsOf(r, kind)[0] in Reconcile(reports, kind);
    }
  }

  // ---- the requests the job sends ----

  /** The input of a sync-up request; builder fields left unset are false or null. */
  datatype MLSyncUpInput = MLSyncUpInput(
    getLoadedModels: bool,
    syncRunningLoadModelTasks: bool,
    clearRoutingTable: bool,
    modelRoutingTable: Option<WorkerMap>,
    runningLoadModelTasks: Option<WorkerMap>)

  /** What an empty builder builds. */
  const EmptyInput := MLSyncUpInput(false, false, false, None, None)

  datatype MLSyncUpNodesRequest = MLSyncUpNodesRequest(nodes: seq<DiscoveryNode>, input: MLSyncUpInput)

  /** The request that asks every node for its loaded models and running tasks. */
  const GatherInput := EmptyInput.(getLoadedModels := true)

  /**
   * The broadcast input for a set of reports: the running-task map always, and
   * either the routing map or, when no model is loaded anywhere, the clear signal.
   */
  function BroadcastInput(reports: seq<MLSyncUpNodeResponse>): (input: MLSyncUpInput)
    ensures input.syncRunningLoadModelTasks && !input.getLoadedModels
    ensures input.runningLoadModelTasks == Some(Reconcile(reports, RunningLoadTask))
    ensures input.clearRoutingTable <==> forall r :: r in reports ==> IdsOf(r, LoadedModel) == []
    ensures input.clearRoutingTable <==> input.modelRoutingTable.None?
    ensures input.modelRoutingTable.Some? ==> input.modelRoutingTable.value == Reconcile(reports, LoadedModel)
  {
    EmptyIffNothingReported(reports, LoadedModel);
    var base := EmptyInput.(syncRunningLoadModelTasks := true,
                            runningLoadModelTasks := Some(Reconcile(reports, RunningLoadTask)));
    var models := Reconcile(reports, LoadedModel);
    if |models| == 0 then base.(clearRoutingTable := true)
    else base.(modelRoutingTable := Some(models))
  }

  /** Reordering the reports does not change what is broadcast. */
  lemma BroadcastOrderIndependent(a: seq<MLSyncUpNodeResponse>, b: seq<MLSyncUpNodeResponse>)
    requires multiset(a) == multiset(b)
    ensures BroadcastInput(a) == BroadcastInput(b)
  {
    OrderIndependent(a, b, LoadedModel);
    OrderIndependent(a, b, RunningLoadTask);
  }

  /**
   * The two map-building loops of the job: one pass over the reports, adding each
   * node under every model it has loaded and every task it is running. What the
   * resulting maps hold is stated by `ReconcileMeaning`.
   */
  method BuildWorkerMaps(responses: seq<MLSyncUpNodeResponse>)
    returns (modelWorkerNodes: WorkerMap, runningLoadModelTasks: WorkerMap)
    ensures modelWorkerNodes == Reconcile(responses, LoadedModel)
    ensures runningLoadModelTasks == Reconcile(responses, RunningLoadTask)
  {
    modelWorkerNodes := map[];
    runningLoadModelTasks := map[];
    for i := 0 to |responses|
      invariant modelWorkerNodes == Reconcile(responses[..i], LoadedModel)
      invariant runningLoadModelTasks == Reconcile(responses[..i], RunningLoadTask)
    {
      var response := responses[i];
      var nodeId := response.node.id;
      assert responses[..i + 1][..i] == responses[..i];
      var loadedModelIds := response.loadedModelIds;
      if loadedModelIds.Some? && |loadedModelIds.value| > 0 {
        for j := 0 to |loadedModelIds.value|
          invariant modelWorkerNodes
                 == AddWorkers(Reconcile(responses[..i], LoadedModel), loadedModelIds.value[..j], nodeId)
        {
          assert loadedModelIds.value[..j + 1][..j] == loadedModelIds.value[..j];
          var modelId := loadedModelIds.value[j];
          var workerNodes := if modelId in modelWorkerNodes then modelWorkerNodes[modelId] else {};
          modelWorkerNodes := modelWorkerNodes[modelId := workerNodes + {nodeId}];
        }
        assert loadedModelIds.value[..|loadedModelIds.value|] == loadedModelIds.value;
      }
      var runningLoadModelTaskIds := response.runningLoadModelTaskIds;
      if runningLoadModelTaskIds.Some? && |runningLoadModelTaskIds.value| > 0 {
        for j := 0 to |runningLoadModelTaskIds.value|
          invariant runningLoadModelTasks
                 == AddWorkers(Reconcile(responses[..i], RunningLoadTask), runningLoadModelTaskIds.value[..j], nodeId)
        {
          assert runningLoadModelTaskIds.value[..j + 1][..j] == runningLoadModelTaskIds.value[..j];
          var taskId := runningLoadModelTaskIds.value[j];
          var workerNodes := if taskId in runningLoadModelTasks then runningLoadModelTasks[taskId] else {};
          runningLoadModelTasks := runningLoadModelTasks[taskId := workerNodes + {nodeId}];
        }
        assert runningLoadModelTaskIds.value[..|runningLoadModelTaskIds.value|] == runningLoadModelTaskIds.value;
      }
    }
    assert responses[..|responses|] == responses;
  }

  /**
   * One run of the job. `gathered` stands for the outcome of the gather request sent
   * to `allNodes`: the node responses, or None when the request failed, in which
   * case nothing is broadcast. Otherwise the broadcast goes to the same nodes.
   */
  method Run(allNodes: seq<DiscoveryNode>, gathered: Option<seq<MLSyncUpNodeResponse>>)
    returns (gatherRequest: MLSyncUpNodesRequest, broadcast: Option<MLSyncUpNodesRequest>)
    ensures gatherRequest.nodes == allNodes && gatherRequest.input == GatherInput
    ensures broadcast.Some? <==> gathered.Some?
    ensures broadcast.Some? ==> broadcast.value == MLSyncUpNodesRequest(allNodes, BroadcastInput(gathered.value))
  {
    gatherRequest := MLSyncUpNodesRequest(allNodes, EmptyInput.(getLoadedModels := true));
    if gathered.None? {
      return gatherRequest, None;
    }
    var modelWorkerNodes, runningLoadModelTasks := BuildWorkerMaps(gathered.value);
    var input := EmptyInput.(syncRunningLoadModelTasks := true, runningLoadModelTasks := Some(runningLoadModelTasks));
    if |modelWorkerNodes| == 0 {
      input := input.(clearRoutingTable := true);
    } else {
      input := input.(modelRoutingTable := Some(modelWorkerNodes));
    }
    broadcast := Some(MLSyncUpNodesRequest(allNodes, input));
  }

  /**
   * Three nodes where only the first reports model "m1" loaded: the routing map sends
   * "m1" to that node alone. When that node is silent the next cycle, "m1" is gone and
   * the routing table is cleared.
   */
  lemma SilentHolderDropsModel(a: DiscoveryNode, b: DiscoveryNode, c: DiscoveryNode)
    ensures var reports := [MLSyncUpNodeResponse(a, None, Some(["m1"]), None),
                            MLSyncUpNodeResponse(b, None, None, None),
                            MLSyncUpNodeResponse(c, None, Some([]), None)];
            Reconcile(reports, LoadedModel) == map["m1" := {a.id}]
    ensures var reports := [MLSyncUpNodeResponse(b, None, None, None),
                            MLSyncUpNodeResponse(c, None, Some([]), None)];
            "m1" !in Reconcile(reports, LoadedModel) && BroadcastInput(reports).clearRoutingTable
  {
    var ra := MLSyncUpNodeResponse(a, None, Some(["m1"]), None);
    var rb := MLSyncUpNodeResponse(b, None, None, None);
    var rc := MLSyncUpNodeResponse(c, None, Some([]), None);
    var first, second := [ra, rb, rc], [rb, rc];
    ReconcileMeaning(first, LoadedModel);
    ReconcileMeaning(second, LoadedModel);
    assert forall r :: r in first ==> r == ra || r == rb || r == rc;
    assert forall r :: r in second ==> r == rb || r == rc;
    assert ra in first && "m1" in IdsOf(ra, LoadedModel);
    assert Holders(first, LoadedModel, "m1") == {a.id} by {
      assert ra in first;
    }
    assert Reconcile(first, LoadedModel).Keys == {"m1"};
    EmptyIffNothingReported(second, LoadedModel);
  }
}
