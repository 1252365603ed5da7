# Cluster sync-up and forwarding messages of ml-commons, in Dafny

This project models three sequential pieces of the ML plugin's cluster control plane:

- **The sync-up job** (`MLSyncUpCron.run`). It gathers one report per node: the node,
  the ids of the models it has loaded, and the ids of the model-load tasks it is
  running. From those reports it rebuilds two maps from scratch:
  - the routing table, from model id to the set of worker node ids holding the model;
  - the running-task map, from load-task id to the set of node ids running that task.

  It then broadcasts both maps to the same nodes it gathered from. When no model is
  loaded anywhere, it sends a "clear the routing table" signal instead of the routing
  table. The running-task map is always sent.
- **The node report on the wire** (`MLSyncUpNodeResponse`). The node is written first,
  then the model status, the loaded model ids and the running task ids. Each of the
  last three is optional.
- **The forward response** (`MLForwardResponse`). Its wire form is an optional status,
  then a presence flag, then the model output when the flag is true. The file also
  converts any action response into a forward response and renders the response as
  content.

Layout, one module per file:

- `wrappers.dfy` (`Wrappers`): `Option` stands for a nullable Java reference. `Result`
  stands for a call that may throw.
- `streams.dfy` (`Streams`): the transport stream as a sequence of tokens. There is one
  token per primitive write: boolean, string, string array, node, model output.
  - The pure `Encode…`/`Decode…` functions say what each primitive writes and reads.
  - The classes `StreamOutput` and `StreamInput` are the mutable streams. The messages'
    `writeTo` methods and stream constructors work on these classes.
- `sync_node_response.dfy` (`SyncNodeResponse`), `forward_response.dfy`
  (`ForwardResponse`): each message has a pure `Encode`/`Decode` pair that specifies the
  wire form. Each also has imperative `WriteTo`/`ReadFrom` methods over the stream
  classes, proved equal to that pair.
- `sync_up_cron.dfy` (`SyncUpCron`): the reconciliation.
  - `Reconcile` is a fold over the reports that specifies the result.
  - `ReconcileMeaning` characterises that fold independently: a key is present iff some
    report lists it, and its value is exactly the set of reporting node ids.
  - `BuildWorkerMaps` is the source's nested loops, proved equal to the fold.
  - `Run` is the whole job, with the gather outcome given as a parameter.

The constructors of both messages are the Dafny datatype constructors, so they store
their fields unchanged by construction.

## Model

| member | source | states |
|---|---|---|
| `SyncUpCron.BuildWorkerMaps` | plugin/src/main/java/org/opensearch/ml/cluster/MLSyncUpCron.java:45-64 | The one pass over the responses builds both maps, and each equals the fold `Reconcile` over all responses. So, by `ReconcileMeaning`, a model (task) id is a key iff some response lists it, and its value is exactly the set of node ids whose responses list it. |
| `SyncUpCron.ReconcileMeaning` | plugin/src/main/java/org/opensearch/ml/cluster/MLSyncUpCron.java:48-64 | For every id, the id is a key of the reconciled map iff some report lists it. Its value is the set of ids of the nodes whose reports list it. |
| `SyncUpCron.AddWorkersEffect` | plugin/src/main/java/org/opensearch/ml/cluster/MLSyncUpCron.java:52-55 | `computeIfAbsent(...).add(node)` over a list of ids adds exactly those keys. It adds the node to each key's set, so an id listed twice adds the node once. Every other key is left unchanged. |
| `SyncUpCron.WorkerSetsNonEmpty` | plugin/src/main/java/org/opensearch/ml/cluster/MLSyncUpCron.java:53-61 | Every key of either map maps to a non-empty set of node ids. |
| `SyncUpCron.SameReportsSameMap` | plugin/src/main/java/org/opensearch/ml/cluster/MLSyncUpCron.java:48-64 | Two report lists with the same members give the same map, whatever their order or repetitions. |
| `SyncUpCron.OrderIndependent` | plugin/src/main/java/org/opensearch/ml/cluster/MLSyncUpCron.java:48-64 | Permuting the responses gives the same routing table and the same running-task map. |
| `SyncUpCron.SilentReportContributesNothing` | plugin/src/main/java/org/opensearch/ml/cluster/MLSyncUpCron.java:50-58 | A response whose id array is null or empty, at any position in the list, adds no key and no node id to that map. |
| `SyncUpCron.EmptyIffNothingReported` | plugin/src/main/java/org/opensearch/ml/cluster/MLSyncUpCron.java:48-56 | The routing table is empty exactly when no response lists a loaded model. |
| `SyncUpCron.BroadcastInput` | plugin/src/main/java/org/opensearch/ml/cluster/MLSyncUpCron.java:71-81 | The broadcast input always sets `syncRunningLoadModelTasks` and carries the running-task map, even when it is empty. `clearRoutingTable` is set iff no node reports a loaded model, and exactly then the routing table is absent. Otherwise it carries the reconciled routing table. |
| `SyncUpCron.BroadcastOrderIndependent` | plugin/src/main/java/org/opensearch/ml/cluster/MLSyncUpCron.java:48-81 | The broadcast input does not depend on the order in which node responses arrive. |
| `SyncUpCron.Run` | plugin/src/main/java/org/opensearch/ml/cluster/MLSyncUpCron.java:36-95 | The gather request goes to all nodes with only `getLoadedModels` set. A broadcast is sent iff the gather succeeded. It goes to the same node array and carries `BroadcastInput` of the responses. |
| `SyncUpCron.SilentHolderDropsModel` | plugin/src/main/java/org/opensearch/ml/cluster/MLSyncUpCron.java:48-80 | Scenario with three nodes: only the first lists "m1", so the routing table is exactly {"m1" -> {first node}}. When that node is absent, "m1" disappears and the cycle clears the routing table. |
| `SyncNodeResponse.Decode` | common/src/main/java/org/opensearch/ml/common/transport/sync/MLSyncUpNodeResponse.java:32-37 | The stream constructor reads node, status, loaded ids and running ids in that order. Whatever it accepts is exactly the wire form of the returned response, followed by the unread rest. |
| `SyncNodeResponse.RoundTrip` | common/src/main/java/org/opensearch/ml/common/transport/sync/MLSyncUpNodeResponse.java:32-49 | Decoding what `writeTo` produced, followed by any further data, gives back all three fields (null fields as null). It consumes exactly the encoded fields. |
| `SyncNodeResponse.EncodeInjective` | common/src/main/java/org/opensearch/ml/common/transport/sync/MLSyncUpNodeResponse.java:44-49 | Two responses with the same wire form are equal: `writeTo` loses no field. |
| `SyncNodeResponse.WriteTo` | common/src/main/java/org/opensearch/ml/common/transport/sync/MLSyncUpNodeResponse.java:43-49 | Appends node, optional status, optional loaded ids and optional running ids, in that order, and nothing else. |
| `SyncNodeResponse.ReadFrom` | common/src/main/java/org/opensearch/ml/common/transport/sync/MLSyncUpNodeResponse.java:32-37 | Reading field by field from a stream gives `Decode` of its contents. On success the stream is left at what follows; a failed read propagates its exception. |
| `SyncNodeResponse.ReadStats` | common/src/main/java/org/opensearch/ml/common/transport/sync/MLSyncUpNodeResponse.java:39-41 | Gives the same result and the same stream position as the stream constructor. |
| `SyncNodeResponse.WriteThenRead` | common/src/main/java/org/opensearch/ml/common/transport/sync/MLSyncUpNodeResponse.java:32-49 | Writing a response to a fresh output stream and reading it back from an input over those tokens returns the same response. |
| `ForwardResponse.Decode` | common/src/main/java/org/opensearch/ml/common/transport/forward/MLForwardResponse.java:39-45 | The stream constructor reads the optional status and the presence flag, and reads an output only after a true flag. Whatever it accepts is exactly the wire form of the result, followed by the unread rest. |
| `ForwardResponse.RoundTrip` | common/src/main/java/org/opensearch/ml/common/transport/forward/MLForwardResponse.java:39-57 | Decoding what `writeTo` produced restores the status, null included. The output is null after decoding exactly when it was null before. Trailing data is left unread. |
| `ForwardResponse.AbsentOutputNotRead` | common/src/main/java/org/opensearch/ml/common/transport/forward/MLForwardResponse.java:42-44 | After a false presence flag the decoder consumes nothing more, even when a model output follows in the stream. |
| `ForwardResponse.WriteTo` | common/src/main/java/org/opensearch/ml/common/transport/forward/MLForwardResponse.java:47-57 | Appends the optional status, then a flag that is true iff there is an output, then the output only when the flag is true. |
| `ForwardResponse.ReadFrom` | common/src/main/java/org/opensearch/ml/common/transport/forward/MLForwardResponse.java:39-45 | Reading step by step from a stream gives `Decode` of its contents and leaves the stream at what follows. |
| `ForwardResponse.FromActionResponse` | common/src/main/java/org/opensearch/ml/common/transport/forward/MLForwardResponse.java:67-81 | Returns a forward response unchanged. Any other response converts only if its serialised form begins with a forward response's wire form. A write failure becomes an unchecked exception with the message "failed to parse ActionResponse into MLForwardResponse" and the original cause. Every failure the model produces carries that message, since it treats every write and read failure as an `IOException` (see Left out). |
| `ForwardResponse.ConvertsByWireForm` | common/src/main/java/org/opensearch/ml/common/transport/forward/MLForwardResponse.java:67-77 | A foreign response whose serialised form is a forward response's wire form, with anything after it, converts to exactly that response. This is the same result as the shortcut for a forward response. |
| `ForwardResponse.UnparsableIsRefused` | common/src/main/java/org/opensearch/ml/common/transport/forward/MLForwardResponse.java:78-80 | When the serialised form cannot be read as a forward response, the conversion fails with the fixed message. The read's exception is the cause. |
| `ForwardResponse.ToXContent` | common/src/main/java/org/opensearch/ml/common/transport/forward/MLForwardResponse.java:59-65 | Appends one object holding the single field "result" to the builder, and returns the same builder. |
| `ForwardResponse.RenderingShowsOnlyResult` | common/src/main/java/org/opensearch/ml/common/transport/forward/MLForwardResponse.java:60-65 | The rendering has one field, named "result". Two responses render alike iff their outputs are equal, so the status is never rendered. |

## Left out

- Asynchronous execution of the job: `client.execute`, the success and failure listeners and all logging. The gather outcome is a parameter of `Run`: the node responses, or none when the gather request failed. The broadcast request is returned instead of sent, and its own outcome is only logged in the source.
- Node discovery: the node array is a parameter of `Run`.
- Scheduling of the periodic job and any overlap between runs. These are concurrency concerns with no code in this model.
- Nodes that fail to answer the gather request: they are not in the response list, so they contribute nothing. The model does not separate per-node failures from the responses.
- Only the fields of `MLSyncUpInput` that `run` sets are modelled, and fields the builder leaves unset are taken as false or null; the own code of the classes `MLSyncUpInput` and `MLSyncUpNodesRequest` is not part of this model.
- In the source, the routing map is shared with the builder by reference. The model passes maps as values, so this aliasing is not captured.
- The byte layout of the stream primitives (optional string, optional string array, boolean): each is a flag token followed by a value token.
- `DiscoveryNode` is reduced to its id, and its serialisation by the node-response base class is one token.
- `MLOutput` is opaque. Its serialisation and `MLOutput.fromStream` are one token, and its content rendering is one event.
- The base class `ActionResponse` is taken to read nothing from the stream, matching `writeTo`, which does not call the base class.
- Streams.StreamInput: the stream's position after a failed read is not specified, because the source gives up on the stream once a read throws.
- Null entries inside the id arrays: ids are modelled as non-null strings.
- `fromActionResponse` returns "the same object" for a forward response. Because responses are values here, that is modelled as the same value.
- The XContent builder: only the order of events is modelled, not the JSON it produces.
- The per-node model registry, the load and unload actions and the load-task dispatcher are not modelled: their implementations (`TransportUploadModelAction`, `TransportUnloadModelAction`, `MLTaskDispatcher`, `MLModelManager`) appear only through mocks in tests, and no model-status state machine is shown in the code.
- The routing table is built from each node's `loadedModelIds`; `modelStatus` is carried on the wire but `run` does not use it.
- ForwardResponse.FromActionResponse: unchecked exceptions are not modelled. In the source only an `IOException` is caught and wrapped with the fixed message; an unchecked exception thrown by the foreign response's `writeTo` or by a stream read escapes unwrapped. The model treats every write failure and every decode failure (end of stream or a malformed item) as an `IOException`, so every failure it produces carries the fixed message.
