# nodex-proxy: a verified model

nodex-proxy is a JSON-RPC gateway. It reads requests with a zero-copy scanner, finds the block each request
is about, chooses a state, archive or native node from pools kept in step with etcd, retries on certain
error codes, and reports usage per client. This project models that core in Dafny and proves what it relies
on. Code that changes things step by step is a method or a class proved against a specification function;
code with concurrency is a state machine, and its results hold in every run.

Files, in reading order:

- `Wrappers.dfy`: optional values
- `JsonScan.dfy`, `JsonText.dfy`: the scanner, and JSON trees with every white-space layout
- `JsonRpcRequest.dfy`, `BlockContext.dfy`, `RequestBlocks.dfy`: the two fast parsers against tree decoders, and
  both together
- `NodePool.dfy`, `NodeProtocol.dfy`, `PoolLists.dfy`: node lists, generations and the event loop with its health
  checks
- `Discovery.dfy`, `Convergence.dfy`: etcd watch and resync, and the whole path from store to pools
- `NodeMoves.dfy`, `WorldPaths.dfy`, `HiddenDeletes.dfy`, `CommittedMoves.dfy`: what happens when a live node
  changes its slot
- `NodeSelection.dfy`, `BlockRouting.dfy`: pool decision, method routes and the weighted draw, and what each kind
  of block id means for them
- `ResponseFilter.dfy`, `ArchiveHashCache.dfy`, `Serving.dfy`, `CacheRuns.dfy`, `ServedNodes.dfy`: the retry
  flow, its memos, its cache, and the nodes it is given
- `UsageCollector.dfy`: the usage collector
- `Gateway.dfy`, `GatewayStore.dfy`: gateway edits and their commits
- `Shutdown.dfy`: the shutdown wait

Some promises do not hold as one would first state them. Each has its failing case and the condition under
which it does hold. A slot is a place in one list of one chain: chain, list and key. The list follows from a
node's source and role.

- Pools converge to the store when every event of a node that is still wanted names the slot it has
  (`PoolsConverge`, `RemovedNodesStayOut`). A node may be deleted and come back under another role. A put that
  moves a wanted node always has a quiet continuation with the old node still pooled, as long as that node is
  pooled or may still come into the pool (`MoveLeavesOldNode`); otherwise it does no harm (`HarmlessMove`). The
  same holds of a commit that moves a live key, in the whole system (`CommittedMoveLeavesOldNode`).
- Keeping live keys in their slots is not enough for that: a deletion and a new creation under another role
  that fall into the compacted part of the history reach the resync as one changed value, and the old node
  stays pooled (`HiddenDeleteLeavesOldNode`).
- A cached archive hash leaves the answer unchanged unless no node can be chosen on the normal path while an
  archive node can (`CacheKeepsAnswers`, `CacheCanChangeAnswer`).
- `SetWeight` sets the effective weight unless the key has two entries (`SetWeightUpdatesIff`, `SetWeightCanFail`).
- The first request of a parsed body can be read unless the body is an empty array or an array of one null
  (`FirstRequestReadable`, `NullArrayCrashes`).
- An unsaturated shutdown wait covers all attempts of all runs of a method exactly when the read timeout the
  method gets is at most the largest configured one (`WaitCoversRuns`). It always is if the default timeout fits
  a 64-bit duration (`DurationsAreCovered`); a default so negative that its product wraps around may break it or
  not (`WrappedDefaults`).

A consequence of the code that is easy to miss: removing a node that is the only included one of a method
route opens that method to every node that is not excluded (`ClearedRouting`).

## Model

| member | source | states |
|---|---|---|
| JsonScan.SkipSpace | internal/jsonscan/scan.go:15-20 | stops at the first byte that is not one of the four JSON spaces, or at the end |
| JsonScan.ParityIsState | internal/jsonscan/scan.go:32-52 | between two quotes, an odd backslash run is exactly the escaped state of a forward reading |
| JsonScan.SkipStringEnd | internal/jsonscan/scan.go:32-52 | on every text, the backward parity count finds the closing quote a forward escape automaton finds, and fails exactly when it fails |
| JsonScan.SkipString | internal/jsonscan/scan.go:24-30 | likewise, and reports whether the content holds a backslash |
| JsonScan.SkipValue | internal/jsonscan/scan.go:57-100 | computes the end given by string skipping, one depth for both bracket kinds, or the next delimiter |
| JsonScan.ScanArray | internal/jsonscan/scan.go:151-180 | calls back once per element of the walk, in order, with its index, until the callback declines |
| JsonScan.ScanObject | internal/jsonscan/scan.go:106-145 | calls back once per member of the walk, in order, until the callback declines |
| JsonScan.WalksOrdered | internal/jsonscan/scan.go:106-180 | on every text, malformed or not, the reported ranges increase, are disjoint and stay in bounds |
| JsonText.CloseValue | internal/jsonscan/scan.go:57-100 | inside a container a whole value, whatever it nests or quotes, leaves the single depth counter as it was |
| JsonText.SkipsValue | internal/jsonscan/scan.go:57-100 | a value laid out anywhere in a text is skipped to exactly its end |
| JsonText.SkipsPrinted | internal/jsonscan/scan.go:57-100 | for every tree, layout, text before and text after, skipping starts at the printed value and ends at its end |
| JsonText.ArrayShown | internal/jsonscan/scan.go:151-180 | the walk over a printed array visits exactly its elements, with ranges that slice out their text |
| JsonText.ObjectShown | internal/jsonscan/scan.go:106-145 | the walk over a printed object visits exactly its members, with raw keys, escape marks and value text |
| JsonText.LaidOut | internal/jsonscan/scan.go:57-100 | the layout predicate used in the proofs is the same as the printed text standing at that position |
| JsonText.JsonScalars | internal/jsonscan/scan.go:57-100 | every number and literal of RFC 8259 is a scalar of these trees |
| JsonRpcRequest.ScanRequestObject | jsonrpc/ext.go:143-183 | runs the member callback over one request object |
| JsonRpcRequest.ParseRequestBorrowed | jsonrpc/ext.go:103-139 | single or batch, the scan of a body the validator accepts |
| JsonRpcRequest.MemberAgrees | jsonrpc/ext.go:143-183 | one member is taken exactly when it is simple, and then as the reference decoder takes it |
| JsonRpcRequest.PlainIsUnescaped | internal/jsonscan/scan.go:184-191 | the two tests of the fast path together pass exactly the bytes from 0x20 to 0x7e other than the backslash |
| JsonRpcRequest.FaithfulFolds | jsonrpc/ext.go:143-183 | on such keys the folding match is the library's match of names in any case |
| JsonRpcRequest.BorrowedAgrees | jsonrpc/ext.go:67-183 | on every valid body the fast path accepts exactly the simple documents and then returns the reference decoder's requests, with presence and absence |
| JsonRpcRequest.IsBatch | jsonrpc/ext.go:230-238 | on any text, true exactly when the first byte that is no space is an opening bracket |
| JsonRpcRequest.BatchIsArray | jsonrpc/ext.go:70-87 | on a document that bracket is there exactly when the value is an array |
| JsonRpcRequest.ParseRequest | jsonrpc/ext.go:54-65 | fast path and fallback together give the reference decoder's requests |
| JsonRpcRequest.GenerateRequestContext | lb/lb.go:655-683 | the flow is entered exactly with a non-empty list of requests that are all present, have version 2.0 and name a method; reading the first request fails exactly on an empty list and on a list of one missing request |
| JsonRpcRequest.FirstRequestReadable | lb/lb.go:655-683 | of the decodable documents, exactly the empty array and the array of one null give such a list |
| JsonRpcRequest.NullArrayCrashes | lb/lb.go:662-667 | the array of one null is decoded to a list of one missing request |
| BlockContexts.DecodeBlockContextFast | lb/block_context.go:133-188 | computes the member-by-member reading of the argument |
| BlockContexts.ContextMemberAgrees | lb/block_context.go:133-188 | a member is declined when its key or value is not plain, its key is a case variant, or it repeats a field; otherwise it is taken as the reference takes it |
| BlockContexts.ContextAgrees | lb/block_context.go:120-223 | handles exactly the simple objects; what it handles it decodes, or refuses, as the reference does |
| BlockContexts.FullWalk | lb/block_context.go:86-113 | a complete walk ends on the last argument and has marked the second |
| BlockContexts.StoppedWalk | lb/block_context.go:86-113 | a walk stopped at the second argument has marked the same one, or has seen the whole list |
| BlockContexts.BlockContextArgument | lb/block_context.go:64-114 | computes the selected argument, its count and the errors |
| BlockContexts.ArgumentAgrees | lb/block_context.go:64-114 | for every valid list the second argument, or the last one, is selected whether or not the walk stops early |
| BlockContexts.OtherArguments | lb/block_context.go:64-114 | null means no arguments; any other value that is not an array is an error |
| BlockContexts.DecodeBlockContext | lb/block_context.go:120-131 | fast path and fallback together give the reference decoder's answer |
| BlockContexts.CallContext | lb/block_context.go:20-45 | the context of one call is the one the reference finds in the tree of its arguments |
| BlockContexts.RoutedArgument | lb/block_context.go:20-45 | three methods are routed by their second argument, with the latest block when there is none, and every other method by its last argument |
| BlockContexts.ParseBlockContext | lb/block_context.go:20-45 | the first context found over the calls of a body, as the reference finds it |
| RequestBlocks.ParamsDecoded | jsonrpc/ext.go:143-183 | a decoded request carries the text of the last params member of its tree |
| RequestBlocks.BodyContext | lb/lb.go:655-683 | from the bytes of any document the flow is entered with, the block context is the one read from the document's own params trees |
| BlockRouting.PinnedArgument | lb/block_context.go:192-223 | an argument with one block_id and one type decodes to what the block id means: five tags, a hash of 66 bytes, or a number below 2^63, and else to nothing |
| BlockRouting.TagRouting | utils/pick_nodes.go:78-101 | from the tree to the pick: the latest and the pending tag stay on state nodes at every height, the other tags go to archive exactly above their height or without one |
| NodePool.UpsertIsUpdate | lb/lbnode/node.go:178-192 | upserting is a map update at the key and keeps keys unique |
| NodePool.RemoveIsRemoval | lb/selector/random/random.go:129-173 | removing is map removal of the key and keeps keys unique |
| NodePool.UpsertInto | lb/lbnode/node.go:169-192 | in place: the same identity is refreshed and keeps its object, another with the key is replaced, a new one appended; the values are the upserted list |
| NodePool.RemoveFrom | lb/selector/random/random.go:129-173 | the removal loop leaves the list without the first entry of that key |
| NodePool.UpsertedSlots | lb/selector/random/random.go:112-127 | upserting into one chain's pool updates one slot of the map of slots and no other |
| NodePool.RemovedSlots | lb/selector/random/random.go:129-173 | removing from one pool clears one slot and no other |
| NodeProtocol.NodeGenerations.Bump | lb/node_generation.go:37-43 | the new generation is current and larger than every earlier one |
| NodeProtocol.NodeGenerations.Forget | lb/node_generation.go:47-51 | afterwards no generation of that identity is current |
| NodeProtocol.NodeGenerations.ApplyIfCurrent | lb/node_generation.go:55-63 | the update runs, under the lock, exactly when the generation is current |
| NodeProtocol.InvStep | lb/lb.go:115-195 | every step of the event loop and of any number of checks keeps the protocol invariant |
| NodeProtocol.AppliedGenerationsIncrease | lb/lb.go:131-195 | in every reachable state, what is about to be applied to an identity is newer than everything applied to it |
| NodeProtocol.StaleChecksNeverApply | lb/node_generation.go:37-63 | once an event of an identity is taken, no check that was already running ever reaches the pool |
| NodeProtocol.RemovedNodesStayOut | lb/lb.go:131-195 | in every run in which wanted nodes keep their slots, nothing of a removed identity is pooled, whatever role it had or will have |
| NodeProtocol.RemovalStands | lb/lb.go:176-193 | in every run, the slot a delete clears stays clear until a newer event of the identity is taken, whatever checks run between forgetting and removing |
| NodeProtocol.DowngradeStands | lb/lb.go:131-195 | in every run, an update applied without a check stands until a newer event of that identity is taken |
| NodeProtocol.DowngradeIsImmediate | lb/lb.go:131-143 | a put of a pooled node whose state is not 1 is in the pool after the loop's own steps, without a check |
| NodeProtocol.OthersAreChecked | lb/lb.go:131-150 | every other put leaves the pool alone and starts a check of its node |
| NodeProtocol.AvailableOnlyByCheck | lb/lb.go:131-185 | in every run, a step that puts an available node into a slot publishes a check of that very node |
| NodeProtocol.InfoShows | lb/lbnode/node.go:92-120 | the pooled node has the announced key, address, role, state, source and weight, with the defaults where it has none, in the list of its source and role |
| NodeProtocol.NodesArePlaced | lb/selector/random/random.go:112-127 | in every reachable state a pooled node stands in the list its own source and type name |
| NodeMoves.MoveLeavesOldNode | lb/lb.go:131-260 | from any state reached without a move, a put that moves a wanted node has a continuation that ends quiet with the old node pooled, if that node is pooled or may still come into the pool |
| NodeMoves.HarmlessMove | lb/lb.go:131-260 | if it is not, no continuation leaves anything of the identity outside the new slot |
| PoolLists.ListsRepresentSlots | lb/selector/random/random.go:112-173 | in every run, lists upserted into and removed from represent the slots, with unique keys |
| PoolLists.RunHasLists | lb/selector/random/random.go:112-173 | every run of the machine has such lists |
| Discovery.AgreesEvent | discovery/etcd/discovery.go:273-377 | dispatching a put or a delete carries agreement with the store, and the fold of the sent events, over that event |
| Discovery.EventSends | discovery/etcd/discovery.go:273-377 | what one event sends, for every kind of key and value |
| Discovery.Discover.ProcessResponse | discovery/etcd/discovery.go:193-228 | the events of a response in order, then the response's revision |
| Discovery.Discover.Resync | discovery/etcd/discovery.go:165-191 | sends at most one event per key, none for an unchanged one, each with the right value, and ends in agreement with the snapshot |
| Discovery.AgreesResponse | discovery/etcd/discovery.go:193-228 | agreement with the store is carried over any response |
| Discovery.AlwaysInStep | discovery/etcd/discovery.go:99-228 | in every run of starts, responses, breaks, compactions, failed resyncs and resyncs the known keys are the fold of the sent events and agree with the store at the watch revision |
| Discovery.HeightsInStep | discovery/etcd/discovery.go:99-228 | in every such run the consumers hold every decodable height the store had at the watch revision |
| Convergence.SettledPool | lb/lb.go:115-195 | when all is quiet the pools hold every wanted node as wanted, and no other |
| Convergence.PoolsConverge | lb/lb.go:115-195 | in every run in which commits keep the slots of live keys and resyncs find known keys in theirs, whenever all is quiet the pools hold exactly the store's nodes, each in its list and with its latest state |
| HiddenDeletes.HiddenDeleteLeavesOldNode | discovery/etcd/discovery.go:165-191 | a run of slot-keeping commits whose resync skips a deletion and a new creation ends quiet with the old node pooled |
| CommittedMoves.CommittedMoveLeavesOldNode | discovery/etcd/discovery.go:193-228 | after any run without a move, one commit that moves a live key has a continuation of ordinary steps that ends quiet with the old node pooled, if that node is pooled or may still come into the pool |
| NodeSelection.PreferAvailable | utils/pick_nodes.go:20-47 | the available nodes in order, or all nodes when none is; the given slice itself unless some are left out |
| NodeSelection.PickNodes | utils/pick_nodes.go:49-101 | equals the eager decision, although the context is asked for only when both pools have nodes and none is forced |
| NodeSelection.PickedSound | utils/pick_nodes.go:20-101 | an unforced pick is empty exactly when both pools are; a pick holds exactly the available nodes of one pool, or the whole pool when it has none |
| NodeSelection.PickRule | utils/pick_nodes.go:71-101 | for every context, archive nodes are picked exactly for a number pinned with Equals that is neither the latest nor the pending tag and lies below height minus 64, or has no height |
| NodeSelection.ForcedRule | utils/pick_nodes.go:49-71 | forced picks and picks with one empty pool do not depend on the context |
| NodeSelection.PickIsMonotone | utils/pick_nodes.go:49-101 | with nodes in both pools, archive nodes are picked for all block numbers below height minus 64 and state nodes for all others, so a lower block never moves back to state nodes |
| NodeSelection.FilterNodes | lb/jsonrpc/gateway_map.go:143-185 | the nodes the method's route lets through, in order |
| NodeSelection.RoutedIn | lb/jsonrpc/gateway_map.go:155-185 | a node is let through exactly when there is no route, it is marked as included, or nobody is included and it is not marked as excluded |
| NodeSelection.DrawNode | lb/selector/random/random.go:39-110 | a node is returned for every draw below a positive total, and it is the one whose weight interval holds the draw |
| NodeSelection.DrawSelectsOne | lb/selector/random/random.go:39-110 | no draw selects two nodes |
| NodeSelection.DrawsPerNode | lb/selector/random/random.go:39-110 | the number of draws that select a node is exactly its weight |
| NodeSelection.GetNode | lb/selector/random/random.go:39-110 | the node is in the pool the decision names, passes the route, has positive weight and is unavailable only if the whole pool is; none is returned exactly when no picked node is usable |
| ResponseFilter.ContainsErrorKey | jsonrpc/ext.go:247-264 | true exactly when the body contains error or Error in quotes, although it jumps five bytes after a rejected suffix |
| ResponseFilter.TrimKeepsErrorKey | types/lib.go:76-85 | the answer is the same on the trimmed and the untrimmed body |
| ResponseFilter.ErrorTokens | jsonrpc/ext.go:240-264 | the filter looks for exactly the two quoted tokens |
| ArchiveHashCaches.PinnedIs | lb/archive_hash_cache.go:78-85 | the pinned hash is that of an Equals context with a hash id and of nothing else |
| ArchiveHashCaches.HeldAfter | lb/archive_hash_cache.go:50-61 | an addition or an eviction changes one entry of one chain |
| ArchiveHashCaches.ArchiveHashCache.HasChain | lb/archive_hash_cache.go:46-48 | a no means that no hash of the chain is cached |
| ArchiveHashCaches.ArchiveHashCache.Add | lb/archive_hash_cache.go:50-61 | adds to that chain only; a disabled cache stays empty |
| Serving.Exchange.GetBlockContext | types/lib.go:108-117 | gives the context, a preset one first, and the parser runs at most once |
| Serving.Exchange.CachedContainsErrorKey | types/lib.go:76-85 | gives the filter's answer for the current body, and a known answer stays right |
| Serving.Exchange.AttemptRequest | lb/lb.go:504-536 | forgets the filter answer, rewrites the path for a native request, sets the method's read timeout, sends once, and turns a 504 or 502 into the proxy's own error |
| Serving.Exchange.ParseErrorCodes | lb/lb.go:609-653 | the codes of the current body, empty without an error key |
| Serving.Exchange.RouteCachedArchiveHash | lb/lb.go:551-571 | forces archive exactly for a request that is not archive, native or a batch and whose pinned hash is cached on its chain |
| Serving.Exchange.ServeHTTP | lb/lb.go:387-458 | the run, its answer and what it adds to the cache are those of the flow, and both memos are right throughout |
| Serving.AttemptsMoveForward | lb/lb.go:387-458 | at most three attempts, with roles strictly from state to archive to native |
| Serving.RetriesAreSettled | lb/lb.go:538-600 | each retry was asked for by the response before it, and the answer given leaves no retry open |
| Serving.NoBackendRule | lb/lb.go:387-458 | the answers that no backend, or no native backend, is available are given exactly when the choices at that point failed, and the first attempt has the role first chosen |
| Serving.LaterAttempts | lb/lb.go:420-457 | retries are the responses of the archive and the native node |
| Serving.CodesAre | lb/lb.go:609-653 | the codes of a body are those read from it trimmed, unless it is blank or has neither quoted key |
| Serving.RememberedIsEarned | lb/lb.go:578-593 | a hash is remembered exactly when it was pinned with Equals by a request that is no batch, missed by a state node, then served by an archive node with 200 and neither -39006 nor -39007 |
| CacheRuns.CachedHashesAreEarned | lb/lb.go:551-593 | in every interleaving of requests and evictions every cached hash was earned on its own chain |
| CacheRuns.EarnedIsHeld | lb/lb.go:578-593 | a run that earned its hash can teach it, and then the cache holds it |
| CacheRuns.ShortcutAnswer | lb/lb.go:387-440 | a shortcut gives the normal answer unless only archive nodes are usable, the no-archive fallback included |
| CacheRuns.CacheKeepsAnswers | lb/lb.go:387-440 | in every reachable world, with steady roles and misses that depend on chain and hash, the answer equals the one without the cache exactly outside that case |
| ServedNodes.ReachablePools | lb/selector/random/random.go:112-127 | in every run the lists of a chain hold nodes of their own kind only |
| ServedNodes.ChoiceRole | lb/lb.go:405-408 | a node chosen from such lists has, by its own source and type, the role asked for, and an unforced one the role of the pool the decision names |
| ServedNodes.SelectionObeys | lb/lb.go:470-486 | so the choices of the node selection meet what the flow relies on, do not change with the call, and succeed exactly when a picked node is usable |
| ServedNodes.CacheCanChangeAnswer | lb/lb.go:387-440 | a reachable cache, a request that takes the shortcut and pools for which the answers with and without the cache differ |
| UsageCollector.RecordKeeps | usage/collector.go:95-131 | a record keeps conservation, gauge, report error and wake-up |
| UsageCollector.LoopKeeps | usage/collector.go:133-207 | every step of the flush loop keeps them |
| UsageCollector.CloseKeeps | usage/collector.go:212-233 | every step of closing keeps them |
| UsageCollector.AlwaysInv | usage/collector.go:95-233 | in every run accepted equals active, in flight, sent and dropped per client; the gauge counts the keys in memory; reports are off by at most a millisecond a record, for sent and for dropped usage each; at the threshold a token is pending, about to be posted, or just taken |
| UsageCollector.RecordedIsConserved | usage/collector.go:95-233 | in every run, the durations recorded for a client before the close, counted from the steps alone, are what is in memory, in a write, sent and dropped |
| UsageCollector.WrittenIsBooked | usage/collector.go:172-207 | in every run, sent is what was in the batches whose writes succeeded, and dropped what was in the others |
| UsageCollector.TickFlushes | usage/collector.go:133-170 | a tick of the idle loop and the two steps after it empty the window, whatever its size |
| UsageCollector.CloseFinishes | usage/collector.go:212-233 | closing an idle collector can come to its end |
| UsageCollector.CloseLeavesNothing | usage/collector.go:212-233 | after a close that did not expire nothing is in memory, whatever is called later, and everything recorded was sent or dropped |
| UsageCollector.RecordsOf | usage/collector.go:172-193 | one record per client of the batch, with at least one millisecond |
| UsageCollector.Collector.RecordLocked | usage/collector.go:109-123 | the critical section is the machine's record step, and asks for a flush exactly on a new key at the threshold |
| UsageCollector.Collector.RecordUsage | usage/collector.go:95-131 | a whole call is that step and, when due, the posting step, for the trimmed client or the unknown one |
| UsageCollector.Collector.TakeSnapshot | usage/collector.go:154-166 | swapping the map is the loop's snapshot step |
| UsageCollector.Collector.TakeFinalSnapshot | usage/collector.go:154-166 | the same for the step of closing, which also marks the collector closed |
| UsageCollector.Collector.WriteSnapshot | usage/collector.go:172-207 | lists the batch, and is the loop's write step |
| UsageCollector.Collector.WriteFinalSnapshot | usage/collector.go:172-207 | lists the batch, and is the write step of closing |
| UsageCollector.BooksMatchRecords | usage/collector.go:172-193 | what the listed records report, and their number, is what the books enter for each client |
| Gateways.Gateway.SetWeight | discovery/discovery.go:42-70 | edits the first entry, drops it for the default weight, or appends |
| Gateways.SetWeightUpdates | discovery/discovery.go:42-70 | unique keys stay unique, and the effective weights are the old ones updated at the key |
| Gateways.SetWeightUpdatesIff | lb/jsonrpc/gateway_map.go:90-106 | on any list, exactly when the key has at most one entry or already has the weight |
| Gateways.SetWeightCanFail | discovery/discovery.go:42-70 | a list with two entries for a key where the new weight has no effect |
| Gateways.BuildWeightMap | lb/jsonrpc/gateway_map.go:90-98 | the map in which a later entry wins |
| Gateways.GatewayStrategy.UpdateGateway | lb/jsonrpc/gateway_map.go:90-106 | replaces one chain's weights and routes and no other's |
| Gateways.Gateway.ClearMethodRoute | discovery/discovery.go:72-88 | drops the node from every route and then the empty routes |
| Gateways.ClearedForgets | discovery/discovery.go:72-88 | afterwards no route mentions the node and none is empty |
| Gateways.ClearedRouting | discovery/discovery.go:72-88 | another node's permission changes exactly when the cleared node was the only included one and the other is not excluded |
| Gateways.Gateway.AddMethodRoute | http_handler/handler.go:642-668 | marks the nodes in the method's route, a new one if there was none |
| Gateways.Gateway.RemoveMethodRoute | http_handler/handler.go:816-849 | unmarks the nodes and drops the route when both lists are empty; reports a missing route |
| Gateways.RemoveUndoesAdd | http_handler/handler.go:614-849 | removing what was just added gives the routes back exactly when there was no route, or a non-empty one without these nodes |
| Gateways.AddedRouting | http_handler/handler.go:642-668 | which nodes may serve the method after nodes were added to its route; other methods are as before |
| Gateways.RemovedRouting | http_handler/handler.go:816-849 | the same after nodes were removed, which needs a route |
| GatewayStore.InvStep | http_handler/handler.go:546-593 | a client whose revision is current holds the current configuration, after every step, deletions and outside writes included |
| GatewayStore.AlwaysSerial | http_handler/handler.go:546-593 | the stored configuration is the result of the committed operations one after the other |
| GatewayStore.CommitsAreSerial | http_handler/handler.go:567-593 | a commit that succeeds applies its operation to exactly the configuration stored at that moment |
| GatewayStore.UndisturbedCommits | http_handler/handler.go:567-593 | a client that commits before anybody else has written succeeds, unless it creates a node that is there |
| GatewayStore.FirstEdit | http_handler/handler.go:546-564 | an absent gateway is edited from the empty configuration, and an unreadable one cannot be edited |
| GatewayStore.WeightOpsMean | http_handler/handler.go:340-464 | the weight operations change one node's effective weight, and a deleted node has the default |
| GatewayStore.RouteOpsMean | http_handler/handler.go:614-849 | the route operations change one method's route and no weight; a deleted route lets every node through |
| GatewayStore.HistoryTidy | http_handler/handler.go:105-112 | committed configurations have unique keys if outside writes do |
| GatewayStore.RemoveNodeForgets | http_handler/handler.go:426-464 | one commit takes a deleted node's key, its weight and its place in every route |
| Shutdown.LargestTimeout | cmd/proxy/main.go:66-71 | the largest of the default and the method timeouts |
| Shutdown.AddOverheads | cmd/proxy/main.go:75-85 | the positive overheads added without overflow, or saturation, and that only when the sum passes the bound |
| Shutdown.GracefulExitWait | cmd/proxy/main.go:62-90 | the minimum of the largest duration and three times the attempt time plus the buffer; the buffer alone without timeouts |
| Shutdown.ReadTimeoutIs | lb/lb.go:490-495 | a method's own positive timeout counts, and else the default |
| Shutdown.WaitCoversRuns | lb/lb.go:490-495 | an unsaturated wait covers the configured timeouts of all attempts of all runs of a method, with the buffer to spare, exactly when the method's read timeout is at most the largest configured one |
| Shutdown.DurationsAreCovered | cmd/proxy/main.go:62-90 | so it covers every method whenever the default timeout fits a duration |
| Shutdown.WrappedDefaults | lb/lb.go:490-495 | the first default that does not fit wraps around to a timeout that is not covered, and a lower one to one that is |

## Left out

- JSON libraries: validation, unescaping, case folding beyond ASCII, and the native skip of large lists are given functions; the models need only that they leave plain ASCII alone and agree with the tree decoders.
- One difference between the JSON decoders, the rejection of numbers that overflow a float, is not modelled.
- Hex and hash decoding of block ids is a given partial function shared by both decoders.
- The three pool maps of the selector are one map from slots to node values; only the node lists themselves are modelled as shared objects updated in place.
- A watch response is dispatched in one step; key patterns, and decoding of node values, are given functions.
- Nodes added by hand to one proxy (`AddLocalNode`) enter the same event queue; such events are left out of PoolsConverge, because the pool then holds nodes that the store does not.
- Building a node object in the event loop is taken to succeed.
- Generations and accumulated durations are unbounded integers, so wrap-around at 64 bits is not modelled.
- ServeHTTP: chain id parsing, the version router, and the processors before and after the flow are not modelled; the error bodies the proxy renders are a given function.
- ParseErrorCodes: decoding the error codes of a body is a given function of the trimmed body.
- UpsertInto: assumes that the new node is a new object, as its callers always create one.
- RecordsOf: record ids, timestamps and the constant service fields are not modelled.
- PoolsConverge: assumes that node values decode and that distinct keys name distinct nodes, which is how the store is used; the assumptions on slots are needed (`MoveLeavesOldNode`, `HiddenDeleteLeavesOldNode`).
- CacheKeepsAnswers: the cache's own eviction policy is arbitrary removal.
- Gateway JSON: a stored route whose lists are null is not modelled; configurations read back as they were written.
- UpdateNode, writer listing and the node-existence checks before route edits read the store without a transaction.
- Mirrors, mirror limiter, height map, metrics, logging, configuration loading and process wiring would only add easy members.
- Real time, retry pauses and the quality of randomness: steps are nondeterministic and the draw is any number in range.
