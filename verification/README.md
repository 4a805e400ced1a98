# Kharcha, modelled in Dafny

Kharcha finds out which workloads of a Kubernetes cluster cause network cost, and what to do about it. This project models
the parts of it that decide something and proves what they promise.

An agent on every node counts bytes per flow in a kernel map (`Flows`, `FlowRuns`), scrapes it, classifies and prices what
it finds and keeps a cumulative report (`Scraping`, `Classify`, `Pricing`, `Report`, `ReportRuns`, `ReportedFindings`), and
alerts on it (`Alert`). A control plane stores the snapshots it is sent and folds old ones into daily rollups (`Tables`,
`Compaction`, `StoreRuns`, `MeasureRuns`). On top of the two tiers it looks up history and the latest state (`History`,
`Latest`), gates automatic network policies on a replay of past traffic (`TrafficReplay`, `Remediation`,
`RemediationSafety`), ranks workloads by growth and sets deploy events beside them (`Growth`, `DeployEvents`, `GrowthRuns`,
`TrendPoints`), forecasts cost (`Forecast`, `HoltGrid`, `Backtest`, `DeepForecast`), follows recommendations from showing to
measured outcome (`Outcome`, `OutcomeRuns`, `OutcomeTimes`, `MeasuredOutcomes`), searches for a cheaper placement
(`PlacementGraph`, `Placement`, `PlacementSearch`, `PlacementProperties`, `PlacementOptimizer`), and hides names from a
language model and brings them back (`Aliases`, `Restore`, `Sanitizing`, `SanitizedJson`; `HiddenNames` and `Privacy` say
what is hidden and what is given away). `Pipeline` and `PipelineWitness` follow a finding from the agent's report through
the store to the gate. `Text`, `Sums`, `Reals` and `Findings` hold what these share.

Code that updates state is a class or a method with the source's loops, tied by its contract to a function; what the source
promises is proved about these functions, and about runs of a state machine built from them. What the functions themselves
mean is stated once more in plain terms, by the fields, key texts and price book entries of the source, in `MeasureRuns`,
`HiddenNames`, `ReportedFindings`, `OutcomeTimes`, `MeasuredOutcomes` and `TrendPoints` and next to the functions elsewhere.

`dafny verify dfyconfig.toml` checks the whole project.

## Reading the model

- Costs, rates and forecasts are reals; byte counts are natural numbers. Rounding, overflow of 64-bit counters and overflow
  of integer columns are not modelled. Properties that need non-negative costs say so.
- Timestamps are seconds since the epoch and not negative. A step takes its timestamp from the clock as it happens; the
  delay between reading the clock and committing is not modelled.
- A transaction is all or nothing. `fails(n)` decides whether its n-th statement fails, so every failure is covered.
- Grouping and ranging over a Go map visit keys in an arbitrary order, and results depend on it only in
  which number an alias gets.
- A missing savings column reads as 0.0. A manifest is the decoded document, not its text.
- A hook runs as one step. `Scraping.Scrape` is given the keys the map iterator yields, so an iteration that stops early or
  repeats a key is covered; one that does neither lists every key of the map once. A scrape is
  one step: packets counted while it runs, between two visits of one key, are not modelled.
- Square root is a parameter that must be one. Kubernetes, cgroup and zone lookups, webhook answers and random draws are
  parameters or arbitrary values.
- `Times(k, x)` in the placement bounds is k times x (`PlacementProperties.TimesAdds`).

## Where the code and its comments disagree

- `controlplane/placement.go:32-44` speaks of pairwise swaps; the code moves single workloads and guards against emptying a
  zone. The model follows the code.
- `controlplane/traffic_replay.go:34-40` says a safe replay means that nobody else ever talked to the destination. The code
  compares costs, so traffic recorded at no cost does not count, and it looks only at what is recorded under the address, so
  traffic to the same address that was resolved to a name does not count either, paid or not: `Pipeline.SafePromise`,
  `PipelineWitness.PaidCollateralIsUnseen`.
- `controlplane/traffic_replay.go:72-75` says the store keeps destinations as bare addresses. The agent records them by name
  where it can, and always for cross-region traffic to a pod or service, which is the only traffic that can qualify. The
  lookup by address then never sees it: `Pipeline.OwnTrafficIsNoEvidence`, `PipelineWitness.OwnTrafficAloneIsRefused`.
- `agent/cmd/kharcha/alert.go:14-19` promises not to alert on every tick once a flow has settled. That takes a growth ratio
  above one and findings that cost something; a threshold of zero is accepted, and then a finding that costs nothing is
  posted at every check: `Alert.SettledIff`, `Alert.DueAfterCheck`.
- `controlplane/outcome.go:128-134` measures outcomes that are applied but not measured. The write does not check this again,
  so a measurement is for good exactly when no pass has its outcome in hand: `OutcomeRuns.MeasuredForGood`.
- `controlplane/workloadgrowth.go:41-50` reads the rollup so that compaction does not change what growth means. It keeps the
  total, but it merges the snapshots of the first and the last day into one point each: `GrowthRuns.GrowthAfterCompaction`.
- `agent/cmd/kharcha/main.go:246-248` only logs an iteration that stops early. A flow it missed counts again at the next
  scrape, unless nothing of it had been attributed: `FlowRuns.UnevictedIsExact`, `FlowRuns.HarmlessUnevicted`.
- `controlplane/forecast.go:55-58` damps every trend with phi below one. From 0.999999 on the code does not:
  `Forecast.ProjectionIsCoasting`. No grid point is that close.

## Model

| member | source | states |
|---|---|---|
| `Placement.BuildPlacementGraph` | controlplane/placement.go:62-98 | the workloads and pairs are exactly those of the admitted findings, sorted, each pair once with the sum of its findings in either direction |
| `PlacementGraph.EdgeKeyIsThePair` | controlplane/placement.go:100-105 | two pairs share a key if and only if they are one unordered pair |
| `Placement.BuildAdjacency` | controlplane/placement.go:158-168 | every workload's row holds what it exchanges with each neighbour |
| `PlacementGraph.MoveChangesCut` | controlplane/placement.go:203-210 | for every graph, assignment and target the neighbours' delta is the cut after the move minus the cut before, over all edges |
| `Placement.RowSumsToToward` | controlplane/placement.go:203-210 | summing a row over neighbours in any order gives the weight toward the old zone minus the weight toward the new one |
| `Placement.MoveDelta` | controlplane/placement.go:203-210 | the inner loop returns exactly the change of the global cut |
| `Placement.BestMove` | controlplane/placement.go:190-221 | no move is returned only at a local optimum; a returned move is permitted, lowers the cut, lowers it most, and is the first such in node and zone order |
| `PlacementSearch.Shuffle` | controlplane/placement.go:269-274 | a permutation, any of which may come out |
| `PlacementSearch.InitialSplit` | controlplane/placement.go:180-186 | the round-robin start, which `StartIsBalanced` and `StartPopulates` describe, with group sizes that count the assignment |
| `PlacementSearch.StartPopulates` | controlplane/placement.go:180-186 | the start populates exactly the first min(n, K) zones |
| `PlacementSearch.StartIsBalanced` | controlplane/placement.go:180-186 | no two zones of a start differ by more than one workload, and an earlier zone is never the smaller one |
| `PlacementSearch.MovesUnbalanceSlowly` | controlplane/placement.go:188-226 | after i moves of a restart no two zones differ by more than 1 + 2i workloads |
| `PlacementSearch.Descend` | controlplane/placement.go:188-226 | a chain of chosen moves from the start, at most 500; fewer means it ended at a local optimum; group sizes count the assignment throughout |
| `PlacementSearch.LocalSearch` | controlplane/placement.go:177-226 | one restart: a start of shuffled workloads dealt round-robin, followed by such a chain |
| `PlacementProperties.SearchLowersCut` | controlplane/placement.go:188-226 | every later assignment of a restart cuts strictly less |
| `PlacementProperties.SearchNeverRepeats` | controlplane/placement.go:188-226 | no assignment occurs twice in a restart |
| `PlacementProperties.SearchIsBounded` | controlplane/placement.go:189-226 | without the iteration cap a restart would still visit at most K^n assignments |
| `PlacementProperties.SearchIsDetermined` | controlplane/placement.go:190-225 | a restart is determined by its start |
| `PlacementProperties.SearchKeepsZones` | controlplane/placement.go:194-198 | a zone that was populated at the start stays populated through every move |
| `PlacementProperties.LocalOptimumBound` | controlplane/placement.go:194-221 | at a local optimum, K times twice the uncut cost is at least twice the total minus the degrees of workloads alone in their zone |
| `PlacementProperties.LocalOptimumShare` | controlplane/placement.go:194-221 | so without lone workloads K * cut <= (K - 1) * observed |
| `PlacementOptimizer.OptimizePlacement` | controlplane/placement.go:147-261 | the reported numbers are those of the first cheapest of twelve restarts over the graph of the findings |
| `PlacementOptimizer.CutCost` | controlplane/placement.go:228-233 | the cost loop computes the cut |
| `PlacementOptimizer.ResultBeatsRestarts` | controlplane/placement.go:228-238 | the reported cost is the cut of the reported assignment, no restart starts or ends cheaper, and the first min(n, K) zones are populated in it |
| `PlacementOptimizer.FallbacksNeverFire` | controlplane/placement.go:241-249 | with non-negative costs the nil fallback and the clamp are dead code, observed is the cost of the admitted findings, and savings are exactly observed minus optimized |
| `PlacementOptimizer.ApproximationBound` | controlplane/placement.go:189-249 | when the reported iterations are below 500: 2K * savings >= 2 * observed minus the degrees of lone workloads, and without lone workloads K * optimized <= (K - 1) * observed |
| `PlacementOptimizer.FewWorkloadsSaveNothing` | controlplane/placement.go:44-48 | with no more workloads than zones nothing moves and nothing is saved, for costs of either sign |
| `PlacementOptimizer.PlacementKeepsPromises` | controlplane/placement.go:121-261 | for the caller: exact totals, a cost that is the cut of the returned assignment, all first min(n, K) zones populated, the share saved, and no saving with no more workloads than zones |
| `PlacementOptimizer.AssignmentIsBalanced` | controlplane/placement.go:180-256 | a reported assignment that took no iterations is balanced, earlier zones first; after n iterations zones differ by at most 1 + 2n workloads |
| `Compaction.Store.Ingest` | controlplane/store.go:398-432 | all rows of one snapshot with one timestamp, or nothing when any statement fails |
| `Compaction.Store.CompactFindingsOlderThan` | controlplane/compaction.go:53-147 | either nothing changes, or rows below the cutoff are folded into their daily rows and all others stay; reports groups and deleted rows |
| `Compaction.GroupOlderRows` | controlplane/compaction.go:60-99 | one group per daily key of the older rows, with that key's seven sums |
| `Compaction.FoldedIsRollup` | controlplane/compaction.go:107-131 | upserting the groups one after the other, in any order, adds each group's sums to its daily row and touches no other |
| `StoreRuns.RunIsFaithful` | controlplane/compaction.go:53-147 | after any run the raw table is the unfolded part of everything ingested and the daily table the rollup of the folded part |
| `StoreRuns.Conservation` | controlplane/compaction.go:37-52 | in every run, for each daily key and each of the seven measures, rollup plus remaining raw rows is everything ever ingested |
| `MeasureRuns.LogIsIngested` | controlplane/store.go:398-432 | what the laws above and below call everything ever ingested is the rows of the ingest steps in order, field by field |
| `MeasureRuns.EachMeasureIsConserved` | controlplane/compaction.go:37-52 | after any run, for each tenant, cluster, pair, class and UTC day and each measure on its own: the daily row plus the sum of that field over the raw rows is its sum over everything ever ingested |
| `MeasureRuns.CompactionMovesEachMeasure` | controlplane/compaction.go:53-147 | one compaction of any tables takes exactly the rows below the cutoff out of the raw table, and no key loses or gains anything in sent or received bytes, low or high cost, low or high savings, or sample count |
| `StoreRuns.OneCompactionSuffices` | controlplane/compaction.go:46-52 | a schedule of compactions leaves the tables of one compaction at its largest cutoff if and only if every row stamped below that cutoff is followed by a compaction that reaches it |
| `StoreRuns.ClockMakesTimely` | controlplane/compaction.go:46-52 | which holds whenever no ingest is stamped below an earlier cutoff |
| `StoreRuns.StaleIsMissed` | controlplane/compaction.go:46-52 | a timestamp still has raw rows exactly when one of its ingests was missed by every later compaction |
| `StoreRuns.CompactionsCompose` | controlplane/compaction.go:46-52 | on any tables two compactions are one at the larger cutoff, so they commute and repeat harmlessly |
| `History.HistoricalFlowsToDestination` | controlplane/store.go:565-593 | every source with rows in either tier once, with its summed cost |
| `History.HistoryIsComplete` | controlplane/store.go:565-593 | after any run the lookup sees exactly the sources and costs of everything ever ingested, compacted away or not |
| `History.AnswerAsIngested` | controlplane/store.go:565-593 | after any run an answer has exactly the sources ever ingested with the tenant, cluster and destination asked for, once each, and each with all it ever cost |
| `Latest.LatestFindings` | controlplane/store.go:504-554 | the rows of each cluster's latest snapshot, dearest first, cut at the limit |
| `Latest.ViewAsStored` | controlplane/store.go:504-554 | the view is the fields of the first rows of a listing that has the rows of the tenant no row of their cluster is newer than, each as often as it is stored, dearest first |
| `Latest.ViewAfterCompaction` | controlplane/compaction.go:20-24 | a compaction leaves the rows of this view, before the limit, as they were for every cluster with a row at or after the cutoff, and removes all others |
| `Latest.LimitedViewAfterCompaction` | controlplane/compaction.go:20-24 | with the limit: every row of a living cluster that was shown stays, in order and before all others; the places of dead clusters' rows go to rows that had been cut off |
| `TrafficReplay.ExtractNamespace` | controlplane/team.go:79-88 | the text before the first slash, if it is a DNS label |
| `TrafficReplay.LabelIsMatch` | controlplane/team.go:72 | a label is what the source's pattern matches: letters and digits, with hyphens only inside |
| `TrafficReplay.NamespaceIsRecognised` | controlplane/team.go:65-88 | every "namespace/pod" name is recognised as of its namespace |
| `TrafficReplay.ParseGeneratedNetworkPolicy` | controlplane/traffic_replay.go:79-99 | namespace and bare addresses of a decoded policy; fails only on text that is no policy document |
| `TrafficReplay.EvaluateTrafficReplay` | controlplane/traffic_replay.go:115-164 | intended and collateral sums, affected workloads sorted and once each, safe exactly when the subject paid and nobody else of the namespace did, and the share as score |
| `RemediationSafety.SafeButAffected` | controlplane/traffic_replay.go:34-40 | a replay is safe and still lists affected workloads exactly when the subject paid and the others recorded under a blocked address are so at no cost only |
| `RemediationSafety.FreeTrafficIsOverlooked` | controlplane/traffic_replay.go:115-164 | such a history: safe, with another workload listed as affected |
| `Remediation.EvaluateRemediation` | controlplane/remediation.go:71-117 | one decision per hinted finding, with the reasons of exactly the bars it fails |
| `Remediation.ApplyTrafficReplayResult` | controlplane/remediation.go:183-207 | attaches the replay to one decision in place; an unsafe one overrides it and replaces its stale reason |
| `Remediation.SimulateTrafficReplay` | controlplane/remediation.go:142-176 | decisions with no manifest or already disqualified are untouched, unreadable policies are refused, the rest are replayed; fails exactly when a needed lookup does |
| `RemediationSafety.ReplayDecidesSafety` | controlplane/remediation.go:162-172 | a replay is safe if and only if, among all rows ever ingested under a blocked address, the subject has paid ones and no other workload of the namespace does |
| `RemediationSafety.AutoApplyIsSafe` | controlplane/remediation.go:71-207 | in every reachable store state a finding survives the default pipeline if and only if it clears the bars, its policy names a namespace and an address, and all rows its tenant and cluster ever ingested under a blocked address show the policy safe |
| `RemediationSafety.OtherRowsKeepTheDecision` | controlplane/remediation.go:142-172 | two histories that agree on the rows recorded under a blocked address lead to one decision, whatever else they hold |
| `Pipeline.RecordedByAddress` | agent/cmd/kharcha/report.go:216-256 | traffic of any class is recorded under its address if and only if nothing names its destination: no resolved service, no pod, and no endpoint with a pod or another address |
| `Pipeline.CrossRegionIsResolved` | agent/cmd/kharcha/report.go:216-256 | cross-region traffic is recorded by name, except to an endpoint that is neither behind a resolved service nor a pod: that is recorded by its address |
| `Pipeline.ShippedFindingIsGated` | controlplane/remediation.go:36-44 | from report to decision: a shipped finding survives the default pipeline if and only if it crosses regions, has a manifest, saves enough, and the rows ever ingested under its address show its policy safe |
| `Pipeline.OwnTrafficIsNoEvidence` | controlplane/traffic_replay.go:72-79 | for shipped histories with cross-region traffic by name: a finding survives if and only if it clears the bars, its source also paid for the bare address under another class, and nobody else of the namespace has a paid row under that address |
| `Pipeline.SafePromise` | controlplane/traffic_replay.go:34-40 | for a finding that survives: nobody else of the namespace ever talked to the blocked address if and only if all the others' traffic to it was recorded at a cost and, by what was known of its destination, under the address; and nobody paid for it if and only if all their paid traffic was recorded under it |
| `Pipeline.NamedTrafficChangesNothing` | controlplane/traffic_replay.go:72-79 | ingesting findings that are recorded by name never changes whether a policy counts as safe, not even if their address is the blocked one |
| `Pipeline.OverlookedSurvives` | controlplane/remediation.go:142-176 | wherever paid traffic of another workload to the blocked address is overlooked in this way, the default pipeline lets the finding through |
| `PipelineWitness.PaidCollateralIsUnseen` | controlplane/traffic_replay.go:34-40 | a shipped history in which a policy counts as safe although another workload of the namespace paid for the very address it blocks, and no lookup by the address returns it |
| `PipelineWitness.OwnTrafficAloneIsRefused` | controlplane/traffic_replay.go:72-79 | a shipped finding that clears every bar and is refused, because its own traffic is all the history there is |
| `Aliases.AliasTextInjective` | controlplane/ai_sanitize.go:122-123 | an alias determines its kind and number |
| `Text.DecimalReadsBack` | controlplane/ai_sanitize.go:122-123 | the number of an alias is its decimal numeral, with no leading zero |
| `Aliases.AliasesDistinct` | controlplane/ai_sanitize.go:114-129 | no two recorded names share an alias, across kinds too |
| `Aliases.AliasOfInjective` | controlplane/ai_sanitize.go:114-129 | two names get one alias exactly when they are one name of one kind |
| `Sanitizing.Sanitizer.Alias` | controlplane/ai_sanitize.go:114-129 | keeps forward, reverse and counters in step with the list of issued aliases, issues at most one, and returns the name's own |
| `Sanitizing.Sanitizer.Identifier` | controlplane/ai_sanitize.go:134-146 | both halves of "namespace/pod" are aliased separately, anything else as a whole; a disabled sanitizer changes nothing |
| `Sanitizing.IdentifiersStayDistinct` | controlplane/ai_sanitize.go:131-146 | two identifiers of one kind are sent alike exactly when they are alike |
| `Sanitizing.SharedNamespace` | controlplane/ai_sanitize.go:138-143 | two namespace/pod names are sent with one first half exactly when they share their namespace |
| `Sanitizing.Sanitizer.Restore` | controlplane/ai_sanitize.go:204-218 | replaces every alias once, longest first, equal lengths in any order |
| `Restore.AliasRestoredIff` | controlplane/ai_sanitize.go:200-218 | an alias is restored to its name if and only if the aliases replaced after it leave that name as it is, a check on the table alone |
| `Restore.EntryRestoredIff` | controlplane/ai_sanitize.go:200-218 | the same for every issued alias, whatever order its ties are replaced in |
| `Restore.RestoreUndoes` | controlplane/ai_sanitize.go:200-218 | any text of issued aliases between alias-free text bounded by non-alias characters is restored slot by slot, each alias as if it stood alone, in every longest-first order; so to the names if each alias in it is |
| `Restore.ClearNamesReturn` | controlplane/ai_sanitize.go:200-218 | every alias is restored to its name, in every such order, if no recorded name contains the alias of another one that is as long or shorter than its own |
| `Sanitizing.IdentifierRoundTrip` | controlplane/ai_sanitize.go:134-218 | an identifier comes back, even after more aliases were issued, if each of its aliases does; one sent whole only then, and one sent in halves too unless its first half is restored to something with a slash |
| `Restore.AliasLikeNameIsLost` | controlplane/ai_sanitize.go:204-218 | an alias that does not come back: a namespace called like a workload's alias is restored to that workload's name |
| `SanitizedJson.UnderscoresVanish` | controlplane/ai_sanitize.go:55-63 | underscores in a key do not matter, and a normalized key has none and no upper case |
| `SanitizedJson.CaseVanishes` | controlplane/ai_sanitize.go:55-63 | nor does the case of any letter |
| `SanitizedJson.Walk` | controlplane/ai_sanitize.go:171-198 | the shape and every leaf not under a listed key are kept, listed strings are aliased, manifests dropped; the aliases issued are exactly those of the identities in order; for the keys see `HiddenNames.SentValuesHide` |
| `Privacy.SentAlike` | controlplane/ai_sanitize.go:23-35 | two values that become one by renaming identities, different names staying different, whatever stands in their dropped fields, are sent alike, and so are all values after them: only shape, open leaves and equality of names are given away |
| `HiddenNames.SentValuesHide` | controlplane/ai_sanitize.go:55-87 | by the key texts: in every sent value a string under source, srcworkload, workload, destination, dstworkloadorendpoint, clusterid, namespace, name or team, in any spelling, is an alias of its kind or, in two parts, namespace_i/workload_j; everything else is as it was; and no field spelled fixmanifest is left at any depth |
| `HiddenNames.FieldsInUseAreHidden` | controlplane/ai_sanitize.go:55-87 | ClusterID, cluster_id, src_workload and dst_workload_or_endpoint are such keys, and fix_manifest is not sent |
| `HiddenNames.PlainKeysStand` | controlplane/ai_sanitize.go:55-63 | a key without underscores and upper case is its own normal form |
| `HiddenNames.NamesStayHidden` | controlplane/ai_sanitize.go:23-35 | two values that become one by renaming the strings under these keys, whatever stands in their manifests, are sent alike, and so are all values after them |
| `SanitizedJson.WalkRoundTrip` | controlplane/ai_sanitize.go:171-218 | restoring every aliased string gives the original without its manifests if and only if each of its identities comes back |
| `SanitizedJson.ClearValuesReturn` | controlplane/ai_sanitize.go:171-218 | which they all do when no recorded name contains another alias that may be replaced later |
| `Flows.BuildKey` | bpf/flow_cgroup.c:35-62 | a key for every IPv4 packet with a full header, local end first whichever way it travels |
| `Flows.OppositePacketsShareKey` | bpf/flow_cgroup.c:54-60 | an outgoing and an incoming packet share a key if and only if addresses and ports are exchanged and protocol and control group agree |
| `Flows.PortsAreRead` | bpf/flow_cgroup.c:42-60 | the ports of a key are the first two numbers of the payload in network order, the local one first, for TCP and UDP packets that hold them, and zero otherwise |
| `Flows.RemoteAddressIsPrinted` | agent/cmd/kharcha/main.go:89-93 | the printed remote address is the four header bytes of the far end, for either direction |
| `Flows.FlowMap.Egress` | bpf/flow_cgroup.c:64-73 | the bytes of a countable packet go to this CPU's sent counter of its key, nothing else changes |
| `Flows.FlowMap.Ingress` | bpf/flow_cgroup.c:75-84 | likewise for received bytes |
| `Flows.FlowMap.Evict` | bpf/flow_cgroup.c:23-33 | the least-recently-used map drops a key on all CPUs at once |
| `Flows.SumCpus` | agent/cmd/kharcha/main.go:137-146 | the sum over CPUs |
| `FlowRuns.AccountsBalance` | agent/cmd/kharcha/main.go:95-151 | over every interleaving of packets, evictions and scrapes, whatever a scrape visits: attributed + due at the next scrape + lost to evictions = crossed + attributed in excess, for every flow and both directions |
| `FlowRuns.CrossedIsPackets` | bpf/flow_cgroup.c:64-84 | where crossed is the bytes of the flow's own packets, sent and received apart |
| `FlowRuns.NeverOverCounts` | agent/cmd/kharcha/main.go:95-151 | so a flow is attributed more than crossed the hooks if and only if its excess is more than what is due or lost; never, evictions or not, if no scrape does it harm |
| `FlowRuns.UnevictedIsExact` | agent/cmd/kharcha/main.go:95-151 | a flow that is never evicted is accounted for exactly if and only if no scrape does it harm |
| `FlowRuns.HarmlessUnevicted` | agent/cmd/kharcha/main.go:117-151 | and a scrape does it harm exactly when it misses the flow with a non-zero last snapshot, or visits it again with new traffic |
| `FlowRuns.EvictionCanLoseBytes` | bpf/flow_cgroup.c:23-33 | an eviction can lose bytes |
| `FlowRuns.MissedVisitOverCounts` | agent/cmd/kharcha/main.go:246-255 | a scrape that misses a counted flow makes the next one attribute its whole counter a second time |
| `FlowRuns.RepeatedVisitOverCounts` | agent/cmd/kharcha/main.go:136-151 | a scrape that visits a flow twice attributes its new traffic twice |
| `Scraping.Scrape` | agent/cmd/kharcha/main.go:117-256 | the new snapshot is that of the visited flows, and the report gets one call per visited flow with traffic, in visiting order |
| `Scraping.CallsAreVisits` | agent/cmd/kharcha/main.go:136-244 | every call is that of a visited flow: its new sent and received bytes, its control group and far address, and what the lookups say of both ends |
| `Scraping.WindowBytes` | agent/cmd/kharcha/main.go:136-244 | the bytes of one scrape's calls are those it attributes, in each direction |
| `Scraping.ReportsCompose` | agent/cmd/kharcha/main.go:233-243 | a report fed by several scrapes is the report of all their calls |
| `Scraping.ReportNeverOverCounts` | agent/cmd/kharcha/main.go:117-256 | from hooks to report, whatever the scrapes visit, in each direction: the bytes of all findings + due + lost = crossed + excess, and never more than crossed if no scrape does harm |
| `Classify.PrivateByOctets` | agent/cmd/kharcha/classify.go:113-122 | exactly the three ranges of RFC 1918, section 3, read off the octets |
| `Classify.BlockIsRange` | agent/cmd/kharcha/report.go:128-136 | an address is in a block exactly when it is among its size addresses from the last multiple of the size up to its base |
| `Classify.IpTextInjective` | agent/cmd/kharcha/report.go:186-189 | different addresses are written differently |
| `Classify.RegionIsStem` | agent/cmd/kharcha/classify.go:124-131 | a zone's region is all of it but its trailing letters |
| `Classify.ConfidenceFollowsClass` | agent/cmd/kharcha/classify.go:57-111 | the class fixes the confidence, except for SAME_AZ, which is high or low |
| `Classify.CrossingNeedsZones` | agent/cmd/kharcha/classify.go:73-110 | each class if and only if its case: two different known zones on two nodes for CROSS_AZ and CROSS_REGION, told apart by their regions; SAME_AZ, doubtful exactly when a zone is unknown; off the cluster a managed address, a private one, and NAT or internet egress by whether the node has a public address |
| `Classify.DirectionsClassifyAlike` | agent/cmd/kharcha/classify.go:73-96 | both directions between two nodes get one class and confidence |
| `Pricing.CostAdds` | agent/cmd/kharcha/pricing.go:85-99 | pricing bytes in parts is pricing them at once |
| `Pricing.SavingsAdd` | agent/cmd/kharcha/pricing.go:66-99 | so are savings against the fix's target class |
| `Pricing.CostIsListPrice` | agent/cmd/kharcha/pricing.go:22-99 | for each class by its own entry of the price book: low + high is twice bytes / 1e9 * rate * exchange rate, zero for a missing entry, and low : high is 85 : 115, 65 : 135 or 40 : 160 at high, medium and low confidence |
| `Pricing.BandsNest` | agent/cmd/kharcha/pricing.go:90-98 | lower confidence widens the band at both ends, strictly when bytes, rate and exchange rate are positive |
| `Pricing.FixesNeverCostMore` | agent/cmd/kharcha/pricing.go:66-79 | where nearer paths cost no more than farther ones, no fix makes anything dearer |
| `Report.GeneratedManifestReadsBack` | agent/cmd/kharcha/fixengine.go:30-68 | the control plane reads back the namespace and the one bare address a manifest was made from |
| `Report.KeyInjective` | agent/cmd/kharcha/report.go:322-327 | a finding's key determines cgroup, class and address |
| `Report.Aggregate.Add` | agent/cmd/kharcha/report.go:176-405 | one finding per cgroup, class and address: described afresh, with this window's bytes, price and saving added |
| `ReportRuns.RunIsConsistent` | agent/cmd/kharcha/report.go:329-404 | in every reachable report each finding is under its own key, carries its class's hint, has a manifest only if its class allows one and then against its own address, and costs what its cumulative bytes cost priced once (SAME_AZ: between the two bands' prices) |
| `ReportedFindings.FindingsAreTheCalls` | agent/cmd/kharcha/report.go:176-405 | every finding of every run shows source, destination, nodes, class, hint and manifest of the last call about its control group, class and address; has the sent and received bytes of exactly those calls; costs what the price book's entry for its class says of them; and saves what the entry its fix moves to would |
| `ReportedFindings.EveryCallIsReported` | agent/cmd/kharcha/report.go:322-381 | every call is about exactly one finding |
| `ReportedFindings.ShippedFindingsSay` | agent/cmd/kharcha/shipper.go:70-89 | what the control plane is sent of a finding: names, class and confidence as text, the bytes of its calls by direction, costs and savings, hint and manifest |
| `ReportRuns.BytesAddUp` | agent/cmd/kharcha/report.go:393-394 | the bytes of all findings are the bytes of all calls, in each direction |
| `ReportRuns.OnlyCrossRegionQualifies` | controlplane/remediation.go:36-44 | under the default policy a finding of any run clears every bar if and only if it crosses regions, has a manifest and saves enough; its manifest blocks its own address |
| `Alert.Alerter.Check` | agent/cmd/kharcha/alert.go:46-73 | posts exactly the findings due when their turn comes, and records exactly those whose post succeeded |
| `Alert.PostsFollowTheRule` | agent/cmd/kharcha/alert.go:46-73 | over any sequence of turns exactly those are posted whose post succeeds, whose cost reaches the threshold, and whose cost is at least the ratio times that of the last post for the same control group, class and address, if that cost something |
| `Alert.ChecksFollowTheRule` | agent/cmd/kharcha/alert.go:46-73 | and a check posts what this rule says for its turns after all earlier checks |
| `Alert.PostsAreBounded` | agent/cmd/kharcha/alert.go:54-71 | after k successful posts for one finding its recorded cost is at least threshold * ratio^(k - 1), for any threshold and any ratio of at least one |
| `Alert.RoundsAreARun` | agent/cmd/kharcha/alert.go:46-73 | any sequence of checks is a run of single turns, so the bound holds for a checking alerter |
| `Alert.RoundsAreBounded` | agent/cmd/kharcha/alert.go:46-73 | that bound, over any sequence of checks |
| `Alert.DueAfterPost` | agent/cmd/kharcha/alert.go:60-71 | a finding just posted is due again if and only if it costs nothing (or less) or the ratio is at most one |
| `Alert.DueAfterCheck` | agent/cmd/kharcha/alert.go:46-73 | after a check of a report, one finding per key, a finding is due if and only if it was due before and its post failed, or it costs nothing, or the ratio is at most one |
| `Alert.CheckSettles` | agent/cmd/kharcha/alert.go:14-19 | with a ratio above one a check whose posts all succeed leaves nothing due, for any threshold and even with repeated keys, if whatever reaches the threshold costs something |
| `Alert.DueAfterReport` | agent/cmd/kharcha/alert.go:46-73 | so for a listing, in any order, of every reachable report |
| `Alert.SettledIff` | agent/cmd/kharcha/alert.go:14-19 | posted successfully, a report leaves nothing due if and only if each of its due findings costs something and the ratio is above one |
| `Forecast.HoltFit` | controlplane/forecast.go:34-53 | fitted values, squared error, level and trend of the damped recurrence |
| `Forecast.NextCorrectsErrors` | controlplane/forecast.go:43-51 | one step is the prediction plus alpha times its error for the level, and the damped trend plus alpha * beta times it for the trend |
| `Forecast.DampedIsGeometric` | controlplane/forecast.go:59-66 | the closed form adds phi + ... + phi^h times the trend |
| `Forecast.ProjectionIsCoasting` | controlplane/forecast.go:55-66 | it is h steps of the recurrence on its own predictions if and only if phi is one or below 0.999999, or the trend or h is zero |
| `Forecast.DampedIsBounded` | controlplane/forecast.go:55-66 | a damped rising trend never exceeds the undamped projection and stays below level + trend * phi / (1 - phi) |
| `HoltGrid.FitBestHolt` | controlplane/forecast.go:73-95 | the first grid point of least error, in search order |
| `HoltGrid.BestFitIsBest` | controlplane/forecast.go:68-95 | its parameters are tenths and its damping factor one of the five (or one), and no such choice fits better |
| `Backtest.RecentWindow` | controlplane/forecast.go:112-120 | the last min(end, 400) points before end |
| `Backtest.OriginsSpread` | controlplane/forecast.go:137-151 | for every length and horizon: as many cuts as there is room for, up to twenty, strictly increasing, from 5 to n - horizon, and as evenly spread as whole numbers can be |
| `Backtest.FoldOrigins` | controlplane/forecast.go:141-151 | the loops produce these cuts |
| `Backtest.BacktestMAE` | controlplane/forecast.go:129-163 | the mean absolute error of projecting from each cut, fitted on the window before it only |
| `DeepForecast.ComputeDeepForecast` | controlplane/forecast.go:196-267 | nothing below three points; otherwise damped exactly when it backtests strictly better, fitted on the recent window, with the band of the residuals' sample deviation |
| `DeepForecast.IntervalsEnclose` | controlplane/forecast.go:237-248 | every point is non-negative and inside its interval |
| `DeepForecast.IntervalsAreWide` | controlplane/forecast.go:203-248 | each interval is centred on its forecast before both are cut off at zero, and its squared half width is 1.2816 squared times the horizon times the sample variance of the one-step errors on the last 400 points |
| `DeepForecast.LineIsTracked` | controlplane/forecast.go:34-53 | plain Holt tracks an arithmetic progression exactly, whatever its smoothing parameters |
| `DeepForecast.LineIsContinued` | controlplane/forecast.go:196-267 | such a series is forecast by plain Holt with backtest error 0, each point the line or 0 with Lower = Forecast = Upper, for every horizon |
| `Outcome.OutcomeTable.RecordRecommendationsShown` | controlplane/outcome.go:39-88 | all hinted fixes upserted, or nothing; an applied row only gets a new last showing |
| `Outcome.LastFixIsLast` | controlplane/outcome.go:39-88 | the baseline a showing leaves is hint, savings and cost of the last hinted fix with the tenant, cluster, pair and class of the outcome |
| `Outcome.OutcomeTable.MarkRecommendationApplied` | controlplane/outcome.go:96-126 | sets the time of an unapplied row, succeeds without change on an applied one, reports an unknown one |
| `Outcome.OutcomeTable.ListPending` | controlplane/outcome.go:136-161 | every applied and unmeasured outcome of the tenant once |
| `Outcome.ReadPendings` | controlplane/outcome.go:170-199 | one reading for each with a newer snapshot, the others stay pending |
| `Outcome.ReadingsAreExact` | controlplane/outcome.go:170-199 | a pass reads exactly the fresh pending outcomes |
| `Outcome.HighestIsHighest` | controlplane/outcome.go:182-194 | the cost read is the pair's highest in that snapshot, 0 only if it is gone |
| `MeasuredOutcomes.MeasuredCostIsThePairs` | controlplane/outcome.go:170-199 | in every run, a stored cost was read off some raw table at the largest timestamp of the outcome's tenant and cluster: it is the highest cost of a row with its source and destination there, or 0 if there is none |
| `MeasuredOutcomes.OtherPairsDoNotMatter` | controlplane/outcome.go:183-194 | rows of other pairs never change a reading |
| `MeasuredOutcomes.RawFollows` | controlplane/store.go:398-432 | the raw table those readings use gains exactly the ingested rows and loses exactly those below a cutoff |
| `Outcome.OutcomeTable.SaveMeasurements` | controlplane/outcome.go:201-223 | all readings saved, or nothing |
| `OutcomeRuns.RunIsSound` | controlplane/outcome.go:33-224 | in every interleaving of showing, applying, ingesting, compacting and any number of measurement passes: first shown <= applied < snapshot <= measured, and every stored cost is the pair's highest in a snapshot that was the latest when read |
| `OutcomeRuns.BaselineIsLastShown` | controlplane/outcome.go:33-38 | cost before and predictions are those of the last showing, for an applied outcome the last showing before the step that applied it |
| `OutcomeTimes.RowTellsItsRun` | controlplane/outcome.go:33-224 | in every run there is a row exactly for what was shown, with the times of the first and the last showing, of the first application after the first showing, and of a save that stored its measurement |
| `OutcomeRuns.AppliedForever` | controlplane/outcome.go:92-126 | application time and baseline never change again |
| `OutcomeRuns.MeasuredForGood` | controlplane/outcome.go:128-224 | in every run, a measurement is kept by all later steps if and only if no measurement pass has its outcome in hand, listed or read |
| `OutcomeRuns.OverlapRemeasures` | controlplane/outcome.go:139-223 | and whenever an outcome can be measured and another snapshot then arrives, two overlapping passes can measure it twice and leave the older snapshot's cost |
| `DeployEvents.RecentDeployEvents` | controlplane/deployevent.go:41-64 | the events of one cluster in the window, both ends included, most recent first |
| `DeployEvents.RecentAsRecorded` | controlplane/deployevent.go:41-64 | each event as often as the table has it for the tenant and cluster between the two times, both included |
| `Growth.WorkloadCostGrowth` | controlplane/workloadgrowth.go:51-138 | the topN fastest growing of all workloads with at least two points, each with its trend over both tiers and exactly the deploy events of its own namespace within that trend; fails exactly when a needed event query does |
| `DeployEvents.SelectionAsRecorded` | controlplane/workloadgrowth.go:110-135 | the related events are each event of the namespace as often as the table has it for the tenant and cluster between the two times, most recent first |
| `TrendPoints.RankingAsStored` | controlplane/workloadgrowth.go:51-138 | by the rows of both tables: a ranking has exactly the workloads of the tenant with more than one time, raw timestamps and UTC days alike, each with one point per time that sums all its rows over all destinations |
| `GrowthRuns.RollupPointsFirst` | controlplane/workloadgrowth.go:41-50 | when every row below the largest cutoff was reached by a compaction, each rollup point of a trend precedes every raw point, and none is both |
| `GrowthRuns.TrendKeepsTotal` | controlplane/workloadgrowth.go:41-50 | after any run a trend adds up to everything ever ingested for its workload |
| `GrowthRuns.GrowthAfterCompaction` | controlplane/workloadgrowth.go:17-22 | whatever has been folded: DeltaINR falls by what the other folded snapshots of the first day cost and rises, once the last day is folded, by what its other snapshots cost; a single point is left exactly when there was one before or everything falls on one folded day |
| `GrowthRuns.GrowthWhileRecent` | controlplane/workloadgrowth.go:17-22 | with the last snapshot still raw, DeltaINR is kept if and only if the rest of the first day costs nothing together |
| `GrowthRuns.OneSnapshotADayKeepsGrowth` | controlplane/workloadgrowth.go:17-22 | one snapshot on the first day, and one on the last once that is folded, leave it alone |
| `GrowthRuns.EventsAfterCompaction` | controlplane/workloadgrowth.go:23-27 | compaction takes from the window of the related events exactly those after midnight of the last day once that day is folded, and adds exactly those between midnight of the first day and the first snapshot |
| `GrowthRuns.OnePointIsNotRanked` | controlplane/workloadgrowth.go:35-40 | a workload is in the ranking, with its events, if and only if it has more than one snapshot time and these do not all fall on one folded day |

## Left out

- Restore.RestoreUndoes: says what a text whose aliases do not all come back is restored to, not when that happens to be the
  text of names after all; for a single alias it is `Restore.EntryRestoredIff`.
- Sanitizing.IdentifierRoundTrip: has no converse for a name sent in halves whose first half is restored to something with a
  slash, where the halves could change and still join to the name.
- OutcomeRuns.RunIsSound: reads the latest time and the cost of one outcome in one step; that a snapshot could change between
  these two queries is not modelled.
- Aggregate fields that only describe a finding (pod, container, address of the source, service ports, backends) and the
  sharing of findings by reference with readers of the report.
- IPv6: the agent counts IPv4 packets only, so the `::/0` and `/128` branch of the manifest is never taken for its findings.
- The branch of `Identifier` for an address containing a slash: no text with a slash parses as an address.
- Lower-casing of keys outside ASCII, and JSON fields whose names coincide.
- YAML and JSON encoding and decoding, SQL text, indexes and migrations.
- Packet counts in flow counters: nothing downstream uses them.
- Cluster summaries, spend by class, cloud and team, budgets, ingesting deploy events and anomalies: sums and single-row
  inserts.
- The cost trend query and the client-side forecast: the forecast starts from the series it is given.
- HTTP handlers, sessions, the chat loop, command lines, metrics, HTML and everything under `controlplane/web`.
- Loading of the kernel program, of price books and of cluster metadata.
- Reproducibility of the shuffle: the model allows any permutation in each restart, the code always draws the same ones.
