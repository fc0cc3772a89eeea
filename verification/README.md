# conntrackd: a model and its proofs

conntrackd polls the connection table of Cambium NSE firewalls, keeps every connection as a session row with an event log,
adds all of it up in a permanent per-port rollup, asks a rate-limited service about public addresses, and proposes deny
rules for ports nobody approved. This project models that logic in Dafny and proves what the program relies on.

`dafny verify dfyconfig.toml` checks everything.

## How the model is laid out

- `Text`, `Flow`, `Base`: ASCII text as Go's `strings` and `strconv` treat it, one connection row, sums over maps.
- `Nse`, `Device`, `Keys`, `Parsed`: the parser with the session stripping before it, the device's layout with and without
  its banner, session keys, approved ports, and what all of these tell apart for rows that came from the device.
- `Tables`, `Store`: the SQLite tables as values and as a mutable object with one method per store call. Every call that
  can fail may fail; a failed call changes nothing.
- `Tracker`, `Poller`: the poller as functions on values, and as an object that updates its tracked sessions in place and
  is proved to do what the functions say, failing calls included.
- `Batches`, `Effects`, `Pruning`, `History`, `Chronicle`, `SessionLaws`, `Rows`, `Conservation`, `Failures`, `Times`,
  `Restart`: what the batches of a prune and the calls of one flow leave behind, and laws over whole runs. A run is a list
  of events: a poller (re)starts, one flow is applied, a poll ends, a prune starts, one of its two DELETE statements runs or
  fails. Any number of firewalls, any interleaving. The histories of all sessions are kept aside, so the laws survive
  pruning.
- `Reputation`, `ThreatIntel`, `Budget`, `Days`, `QueueLaws`, `Wiring`: the lookup worker as an object, as a machine of single
  store calls, any of which may fail, interleaved with requests, status reads and stops of the process, by the clock, and
  with each tick as one step.
- `Search`, `Ruleset`, `Sorting`, `Risk`, `Grouping`, `Displayed`: the query builder, the rule generator with its insertion
  sort, and the dashboard's grouping, also against what the rollup recorded.
- `Reconcile`: one poller per configured firewall while the configuration changes.
- `Scenarios`: inputs and runs within reach for the findings below.

Methods follow the program's loops and updates and are proved equal to functions; the laws are lemmas about those
functions, and name columns, constants and characters themselves, not the functions that compute with them. A run is *clean* when no store call of a poller fails. `FirstBatch` says of the scan behind
`SELECT id ... LIMIT 5000` that it is a function of the matching rows that yields 5000 of them, or all when there are fewer;
`TableFacts.FirstBatchExists` gives one.

## Findings

- Filters on addresses and host names are substring matches only when they hold no `%` and no `_`
  (internal/store/search.go:50-57, 75-78): `Search.SubstringIff`.
- The protocol filter is upper-cased (internal/store/search.go:46-49) while the parser compares in upper case and keeps the
  device's own (internal/nse/parsers.go:113-133), so a row in lower case is never found: `Search.ProtocolFoundIff`. A device
  output, the poll that stores it and the search that misses it: `Scenarios.LowerCaseStored`, `Scenarios.LowerCaseMissed`.
- The comments mention an `end` sample (internal/store/types.go:53); the poller never writes one
  (internal/poller/poller.go:148-159).
- Neither DELETE of a prune orders its sub-select (internal/store/prune.go:18-34). That both scan alike is an assumption on
  SQLite, and it is needed: `Pruning.SecondDeleteSucceedsIff`.
- Rule names (internal/ruleset/generator.go:154-159) tell apart the buckets of two protocols exactly when neither protocol
  ends in a hyphen and the other: `Ruleset.NamesIff`, and with negative ports `Ruleset.NamesIffAnyPort`. Rows of the device
  always meet the condition: `Parsed.ParsedNamesExact`.
- An approval key (internal/store/approved.go:66-68) names one bucket exactly when no number stands between two pipes in the
  protocol or the application, each read with the pipe next to the port: `Keys.ApprovedKeyIff`. The approve handler takes any
  protocol but the empty one and any application (internal/web/handlers.go:179-190), such as those of `Keys.ApprovedKeyClash`. Buckets of parsed rows hold no pipe.
- A deny rule names a port, not an application (internal/ruleset/generator.go:120-130), so it can cover an approved
  application on the same port, and a rule for port 0 covers its whole protocol: `Ruleset.PreviewSparesIff` says exactly when
  a preview spares a bucket, `Scenarios.ApprovedCovered` is the case of two applications on one port.
- The name is no part of a connection (internal/poller/manager.go:73-76), so a poller goes by the listed name after a reload
  exactly when it was restarted or had that name: `Reconcile.NameCurrentIff`. `SyncFirewall` is called for restarted pollers
  only (internal/poller/manager.go:78-82), so the stored name of a kept one stays old too.
- A request asks the cache and then tells the queue, in two store calls (internal/threatintel/manager.go:36-43), and an
  address may be asked for while it is in the worker's hand: it is then queued although its verdict is cached. One store call
  at a time this happens exactly as `Budget.FreshIff` and, over whole runs, `Budget.FreshRunIff` say, and without any
  failure: `Budget.GapReached`.
- A call whose charge fails or is cut short is not counted against the budget (internal/threatintel/manager.go:85-125), and
  an address popped by a tick that is cut short, or whose row or requeue fails, is gone: `Budget.BudgetSafety` and
  `Budget.RequestsKept` have exactly these as terms. `Budget.BudgetOverrun` is a run with one lost charge that makes one
  call more than the window has, whatever the budget; `Days.BudgetByTheClock` bounds them by UTC day.
- When the sample of a state change or heartbeat fails after the bucket was bumped (internal/poller/poller.go:208-226), the
  same growth is counted again at the next poll: `Failures.BytesWithFailures` has the amount as a term, `Failures.ExcessIff`
  says when it is 0, and `Scenarios.CountedTwice` is a run with one failed sample.

## Model

| member | source | states |
|---|---|---|
| `Pollers.Poller.ApplyPoll` | internal/poller/poller.go:133-143 | updating tracked objects in place, with any map order and any pattern of failing calls, is the pure poll `Tracker.ApplyPoll` on tables, map and requests |
| `Pollers.Poller.ApplyFlow` | internal/poller/poller.go:161-229 | one flow starts or continues a session; stops at the first failing call with exactly the earlier calls done |
| `Pollers.Poller.StartFlow` | internal/poller/poller.go:163-194 | row, start sample, bucket, then the request and the map entry, only if all three calls succeeded |
| `Pollers.Poller.ContinueFlow` | internal/poller/poller.go:196-228 | row refreshed, bucket grown by the non-negative difference, log row on a state change or a due heartbeat, tracked object refreshed last |
| `Pollers.Poller.RecordReading` | internal/poller/poller.go:196-212 | the row first, then the bucket with the clamped difference, stopping at a failure |
| `Pollers.Poller.LogReading` | internal/poller/poller.go:214-225 | a state change is logged before a heartbeat is considered; the time of the last event moves only with a logged one |
| `Pollers.Poller.CloseMissing` | internal/poller/poller.go:148-159 | closes and forgets exactly the tracked keys not seen, except those whose statement failed |
| `Pollers.Poller.LoadOpenSessions` | internal/poller/poller.go:84-102 | a restart fills the map with one entry per open row of the firewall, or leaves it empty when the store fails |
| `Stores.Store.InsertSession` | internal/store/sessions.go:75-95 | a new open row under an id never used before |
| `Stores.Store.UpdateSession` | internal/store/sessions.go:97-109 | refreshes one row and counts the observation; a missing id changes nothing |
| `Stores.Store.CloseSession` | internal/store/sessions.go:111-114 | sets the closing time of one row |
| `Stores.Store.OpenSessions` | internal/store/sessions.go:20-39 | one open row per key, or an error; among rows sharing a key the last scanned wins |
| `Stores.Store.InsertSample` | internal/store/sessions.go:117-129 | appends a sample, refused without its session |
| `Stores.Store.BumpPortUsage` | internal/store/portusage.go:39-94 | bucket upsert and destination count in one transaction, all or nothing |
| `Stores.Store.PruneOlderThan` | internal/store/prune.go:10-42 | tables and counts are those of its successful deletes in turn; on success a row is left exactly if it is open or was closed at the cutoff or later, a sample exactly if it is not of a deleted row, and both counts are exact; on an error no other row or sample was touched |
| `Batches.DropTwice` | internal/store/prune.go:18-27 | deleting samples batch by batch deletes, and counts, what one delete for the union would |
| `Batches.RoundsGone` | internal/store/prune.go:14-41 | so many rounds remove, and count, one batch after the other of what was eligible at first, samples and rows |
| `Batches.ShortBatch` | internal/store/prune.go:37-39 | a batch comes back short exactly in round eligible/5000 + 1 |
| `Batches.PruneSpares` | internal/store/prune.go:10-42 | however many deletes have succeeded, open and younger sessions, their samples and the rollup are as they were |
| `Pruning.PruneIsItsDeletes` | internal/store/prune.go:10-42 | the method's effect, however far it gets, is that of its prune events with nothing in between, and a failing one changes no table |
| `Pruning.RunSound` | internal/store/prune.go:10-42 | every run, failing loads, calls and prune statements included, keeps: each sample has its session, each tracked key an open row of its own, and no prune is refused |
| `Pruning.AlwaysSound` | internal/store/prune.go:10-42 | so it holds of every run from the empty database |
| `Pruning.TrackedDistinct` | internal/poller/poller.go:161-194 | two tracked keys never share a row |
| `Pruning.RelyKeepsEligible` | internal/store/prune.go:18-34 | nothing a poller does between the two deletes changes which sessions or samples a prune will pick |
| `Pruning.PruneTouchesOnlyEligible` | internal/store/prune.go:10-42 | rows that are open or were closed at the cutoff or later, their samples, the rollup and every poller are untouched |
| `Pruning.PruneInterleaved` | internal/store/prune.go:10-42 | interleaved with polls, restarts and failures, its own included: the counts are exact at every moment; when it comes to its end, after n/5000 + 1 rounds, exactly the n rows closed before the cutoff are gone and no such row is left |
| `Pruning.NonFinalRound` | internal/store/prune.go:14-41 | a round that is not the last removes exactly 5000 eligible sessions, and the loop stops at the first smaller one |
| `Pruning.SecondDeleteSucceedsIff` | internal/store/prune.go:18-34 | the second delete passes the foreign key exactly when it picks only what the first picked |
| `Chronicle.RunFaithful` | internal/poller/poller.go:84-229 | over clean runs the map is an exact cache of the open rows, every row is its history, the log is the one the history calls for, and lifetimes do not overlap |
| `Chronicle.StepFaithful` | internal/poller/poller.go:84-229 | every single event keeps all of that |
| `SessionLaws.PollIsExactDiff` | internal/poller/poller.go:133-159 | after a poll without failures the open keys in memory and in the store are exactly the batch's, repeated keys included |
| `SessionLaws.PollIsItsEvents` | internal/poller/poller.go:133-159 | the events of a poll do what ApplyPoll does, whatever calls fail |
| `SessionLaws.PollKeys` | internal/poller/poller.go:133-159 | tracked after any poll, failing calls included: of the keys tracked before and those whose calls all succeeded, the ones in the batch and the ones whose closing failed |
| `SessionLaws.LifetimesDisjoint` | internal/store/sessions.go:97-114 | sessions sharing a key never overlap in time and sample_count is the number of observations |
| `Rows.RowsExact` | internal/poller/poller.go:161-212 | after any clean run each row shows, column by column, its first flow in what identifies it and its last flow in the rest |
| `Rows.OneConnection` | internal/poller/sessionkey.go:15-17 | a session never mixes connections: its row's protocol, addresses and ports are those of every flow counted into it |
| `Rows.SamplesExact` | internal/poller/poller.go:231-240 | every event row shows, in all columns, an observation of its session and the kind of event it was |
| `SessionLaws.LogLosesNoState` | internal/poller/poller.go:179-228 | logged states with repeats collapsed equal observed states with repeats collapsed, across restarts, and the last one is the row's |
| `SessionLaws.KeptStatesSuffice` | internal/poller/poller.go:202-225 | the observations that were logged carry every change of state |
| `SessionLaws.LogGrowthBound` | internal/poller/poller.go:20 | at most 1 + state changes + full 300-second spans samples, however many polls and restarts |
| `SessionLaws.EventGap` | internal/poller/poller.go:214-225 | within a process events of a present session are less than 300 seconds plus one poll gap apart; nothing is logged exactly when the state is unchanged and 300 seconds have not passed |
| `SessionLaws.FirewallsApart` | PLAN.md:12 | a poller, failing calls included, changes no row, bucket, destination or sample of another firewall |
| `Conservation.ByteConservation` | internal/poller/poller.go:161-229 | a firewall's buckets hold the last readings of all sessions ever plus all backward counter steps; never less than the readings, equal exactly when no counter fell |
| `Conservation.BytesExact` | internal/store/portusage.go:39-94 | for any set of buckets, also when application tags change in mid-session: each growth stands in the bucket of the protocol, destination port and application the flow showed at that moment |
| `Failures.BytesWithFailures` | internal/poller/poller.go:161-229 | for every run, whatever fails: bucket bytes are the readings last taken over from every session, plus what counters lost, plus growth counted twice after a failed sample, minus what a restart took over uncounted |
| `Failures.ExcessIff` | internal/poller/poller.go:208-226 | nothing is counted twice exactly when no refresh of the run grew a bucket and then failed on the sample it owed |
| `Scenarios.CountedTwice` | internal/poller/poller.go:208-226 | one failed sample after growth d: the buckets hold d more than the counter shows when it is read again |
| `Failures.CleanBooks` | internal/poller/poller.go:161-229 | without failures nothing is counted twice and nothing is missed |
| `Conservation.Telescope` | internal/poller/poller.go:196-212 | a session's recorded growth is its last reading plus what its counter lost |
| `Conservation.BackwardZero` | internal/poller/poller.go:196-212 | nothing was lost exactly when the counter never fell |
| `Conservation.ScopeCountsExact` | internal/store/portusage.go:39-94 | each scope counter of each bucket is the number of sessions, pruned ones included, started there with source and destination private as the scope says |
| `Conservation.RollupTallied` | internal/store/portusage.go:39-94 | in any run, failures included: sample_count is the sum of the four counters, distinct_dst_ips the number of destination rows, and every destination row has its bucket |
| `Conservation.DestinationsExact` | internal/store/portusage.go:78-91 | the recorded destinations are exactly those the traffic ever went to |
| `Conservation.SamplesFiled` | internal/poller/poller.go:161-229 | every event row of a clean run names, by its own columns, a bucket of the rollup and a destination recorded there |
| `Times.TimesExact` | internal/store/portusage.go:39-94 | a bucket exists exactly when an observation was counted into it, its first and last seen are the earliest and the latest of those, and it was updated last at the latest |
| `Times.DestinationTimes` | internal/store/portusage.go:78-91 | a destination carries the time of the first observation that went there |
| `Tables.UnixFloor` | internal/store/portusage.go:46 | the tables' times are whole seconds, rounded down |
| `Restart.RestartTransparent` | internal/poller/poller.go:84-102 | a restart anywhere in a clean run leaves all later rows, rollup, requests and start and state-change samples the same; only heartbeats may differ |
| `Restart.RunTwins` | internal/poller/poller.go:84-229 | two runs that differ in heartbeat times stay that way |
| `Wiring.RunAsks` | internal/poller/poller.go:189-191 | over any run only public addresses are asked for, with priority 0 |
| `Wiring.RunOwes` | internal/poller/poller.go:189-191 | the requests of any run are exactly one for every session whose start succeeded and whose destination is public, in order |
| `Wiring.PrivateNeverLookedUp` | internal/poller/sessionkey.go:24-41 | pollers and worker together, with calls failing and the process stopped: no private address is ever sent to the provider, and an accepted one without a verdict is queued or in hand exactly unless it is recorded as lost |
| `Budget.BudgetSafety` | internal/threatintel/manager.go:68-126 | in every interleaving of single store calls, failing ones and stops included, the used count stays within the budget and the calls admitted under a date exceed its budget at most by those whose charge was lost |
| `Budget.BudgetOverrun` | internal/threatintel/manager.go:85-125 | for every budget a run in which one charge fails and nothing else, with one call more on a day than the day's window |
| `Days.SameDateIff` | internal/store/reputation.go:110 | two instants have one date exactly when one UTC day holds both |
| `Days.BudgetByTheClock` | internal/threatintel/manager.go:68-126 | in any run the provider calls whose check lies in one UTC day exceed the configured budget at most by those whose charge was lost |
| `Days.RefusalUsesUp` | internal/store/reputation.go:141-152 | a refusal that is charged uses the window up |
| `Days.NoCallsThatDay` | internal/store/reputation.go:137-152 | and then no call is made until the date changes, whatever else happens |
| `Budget.StepWithin` | internal/store/reputation.go:109-152 | each store call keeps that, also a status read that opens a new window between check and charge |
| `Budget.RequestsKept` | internal/store/reputation.go:59-97 | none is queued twice, and an accepted address without a verdict is queued or in hand except exactly those dropped by a stop or a failed call and not accepted since |
| `Budget.OnlyPublic` | internal/threatintel/manager.go:68-126 | whatever fails, only addresses that were asked for are looked up |
| `Budget.CleanLosesNothing` | internal/threatintel/manager.go:68-126 | without a stop and without a failing call no charge and no address is lost |
| `Budget.FreshIff` | internal/threatintel/manager.go:36-43 | one store call at a time, an address comes to be queued with a good row exactly by filing a request asked before the row was written, or by a row for an address accepted again while in hand |
| `Budget.FreshRunIff` | internal/threatintel/manager.go:36-126 | over any run of single store calls, failing ones and stops included: no queued address has a good row at any moment exactly when no call was such a race |
| `Budget.GapReached` | internal/threatintel/manager.go:36-43 | such a run exists without any failure |
| `QueueLaws.NeverQueuedWhileCached` | internal/threatintel/manager.go:36-126 | with each tick and each request as one step, no address waits while an unexpired row for it is cached |
| `QueueLaws.VerdictHonoured` | internal/threatintel/manager.go:36-43 | while the row for an address is good it is neither replaced nor is the address queued or looked up again |
| `QueueLaws.ServedIsCached` | internal/threatintel/manager.go:91-126 | a lookup leaves a row checked then and good to the second its lifetime ends; an answer that decides nothing is kept as briefly as a failure, and a failure leaves no verdict |
| `QueueLaws.NoStarvation` | internal/store/reputation.go:70-97 | requests of one second included: an address is served, or the lookups served since plus those that may still come before it are no more than could at first, plus the requests accepted no later than its own second |
| `QueueLaws.ServedInTime` | internal/store/reputation.go:70-97 | with k items that may come before it an address is served by the (k+1)-th lookup not refused, one later for each request accepted no later than its own second |
| `QueueLaws.NoRivals` | internal/store/reputation.go:59-65 | later requests never count |
| `QueueLaws.RefusedIsNext` | internal/threatintel/manager.go:91-102 | whatever the times in the queue, a refused address is the only one with priority and the only possible next pop |
| `QueueLaws.NextIff` | internal/store/reputation.go:70-97 | besides one next item exactly those of its priority and second may be popped |
| `QueueLaws.EnqueueIsItsCalls` | internal/threatintel/manager.go:36-43 | a request is its two store calls when nothing comes between them, whichever of them fail |
| `QueueLaws.TickIsItsCalls` | internal/threatintel/manager.go:68-126 | a tick is its store calls in order when nothing comes between them, whichever of them fail |
| `ThreatIntel.Manager.Tick` | internal/threatintel/manager.go:68-126 | at most one lookup, of the next in line, for any answer of the provider and any failing store calls |
| `ThreatIntel.Manager.Enqueue` | internal/threatintel/manager.go:36-43 | dropped when cached, kept once otherwise; a failing cache read counts as a miss |
| `ThreatIntel.Manager.PopNext` | internal/store/reputation.go:70-97 | removes an item nothing is ahead of, or fails and removes none |
| `ThreatIntel.Manager.RateLimitStatus` | internal/store/reputation.go:109-135 | makes today's window and reads it |
| `ThreatIntel.Manager.IncrementRateLimit` | internal/store/reputation.go:141-152 | one more call, or all of them |
| `ThreatIntel.Manager.GetStatus` | internal/threatintel/manager.go:153-163 | what the dashboard reads, with the same effect on the window as the worker's check |
| `Search.BuildMeans` | internal/store/search.go:39-106 | the clauses read with their positional arguments use up every argument and select exactly the rows on which every set field holds, within one firewall |
| `Search.ScopeMeans` | internal/store/search.go:95-104 | the four scope clauses split the rows as ClassifyScope does |
| `Search.PlaceholdersMatch` | internal/store/search.go:43-106 | the statement holds exactly one placeholder per argument |
| `Search.SubstringIff` | internal/store/search.go:50-57 | LIKE finds exactly the texts holding the field, in any ASCII case, if and only if the field has no wildcard |
| `Search.ProtocolFoundIff` | internal/store/search.go:46-49 | a row whose protocol equals the filter in some case is found exactly when it is stored in upper case |
| `Scenarios.LowerCaseStored` | internal/nse/parsers.go:113-133 | a device output in lower case is stored as it is |
| `Scenarios.LowerCaseRow` | internal/nse/parsers.go:113-133 | there is such a row |
| `Scenarios.LowerCaseMissed` | internal/store/search.go:46-49 | and then not found by its protocol, however written |
| `Search.SearchSessions` | internal/store/search.go:39-137 | total and page come from one query: the count of the matches, and one page of them sorted by recency |
| `Search.SearchIsSound` | internal/store/search.go:108-137 | only matching rows of the one firewall, newest first, and all of them counted |
| `Search.PagesCover` | internal/store/search.go:113-121 | successive pages meet every match exactly once, in order |
| `Ruleset.Generate` | internal/ruleset/generator.go:82-142 | the loops and the in-place sort give the rules of the stable sort of the wanted buckets |
| `Ruleset.PreviewInOrder` | internal/ruleset/generator.go:107-152 | the rules follow the wanted buckets by higher score, then later time, equals as they stood in the usage list |
| `Ruleset.PreviewHolds` | internal/ruleset/generator.go:82-104 | a bucket is denied exactly when its key is not approved, it was seen often enough (three times by default), and it is risky enough or low risk is asked for |
| `Ruleset.PreviewDenies` | internal/ruleset/generator.go:113-139 | what each rule says of its bucket, at precedences start + i * step, by default 100, 110, ... |
| `Ruleset.WithDefaults` | internal/ruleset/generator.go:62-73 | options that are not positive become 3, 100 and 10, the others stay |
| `Ruleset.CandidatesAreWanted` | internal/ruleset/generator.go:87-104 | a bucket is proposed exactly when it is not approved, seen often enough, and risky enough or low risk is asked for |
| `Ruleset.PreviewIsTheStableSort` | internal/ruleset/generator.go:107-111 | any list in order of score and time that keeps equals as they stood gives these very rules |
| `Ruleset.RuleAt` | internal/ruleset/generator.go:113-139 | rule i has precedence start + i * step and belongs to the i-th bucket |
| `Ruleset.BlocksIff` | internal/ruleset/generator.go:120-130 | a rule drops its own bucket's traffic and another's exactly for the same protocol and the same port, or when its own port is 0 |
| `Ruleset.PreviewSparesIff` | internal/ruleset/generator.go:82-142 | a preview spares a bucket, approved or not, exactly when no wanted bucket stands on its protocol and port or on its protocol with port 0 |
| `Scenarios.ApprovedCovered` | internal/ruleset/generator.go:120-130 | of two applications on one port the rule for one covers the approved other |
| `Ruleset.NamesIff` | internal/ruleset/generator.go:154-159 | for any two protocols and ports not negative, names determine buckets if and only if neither protocol ends in a hyphen and the other |
| `Ruleset.NamesIffAnyPort` | internal/ruleset/generator.go:154-159 | the same with negative ports, whose sign reads like one more hyphen |
| `Ruleset.NameIff` | internal/ruleset/generator.go:154-159 | two names agree exactly when the sizes of the ports and the texts before them do |
| `Parsed.ParsedNamesExact` | internal/ruleset/generator.go:154-159 | names of parsed rows are equal only for rows of one bucket, whatever their port texts |
| `Parsed.ParsedPreviewNames` | internal/ruleset/generator.go:82-142 | no two rules of a preview of such buckets share a name, and precedences rise |
| `Ruleset.NamesClash` | internal/ruleset/generator.go:154-159 | two different buckets with one name, at a protocol only a caller other than the parser could supply |
| `Ruleset.PreviewNamesDiffer` | internal/ruleset/generator.go:82-142 | no two rules of a preview share a name when no two of its protocols meet, negative ports included or not |
| `Sorting.InsertionSort` | internal/ruleset/generator.go:107-111 | swapping in place gives the stable sort |
| `Sorting.SwapDown` | internal/ruleset/generator.go:107-111 | the inner loop puts one element after everything it does not come before |
| `Sorting.StableSortSorts` | internal/ruleset/generator.go:144-152 | sorted, a permutation, and stable |
| `Sorting.StableSortMembers` | internal/ruleset/generator.go:107-111 | sorting neither drops nor adds an element |
| `Sorting.StableSortUnique` | internal/ruleset/generator.go:144-152 | there is only one such list |
| `Risk.Finalize` | internal/risk/scorer.go:193-205 | the points' sum clamped to 0..100, with its bucket: critical from 80, high from 55, medium from 25 |
| `Nse.ParseConntrackFlows` | internal/nse/parsers.go:98-140 | the loops with their in-place trimming give the rows of `Nse.Parse` |
| `Nse.StripCLI` | internal/nse/parsers.go:21-35 | echo, prompts, carriage returns and outer newlines removed, step by step |
| `Nse.ParsedWellFormed` | internal/nse/parsers.go:98-140 | every parsed text is trimmed and free of pipes and line ends, counters fit 64 bits, placeholders are gone |
| `Nse.LineExact` | internal/nse/parsers.go:98-140 | a line gives one row, column by column, exactly when it has fifteen cells or more and the first is TCP, UDP, ICMP or GRE in any case; the skipped kinds of lines never would |
| `Text.ParseIntExact` | internal/nse/parsers.go:116-119 | what any text reads as: sign, digits and the rest, held within 64 bits, 0 on anything after the digits unless these overflowed first |
| `Nse.CaptureParses` | internal/nse/testdata/show_conntrack.txt:10-16 | well-formed rows printed in the 16 columns under their header, any blanks after the last cell, with or without echo and prompt around them and carriage returns anywhere, parse to exactly those rows |
| `Device.DeviceOutputParses` | internal/nse/testdata/show_conntrack.txt:1-16 | the same for the whole output with the banner, its rules and its blank lines |
| `Device.CalmRows` | internal/nse/parsers.go:21-35 | blank lines in front of the output change nothing of what is read |
| `Nse.NormalForm` | internal/nse/parsers.go:98-140 | printing what was parsed, with any blanks after the last cell, and parsing it again gives the same rows, for every input |
| `Nse.ParsedIff` | internal/nse/parsers.go:98-140 | the lists of rows some input parses to are exactly the lists of well-formed rows |
| `Nse.PromptShape` | internal/nse/parsers.go:17 | a name, parenthesised text, `#` and trailing white space are a prompt to its end |
| `Nse.PromptIff` | internal/nse/parsers.go:17 | a text is a prompt from end to end exactly when it has that shape, its characters spelled out |
| `Nse.ParsedKeysExact` | internal/poller/sessionkey.go:15-17 | keys of parsed rows are equal exactly when protocol in upper case, addresses and ports are |
| `Nse.ParsedApprovalExact` | internal/ruleset/generator.go:90-94 | a parsed bucket counts as approved exactly when that very bucket is, whatever strings the approvals hold |
| `Keys.SessionKeyExact` | internal/poller/sessionkey.go:15-17 | the same for any rows without pipes |
| `Keys.ApprovedKeyIff` | internal/store/approved.go:66-68 | for any strings: no other bucket has the key if and only if no number stands between pipes in the protocol with a pipe after it, nor in the application with a pipe before it |
| `Keys.LookupIff` | internal/store/approved.go:54-68 | a lookup finds exactly its own approval in every table if and only if that holds |
| `Keys.ApprovedKeyClash` | internal/web/handlers.go:179-190 | two different approvals the handler takes that share a key |
| `Keys.LookupExact` | internal/store/approved.go:54-64 | looking a pipe-free bucket up finds exactly its own approval |
| `Keys.ApprovalsChangeOne` | internal/store/approved.go:11-26 | after an approval an unambiguous bucket is found exactly if it is that one or was found before, after a withdrawal exactly if it is not that one and was |
| `Keys.Approvals.ApprovedSet` | internal/store/approved.go:54-64 | the keys of one firewall's approvals |
| `Grouping.GroupFlows` | internal/web/static/app.js:429-446 | the loop over a map of groups gives the fold of each key's rows in order of first appearance |
| `Grouping.FlowGroupsExact` | internal/web/static/app.js:429-446 | distinct keys; each group counts and sums exactly its rows, with first and last seen and risk their extremes; rows and bytes are conserved |
| `Grouping.FlowGroupHolds` | internal/web/static/app.js:429-446 | for addresses without pipes a group holds exactly the rows of its protocol, addresses and port |
| `Grouping.FlowRiskScored` | internal/risk/scorer.go:33-44 | a group's bucket is the bucket of its score |
| `Grouping.GroupByPort` | internal/web/static/app.js:563-591 | the same loop for port usage, each group with its derived direction |
| `Grouping.PortGroupsExact` | internal/web/static/app.js:563-591 | distinct keys; each group lists exactly its buckets and sums their samples, bytes, destinations and each scope counter; buckets, samples and bytes are conserved |
| `Grouping.PortGroupsJudged` | internal/web/static/app.js:553-591 | the score is the members' highest, in its own bucket, and the direction is the join of the members' |
| `Grouping.PortKeyExact` | internal/web/static/app.js:566 | port keys agree exactly when protocol and port do |
| `Grouping.DestinationsBound` | internal/web/static/app.js:579 | summed distinct destinations bound the union from above, with equality exactly when no destination is shared |
| `Displayed.RecordedDestinationsBound` | internal/web/static/app.js:579 | after any run, for the addresses recorded in port_usage_dst_ips |
| `Displayed.GroupDestinationsBound` | internal/web/static/app.js:563-591 | and for what each group of the dashboard holds |
| `Tallies.SumKept` | internal/web/static/app.js:429-446 | any measure a merge adds up is conserved by grouping |
| `Tallies.GatherExact` | internal/web/static/app.js:429-446 | one group per key met, the fold of exactly the rows with that key |
| `Traffic.Counts.Scope` | internal/store/types.go:106-132 | the bucket's summary and the dashboard's agree |
| `Traffic.SummaryIff` | internal/store/types.go:106-132 | one kind exactly when its counter alone is positive, unseen when none is, mixed when two are |
| `Traffic.PlusJoins` | internal/store/types.go:106-132 | adding counters joins what they summarise |
| `Traffic.JoinIsLeast` | internal/store/types.go:100-105 | the join is the least upper bound, from nothing seen up to mixed |
| `Reconcile.Manager.Reload` | internal/poller/manager.go:48-71 | kept pollers untouched, the others stopped, exactly the due ones started, for any list and any failing registrations |
| `Reconcile.Manager.StartLocked` | internal/poller/manager.go:78-93 | a new poller with a client of its own, or nothing when registration fails |
| `Reconcile.Manager.StopLocked` | internal/poller/manager.go:95-104 | stops one poller |
| `Reconcile.Manager.StopAll` | internal/poller/manager.go:107-113 | stops every poller |
| `Reconcile.Manager.RestartAll` | internal/poller/manager.go:122-135 | the same firewalls, every poller new |
| `Reconcile.ReloadExact` | internal/poller/manager.go:48-76 | for a list without duplicates exactly the listed ids run, with the listed host, port, user, password and interval (30 seconds by default) |
| `Reconcile.RestartsExactlyTheChanged` | internal/poller/manager.go:58-76 | a poller survives exactly when it is still listed with the same connection |
| `Reconcile.ReloadTwice` | internal/poller/manager.go:44-47 | a second identical reload stops nothing and starts only what could not be registered; otherwise it changes nothing |
| `Reconcile.RenameKeeps` | internal/poller/manager.go:73-76 | a change of names alone restarts nothing, and the old names stay |
| `Reconcile.NameCurrentIff` | internal/poller/manager.go:48-93 | a poller that goes on has the listed name exactly when it was restarted or had it before |

## Left out

- SSH sessions, host keys, HTTP handlers, the web view and the clients of GreyNoise and the enrichment sources: a lookup is
  any answer of the provider, a poll any list of flows.
- SQL text beyond the search clauses, WAL, pooling and migrations: tables are modelled by their keys, UNIQUE constraints and
  foreign key. Columns are never NULL except a closing time.
- `IsPrivateOrReserved` is a parameter: any predicate on addresses.
- Failing store calls of pollers in the laws on scopes, destinations, times, rows, log and restarts, which are for clean
  runs: an insert followed by a failed sample leaves an open row nobody tracks. The laws on bytes, pruning, the rollup's own
  arithmetic, the separation of firewalls, the budget and the requests hold whatever fails.
- QueueLaws.NoStarvation: ticks and requests are one step each and no call fails; with failing calls an address can be lost,
  as Budget.RequestsKept says. Every requester but the worker is taken to ask with priority 0, as the pollers do.
- Two pollers of one firewall at once: stopping does not wait for the old goroutine.
- Clocks that go back, and dates that do.
- `ClearAllHistory`, `config.Store.Update` and validation. The name, host and port `SyncFirewall` stores.
- `ScoreConnection` and `ScorePortUsage`: their point tables, reason texts and notes; a scorer is any function.
- `RunDripWorker`'s timer, `ParseConntrackSummary`, and the interval between polls.
- Statement-by-statement interleaving inside `RateLimitStatus` and `BumpPortUsage`; each store method is one step.
- Text is ASCII; byte counters are unbounded integers once parsed, and the times the dashboard compares are integers.
- Stores.Store.OpenSessions: rows come in id order, where the statement leaves the order open; it matters only when two open
  rows share a key, which clean runs exclude.
- Search.SearchSessions: the count and the page are two statements, between which a poller may write; the model reads both
  from one snapshot. Ties of recency come in table order, where the statement leaves their order open, so that a page may
  cut a tie differently from query to query.
- QueueLaws.NeverQueuedWhileCached: a tick and a request are one step each; with single store calls Budget.FreshRunIff says
  exactly when it still holds.
- Grouping.GroupFlows: groups are values held in a map, not shared objects; the columns the dashboard only copies from a
  group's first row, and risk reasons, are not modelled.
