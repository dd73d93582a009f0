# refmatrix: a verified model

This project models eleven parts of refmatrix and proves what each of them is for.

* **DuckDB registry** (`ReadOnly*`, `WriteOpen*`). Read-only opens of a path share one instance per
  inode, and files are replaced underneath them. The model is a state machine in which any number of
  threads open, use, drop and shut instances, one step per critical section or unlocked access, while
  the environment replaces files at any moment. Write opens are a second model, with DuckDB's cache
  of paths (as `backend.py:37-51` describes it) as the assumption about the environment: a connect
  joins the first open connection of the process on that path, refuses while only a differently
  configured instance holds it, and binds to the present file otherwise.
* **Ingest records** (`Ingest*`). A recorder compiles Store calls into a record with symbolic
  handles; one interpreter replays records one by one, another in bulk. Meaning is given by names;
  the interpreters over ids are proved to refine it, and the two meanings are compared.
* **Message bus** (`Bus*`), **subagent grafting** (`Grafting*`), **pronoun substitution**
  (`Coref*`), **ranking metrics** (`Metrics`), **weighted walk** (`Walk`), **touch index**
  (`Helix*`), **brief index** (`Brief*`), **identifier splitting** (`Identifier`) and
  **concept similarity** (`ConceptSim`).

Code that changes things step by step is a class or a method with loops, proved against a function
that says what it computes; the properties are then lemmas about those functions and about runs of
them. The `*Laws` modules, with `ReadOnlyAlone`, `IngestCalls` and `GraftingForest`, say what the
operations do without these functions: on the rows, records, characters and tokens they are given, so
that a function and the method beside it cannot be wrong together. `Options`, `Picking`, `Filtering`,
`SetSum`, `StableSort`, `Ascii` and `Decimals` are shared helpers.

`dafny verify dfyconfig.toml` checks everything.

## Where the code does not do what it says

Each of these is a lemma with a concrete input, and beside it stands the exact condition under
which the promise holds.

* A read-only open of a path that is missing at both of its reads registers its instance under no
  inode; a later open can return it although that file was not there during the open
  (`MissingPathServesAbsentFile`; `OpenReturnsPresentIff`). From what such an open reads it cannot be
  told (`MissingPathMayServePresentFile`).
* A scan that cannot close a stale writer raises after it has unregistered the stale readers, which
  stay open (`RaisingScanLeaksReader`; `QuiescentOpenIff`).
* A write open compares the inode before and after the connect, but not the one its scan of stale
  holders saw (`WindowReplacementServesOldFile`), and a stale writer whose close fails is forgotten
  while open (`FailedCloseServesOldFile`); `OpenWriteIsExact` covers both.
* The docstring of `bulk_apply_records` claims the same graph as applying each record. It differs
  for an empty concept name, for a namespace with a '/' that reads back as a name registered on one
  side only, for a handle that only another record registers, for a lookup of which a later record
  makes an earlier candidate, for an unknown kind, for a linkage type registered late, and for a
  weight given early to an alias edge: `IngestLimits` has an input for each. `ResolveIff` says of
  every ref exactly when both ways find the same, `OpsIff` exactly when the same ops are performed,
  `EmptyNameIff` exactly what an empty name costs, and `BulkIsSequential` when each way raises and
  when the graphs are then equal.
* Replaying a record keeps the first weight given to an edge where direct `link` calls keep the last
  (`LastWeightIsLost`; `RecordThenApply`). The docstring of the recorder's `bulk_link` claims the
  semantics of the direct call: its weights are kept but on an alias edge weighted before its
  concept (`BulkKeepsWeights`). A link whose type is registered later raises directly and is
  replayed (`LateVerbReplays`; `ReplayIs`).
* Purging the row with the highest number lets its number be given out again, below the cursors
  (`PurgedNumberLosesMessage`; `AccountedIff`). A cap that leaves nothing to return moves the cursors
  all the same (`LeavesTheRestIff`). Only a read's cursor writes are under the lock, so two overlapping
  reads of one agent may both return a message (`OverlapDeliversTwice`; `TwiceOnlyByOverlap`).
* `graft_subagents` calls a run without a parent an orphan because its call is absent from the
  transcript; the call may be in another orphan (`CallInsideOrphan`; `AttachedIff`). A tool_use
  before the first prompt is counted nowhere (`EveryActionCounted`).
* `build_index` keeps the rows of a removed ring, which a rebuild drops (`GoneRingStays`;
  `BuiltIffPresent`).
* `canonicalize_name` says a single-part name becomes its lowercase form
  (`SinglePartIsNotLowercase`; `SinglePartIsLowercaseIff`).
* A brief's title with an unclosed ` {#` is cut short when read back (`OpenTitleIsCut`;
  `TitleReadsBackIff`).

Elsewhere the model follows the code where its text differs: `resolve_text` says "at least twice in
the document" and counts sentences, and says an opening capital must recur where it only consults a
stop list; `eval/metrics.py` calls relevance binary where nDCG uses grades; `build_index` says a
ring is reparsed when its time is later where it reparses when the time differs.

## Model

| member | source | states |
|---|---|---|
| ReadOnlyInstance.ROInstance.constructor | src/refmatrix/backend.py:125-139 | a new instance has no handle, no running statement, and neither flag set |
| ReadOnlyInstance.ROInstance.Enter | src/refmatrix/backend.py:154-160 | refuses exactly on a closed instance; otherwise counts one more running statement and changes nothing else |
| ReadOnlyInstance.ROInstance.CloseBaseLocked | src/refmatrix/backend.py:170-172 | marks the base closed and closes it once more |
| ReadOnlyInstance.ROInstance.Leave | src/refmatrix/backend.py:162-168 | one statement fewer; afterwards a closed, drained instance has its base closed, whatever closed it |
| ReadOnlyInstance.ROInstance.Shut | src/refmatrix/backend.py:174-193 | marks the instance closed; says "closed now" exactly when no statement runs, and exactly then the base is closed |
| ReadOnlyTheorems.StepKeepsInv | src/refmatrix/backend.py:141-318 | every step of every thread (statement entry split at its flag test and its count, drop with its unlocked write of `closed`, open with its two registry sections, shut with a wait that may time out, the scan with its raising exit) and of the environment that replaces files keeps the whole invariant |
| ReadOnlyTheorems.ReachableInv | src/refmatrix/backend.py:141-318 | the invariant holds in every state of every interleaving |
| ReadOnlyTheorems.ClosedAtMostOnceAndDrained | src/refmatrix/backend.py:162-216 | in every reachable state each base connection was closed at most once and never with a statement in flight; `inflight` and `refs` are the numbers of running statements and of live handles |
| ReadOnlyTheorems.NoStatementAfterClose | src/refmatrix/backend.py:154-193 | once the base is closed no continuation of the run ever has a statement inside, nor closes it again |
| ReadOnlyTheorems.DeferredCloseIsNotLost | src/refmatrix/backend.py:162-216 | a closed instance with nothing in flight is closed for good or some thread is still on its way to close it |
| ReadOnlyTheorems.CloserCloses | src/refmatrix/backend.py:162-216 | that thread can take its step as soon as the condition variable is free, and the step closes the base |
| ReadOnlyTheorems.QuiescentOpenIff | src/refmatrix/backend.py:174-318 | when every thread is idle, closed means base closed, no instance without handles is open, and an instance is open if and only if it is registered or a scan that raised left it with handles |
| ReadOnlyTheorems.QuiescentLeavesNothingOpen | src/refmatrix/backend.py:174-318 | when no scan raised, open means registered |
| ReadOnlyRaisingScan.RaisingScanLeaksReader | src/refmatrix/backend.py:285-312 | a run in which a stale writer cannot be closed: the scan raises, and the reader it had unregistered stays open on the replaced file |
| ReadOnlyTheorems.RegistryIsConsistent | src/refmatrix/backend.py:196-274 | every registered instance is unclosed, under its own (path, inode) key, attached to that inode, with `refs` equal to its live handles |
| ReadOnlyTheorems.OpenReturnsPresentIff | src/refmatrix/backend.py:255-274 | a returned open reads a file that was at the path at some moment of that open if and only if its instance was attached to the file there when the open began or to a later one; so it does whenever the open saw a file or returned its own new instance |
| ReadOnlyTheorems.ExistingPathOpensPresentFile | src/refmatrix/backend.py:255-274 | so does every open of a path that never was without a file, however often the file is replaced |
| ReadOnlyMissingPath.MissingPathServesAbsentFile | src/refmatrix/backend.py:256-269 | a run in which the path is missing at both reads of two opens: the second returns an instance attached to an inode that was never at the path during it |
| ReadOnlyMissingPath.MissingPathMayServePresentFile | src/refmatrix/backend.py:256-269 | a run in which an open reads the same and is served a file that was there during it: what an open reads does not decide it |
| ReadOnlyAlone.OpenJoins | src/refmatrix/backend.py:255-261 | an open that nothing interrupts, of a file that has an instance: one more handle of that instance, and nothing else |
| ReadOnlyAlone.OpenMakes | src/refmatrix/backend.py:255-274 | of a file that has none: a new instance bound to it, registered under path and inode, with this open's handle as its only one |
| ReadOnlyAlone.OpenRetries | src/refmatrix/backend.py:262-266 | the path replaced under the new instance: that one is closed and the path read again |
| ReadOnlyAlone.OpenGivesUp | src/refmatrix/backend.py:256-274 | an open reads the path three times at most and then raises |
| ReadOnlyAlone.OpenYields | src/refmatrix/backend.py:267-273 | an equal instance registered meanwhile: the open takes a handle of that and closes its own |
| ReadOnlyAlone.StatementRuns | src/refmatrix/backend.py:154-168 | a statement leaves everything as it was, and does not begin on a closed instance |
| ReadOnlyAlone.DropOne | src/refmatrix/backend.py:196-216 | a dropped handle that is not the last is one handle less |
| ReadOnlyAlone.DropLastOne | src/refmatrix/backend.py:196-216 | the last one closes and unregisters its instance; the base is closed there and then exactly when no statement runs |
| ReadOnlyAlone.ScanUnregisters | src/refmatrix/backend.py:277-312 | the scan takes out of the registry exactly what is bound to another file than the one at its path, raising or not |
| ReadOnlyAlone.ShutOne | src/refmatrix/backend.py:174-193 | then it shuts them one after the other: closed, and the base with it if no statement runs |
| WriteOpen.PassIsExact | src/refmatrix/backend.py:327-355 | one pass that returns a connection, whatever failed before, returns one bound to the inode read last, if and only if DuckDB did not join an older connection, or the scan saw that inode and missed no open connection to another one |
| WriteOpen.OpenWriteIsExact | src/refmatrix/backend.py:327-356 | the same if-and-only-if for the whole open, for any number of replacements, passes and failed closes |
| WriteOpen.EveryOpenIsExact | src/refmatrix/backend.py:277-386 | the same for every open of every sequence of opens, releases and replacements |
| WriteOpen.ValidNeverEscapes | src/refmatrix/backend.py:277-318 | a registry that names every open connection with its inode hides none from the scan |
| WriteOpen.PassKeeps | src/refmatrix/backend.py:327-355 | it stays so until a close fails or the file is replaced in the window |
| WriteOpen.QuietWindowOpensPresent | src/refmatrix/backend.py:277-356 | with no replacement between the scan and the next read, an open raises or returns a connection to the file at the path, and no open connection to a replaced file is left |
| WriteOpen.EveryOpenReadsPresent | src/refmatrix/backend.py:277-386 | over every sequence of opens without failing close or window replacement, releases and replacements the next open returns a connection to the file at the path |
| WriteOpen.OpenKeeps | src/refmatrix/backend.py:327-356 | such an open leaves every open connection registered under its own inode, raised or not |
| WriteOpen.ReleaseKeeps | src/refmatrix/backend.py:372-385 | a release closes its connection; every other one is as it was, the entries left are the live ones of others in their order, and a registry that names every open connection still does |
| WriteLaws.ScanIs | src/refmatrix/backend.py:277-318 | what the scan unregisters (all but the entries of live connections to the present file, in order), which connections it closes, and when it raises |
| WriteLaws.WaitIs | src/refmatrix/backend.py:332-344 | the wait ends with the first connect that is not refused, and only the environment acts meanwhile |
| WriteLaws.PassIs | src/refmatrix/backend.py:327-355 | one pass from the scan to the comparison: when it raises, retries or returns, what the new connection is bound to, and the table and registry it leaves |
| WriteLaws.OpenIs | src/refmatrix/backend.py:327-356 | every pass but the last finds the file replaced; the open returns or raises what the last does, and raises when none is left |
| WriteOpen.WindowReplacementServesOldFile | src/refmatrix/backend.py:277-347 | a replacement in that one window: an open returns a connection to the old file |
| WriteOpen.FailedCloseServesOldFile | src/refmatrix/backend.py:285-312 | a stale writer whose close fails is out of the registry but open: the next open joins it and serves the old file, without any replacement in its window |
| WriteOpener.Opener.CloseStaleHolders | src/refmatrix/backend.py:277-318 | the scan computes exactly the specified registry and closings, stopping at the first close that fails |
| WriteOpener.Opener.SettleConn | src/refmatrix/backend.py:345-355 | the comparison after the connect keeps and registers the connection or closes it and goes round |
| WriteOpener.Opener.OpenOnce | src/refmatrix/backend.py:329-355 | one pass of the loop is the specified pass |
| WriteOpener.Opener.Open | src/refmatrix/backend.py:327-356 | the whole loop: the result, and the if-and-only-if of what it is bound to |
| WriteOpener.Opener.ReleaseConn | src/refmatrix/backend.py:372-385 | closes and forgets its connection; every other connection and entry is as it was |
| BusModel.ReadReturnsLowest | src/refmatrix/bus.py:217-262 | for any n a read returns the lowest-numbered unread active messages over all matching channels, in order, as many as the cap lets through |
| BusModel.ReadLeavesTheRest | src/refmatrix/bus.py:217-262 | the new unread set is the old one without what was returned, although cursors of channels past the cut move too |
| BusModel.LeavesTheRestIff | src/refmatrix/bus.py:246-259 | whatever n is: that holds if and only if nothing was unread or the cap leaves something to return |
| BusModel.ReadMovesForward | src/refmatrix/bus.py:247-259 | a read only moves cursors forward, and only the reader's own |
| BusModel.ReadPassesReturned | src/refmatrix/bus.py:250-262 | whatever a read returns was an unread row of the table and lies at or below the reader's cursor afterwards |
| BusModel.UnreadMatches | src/refmatrix/bus.py:225-243 | unread for patterns: an active row of the table above the agent's cursor, on a channel that one of the patterns stands for |
| BusModel.MatchesIs | src/refmatrix/bus.py:70-77 | p* matches exactly the channels that begin with p, p: exactly those that begin with p:, any other pattern only itself; an empty pattern or * matches all |
| BusModel.NumBelowNext | src/refmatrix/bus.py:148-184 | a new message gets a number above every number in the table |
| BusModel.UnpurgedIs | src/refmatrix/bus.py:364-386 | a purge keeps exactly the rows that do not meet its conditions, in their order |
| BusModel.SetStatusKeeps | src/refmatrix/bus.py:308-362 | delete, archive and unarchive move no row and change nothing but statuses |
| BusRuns.StepKeepsInv | src/refmatrix/bus.py:148-386 | ids name rows, numbers rise, delivered messages stay at or below the cursor of the agent that got them, and nothing was delivered twice: kept by every operation |
| BusRuns.NothingDeliveredTwice | src/refmatrix/bus.py:217-262 | in any run of publishes, reads, deletes, archives, unarchives and purges no agent's reads that move cursors return a message twice |
| BusRuns.NothingIsLost | src/refmatrix/bus.py:217-386 | if purges spare the highest-numbered row, every message is accounted for, and an active one is unread, returned, or was not active when the cursor passed it |
| BusRuns.AccountedIff | src/refmatrix/bus.py:148-386 | whatever is purged, if caps are absent or at least 1: a message in the table was returned to an agent, was not active when its cursor passed, or is above it, if and only if it was not published with a number that cursor had passed |
| BusRuns.EveryoneAccountedIff | src/refmatrix/bus.py:148-386 | so every message is accounted for with every agent if and only if none in the table was published at or below a cursor |
| BusRuns.BelowIsNeverReturned | src/refmatrix/bus.py:217-262 | a message published at or below an agent's cursor is returned by no later read of that agent |
| BusRuns.PublishedBelowIff | src/refmatrix/bus.py:148-184 | a publish does that to an agent exactly when the next number is at or below its cursor on the channel |
| BusRuns.PurgedNumberLosesMessage | src/refmatrix/bus.py:364-386 | a run in which the highest row is purged: its number is given out again and the new message is never delivered |
| BusOverlap.TwiceOnlyByOverlap | src/refmatrix/bus.py:217-262 | reads as they interleave, each channel selected in a step of its own and the cursors written in a last one, with anything in between: of two deliveries of a message to an agent the first was made while the second read was under way |
| BusOverlap.AloneNeverTwice | src/refmatrix/bus.py:217-262 | so an agent that begins no read while another of its own is under way gets no message twice |
| BusOverlap.OverlapLosesNothing | src/refmatrix/bus.py:217-262 | overlapping reads lose nothing: if caps are absent or at least 1 and purges spare the highest-numbered row, a message at or below a cursor was returned to the agent, or was not active when a read selected from its channel |
| BusOverlap.OverlapDeliversTwice | src/refmatrix/bus.py:247-259 | two reads of one agent that select before either writes its cursors both return the message |
| BusOverlap.UninterruptedIsRead | src/refmatrix/bus.py:217-262 | the steps uninterrupted, in any order of the channels, are the one step of `BusRuns`: same rows, cursors and passed-over messages |
| Bus.Bus.Publish | src/refmatrix/bus.py:148-184 | appends one active row, numbered one above the highest, with what was given |
| Bus.Bus.Gather | src/refmatrix/bus.py:225-243 | collects the unread rows of all wanted channels, each once, and the last number per channel |
| Bus.Bus.AdvanceCursors | src/refmatrix/bus.py:247-259 | moves the cursor of every channel that had unread rows to the cut or its last row |
| Bus.ReadIs | src/refmatrix/bus.py:217-262 | what a read returns, from the table alone: every message returned is active, above the cursor and on a channel of a pattern, all of those numbered below it are returned too, and they are as many as there are or as the cap lets through |
| Bus.Bus.Read | src/refmatrix/bus.py:217-262 | returns these rows in the order of their numbers; moves the specified cursors unless it peeks; touches no row |
| Bus.Bus.MarkRead | src/refmatrix/bus.py:264-283 | sets one cursor, to the given number or to the last active one of the channel |
| Bus.Bus.UnreadCount | src/refmatrix/bus.py:285-306 | per channel, the number of active rows above the cursor on it, for the channels of the patterns that have any, and of all channels without patterns |
| Bus.Bus.Delete | src/refmatrix/bus.py:308-321 | row by row: the rows of that id become deleted and nothing else changes; reports how many were not deleted before |
| Bus.Bus.Archive | src/refmatrix/bus.py:323-348 | row by row: the matching active rows become archived and nothing else changes; reports how many; refuses exactly without an id and a channel |
| Bus.Bus.Unarchive | src/refmatrix/bus.py:350-362 | row by row: the archived rows of that id become active and nothing else changes; reports how many |
| Bus.Bus.Purge | src/refmatrix/bus.py:364-386 | a row stays if and only if it has another status, another channel or no earlier time than given; reports how many went |
| Metrics.TopSum | eval/metrics.py:46-63 | rearrangement: the gains of any distinct documents sum to at most the sum of as many highest gains |
| Metrics.DiscountKeepsOrder | eval/metrics.py:54-60 | prefix sums that dominate still dominate under any positive decreasing discount (summation by parts) |
| Metrics.DcgAtMostIdeal | eval/metrics.py:54-60 | the DCG of any at most k distinct documents is at most the DCG of the sorted ideal list |
| Metrics.ScoreInUnit | eval/metrics.py:18-63 | each query's reciprocal rank, recall and nDCG lie in [0,1], for any scores and judgements, negative grades included |
| Metrics.MeanInUnit | eval/metrics.py:18-63 | so do the means over the judged queries |
| Metrics.SingleRelevantChain | eval/metrics.py:18-63 | with one relevant document, Recall@1 <= MRR@k <= nDCG@k <= Recall@k |
| Metrics.MeanChain | eval/metrics.py:18-63 | the same chain for the means when every judged query has one relevant document |
| Metrics.FirstRelevant | eval/metrics.py:26-29 | finds the rank of the first relevant document: one over it is the reciprocal rank, and zero without one |
| MetricsLaws.RankedIs | eval/metrics.py:14-15 | the ranking is the k best scored documents, best first, ties as in the run |
| MetricsLaws.IdealIs | eval/metrics.py:59-60 | the ideal gains are those of the relevant documents, best grade first, cut at k |
| MetricsLaws.GradeIs | eval/metrics.py:50-58 | the grade of a document is the one given, zero without one |
| MetricsLaws.GainIs | eval/metrics.py:54-58 | grade r gains 2^r - 1, and nothing at or below zero |
| MetricsLaws.DiscountedMore | eval/metrics.py:54-60 | the gain at rank r is divided by log2(r + 1) |
| MetricsLaws.ScoreIs | eval/metrics.py:18-63 | the score of one query from its ranking and its judgements: one over the rank of the first relevant document, the part of the relevant ones found, the gain over the ideal gain |
| MetricsLaws.MeanIs | eval/metrics.py:18-63 | the mean is over the queries with a relevant document: each adds its score and one to their number |
| MetricsLaws.MeanDivides | eval/metrics.py:18-63 | and is their sum divided by their number, zero without any |
| Metrics.DiscountedGain | eval/metrics.py:55-58 | the loop sums gain over log2(rank + 1) |
| Metrics.MrrAtK | eval/metrics.py:18-30 | computes the mean reciprocal rank, in [0,1] |
| Metrics.RecallAtK | eval/metrics.py:33-43 | computes the mean recall, in [0,1] |
| Metrics.NdcgAtK | eval/metrics.py:46-63 | computes the mean nDCG, in [0,1] |
| Walk.WalksUpToAre | src/refmatrix/enrich.py:55-100 | the paths summed over are exactly the walks of at most h hops that start at a seed |
| Walk.WeightIsClosed | src/refmatrix/enrich.py:82-90 | the weight a walk of h hops gathers is seed weight x edge weights x decay^(h(h+1)/2) |
| Walk.PartsAre | src/refmatrix/enrich.py:82-90 | the parts of that weight: powers are repeated products, edge weights multiply edge by edge, the exponents add up hop by hop, and the seed has its own weight |
| Walk.SumExtended | src/refmatrix/enrich.py:83-90 | the sum over all one-edge extensions of a set of walks is the edge's multiple of the sum over the set |
| Walk.Merge | src/refmatrix/enrich.py:88-90 | adding one bundle of walks to a level keeps the level a summary of all its walks: sums and provenance |
| Walk.Spread | src/refmatrix/enrich.py:80-90 | one hop turns a summary of the frontier's walks into a summary of all their extensions |
| Walk.Truncate | src/refmatrix/enrich.py:93-95 | the cap keeps exactly that many nodes, none lighter than one left out, unchanged |
| Walk.Expand | src/refmatrix/enrich.py:55-100 | the whole loop: the result summarises the union of the levels of a run |
| Walk.UncappedIsExact | src/refmatrix/enrich.py:55-100 | if no level exceeds the cap, every node's weight is the sum over all walks that end there and its provenance the seeds that have one |
| Walk.OverCapIsNotExact | src/refmatrix/enrich.py:93-95 | and only then, when all walks weigh more than nothing: over the cap the result is not that sum |
| Walk.CappedIsBelow | src/refmatrix/enrich.py:93-98 | with the cap and non-negative weights, weights and provenance are under-approximations |
| HelixModel.BuildIsGood | src/refmatrix/helix.py:113-186 | one incremental build turns an index that holds, of all rows of the past, the newest eight per token into one that does so for the present, rings that are gone counted as last seen |
| HelixModel.CountNewest | src/refmatrix/helix.py:173-175 | the trim keeps min(8, n) of the n rows no older than any moment |
| HelixModel.StepCounts | src/refmatrix/helix.py:146-175 | after a build a token's kept rows number min(8, n) of the n rows in all rings no older than any moment, although some were discarded before and others are dropped for parsing again |
| HelixModel.StampsCatchUp | src/refmatrix/helix.py:136-155 | after a build the stamps are the rings' own times; a ring that is gone keeps its last one |
| HelixLaws.RowIs | src/refmatrix/helix.py:154-172 | a row is of a ring exactly when the line it names has its token and, as the row has, a time that is not zero |
| HelixLaws.RingRowsAre | src/refmatrix/helix.py:154-172 | line after line, one row for every mention of the token on it |
| HelixLaws.SessionOf | src/refmatrix/helix.py:101-103 | the session of a ring is its name up to the first double underscore |
| HelixLaws.ExcludedIff | src/refmatrix/helix.py:233-252 | a row is left out exactly when its ring and the excluded one, if one is named, are of one session |
| HelixModel.GoodIndexesAgree | src/refmatrix/helix.py:113-186 | any two such indexes of the same rings agree on every token's timestamps, and on the rows when no two rows of the token tie |
| HelixModel.GoneRingsIff | src/refmatrix/helix.py:113-186 | an index of these rings and some that are gone, against one of these only: same timestamps when no kept row is of a ring that is gone, and without ties the same rows if and only if none is |
| Helix.StepIsSound | src/refmatrix/helix.py:113-186 | appends, removed rings, builds, unreadable and unsaved index files in any order keep the index sound |
| Helix.RunIsSound | src/refmatrix/helix.py:113-186 | so does every run, and every build of it is good |
| Helix.IncrementalIsRebuild | src/refmatrix/helix.py:113-186 | after any history of appends each token has the timestamp sequence of a forced rebuild, and the same rows without ties |
| Helix.BuiltIffPresent | src/refmatrix/helix.py:136-175 | with rings removed as well: the same timestamps when no row kept for the token is of a ring that is gone, and without ties the same rows if and only if none is |
| Helix.GoneRingStays | src/refmatrix/helix.py:136-143 | a ring that is built in and then removed: the next build still has its row, a rebuild has not |
| Helix.KeptOrEightNewer | src/refmatrix/helix.py:173-175 | a row is missing only if eight newer ones are kept |
| Helix.LastTouchIsNewest | src/refmatrix/helix.py:233-252 | what `last_touch` finds is a row of the rings as the index last saw them, and no row of any candidate outside the excluded session is newer, except where that session alone fills the candidate's eight kept rows |
| Helix.NewestRow | src/refmatrix/helix.py:246-251 | the backward scan finds the newest row that is not excluded |
| Helix.LastTouch | src/refmatrix/helix.py:233-252 | over all candidates: none found if and only if every row is excluded, else a newest one |
| Helix.TouchIndex.BuildIndex | src/refmatrix/helix.py:113-186 | the method is the specified step: index returned, file written or not |
| Helix.TouchIndex.ChangedRings | src/refmatrix/helix.py:136-143 | the rings whose time differs from their stamp, or all when forced |
| Helix.TouchIndex.DropRings | src/refmatrix/helix.py:146-153 | drops exactly the rows of the changed rings, and tokens left without rows |
| Helix.TouchIndex.ReadRing | src/refmatrix/helix.py:154-172 | adds one row for every occurrence of every token on every line with a timestamp |
| Helix.TouchIndex.TrimAll | src/refmatrix/helix.py:173-175 | sorts every token's rows by time and keeps the last eight |
| IngestRefs.HandleReadsBack | src/refmatrix/ingest_records.py:280-295 | a printed handle reads back to the same target if and only if no '/' stands where the grammar splits |
| IngestRefs.NsReadsAs | src/refmatrix/ingest_records.py:288-295 | a namespaced handle always reads back as a concept of the same full name, cut at its first slash |
| IngestRefs.ParseIs | src/refmatrix/ingest_records.py:280-295 | what every string refers to: the six spellings, cut at the first slash where there is one, and nothing else |
| IngestLaws.HandleMeans | src/refmatrix/ingest_records.py:280-295 | what a handle of a record stands for, by how it is written: the document, a sub-entity, concept or namespaced concept only if the record has it, an ADR, or the first candidate of the lookup that exists |
| IngestLaws.NotesAre | src/refmatrix/ingest_records.py:322-328 | evidence is written once for every evidence op whose two handles stand for something, in order: its verb, its concept end, its entity end, its note |
| IngestLaws.EdgesAre | src/refmatrix/ingest_records.py:307-321 | edges are those of the link ops whose two handles stand for something, concept end first; one that is there keeps its weight, and of the others the first op decides |
| IngestLaws.ApplyIs | src/refmatrix/ingest_records.py:222-329 | when applying a record raises, and otherwise its entities, verbs, edges with weights and evidence, from the handles as written |
| IngestBatchLaws.BatchHandleMeans | src/refmatrix/ingest_records.py:429-444 | what a handle stands for in a batch: sub-entities and concepts of any record, the document and the lookups of its own |
| IngestBatchLaws.BulkIs | src/refmatrix/ingest_records.py:332-467 | when applying a batch raises, and otherwise its entities, verbs, edges with weights and evidence, from the handles as written |
| IngestGraph.EachIs | src/refmatrix/ingest_records.py:222-329 | what applying records one by one does, in closed form: the graph, and exactly when it raises |
| IngestGraph.FirstHitIff | src/refmatrix/ingest_records.py:269-278 | two sets of entities answer a lookup alike if and only if every candidate in one of them only stands behind one in both |
| IngestGraph.ResolveIff | src/refmatrix/ingest_records.py:280-295 | a ref of a record, whatever the names, finds the same key one by one and in the batch if and only if it is registered in both or in neither, and for a lookup the first hits agree |
| IngestGraph.OpsIff | src/refmatrix/ingest_records.py:401-467 | without empty concept names: the batch performs the ops that are performed one by one if and only if for every op both ends find the same, or an end is missing either way |
| IngestGraph.CreatedIff | src/refmatrix/ingest_records.py:358-400 | the batch creates the entities created one by one if and only if no concept name is empty or the forms of the empty name are there anyway |
| IngestGraph.BulkIsSequential | src/refmatrix/ingest_records.py:332-467 | without empty concept names: one by one succeeds exactly when all kinds are known and verbs are registered in time; when the ops are the same, which has its own if-and-only-if, bulk succeeds exactly when no op uses a type that no record registers, and where both succeed the graph is the same but for weights, and the same if and only if no op gives a weight to an alias edge that the store lacks before a record makes that alias |
| IngestGraph.EmptyNameIff | src/refmatrix/ingest_records.py:222-467 | with empty concept names too: where one by one succeeds and every op finds the same ends, bulk succeeds, and builds the same graph but for weights if and only if the empty name would create no entity and no alias edge that is not there anyway |
| IngestGraph.GraphsIff | src/refmatrix/ingest_records.py:222-467 | the edges of the two are the same, and their weights are if and only if no alias edge was weighted early |
| IngestLimits.EmptyNameDropsEdge | src/refmatrix/ingest_records.py:399-400 | an empty concept name is skipped in bulk: an edge of one-by-one application is missing |
| IngestLimits.SlashInNamespace | src/refmatrix/ingest_records.py:437-439 | a namespace with a '/' reads back as another one, and the two appliers differ |
| IngestLimits.ForeignHandle | src/refmatrix/ingest_records.py:432-434 | a handle of another record's entity resolves in bulk only |
| IngestLimits.LateCandidate | src/refmatrix/ingest_records.py:419-427 | a lookup whose candidate a later record creates resolves in bulk only |
| IngestLimits.UnknownKindRaises | src/refmatrix/ingest_records.py:235-252 | an unknown kind raises one by one and passes in bulk |
| IngestLimits.LateVerb | src/refmatrix/ingest_records.py:297-306 | a linkage type that a later record registers: one by one raises, bulk does not |
| IngestLimits.WeightedAlias | src/refmatrix/ingest_records.py:399-416 | a weighted `same_as` link before the record that makes that alias: one by one keeps the weight, bulk does not |
| IngestRecorder.RecordingStore.constructor | src/refmatrix/ingest_records.py:75-92 | an empty record of the document |
| IngestRecorder.RecordingStore.UpsertEntity | src/refmatrix/ingest_records.py:94-116 | records the entity once and hands out its handle, the document's own for the document |
| IngestRecorder.RecordingStore.AddConcept | src/refmatrix/ingest_records.py:124-130 | records the concept once and hands out its handle |
| IngestRecorder.RecordingStore.AddNamespacedConcept | src/refmatrix/ingest_records.py:132-144 | records the namespaced concept once and hands out its handle |
| IngestRecorder.RecordingStore.RegisterRefResolve | src/refmatrix/ingest_records.py:202-214 | records a lookup under a symbol not used before |
| IngestRecorder.RecordingStore.AddLinkageType | src/refmatrix/ingest_records.py:146-158 | appends one op |
| IngestRecorder.RecordingStore.MakeLink | src/refmatrix/ingest_records.py:160-165 | appends one op |
| IngestRecorder.RecordingStore.WeightedLink | src/refmatrix/ingest_records.py:167-174 | appends one op |
| IngestRecorder.RecordingStore.BulkLink | src/refmatrix/ingest_records.py:176-187 | appends one op per triple, in order |
| IngestRecorder.RecordingStore.AddEvidence | src/refmatrix/ingest_records.py:189-200 | appends one op |
| IngestRecorder.FindsItsOwn | src/refmatrix/ingest_records.py:202-214 | symbols are distinct: every lookup finds its own candidates |
| IngestDirect.HandleIff | src/refmatrix/ingest_records.py:94-214 | the handle of a call resolves on replay to what the direct call returned if and only if the call is fair: a namespaced handle reads back as a registered one, and a lookup still finds in the end what it found when called; all other calls are fair |
| IngestDirect.AllHandles | src/refmatrix/ingest_records.py:94-214 | every handle of a run does if and only if every call is fair |
| IngestDirect.AllOps | src/refmatrix/ingest_records.py:146-200 | then the replay performs the ops of the direct calls, those of `bulk_link` included, in order, none dropped and none added |
| IngestDirect.TapeCreates | src/refmatrix/ingest_records.py:94-144 | the record creates exactly the entities, concepts and verbs of the direct calls |
| IngestWeights.RunAt | src/refmatrix/store.py:4635-4685 | what direct calls leave on an edge: the last weight a `link` gave it, else the store's, else what the first write gave, be it an alias, a `link` or an item of a `bulk_link` |
| IngestWeights.DirectIs | src/refmatrix/ingest_records.py:94-214 | the direct calls, each done to the store when it is made with what earlier ones returned, end as their writes and ops do in one sweep: same graph, same evidence, and raising alike |
| IngestWeights.RecordThenApply | src/refmatrix/ingest_records.py:222-329 | recording fair Store calls that succeed when done directly, one by one, and applying the record succeeds with the same graph and evidence but for weights, and with the same graph if and only if no `link` changes a weight and no alias edge the store lacks is given one before its concept |
| IngestWeights.ReplayIs | src/refmatrix/ingest_records.py:222-329 | the replay of any fair run, whether or not it raises directly: it raises if and only if a kind is unknown or a kept op uses a linkage type that is never registered, and otherwise leaves the graph given |
| IngestWeights.BulkKeepsWeights | src/refmatrix/ingest_records.py:176-187 | a run whose only links are bulk links replays to the same graph if and only if no alias edge that the store lacks is given a weight before its concept |
| IngestWeights.LastWeightIsLost | src/refmatrix/ingest_records.py:307-321 | two links with two weights: directly the last one stands, on replay the first one |
| IngestWeights.LateVerbReplays | src/refmatrix/ingest_records.py:301-306 | a link before its type is registered raises directly and is replayed |
| IngestStore.Store.UpsertEntity | src/refmatrix/store.py:2174-2237 | keyed by (kind, name); refuses an unknown kind and changes nothing |
| IngestStore.Store.Ensure | src/refmatrix/store.py:2239-2300 | the bulk form creates without that check and returns the id of the key |
| IngestStore.Store.AddLinkageType | src/refmatrix/ingest_records.py:297-306 | registers a verb |
| IngestStore.Store.InsertEdge | src/refmatrix/store.py:4766-4869 | one edge per (verb, ends): a new one gets the weight, on an existing one the weight stays |
| IngestStore.Store.InsertNote | src/refmatrix/store.py:5577-5640 | appends one piece of evidence |
| IngestStore.Store.AddConcept | src/refmatrix/store.py:2422-2500 | creates the canonical concept and its variants and links them as aliases |
| IngestApply.PlayOp | src/refmatrix/ingest_records.py:307-328 | one op by ids: without both ends nothing; an evidence op writes its note at once between its concept end and its entity end; a link op waits with its ends and weight |
| IngestApply.CheckVerbs | src/refmatrix/store.py:4766-4800 | every linkage type is looked up before anything is written |
| IngestApply.Flush | src/refmatrix/store.py:4589-4633 | the deferred links are written in order; raises exactly when a verb is unknown |
| IngestReplay.ResolveLookups | src/refmatrix/ingest_records.py:269-278 | each symbol is bound to the first candidate that exists |
| IngestReplay.BulkAddConcepts | src/refmatrix/ingest.py:810-880 | bulk concept creation does what one-by-one creation does, for every name but the empty one |
| IngestReplay.ApplyRecord | src/refmatrix/ingest_records.py:222-329 | the interpreter over ids refines the meaning by names, success and failure both, and leaves the edges and evidence of the ops as written |
| IngestBulk.CreateBatch | src/refmatrix/ingest_records.py:358-400 | creates all documents, entities and concepts of the batch |
| IngestBulk.BulkApplyRecords | src/refmatrix/ingest_records.py:332-467 | the bulk interpreter over ids refines the bulk meaning by names, and leaves the edges and evidence of the ops as written |
| IngestBulk.ApplyRecords | src/refmatrix/ingest_records.py:222-329 | the loop of single interpreters refines the one-by-one meaning |
| CorefText.SentencesKeepTokens | src/refmatrix/coref.py:90-102 | tokens of the sentences, at their offsets, are the tokens of the text: no sentence boundary cuts one |
| CorefText.FindSentences | src/refmatrix/coref.py:90-102 | searching each chunk from where the last ended finds it where it stands |
| CorefText.TokensSplit | src/refmatrix/coref.py:43 | tokenizing splits at any place no token crosses |
| CorefTextLaws.TokensAre | src/refmatrix/coref.py:43 | tokens are the longest runs of letters, digits, underscores, apostrophes and dashes that begin with a letter, one after the other, and every letter is in one |
| CorefTextLaws.SentencesAre | src/refmatrix/coref.py:90-102 | sentences are the chunks between the gaps behind sentence ends, without the empty ones, in order |
| Coref.NearestOrNone | src/refmatrix/coref.py:105-174 | a pronoun gets the last eligible candidate, with a confidence in (0,1] at or above the threshold, or nothing |
| CorefLaws.PronounsGo | src/refmatrix/coref.py:105-174 | over the tokens of the text: a person pronoun goes to the nearest earlier capitalised token the person test accepts, a neuter one to the nearest earlier token the recurring-noun test accepts, at most `window` sentences back, with the confidence that has; it stays if and only if there is none or its confidence is too low |
| CorefLaws.NewCandIs | src/refmatrix/coref.py:120-137 | which tokens are names and which are recurring nouns |
| CorefLaws.ItemsStand | src/refmatrix/coref.py:105-119 | every token considered is a token of the sentence it is counted in, and is its first exactly when that sentence begins with it |
| Coref.ResolutionsMarkTokens | src/refmatrix/coref.py:105-174 | resolutions mark tokens of the text, in rising order, and every antecedent is a token of the text |
| CorefResolve.CountSentences | src/refmatrix/coref.py:125-128 | counts for each word the sentences that hold it |
| CorefResolve.MakePool | src/refmatrix/coref.py:138-144 | the pool is the eligible candidates in order |
| CorefResolve.ResolveText | src/refmatrix/coref.py:105-174 | the loops compute the resolutions, each pronoun to the nearest earlier token of its kind |
| CorefApply.Retokenized | src/refmatrix/coref.py:177-187 | tokens of the simultaneously substituted text are the old tokens with exactly the marked ones replaced |
| CorefApply.BackToFront | src/refmatrix/coref.py:177-187 | splicing by falling offset is the simultaneous substitution |
| CorefApply.ApplyIsSimultaneous | src/refmatrix/coref.py:177-187 | so is the whole rewrite, and the drift check never fires |
| CorefApply.ReplacedIs | src/refmatrix/coref.py:177-187 | the tokens after the substitution, one by one: the antecedent for a marked one, every other one itself |
| CorefApply.CountsMove | src/refmatrix/coref.py:190-196 | each term's count changes by the antecedents put in minus the pronouns taken out |
| CorefApply.Apply | src/refmatrix/coref.py:177-187 | the loop computes the specified rewrite, drifted splices skipped |
| CorefApply.AntecedentCounts | src/refmatrix/coref.py:190-196 | for each lower-cased name, the number of resolutions whose antecedent it is |
| CorefApply.ResolvedText | src/refmatrix/coref.py:105-196 | all of it for resolve then apply on one text, and no new vocabulary |
| GraftingModel.ParseOk | src/refmatrix/cctree.py:319-412 | a parsed transcript has one action per tool_use block, each in one place, with its id indexed |
| GraftingLaws.ParseIs | src/refmatrix/cctree.py:319-412 | block by block: each tool_use is an action with its tool and id, in the turn of its prompt or a stray before the first; an id or record finds the last action it names; an action is an error exactly when the last result for it says so, be it by its tool id or, without a known one, by the record whose last action it is |
| GraftingModel.LoadIsTree | src/refmatrix/cctree.py:319-412 | adding a transcript at the top keeps the forest a tree and grows it by its tool_use blocks |
| GraftingModel.AttachIsTree | src/refmatrix/cctree.py:480-485 | so does attaching one below its call: children are always made after their parent |
| GraftingModel.PassIs | src/refmatrix/cctree.py:472-489 | one pass attaches or keeps every pending transcript; one that attaches none found none attachable |
| GraftingModel.FixIs | src/refmatrix/cctree.py:472-501 | passes end, and then no call of what is left is in the forest |
| GraftingModel.OrderDoesNotMatter | src/refmatrix/cctree.py:471-489 | over one forest, which transcripts attach does not depend on the order of the pending files |
| Grafting.EachTranscriptOnce | src/refmatrix/cctree.py:432-503 | every transcript is attached once, or stands alone once as a teammate or an orphan; every tool_use block of the session becomes one action of a tree |
| GraftingForest.SessionIs | src/refmatrix/cctree.py:432-503 | the forest: main transcript and teammates on top, the attached below their calls, the others on top again |
| GraftingForest.SessionHolds | src/refmatrix/cctree.py:432-503 | the session holds what its transcripts hold, each parsed on its own, for any property of actions that grafting does not set |
| GraftingForest.SessionCalls | src/refmatrix/cctree.py:432-503 | its errors are the calls of the records that failed, and the actions of a tool the calls of that tool |
| GraftingForest.SessionHangs | src/refmatrix/cctree.py:480-485 | every attached transcript hangs below an action with its id, with all its calls that follow a prompt and no others, and that action carries its agent unless a later one does |
| GraftingForest.TeammatesAre | src/refmatrix/cctree.py:449-468 | teammates are the transcripts that name no call, in their order |
| GraftingForest.SpawnedAre | src/refmatrix/cctree.py:449-469 | the pending ones are those that name one, in their order |
| Grafting.FileOrderDoesNotMatter | src/refmatrix/cctree.py:449-503 | in a whole session, teammates included, which transcripts attach and which are left does not depend on the order of the files |
| Grafting.AttachedIff | src/refmatrix/cctree.py:449-503 | a spawned transcript attaches if and only if a chain of calls leads to it from the main transcript or a teammate's, and is left otherwise |
| Grafting.CallInsideOrphan | src/refmatrix/cctree.py:489-501 | two transcripts of which one is called from the other, both left alone |
| Grafting.NothingCountedTwice | src/refmatrix/cctree.py:1099-1110 | the trees under the top-level actions, with the strays', hold every action exactly once, for any property counted |
| Grafting.SessionCounts | src/refmatrix/cctree.py:1161-1188 | the session's action count is at most the number of tool_use blocks, and equal if and only if no action was stray |
| Grafting.StraysAreEarly | src/refmatrix/cctree.py:340-412 | there are strays if and only if some transcript has a tool_use before its first prompt |
| Grafting.EveryActionCounted | src/refmatrix/cctree.py:1161-1194 | the action count is the number of tool_use blocks if and only if each transcript's tool_uses follow a prompt |
| GraftingLoop.Transcripts.BuildTurns | src/refmatrix/cctree.py:319-412 | the record loop appends exactly the parsed actions, turns and index entries |
| GraftingLoop.Transcripts.AttachTo | src/refmatrix/cctree.py:480-485 | the transcript's turns become children of the spawning action |
| GraftingLoop.Transcripts.RunPass | src/refmatrix/cctree.py:474-488 | one pass over the pending files is the specified pass, and counts what attached |
| GraftingLoop.Transcripts.RunPasses | src/refmatrix/cctree.py:471-501 | the outer loop ends in the specified fixpoint |
| GraftingLoop.Transcripts.GraftSubagents | src/refmatrix/cctree.py:432-503 | the whole graft: forest, number attached, and the list of standing-alone runs with their turns, teammates first |
| GraftingLoop.CountActions | src/refmatrix/cctree.py:1099-1110 | the recursion returns actions and errors of the trees and adds each tool to the histogram |
| GraftingStats.SessionRoots | src/refmatrix/cctree.py:1161-1179 | the roots of the whole forest are the main turns' actions followed by those of each standing-alone run |
| GraftingStats.RunsByReason | src/refmatrix/cctree.py:1177-1185 | the runs that stand alone are as many as the teammates and the transcripts left over, and those without a spawning call as many as the teammates |
| GraftingStats.AgentsWithinFiles | src/refmatrix/cctree.py:1182-1187 | teammates, runs left over and actions that carry an agent are together no more than the subagent files |
| GraftingStats.CountSession | src/refmatrix/cctree.py:1174-1187 | the loop adds the counts of each run to those of the main turns: totals, errors, histogram, teammates and subagents of all of them |
| GraftingStats.StatSession | src/refmatrix/cctree.py:1161-1188 | parse, graft and count: the sums are those over the whole forest under its roots; actions are all tool_use blocks if and only if each follows a prompt, and then errors are the failed calls of the records and the histogram counts their calls; no file counts twice |
| Identifier.PartIs | src/refmatrix/identifier.py:31-33 | a part is a run of one kind, and there is one exactly at letters and digits |
| IdentifierLaws.PartLenIs | src/refmatrix/identifier.py:31-33 | the part that begins a string: capitals before a capitalised word, else a word, else capitals, else digits, each as long as it goes |
| IdentifierLaws.PartsAreCut | src/refmatrix/identifier.py:36-46 | the parts are cut from left to right wherever one begins, and only what is no letter and no digit is in none |
| Identifier.PartsConserve | src/refmatrix/identifier.py:36-46 | the parts hold every ASCII letter and digit of the name, lowered, in order, and nothing else |
| Identifier.PartsReadBack | src/refmatrix/identifier.py:36-46 | parts joined by any separator split into themselves |
| Identifier.ChunksKeepParts | src/refmatrix/identifier.py:42-46 | cutting at separators first does not change the parts |
| Identifier.CanonicalIsFixed | src/refmatrix/identifier.py:49-57 | canonicalizing is idempotent and keeps the parts |
| IdentifierLaws.CanonicalIs | src/refmatrix/identifier.py:49-57 | the canonical form: the parts with underscores between them, or without parts the stripped name in lower case |
| IdentifierLaws.StripIs | src/refmatrix/identifier.py:42-56 | stripping takes the white space off both ends of a name and nothing else |
| Identifier.CanonicalIffParts | src/refmatrix/identifier.py:49-57 | names with parts have one canonical form if and only if they have the same parts |
| Identifier.SinglePartIsLowercaseIff | src/refmatrix/identifier.py:49-57 | a single-part name becomes its lowercase form, stripped or not, if and only if that is all letters and digits |
| Identifier.SinglePartIsNotLowercase | src/refmatrix/identifier.py:49-57 | a single-part name whose canonical form is not its lowercase form |
| Identifier.ConceptParts | src/refmatrix/identifier.py:36-46 | the loops compute the parts |
| Identifier.CanonicalizeName | src/refmatrix/identifier.py:49-57 | computes the canonical form |
| Identifier.ExpandNameVariants | src/refmatrix/identifier.py:60-82 | exactly: the stripped name, then the underscore, dash and space forms of two or more parts, or the one part, each only if it is not the name itself; none twice, and every form canonicalizes like the name |
| BriefModel.AnchorIsId | src/refmatrix/brief.py:550-553 | an anchor is a non-empty lowercase id without dashes at its ends |
| BriefModel.AnchorIsFixed | src/refmatrix/brief.py:550-553 | an anchor is its own anchor |
| BriefLaws.AnchorIs | src/refmatrix/brief.py:550-553 | the anchor of a title, character by character: what an id may contain, lower-cased, one dash for every run of anything else, no dash at the ends, and `brief` when nothing is left |
| BriefLaws.LinesAre | src/refmatrix/brief.py:631-651 | the lines of a brief as text: heading with anchor, finding, numbered evidence with links, the bare ids if any, and one `rel:` line for every named one, in order |
| BriefLaws.SectionAfterSection | src/refmatrix/brief.py:626-630 | the sections one behind the other: heading, number of briefs, and the briefs |
| BriefLaws.BriefAfterBrief | src/refmatrix/brief.py:631-651 | the lines of the briefs of a section stand one behind the other |
| BriefLaws.RankIs | src/refmatrix/brief.py:530 | the four known classes in their order, any other class behind them |
| BriefLaws.DecimalIs | src/refmatrix/brief.py:639-646 | numbers are written in decimal digits, the highest first |
| BriefLaws.SectionsAre | src/refmatrix/brief.py:623-628 | one section for each class that has briefs, in the order of the classes, with all its briefs |
| BriefLaws.LeIs | src/refmatrix/brief.py:582 | strings compare by their first difference, a prefix first |
| BriefTextLaws.TailIs | src/refmatrix/brief.py:532-536 | what may follow a label, in any document: anchor, blank line, finding |
| BriefTextLaws.MatchIs | src/refmatrix/brief.py:532-536 | a match, in any document: its label ends at the first place where such a tail follows, and the evidence is that of the first evidence line behind it |
| BriefTextLaws.EvidenceLineIs | src/refmatrix/brief.py:532-536 | what is an evidence line, in any document |
| BriefTextLaws.FindEvidenceIs | src/refmatrix/brief.py:534-535 | the evidence of a brief is that of the first evidence line behind its finding |
| BriefTextLaws.FindAllIs | src/refmatrix/brief.py:675-680 | the next match is at the first line where the pattern matches, and the search goes on behind it |
| BriefTextLaws.SplitIs | src/refmatrix/brief.py:666 | a document splits at all the marks that begin a line and at nothing else |
| BriefTextLaws.HeadClassIs | src/refmatrix/brief.py:668-673 | the class of a section is named on its first line, as the pattern says |
| BriefTextLaws.IdsAre | src/refmatrix/brief.py:538 | the ids of a line are its numbers between backticks, from left to right |
| BriefTrip.EvidenceReadsBack | src/refmatrix/brief.py:639-641 | the ids of an evidence line are read back in order, named and bare alike |
| BriefTrip.ScanStops | src/refmatrix/brief.py:532-536 | the lazy title match stops at the first place where the title seems to open an anchor, or at its end |
| BriefTrip.CoreIsFound | src/refmatrix/brief.py:532-536 | the lines of a brief match once, and the search goes on behind them |
| BriefDoc.SectionReadsBack | src/refmatrix/brief.py:670-681 | a section reads back as the briefs of its class, with or without its blank lines at the end |
| BriefDoc.SectionsComeApart | src/refmatrix/brief.py:667 | splitting at headings gives the sections back |
| BriefDoc.ClosedIsText | src/refmatrix/brief.py:652 | the stripped document is its lines without blank ones at the end |
| BriefTheorems.ListedIs | src/refmatrix/brief.py:582-628 | the index lists every brief once, known classes first, by title within a class, equal ones in their old order |
| BriefTheorems.IndexReadsBack | src/refmatrix/brief.py:556-681 | parsing a rendered index gives back class, title, finding, anchor and evidence ids of every brief, in that order |
| BriefTheorems.TitleReadsBackIff | src/refmatrix/brief.py:532-536 | a title is read back whole if and only if no ` {#` inside it is without a later closing brace |
| BriefTheorems.OpenTitleIsCut | src/refmatrix/brief.py:532-536 | the title `a {#b` comes back as `a` |
| BriefTheorems.SecondRenderingIsTheSame | src/refmatrix/brief.py:556-681 | rendering what was parsed gives the same document byte for byte |
| Briefs.RenderGmd | src/refmatrix/brief.py:556-652 | the loops write the specified document |
| Briefs.ParseGmd | src/refmatrix/brief.py:655-681 | the loops read the specified briefs |
| ConceptSim.Invert | src/refmatrix/consolidate.py:251-256 | the inverted index lists, per concept, the positions that hold it, each once |
| ConceptSim.AddPairs | src/refmatrix/consolidate.py:263-266 | adds the weight once to every pair of a column and to nothing else |
| ConceptSim.Accumulate | src/refmatrix/consolidate.py:258-266 | each pair holds the sum of squared idf over the concepts its two entities share |
| ConceptSim.Masses | src/refmatrix/consolidate.py:268-272 | each entity's mass is the root of the sum of its squared idf |
| ConceptSim.NumIsShared | src/refmatrix/consolidate.py:258-266 | a pair has an entry if and only if i < j and it shares a weighted concept, and the entry is the direct sum |
| ConceptSim.SimilarityInUnit | src/refmatrix/consolidate.py:274-279 | the quotient by the two masses lies in (0,1] |
| ConceptSimLaws.SimilarityIs | src/refmatrix/consolidate.py:241-279 | the similarity of two rows with their concepts listed in any order: the squared idf of the shared ones, divided by the roots of those of each; a row has the concepts of its entity when it is the last to name it |
| ConceptSim.ConceptSimilarity | src/refmatrix/consolidate.py:241-279 | the whole accumulation equals the direct definition for every pair |
| ConceptSim.Fuse | src/refmatrix/consolidate.py:515-534 | which edges each signal keeps, with weight, parts and kind |
| ConceptSim.FuseBoth | src/refmatrix/consolidate.py:523-534 | every dense edge stays, times 1 + beta x similarity and confirmed if that is above zero; only pairs without one, at or above the bridge threshold, come in, with gamma x similarity |

## Left out

- Garbage collection, timeouts, clocks and interrupts are nondeterministic steps of the registry model: a wait may time out, a handle may be dropped whenever it runs no statement. Finalizers that run inside a critical section of their own thread are not modelled, nor is what closing a cursor does.
- ReadOnlyInstance.ROInstance.Shut: the class method is one thread's view, where the drain wait ends at once or times out; the waiting itself, and the unlocked write of `closed`, are in the state machine, whose states hold the class's own fields.
- The read-only side appears in the write-open model only as connects that are refused or break; a missing path skips stale-holder closing and is not part of the write-open theorems.
- WriteOpen.QuietWindowOpensPresent: assumes a registry that names every open connection and no replacement between the scan and the next read of the inode, which the code does not compare; `WriteOpen.OpenWriteIsExact` says what holds without either.
- The directory lookups, `open_duckdb`'s dispatch, `attach_file` and the SQL of DuckDB and SQLite are not modelled; a connection is the inode it is bound to and whether it is open.
- Bus.Bus.MarkRead: has its contract but is no operation of a run, since it can set a cursor back; a read with n below 1 may move cursors without returning messages, which `BusModel.LeavesTheRestIff` says exactly, so `BusRuns.AccountedIff` leaves such reads out.
- BusRuns.NothingDeliveredTwice: a read is one step of a run there; `BusOverlap` takes it apart, and what an overlap costs is `BusOverlap.TwiceOnlyByOverlap`.
- BusOverlap.OverlapLosesNothing: with purges of the highest row and overlapping reads together, only repeats are characterised, not losses.
- Bus subscribers, the refinement file, history, channel listings and `reap_channel` are left out; timestamps are integers and message numbers follow SQLite's rule of one more than the highest.
- The Store of the ingest model is keyed by kind and name: paths, summaries, metadata, descriptions, protection, tracked files, verb directions and returned counts are left out, verbs are taken as already canonical, `same_as` as registered, and the state after a raise is unspecified.
- IngestGraph.BulkIsSequential: empty concept names are left out of it and of `IngestGraph.OpsIff`; `IngestGraph.ResolveIff` and `IngestGraph.EmptyNameIff` hold with them. When the ops differ the graphs may still coincide, as when an extra link is there already.
- IngestWeights.RecordThenApply: for fair calls, which `IngestDirect.AllHandles` shows to be the ones whose handles come back, and a direct run that raises nothing; `IngestWeights.ReplayIs` says what the replay does otherwise. `bulk_link` is taken with its default, first-wins.
- Concept variants are an unknown function of the name, the same for both interpreters.
- Transcripts keep what the forest depends on: prompts, tool_use blocks, results and their targets. Texts, decorations, durations, reading and pairing the files, the memo of session statistics and all rendering are left out; objects are numbered in a store instead of being references.
- GraftingStats.StatSession: turns, gists and times are left out, and reading the files.
- Grafting.EveryActionCounted: sidechain blocks of the main transcript are no tool_use blocks here, as the parser skips them.
- Characters are ASCII: no Unicode letters, digits, spaces or case; the stop lists of the resolver are parameters. Regular expressions are hand-written scanners.
- Coref.NearestOrNone: confidences are exact; the code rounds them to three places after comparing.
- Scores, weights, gains and similarities are exact reals. `log2` and the square root are parameters with the laws used: positive, rising and log2(r + 1) <= r; a non-negative root.
- Metrics.RecallAtK: the recall of one query is a division by a count that is never zero; ties of scores keep the order of the run, as Python's sort does.
- Walk.OverCapIsNotExact: needs every walk to weigh more than nothing; with zero weights a capped level may still be exact. The scoring of `enrich_concepts` is left out.
- Helix.IncrementalIsRebuild: rings stay; `Helix.BuiltIffPresent` is the same with rings removed. Every append changes the ring's time, and a removed ring that comes back holds what it held; reading a ring that cannot be opened, and several processes that write the index at once, are left out. Telemetry, snapshots and annotations are left out.
- BriefTheorems.IndexReadsBack: classes are free of white space and '}' and are neither `root`, which the reader skips, nor `###`, which makes a section's head look like a brief; findings are one non-empty line that opens no section; names are one line without a number between backticks. The front matter and introduction are a parameter, and evidence ids are not negative.
- The detectors that find briefs, the anchors' uniqueness and the wire form of a brief are left out.
- Of `consolidate.py`, only the similarity and the fusion are modelled: no nearest neighbours, clustering, labelling or document.
- Hooks, handoff, discovery, context rendering, embedder and worker plumbing, catalog tables and the other evaluation scripts are mostly input and output and are left out.
