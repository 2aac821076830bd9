# Verified model of the swarmline core

This project models the parts of swarmline whose behaviour is hard to settle by examples, and proves
properties of them for all inputs and all runs. It is written for Dafny 4.11; `dafny verify dfyconfig.toml` checks
it. Nothing here executes the original program.

The model follows the form of the Python code. Objects whose methods update their fields are classes, and
loops are loops with invariants; each method is proved equal to a function on its inputs or on the old state.
The results below are lemmas about these functions. Every module names the file it models.

* **Compaction** (`ToolPairs`, `Compaction`, `InputFilters`): the three tiers of the conversation compaction
  filter, and the quadratic truncation loop of `MaxTokensFilter` compared with tier 3.
* **Token budgets** (`Budget`, `CodingContext`, `ContextBuilder`, `Tiered`): the shared estimate
  `len // 4 + 1`, and the three packers that use it, with their exact overruns.
* **Knowledge bank** (`Frontmatter`, `KnowledgeTypes`, `KnowledgeStore`, `KnowledgeSearch`, `Checklist`): the
  YAML header and the Markdown checklist with their parsers, the incrementally maintained index against a
  rebuilt one and against the dictionary store.
* **State machines** (`Scheduler`, `GoalQueue`): every interleaving of registration, cancellation, pausing,
  ticks, completions, clock advances and shutdown; a queue with lazy deletion.
* **Conversations** (`MessageStore`, `Conversation`): the history of a conversation against its copy in the
  message store, over whole runs of turns, and resuming.
* **Trees and folds** (`AgentGraph`, `Hooks`, `Facts`): nested agent descriptions against the flat graph with
  parent pointers, merged hook registries against dispatch in sequence, the fact guard and overlay.
* `Wrappers`, `Text` and `Messages` hold the shared data types and the string operations.

Parameters stand for what the code takes from outside: clocks, fresh identifiers, the YAML and JSON libraries
(with the hypothesis that they read back what they print), the summarizing model (any function, also a
failing one), hook callbacks (any functions, also raising ones), `str.lower` and `fnmatch`. Floats are reals.

## Where the code and its descriptions disagree

The model follows the code.

* Tier 1 of compaction does not look at `non_compactable`; `Compaction.CompactKeepsPinnedIff` says exactly
  when the marked messages survive. With `preserve_recent_pairs <= 0` it can collapse the last message:
  `Compaction.CompactKeepsLastIff`.
* Tier 2 says that non-compactable messages keep their position (`src/swarmline/compaction.py:139`); they keep
  their order, and `Compaction.PinnedPosition` says where each of them lands, also in the preserved tail.
  `Compaction.PositionsKeptIff` says when all keep their positions; `Compaction.PinnedMessageMoves` and
  `Compaction.PreservedMessageMoves` show two that do not.
* `Conversation.stream` leaves the prompt of a failed stream in the history and out of the store
  (`src/swarmline/agent/conversation.py:183`), and a message built from a payload with content blocks cannot be
  stored (`src/swarmline/agent/agent.py:506`): `Conversation.ResumeReproducesIff` and the two inputs after it.
* Coding slices are not dropped strictly from the end of the priority list
  (`src/swarmline/context/coding_context_builder.py:17`): a small later slice can survive an omitted earlier
  one, as `CodingContext.LaterSliceCanSurvive` shows; `CodingContext.DropOrderIff` says when the order holds.
* The separators between the slices are not counted against the budget (`CodingContext.JoinedTextCanExceedBudget`);
  `CodingContext.JoinedTextFitsIff` says when the joined text stays within it.
* A summary can exceed `summary_max` although it is cut: `ContextBuilder.SummaryCapIff`.
* Tiered search can exceed its budget by exactly one token: `Tiered.FilledWithinOneToken`.
* The resolver takes an empty agent identifier for the end of the chain of command:
  `AgentGraph.ResolveIsTopDownIff`.
* The in-memory fact provider ignores the source of a fact, so that a weaker later write wins there and loses
  in SQLite: `Facts.ProvidersAgreeIff`.
* A document whose printed header contains `---` is cut short when it is read back: `Frontmatter.RoundTripIff`.

## Model

| member | source | states |
|---|---|---|
| `Budget.TruncationOvershoot` | `src/swarmline/context/budget.py:31-41` | a text that is really cut costs exactly four tokens more than the limit it was cut to; no truncated text costs more than that |
| `Budget.TruncationKeepsBeginning` | `src/swarmline/context/budget.py:36-41` | with a nonnegative limit, a text with no more than four characters for each token is kept; of a longer one exactly that beginning is, with the fifteen-character suffix |
| `ToolPairs.FindToolPairs` | `src/swarmline/compaction.py:113-130` | finds every adjacent tool call and result, each once, in order, and nothing else |
| `ToolPairs.CollapseIndices` | `src/swarmline/compaction.py:221-223` | the collapse set holds exactly the positions of both halves of the oldest pairs |
| `ToolPairs.CollapseToolResults` | `src/swarmline/compaction.py:206-247` | the loop computes the collapsed list for every setting, negative ones included |
| `ToolPairs.ReplacePairs` | `src/swarmline/compaction.py:225-247` | the copying loop replaces each collapsed pair once; its middle branch is unreachable |
| `ToolPairs.CollapseTouchesOnlyOldPairs` | `src/swarmline/compaction.py:206-247` | the result is shorter by one message per collapsed pair, each such pair has become its summary, and every other message is verbatim where the earlier collapses leave it |
| `ToolPairs.PairOutcome` | `src/swarmline/compaction.py:113-245` | each of the last pairs, as many as are to be preserved, is found whole and adjacent; each older one has become a system message with its tool name that ends with the first hundred characters of its result |
| `ToolPairs.CollapseCreatesNoPair` | `src/swarmline/compaction.py:206-247` | the number of pairs falls by exactly the collapsed ones, to the number to be preserved or to none for a negative one: collapsing never brings a new pair together |
| `ToolPairs.CollapseIdempotent` | `src/swarmline/compaction.py:206-247` | running tier 1 twice is running it once |
| `ToolPairs.CollapseKeepsLastIff` | `src/swarmline/compaction.py:206-247` | tier 1 keeps the last message if and only if some pair is preserved or the list does not end with a pair |
| `Compaction.ConversationCompactionFilter.EstimateTotal` | `src/swarmline/compaction.py:106-111` | the total is the estimate of the prompt and of every message |
| `Compaction.ConversationCompactionFilter.SplitRegion` | `src/swarmline/compaction.py:151-157` | the region is split into compactable and non-compactable messages, each in order |
| `Compaction.ConversationCompactionFilter.SummarizeOldest` | `src/swarmline/compaction.py:132-172` | tier 2 with an arbitrary or failing model computes the summarized list, which `Compaction.SummaryCoversDropped` and `Compaction.NothingToSummarize` describe |
| `Compaction.ConversationCompactionFilter.DropOldest` | `src/swarmline/compaction.py:193-202` | the set of dropped positions is exactly the compactable messages before the first cut that fits |
| `Compaction.ConversationCompactionFilter.EmergencyTruncate` | `src/swarmline/compaction.py:174-204` | both branches, with and without a positive budget, compute the first cut that fits |
| `Compaction.ConversationCompactionFilter.Filter` | `src/swarmline/compaction.py:65-100` | the tier-by-tier method computes the compacted list, with a failing model falling through to tier 3 |
| `Compaction.FirstFittingTier` | `src/swarmline/compaction.py:65-100` | the result is that of the first enabled tier after which the messages fit; tier 3 starts from the summarized list, or from the outcome of tier 1 if there is no reply |
| `Compaction.SummarizeOutcome` | `src/swarmline/compaction.py:132-172` | tier 2 keeps all non-compactable messages in order, says where each of them lands, keeps the preserved tail verbatim, and never makes the list longer |
| `Compaction.PinnedPosition` | `src/swarmline/compaction.py:150-172` | when a summary is made, a non-compactable message, in the preserved tail or before it, moves one place back and one forward for each message before it that the summary replaces; it keeps its position if and only if there is one such message |
| `Compaction.PositionsKeptIff` | `src/swarmline/compaction.py:138-139` | when a summary is made, every non-compactable message of the list is found at its original position, as documented, if and only if the summary replaces exactly one message before each of them |
| `Compaction.PinnedMessageMoves` | `src/swarmline/compaction.py:138-139` | a list whose non-compactable first message tier 2 moves |
| `Compaction.PreservedMessageMoves` | `src/swarmline/compaction.py:138-139` | a list whose preserved non-compactable last message tier 2 moves |
| `Compaction.SummaryCoversDropped` | `src/swarmline/compaction.py:144-172` | a compactable message before the last `max(1, 2 * preserve + 1)` ones is a line of the dialog text that the model is shown; a failing call fails, and else the list is a system message that ends with the reply, the non-compactable messages before those, and those |
| `Compaction.NothingToSummarize` | `src/swarmline/compaction.py:145-160` | with no such message tier 2 changes nothing and does not ask the model |
| `Compaction.NothingFitsNoBudget` | `src/swarmline/compaction.py:184-191` | without a positive budget no cut but the last fits |
| `Compaction.TruncateDropsLeast` | `src/swarmline/compaction.py:174-204` | tier 3 drops an initial segment of the compactable messages, and every shorter segment would leave too much |
| `Compaction.TruncateOutcome` | `src/swarmline/compaction.py:174-204` | tier 3 keeps the last message and all non-compactable ones in order, and the result fits or consists of these alone |
| `Compaction.CollapseKeepsPinnedIff` | `src/swarmline/compaction.py:221-239` | tier 1 preserves the non-compactable messages if and only if none of them is in a pair it collapses |
| `Compaction.Tiers2And3Outcome` | `src/swarmline/compaction.py:83-100` | tiers 2 and 3 together never lose the last or a non-compactable message, whatever the model replies |
| `Compaction.CompactFitsOrIsMinimal` | `src/swarmline/compaction.py:65-100` | with tier 3 enabled the result fits the threshold or only non-compactable messages precede the last one, whatever tiers 1 and 2 do |
| `Compaction.CompactKeepsLastIff` | `src/swarmline/compaction.py:65-100` | the filter keeps the last message verbatim if and only if tier 1 does not run, preserves a pair, or the list does not end with a pair |
| `Compaction.LastMessageIsLost` | `src/swarmline/compaction.py:217-239` | a list whose last message tier 1 collapses |
| `Compaction.CompactKeepsPinnedIff` | `src/swarmline/compaction.py:65-100` | the filter keeps the non-compactable subsequence if and only if tier 1 does not run or collapses none of it |
| `Compaction.PinnedMessageIsLost` | `src/swarmline/compaction.py:217-239` | a list whose non-compactable message tier 1 collapses |
| `Compaction.CompactTwiceIff` | `src/swarmline/compaction.py:65-100` | running the whole filter twice is running it once if and only if the first result fits, or has no old pair to collapse and, without tier 3, no summary to make |
| `Compaction.NewPairIsCollapsedNext` | `src/swarmline/compaction.py:65-100` | a list in which tier 3 brings a tool call and a tool result together, so that a second run collapses them |
| `InputFilters.MaxTokensFilter.Filter` | `src/swarmline/input_filters.py:41-67` | the popping loop that sums again in every round computes the longest suffix that fits, and at least the last message |
| `InputFilters.TrimIsLongest` | `src/swarmline/input_filters.py:41-67` | for any estimator that is the longest suffix that a positive budget admits, or the last message; without a positive budget the last message alone, also if nothing is estimated at more than zero |
| `InputFilters.TruncateIsTrim` | `src/swarmline/input_filters.py:41-67` | with a shared estimator and no non-compactable message, the linear tier 3 and the quadratic loop return the same suffix for every budget |
| `InputFilters.TruncateKeepsNoMoreThanMaxTokens` | `src/swarmline/input_filters.py:38-67` | with the estimators in use and the same limit, tier 3 returns a suffix of what `MaxTokensFilter` returns, if that filter estimates no text of the list higher |
| `InputFilters.NeverHigher` | `src/swarmline/input_filters.py:34-39` | with four characters per token or more, as in the default, it estimates no text higher |
| `Frontmatter.ClosingDashes` | `src/swarmline/memory_bank/frontmatter.py:32-37` | the search finds the closing dashes of a rendered document if and only if the header has none |
| `Frontmatter.RenderDataInverse` | `src/swarmline/memory_bank/frontmatter.py:47-73` | the rendered mapping determines the metadata, omitted defaults included, if and only if no custom key is a known key |
| `Frontmatter.KnownDataLookups` | `src/swarmline/memory_bank/frontmatter.py:47-71` | a key is left out of the header if and only if it has its default, as which it reads back |
| `Frontmatter.ParseOfRendered` | `src/swarmline/memory_bank/frontmatter.py:24-76` | a header without dashes reaches the YAML parser as it was printed, and the body comes back stripped |
| `Frontmatter.ParseOfRenderedDashes` | `src/swarmline/memory_bank/frontmatter.py:32-37` | a header with dashes always corrupts the body |
| `Frontmatter.ForeignDocument` | `src/swarmline/memory_bank/frontmatter.py:32-56` | any text between two `---`, not only a rendered one: a mapping gives its metadata and the stripped body, an empty one the defaults, and an error or anything else the whole text as body |
| `Frontmatter.HeaderlessDocument` | `src/swarmline/memory_bank/frontmatter.py:29-34` | without an opening or a closing `---` the whole text is the body |
| `Frontmatter.RoundTripIff` | `src/swarmline/memory_bank/frontmatter.py:24-76` | parsing inverts rendering if and only if the header has no `---` and the custom keys avoid the known ones |
| `Frontmatter.HiddenKeyIsLost` | `src/swarmline/memory_bank/frontmatter.py:72-73` | metadata with a custom key named `kind`, which does not come back |
| `KnowledgeStore.DefaultKnowledgeStore.SaveEntry` | `src/swarmline/memory_bank/knowledge_store.py:28-32` | the files after a save: the rendered document and the index with the line of its path replaced |
| `KnowledgeStore.DefaultKnowledgeStore.LoadEntry` | `src/swarmline/memory_bank/knowledge_store.py:34-47` | loading, with the default metadata for a document without header, the missing file and the raising parser |
| `KnowledgeStore.HeaderlessFileLoads` | `src/swarmline/memory_bank/knowledge_store.py:36-47` | a file without a header loads as a note of medium importance with its whole text |
| `KnowledgeStore.DefaultKnowledgeStore.DeleteEntry` | `src/swarmline/memory_bank/knowledge_store.py:49-52` | the files after a delete; the index is rewritten only if a line went |
| `KnowledgeStore.DefaultKnowledgeStore.ListEntries` | `src/swarmline/memory_bank/knowledge_store.py:54-60` | lists the lines of the stored index that have the kind |
| `KnowledgeStore.DefaultKnowledgeStore.ReadIndex` | `src/swarmline/memory_bank/knowledge_store.py:69-91` | a missing or malformed index reads as the empty one |
| `KnowledgeStore.InMemoryKnowledgeStore.ListEntries` | `src/swarmline/memory_bank/knowledge_inmemory.py:33-48` | lists exactly the lines of the stored entries of the kind, each path once |
| `KnowledgeStore.SaveRefines` | `src/swarmline/memory_bank/knowledge_store.py:28-32` | a save keeps files, index and dictionary in agreement |
| `KnowledgeStore.IndexAfterSaving` | `src/swarmline/memory_bank/knowledge_store.py:113-130` | the index read after a save has the time of the save, the version it had, the lines of the other paths in order, and the new line last |
| `KnowledgeStore.DeleteRefines` | `src/swarmline/memory_bank/knowledge_store.py:49-52` | a delete keeps them in agreement |
| `KnowledgeStore.IndexAfterDeleting` | `src/swarmline/memory_bank/knowledge_store.py:132-141` | the index read after a delete has the time of the delete and lacks the line of the path; deleting an unknown path changes no file |
| `KnowledgeStore.VersionIsOne` | `src/swarmline/memory_bank/knowledge_store.py:69-141` | after every run of saves and deletes the version of the index is one |
| `KnowledgeStore.StoreRefinesMemory` | `src/swarmline/memory_bank/knowledge_store.py:28-65` | after every run of saves and deletes the file store lists the same lines as the dictionary store, each path once, and has the same documents |
| `KnowledgeStore.LoadAgreesIff` | `src/swarmline/memory_bank/knowledge_store.py:34-47` | after every run a document loads as saved, with stripped content and its file size, if and only if its header survives the round trip |
| `KnowledgeSearch.DefaultKnowledgeSearcher.RebuildIndex` | `src/swarmline/memory_bank/knowledge_search.py:54-103` | the scan yields one line for each Markdown document and nothing else, caches and stores it; a raising parser leaves everything as it was |
| `KnowledgeSearch.DefaultKnowledgeSearcher.GetIndex` | `src/swarmline/memory_bank/knowledge_search.py:105-131` | the cache comes first, then the stored index, then a rebuild that is cached and stored, or that raises and leaves everything as it was |
| `KnowledgeSearch.RebuiltLineIff` | `src/swarmline/memory_bank/knowledge_search.py:58-78` | rebuilding a document whose header is printed without `---` gives its stored line if and only if stripping does not change its summary and no custom key changes what the index keeps; it raises if and only if a custom key puts something that cannot be iterated over under `tags` or `related` |
| `KnowledgeSearch.RebuiltIsLoaded` | `src/swarmline/memory_bank/knowledge_search.py:63-78` | for any file, rendered by the store or not, rebuilding makes the index line of what loading the file gives, with the first hundred characters of its body, and raises if and only if loading does |
| `KnowledgeSearch.LineAgreesIff` | `src/swarmline/memory_bank/knowledge_search.py:58-78` | the rebuilt index has the stored line of such a document if and only if that holds and the document is a Markdown file |
| `KnowledgeSearch.RebuildAgreesIff` | `src/swarmline/memory_bank/knowledge_search.py:54-103` | after every run that leaves only Markdown headers without `---`, the rebuilt and the maintained index have the same lines if and only if that holds of all live documents, custom keys included |
| `KnowledgeSearch.TextFileIsNotRebuilt` | `src/swarmline/memory_bank/knowledge_search.py:59-60` | a run with a document that only the maintained index has |
| `KnowledgeSearch.RebuildSucceedsIff` | `src/swarmline/memory_bank/knowledge_search.py:58-68` | after every run, a live document whose header is printed without `---` makes the rebuild raise if and only if a custom key puts something that cannot be iterated over under `tags` or `related` |
| `KnowledgeSearch.FreshSearcherSeesStore` | `src/swarmline/memory_bank/knowledge_search.py:105-131` | a new searcher gets the index of the store after every run |
| `KnowledgeSearch.CacheStaysFreshIff` | `src/swarmline/memory_bank/knowledge_search.py:107-108` | a cached index still has the lines of the store after any further saves and deletes if and only if the last of them on every path left the line of that path as it was |
| `KnowledgeSearch.CacheOfEmptyBankIsStale` | `src/swarmline/memory_bank/knowledge_search.py:107-108` | a run of one save after which the cache is stale |
| `Checklist.DefaultChecklistManager.Load` | `src/swarmline/memory_bank/knowledge_checklist.py:58-69` | the line loop computes the parsed items of the file |
| `Checklist.DefaultChecklistManager.Store` | `src/swarmline/memory_bank/knowledge_checklist.py:71-76` | the file holds the printed items afterwards and no other file changes |
| `Checklist.DefaultChecklistManager.ToggleItem` | `src/swarmline/memory_bank/knowledge_checklist.py:29-38` | flips the first matching item, or reports that there is none and leaves the file alone |
| `Checklist.DefaultChecklistManager.ClearDoneItems` | `src/swarmline/memory_bank/knowledge_checklist.py:47-54` | removes the done items and counts them; the file is rewritten only if there were any |
| `Checklist.InMemoryChecklistManager.ToggleItem` | `src/swarmline/memory_bank/knowledge_inmemory.py:153-159` | the same on the list |
| `Checklist.RoundTripIff` | `src/swarmline/memory_bank/knowledge_checklist.py:58-76` | parsing inverts printing if and only if every item has a nonempty, stripped, one-line text and no tags |
| `Checklist.ItemLineParses` | `src/swarmline/memory_bank/knowledge_checklist.py:64-68` | a line with an open or ticked box, in either case, and a text, with any white space around both, is read as its item |
| `Checklist.ParsedLineIsItem` | `src/swarmline/memory_bank/knowledge_checklist.py:64-68` | and only such a line is read as an item |
| `Checklist.ParseIsStorable` | `src/swarmline/memory_bank/knowledge_checklist.py:58-69` | whatever the file holds, only storable items are read from it |
| `Checklist.ReparseIsStable` | `src/swarmline/memory_bank/knowledge_checklist.py:58-76` | storing what was loaded changes nothing that a later load sees, whatever the file held |
| `Checklist.StepAgrees` | `src/swarmline/memory_bank/knowledge_checklist.py:23-54` | one operation gives the same answer on the file and on the list of its items, and keeps them in agreement |
| `Checklist.FileIsLeftAlone` | `src/swarmline/memory_bank/knowledge_checklist.py:29-54` | an operation that finds nothing to change does not rewrite the file |
| `Checklist.ToggleTwice` | `src/swarmline/memory_bank/knowledge_checklist.py:29-38` | toggling twice restores the list; one toggle changes whether the first item with the prefix is done, and nothing else |
| `Checklist.ClearRemovesDone` | `src/swarmline/memory_bank/knowledge_checklist.py:47-54` | clearing leaves what was listed as open, and answers how many items were listed as done |
| `Checklist.WithDoneSelects` | `src/swarmline/memory_bank/knowledge_checklist.py:40-45` | listing by status selects exactly the items of that status; both lists together hold every item |
| `Checklist.ManagersAgreeIff` | `src/swarmline/memory_bank/knowledge_checklist.py:23-76` | both managers give the same answers and listings throughout a run if and only if the run adds only storable items |
| `Scheduler.Scheduler.Every` | `src/swarmline/daemon/scheduler.py:65-83` | registers a periodic task, or refuses a non-positive interval and changes nothing |
| `Scheduler.Scheduler.OnceAt` | `src/swarmline/daemon/scheduler.py:85-102` | registers a one-shot task, due at once if its time is past |
| `Scheduler.PutKeepsPlace` | `src/swarmline/daemon/scheduler.py:77-102` | a registration under a name that is taken keeps its place in the dictionary, a new one comes last |
| `Scheduler.Scheduler.Cancel` | `src/swarmline/daemon/scheduler.py:104-107` | removes the task of that name and reports whether there was one |
| `Scheduler.PopKeepsOrder` | `src/swarmline/daemon/scheduler.py:104-107` | exactly the task of the name goes, the others keep their order |
| `Scheduler.Scheduler.FireDue` | `src/swarmline/daemon/scheduler.py:173-199` | the loop over the tasks, leaving fired one-shot tasks inactive, is the tick once these are removed |
| `Scheduler.Scheduler.TickOnce` | `src/swarmline/daemon/scheduler.py:171-202` | firing and then removing by name is one atomic step of the state machine |
| `Scheduler.Scheduler.Pass` | `src/swarmline/daemon/scheduler.py:149-151` | one round of the loop ticks unless the scheduler is paused; `Scheduler.PassExhausts` and `Scheduler.PausedLaunchesNothing` say what that means |
| `Scheduler.PassExhausts` | `src/swarmline/daemon/scheduler.py:150-188` | in every reachable state that is not paused, a pass leaves as many launches pending as the cap allows, or no task due |
| `Scheduler.PausedIff` | `src/swarmline/daemon/scheduler.py:129-135` | after any run the scheduler is paused if and only if it was paused and not resumed since |
| `Scheduler.PausedLaunchesNothing` | `src/swarmline/daemon/scheduler.py:129-151` | a paused scheduler launches nothing until it is resumed, in any run |
| `Scheduler.FirstPassLaunchesIff` | `src/swarmline/daemon/scheduler.py:65-188` | the first pass after a registration launches it if and only if its interval is positive and has gone by, or the wall clock has reached its time; after a cancellation it launches nothing |
| `Scheduler.Scheduler.Drain` | `src/swarmline/daemon/scheduler.py:161-169` | at shutdown every pending launch becomes finished or cancelled |
| `Scheduler.SettledIff` | `src/swarmline/daemon/scheduler.py:162-169` | a pending launch is settled only by its completion or at shutdown, where it is finished if it ends in time and else cancelled; a settled launch stays settled |
| `Scheduler.FireKeepsInv` | `src/swarmline/daemon/scheduler.py:184-199` | launching a due task below the cap keeps the cap, the spacing, the run counts and the one-shot rule |
| `Scheduler.PeriodicHonoured` | `src/swarmline/daemon/scheduler.py:193-195` | re-arming from the launch time keeps launches an interval apart and the run count within the elapsed time |
| `Scheduler.StepKeepsInv` | `src/swarmline/daemon/scheduler.py:65-202` | every event of the machine keeps the invariant |
| `Scheduler.RunsAreSafe` | `src/swarmline/daemon/scheduler.py:65-202` | in every reachable state: in-flight launches are within the cap, every launch is pending, finished or cancelled, one-shot registrations launched at most once and not early, periodic launches are an interval or more apart, and run count times interval is within the time since registration |
| `Scheduler.TickLaunchesFirstDue` | `src/swarmline/daemon/scheduler.py:176-202` | in every reachable state a tick launches the first due tasks in dictionary order, as many as the cap admits, re-arms or removes these, and leaves all others as they were |
| `Scheduler.NothingDueIsLost` | `src/swarmline/daemon/scheduler.py:179-183` | after a tick the cap is reached or nothing is due, and a due task that was not launched is still there, unchanged |
| `AgentGraph.InMemoryAgentGraph.AddNode` | `src/swarmline/multi_agent/graph_store.py:27-36` | adds the node, or refuses a duplicate or a missing parent and changes nothing; the graph stays a forest |
| `AgentGraph.AddRefusedIff` | `src/swarmline/multi_agent/graph_store.py:27-36` | a node is added if and only if the graph stays a forest with it, and is refused as existing if and only if its identifier is taken |
| `AgentGraph.InMemoryAgentGraph.GetChainOfCommand` | `src/swarmline/multi_agent/graph_store.py:90-101` | on every forest the guarded walk terminates and returns the node and its ancestors in order; its guard never ends it |
| `AgentGraph.InMemoryAgentGraph.CollectSubtree` | `src/swarmline/multi_agent/graph_store.py:132-142` | the breadth-first search terminates and collects exactly the node and its descendants, each once |
| `AgentGraph.InMemoryAgentGraph.RemoveNode` | `src/swarmline/multi_agent/graph_store.py:38-46` | removes exactly the node and its descendants, or reports that it is unknown; the graph stays a forest |
| `AgentGraph.RemainingIsForest` | `src/swarmline/multi_agent/graph_store.py:38-46` | without a node and everything under it, a forest is left |
| `AgentGraph.InMemoryAgentGraph.UpdateNode` | `src/swarmline/multi_agent/graph_store.py:54-73` | replaces the node in place, or refuses an unknown node, an unknown parent or a parent under the node and changes nothing; the graph stays a forest |
| `AgentGraph.UpdateAcceptedIff` | `src/swarmline/multi_agent/graph_store.py:59-70` | an update is accepted if and only if the graph is still a forest after it, with known parents and without a cycle |
| `AgentGraph.UpdateRefusedIff` | `src/swarmline/multi_agent/graph_store.py:60-70` | the two refusals: the new parent is not there, or it is and the update closes a cycle |
| `AgentGraph.GraphBuilder.AddRoot` | `src/swarmline/multi_agent/graph_builder.py:35-70` | queues a root, supervised unless told otherwise |
| `AgentGraph.GraphBuilder.AddChild` | `src/swarmline/multi_agent/graph_builder.py:72-108` | queues a child of the given parent |
| `AgentGraph.GraphBuilder.AddFromDict` | `src/swarmline/multi_agent/graph_builder.py:134-172` | the recursion queues the tree in preorder with parent pointers, or fails on an unknown lifecycle |
| `AgentGraph.LifecycleNames` | `src/swarmline/multi_agent/graph_builder.py:151-152` | exactly the names of the three lifecycles are read, each as its own; a missing one means ephemeral |
| `AgentGraph.GraphBuilder.Build` | `src/swarmline/multi_agent/graph_builder.py:110-115` | the store receives the queue up to the first refused node; the queue is cleared only if all were accepted |
| `AgentGraph.FromDict` | `src/swarmline/multi_agent/graph_builder.py:117-132` | building succeeds if and only if the lifecycles are known and the identifiers are new and distinct; an unknown lifecycle is found before the store is touched |
| `AgentGraph.GraphRuntimeResolver.Resolve` | `src/swarmline/multi_agent/graph_runtime_config.py:21-30` | returns the nearest configuration on the chain of command, or the default, on every forest |
| `AgentGraph.FlattenAnchored` | `src/swarmline/multi_agent/graph_builder.py:165-172` | in the flat form every node but the root comes after its parent |
| `AgentGraph.BuildSucceedsIff` | `src/swarmline/multi_agent/graph_builder.py:110-132` | the store accepts the flat form of a tree if and only if no identifier repeats or is taken; a parent is never missing |
| `AgentGraph.FlattenRoundTrip` | `src/swarmline/multi_agent/graph_builder.py:134-172` | with distinct identifiers the tree can be rebuilt from the flat form: no node, field, order or nesting is lost |
| `AgentGraph.FlattenInverseIff` | `src/swarmline/multi_agent/graph_builder.py:135-172` | the tree itself is rebuilt if and only if all its lifecycles are written out |
| `AgentGraph.ResolveIsTopDown` | `src/swarmline/multi_agent/graph_runtime_config.py:21-30` | walking up the flat form finds what top-down inheritance on the tree assigns, for every agent and for unknown ones |
| `AgentGraph.ResolveIsTopDownIff` | `src/swarmline/multi_agent/graph_runtime_config.py:21-30` | it does so for all agents and defaults if and only if no agent with an empty identifier has or inherits a configuration |
| `AgentGraph.EmptyIdStopsInheritance` | `src/swarmline/multi_agent/graph_store.py:94-100` | a tree whose root has an empty identifier and a configuration, which its child does not get |
| `GoalQueue.GoalQueue.Submit` | `src/swarmline/multi_agent/goal_queue.py:42-51` | appends a new queued goal |
| `GoalQueue.GoalQueue.Peek` | `src/swarmline/multi_agent/goal_queue.py:53-61` | drops stale identifiers from the front until a queued goal is found, and returns it |
| `GoalQueue.GoalQueue.DequeueGoal` | `src/swarmline/multi_agent/goal_queue.py:63-71` | takes that goal off the queue and marks it running |
| `GoalQueue.GoalQueue.Mark` | `src/swarmline/multi_agent/goal_queue.py:73-95` | sets the final status of a known goal, or fails with a key error |
| `GoalQueue.GoalQueue.ListPending` | `src/swarmline/multi_agent/goal_queue.py:101-103` | lists the queued goals in submission order |
| `GoalQueue.PendingMembers` | `src/swarmline/multi_agent/goal_queue.py:101-103` | exactly the queued goals are pending |
| `GoalQueue.SkipStaleFinds` | `src/swarmline/multi_agent/goal_queue.py:55-61` | skipping stale identifiers stops at the first queued goal of the dictionary, and empties the queue if and only if there is none |
| `GoalQueue.StepRefines` | `src/swarmline/multi_agent/goal_queue.py:42-95` | each operation of the lazy queue gives the answer and the goals of a dictionary that is scanned for its first queued goal |
| `GoalQueue.StepOnPending` | `src/swarmline/multi_agent/goal_queue.py:42-95` | what each operation does to the list of pending goals: a submission goes to its end, a peek answers its head, a dequeue takes it and answers it as running, finishing takes a goal out |
| `GoalQueue.QueueIsFifo` | `src/swarmline/multi_agent/goal_queue.py:42-103` | so does every run with fresh identifiers, and no more identifiers leave the queue than were submitted |
| `GoalQueue.DequeuesFollowSubmissionOrder` | `src/swarmline/multi_agent/goal_queue.py:63-71` | the goals that the queue hands out over any run are submitted goals in submission order, and no identifier comes out twice |
| `GoalQueue.RunNeverRequeues` | `src/swarmline/multi_agent/goal_queue.py:63-95` | over every run no goal returns to the queued status, and positions keep their identifiers |
| `GoalQueue.RunKeepsContents` | `src/swarmline/multi_agent/goal_queue.py:42-95` | over every run each goal keeps its text, its time of submission and its metadata |
| `GoalQueue.LastFinishStands` | `src/swarmline/multi_agent/goal_queue.py:73-95` | the last time that a goal is marked decides on its status, time and run, whatever else happens |
| `Hooks.HookRegistry.Add` | `src/swarmline/hooks/registry.py:47-52` | appends to the hooks of the event and leaves other events alone |
| `Hooks.HookRegistry.Merge` | `src/swarmline/hooks/registry.py:62-71` | a new registry that has, for every event, the hooks of the first and then those of the second; both stay as they were |
| `Hooks.DefaultHookDispatcher.DispatchPreTool` | `src/swarmline/hooks/dispatcher.py:84-124` | the loop with its current input and flag computes the hook-by-hook dispatch, which the next three lemmas describe |
| `Hooks.BlockingHookStops` | `src/swarmline/hooks/dispatcher.py:112-139` | a hook that is reached and blocks ends the dispatch, whatever follows: a structured block with itself, a dictionary with its reason, or with "Blocked by hook" without one |
| `Hooks.ModifyingHookReplaces` | `src/swarmline/hooks/dispatcher.py:115-124` | a new input is what the later hooks see, and what is reported unless they change it or block |
| `Hooks.AllowingHookIsIdentity` | `src/swarmline/hooks/dispatcher.py:96-139` | a hook for another tool, or with any other answer, can be left out |
| `Hooks.DefaultHookDispatcher.DispatchPostTool` | `src/swarmline/hooks/dispatcher.py:141-170` | the last hook with an output wins |
| `Hooks.LastOutputStands` | `src/swarmline/hooks/dispatcher.py:153-191` | the text that a matching hook returns, or the entry of a dictionary that does not ask to continue, stands if and only if no later hook has an output |
| `Hooks.DefaultHookDispatcher.DispatchUserPrompt` | `src/swarmline/hooks/dispatcher.py:202-217` | the loop computes the chained prompt |
| `Hooks.PromptHookReplaces` | `src/swarmline/hooks/dispatcher.py:204-217` | a hook that returns a text replaces the prompt for the later hooks; any other can be left out |
| `Hooks.PreComposeFrom` | `src/swarmline/hooks/dispatcher.py:95-124` | dispatching a concatenation is dispatching the first part and, unless it blocks, the second on the input that the first leaves |
| `Hooks.MergedDispatchIsSequential` | `src/swarmline/hooks/dispatcher.py:84-217` | the same for merged registries: pre-tool dispatch composes, prompts chain, the later post-tool output wins |
| `Hooks.RaisingHookIsIdentity` | `src/swarmline/hooks/dispatcher.py:97-110` | a hook that does not match, or raises on the input it would see, can be left out of any registry |
| `Hooks.FirstBlockWins` | `src/swarmline/hooks/dispatcher.py:112-114` | a dispatch blocks if and only if some hook that is reached blocks on the input it sees, and returns the result of that hook |
| `MessageStore.LoadMessage` | `src/swarmline/domain_types.py:71-101` | the block loop keeps the well-formed blocks in order and skips the others |
| `MessageStore.ParseBlockIff` | `src/swarmline/domain_types.py:76-93` | a dictionary is read as a block if and only if it has every entry that the block is written with |
| `MessageStore.InMemoryMemoryProvider.SaveMessage` | `src/swarmline/memory/inmemory.py:55-80` | appends to the messages of that user and topic only |
| `MessageStore.InMemoryMemoryProvider.GetMessages` | `src/swarmline/memory/inmemory.py:82-93` | the result is the end of the stored list, as long as the limit admits and the list allows, and empty for a limit that is not positive |
| `MessageStore.SaveLoad` | `src/swarmline/domain_types.py:31-114` | saving a message raises if and only if one of its blocks is untyped, and a saved message is read back unchanged if and only if its block list is not the empty one |
| `Conversation.Conversation.SayTurn` | `src/swarmline/agent/conversation.py:84-133` | history and store after a turn, with or without an error event; a message that cannot be stored ends it with an exception, the messages before it stored and all of them in the history |
| `Conversation.Conversation.StreamTurn` | `src/swarmline/agent/conversation.py:150-207` | the same after a streamed turn; an error event returns before anything is persisted |
| `Conversation.CollectResult` | `src/swarmline/agent/agent.py:459-496` | the collecting loop, described by the next two lemmas |
| `Conversation.CollectsDeltas` | `src/swarmline/agent/agent.py:459-486` | both loops gather the deltas of a reply without a final event in order, `stream` those of every reply; there is an error if and only if there is an error event |
| `Conversation.LastFinalDecides` | `src/swarmline/agent/agent.py:463-485` | the last final event decides on the messages; its text, or else the text in its data, replaces what came before, and later deltas are added to it |
| `Conversation.DeltaTurnAdds` | `src/swarmline/agent/conversation.py:84-207` | a turn of deltas, streamed or not, adds the prompt and one assistant message with their concatenation, to the history and to the store |
| `Conversation.FinalTurnAdds` | `src/swarmline/agent/conversation.py:107-113` | a final event with messages adds these after the prompt; without any, `say` adds its text and `stream` the deltas, if not empty |
| `Conversation.ErrorTurnAdds` | `src/swarmline/agent/conversation.py:107-184` | with an error event only the prompt is added, which `say` stores and `stream` does not |
| `Conversation.BrokenTurnAdds` | `src/swarmline/agent/conversation.py:84-207` | a turn that breaks off leaves what it added in the history and what it saved of it, up to the first message that raises, in the store |
| `Conversation.Conversation.PersistFrom` | `src/swarmline/agent/conversation.py:117-133` | the saving loop stores the messages up to the first one that raises, and raises if and only if there is one |
| `Conversation.Conversation.ResumeSession` | `src/swarmline/agent/conversation.py:60-82` | loads the stored session, compacts it if configured, and fails without a store |
| `Conversation.RunTracks` | `src/swarmline/agent/conversation.py:60-207` | every turn keeps the store a subsequence of the history, short of it by the messages that were not stored |
| `Conversation.StoreIsSubsequence` | `src/swarmline/agent/conversation.py:84-207` | in every run from an empty session the store is a subsequence of the history, short of it by exactly what was not stored since the last resume: prompts of failed streams, and what follows the first message that raised in a turn that broke off |
| `Conversation.ResumeReproducesIff` | `src/swarmline/agent/conversation.py:60-76` | after every run, resuming the session reproduces the history if and only if every message was stored since the last resume and none has an empty block list |
| `Conversation.FailedStreamIsLost` | `src/swarmline/agent/conversation.py:183-184` | a failed stream whose prompt resuming loses |
| `Conversation.UntypedBlockIsLost` | `src/swarmline/agent/agent.py:505-506` | a final message built from a payload with a content block: its turn breaks off while it is stored, and resuming loses it |
| `Conversation.CompactedRunTracks` | `src/swarmline/agent/conversation.py:60-207` | in every run with compaction a resume compacts what the session holds, and what is added after it is stored as a subsequence, short by exactly what was not stored |
| `Conversation.ResumeCompacts` | `src/swarmline/agent/conversation.py:77-82` | resuming with compaction gives a history that fits or is minimal, and with a preserved pair it ends with the last stored message |
| `CodingContext.Assemble` | `src/swarmline/context/coding_context_builder.py:87-169` | the packing loop computes the slice-by-slice packing, and nothing outside coding mode |
| `CodingContext.AllSixFit` | `src/swarmline/context/coding_context_builder.py:19-47` | six slices that fit are all there, whole, under their headings and in the documented order |
| `CodingContext.Place` | `src/swarmline/context/coding_context_builder.py:121-150` | one round of the loop: skips, includes, truncates or omits the slice and updates what is left |
| `CodingContext.SliceByLength` | `src/swarmline/context/coding_context_builder.py:121-150` | which of the three happens, in characters and tokens, and what it leaves: a slice of fewer than four characters for each token is included, and a cut one leaves one token |
| `CodingContext.AddSliceAccounted` | `src/swarmline/context/coding_context_builder.py:121-150` | a truncated slice leaves exactly one token, so that nothing is emitted after it |
| `CodingContext.AssemblyWithinBudget` | `src/swarmline/context/coding_context_builder.py:104-163` | included and omitted slices split the nonempty ones in priority order, all parts are verbatim except that the last may be truncated, their estimates are within the budget, and the joined text exceeds it by at most two tokens |
| `CodingContext.ResultWithinBudget` | `src/swarmline/context/coding_context_builder.py:152-169` | the same of the reported names; there is a continuity summary if and only if something was omitted or truncated |
| `CodingContext.ContinuityNames` | `src/swarmline/context/coding_context_builder.py:154-161` | the continuity summary names every slice that was omitted or truncated |
| `CodingContext.DropOrderIff` | `src/swarmline/context/coding_context_builder.py:17-18` | slices are omitted from the end of the priority list, as documented, if and only if all fit, or the first one that does not fit is truncated, or no later one finds room where it found none |
| `CodingContext.LaterSliceCanSurvive` | `src/swarmline/context/coding_context_builder.py:17-18` | an input whose task is omitted and whose workspace, of lower priority, is included |
| `CodingContext.JoinedTextCanExceedBudget` | `src/swarmline/context/coding_context_builder.py:152` | an input whose joined text exceeds its budget |
| `CodingContext.JoinedTextFitsIff` | `src/swarmline/context/coding_context_builder.py:152` | the joined text is within the budget if and only if the characters of the included slices, with a truncated one at its cut length, and of the separators are fewer than four for each token |
| `CodingContext.JoinedTextFitsOnInput` | `src/swarmline/context/coding_context_builder.py:121-152` | the same on the lengths of the input alone: without the slices that find no room in turn, all fit, or the first one that does not is truncated |
| `CodingContext.JoinedFitsIfNoneFindsRoom` | `src/swarmline/context/coding_context_builder.py:121-152` | if the first slice that does not fit finds no room, and none after it does, the characters of the slices before it and of their separators decide |
| `Tiered.FillBudget` | `src/swarmline/memory_bank/tiered.py:185-214` | the loop that goes on after a truncated entry computes the ranked prefix with at most one cut entry |
| `Tiered.CutOverrunsByOne` | `src/swarmline/memory_bank/tiered.py:44-54` | a cut entry costs exactly one token more than the room it was cut to |
| `Tiered.FilledIsRankedPrefix` | `src/swarmline/memory_bank/tiered.py:185-214` | the results are the candidates from the front in rank order, whole, except that one more may follow, cut |
| `Tiered.EntryText` | `src/swarmline/memory_bank/tiered.py:185-214` | each result has the path of the candidate of its rank and its overview, or its abstract if there is none, and counts its own tokens; only the last one can be cut, to a beginning of more than two hundred characters |
| `Tiered.FilledWithinOneToken` | `src/swarmline/memory_bank/tiered.py:185-214` | the counts sum to at most the budget, or to the budget and one exactly when an entry was cut |
| `Tiered.CutOverviewOverruns` | `src/swarmline/memory_bank/tiered.py:195-200` | an overview that costs 52 tokens in a budget of 51 |
| `ContextBuilder.Build` | `src/swarmline/context/builder.py:150-306` | the build computes the stage-by-stage prompt |
| `ContextBuilder.AmpleBudgetKeepsAll` | `src/swarmline/context/builder.py:150-306` | if every section is within its cap and more than a hundred tokens are left, the prompt is all sections, whole, under their headings and in order, and the rest is left for tools |
| `ContextBuilder.ExhaustedKeepsBase` | `src/swarmline/context/builder.py:155-290` | if guardrails and role leave nothing, they are the whole prompt, and every other section with something given is reported as dropped, in order |
| `ContextBuilder.Consider` | `src/swarmline/context/builder.py:169-290` | one stage of it: emitted whole, cut, dropped and reported, or silent |
| `ContextBuilder.EmittedByLength` | `src/swarmline/context/builder.py:169-290` | with a nonnegative cap, what is emitted for a stage that has room, in characters and tokens: the pack or its beginning with the suffix; a pack of exactly four characters for each token is reported as truncated and emitted whole |
| `ContextBuilder.SummaryCapIff` | `src/swarmline/context/builder.py:277-288` | with a nonnegative cap, a summary exceeds it by more than a cut does if and only if it does not fit the room that is left and that room is larger |
| `ContextBuilder.CollectMessageLines` | `src/swarmline/context/builder.py:226-238` | the message loop leaves out error messages and cuts long ones |
| `ContextBuilder.ShownIff` | `src/swarmline/context/builder.py:226-233` | a message is left out if and only if it is blank, begins as an error, or has an error marker within its first two hundred characters |
| `ContextBuilder.ShownText` | `src/swarmline/context/builder.py:234-238` | a shown message has its speaker and its text, or the first five hundred characters of it |
| `ContextBuilder.ToolBudgetIsWhatIsLeft` | `src/swarmline/context/builder.py:155-298` | the tool budget is what the estimates of the emitted packs leave of the total, or zero |
| `ContextBuilder.NothingAfterExhaustion` | `src/swarmline/context/builder.py:168-290` | once nothing is left no later pack is emitted, and each wanted one is reported as dropped |
| `ContextBuilder.BuiltWithinBound` | `src/swarmline/context/builder.py:155-290` | with nonnegative caps the emitted packs exceed the total by at most the largest cap and three tokens, or the phase text, unless guardrails and role alone exceed it more |
| `Facts.SQLiteFacts.UpsertFact` | `src/swarmline/memory/sqlite.py:221-277` | the guarded upsert, on one cell |
| `Facts.FirstWriteSurvivesIff` | `src/swarmline/memory/sqlite.py:31-44` | of two writes to a cell the first survives if and only if it is a user's and the second is not, or inferred and the second is of a tool or unknown, or of a tool and the second is unknown |
| `Facts.SQLiteFacts.GetFacts` | `src/swarmline/memory/sqlite.py:279-310` | shows each reader the overlay of the topic on the global facts, whatever the order of the rows |
| `Facts.MergeScopedFacts` | `src/swarmline/memory/_shared.py:51-62` | global rows are assigned first and scoped ones over them |
| `Facts.InMemoryFacts.GetFacts` | `src/swarmline/memory/inmemory.py:131-143` | the same overlay on the dictionaries |
| `Facts.CellHoldsWinner` | `src/swarmline/memory/sqlite.py:31-44` | after every history a cell exists if and only if it was written, and holds the last write of the highest priority |
| `Facts.MemoryHoldsLast` | `src/swarmline/memory/inmemory.py:119-129` | after every history a cell of the in-memory provider holds the last write |
| `Facts.MergeShowsOverlay` | `src/swarmline/memory/_shared.py:51-62` | the merged facts do not depend on the order of the rows |
| `Facts.ProvidersAgree` | `src/swarmline/memory/sqlite.py:221-310` | both providers show the same facts if the last write to every readable cell is of the highest priority, as when all priorities are equal |
| `Facts.ProvidersAgreeIff` | `src/swarmline/memory/sqlite.py:221-310` | for histories whose values tell the writes apart, both providers show the same facts to every reader if and only if the last write to every readable cell is of the highest priority |
| `Facts.WeakerLastWriteDiffers` | `src/swarmline/memory/inmemory.py:119-129` | a history of two writes on which the providers differ |

## Left out

- `daemon/routine_bridge.py`: the task board and its types are not part of this model.
- `system_reminder_filter.py`, agent registries, guardrails, retry policies: would only add easy members.
- `search` and `search_by_tags` of both searchers, and the progress log: word overlap scores and list slices.
- `get_children`, `get_subtree`, `get_root` and `find_by_role` of the graph, and the snapshot that `build` returns: views. An update that changes the identifier of a node is not modelled.
- `list_tasks` of the scheduler, `list_all` and `size` of the queue, `dispatch_stop`: read-only views or loops without a result.
- Scheduling, concurrency: a tick has no await and is one step; the rounds of `run_until` are the event `EvPass`, and a failing coroutine counts as finished.
- Scheduler, registration names: a generated name is passed in like a given one; the factories are not modelled.
- YAML and JSON: the libraries are functions; that they read back what they print is a hypothesis, made only for values of the annotated types. Errors while printing, valid JSON of a wrong shape, and non-string mapping keys are not modelled.
- Provider: a total map of paths to texts; size limits, path checks and I/O errors are not modelled.
- KnowledgeStore.StoreRefinesMemory: says nothing about operations on `index.json` itself, which is the file of the index, nor about the order in which entries are listed.
- KnowledgeStore.InMemoryKnowledgeStore.ListEntries: says nothing about the order, because a Dafny map has none.
- KnowledgeSearch.RebuildAgreesIff: for headers that are printed without `---`; what the YAML library reads from a header that was cut short is not determined by the hypothesis that it reads back what it prints.
- Checklist: case folding is an arbitrary function `lower`.
- MessageStore, values: of metadata only the printed form and the truth value are kept, of tool calls nothing but their identity; content blocks are typed blocks or dictionaries left untyped by a payload.
- Conversation, events: payloads that are not messages raise in the code (`src/swarmline/agent/agent.py:507`); this, an exception of the runtime or of the store, and an abandoned stream are the turn `Broken`, with as many messages added and saved as there were. Middleware, runtimes and the fields of the result other than text, messages and error are not modelled.
- Conversation.StoreIsSubsequence: covers runs without compaction, because a compacted history is shorter than the store by design; `Conversation.CompactedRunTracks` covers the others.
- AgentGraph, descriptions: the fields that are copied through are one field `payload`; a description without `id`, `name` or `role` is not modelled.
- InputFilters.MaxTokensFilter.Filter: the characters per token are a positive real; rounding of floats is not modelled.
- InputFilters.TruncateKeepsNoMoreThanMaxTokens: with fewer than four characters per token a text can be estimated higher by either filter, and neither result need contain the other.
- Tiered, ranking: candidates come ranked; scoring, `build_context` and the generation of tiers are not modelled.
- ContextBuilder, surroundings: reloading of prompt files, the prompt hash and the notes are not modelled.
- Facts, SQL: a table is a map from user, topic and key to value and source; users exist, values are strings, and the JSON of a value reads back.
- Resource exhaustion, logging and cancellation of coroutines.
