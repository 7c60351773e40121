# tickets_please: a verified model of the core

tickets_please keeps tickets, phases, comments, search vectors and agent sessions in plain files beside a
repository, with an in-memory cache in front of them. This project models the parts of it whose correctness
spans several operations, and proves what those parts promise:

- **The project board** (`Graph`, `Board`, `BoardCalls`, `AuditTrail`, `BoardLaws`). Each service call is one
  atomic step on tickets, audit trails and phases. In every run the dependency graph stays acyclic with live work
  tickets on every edge, a ticket's comments replay to its state, a finished ticket stays as it is, and pending work
  is never deadlocked.
- **The project on disk and in memory** (`TicketTree`, `CompletionText`, `ProjectService`, `ProjectLoader`).
  `Project` has the cached maps and the file tree as fields; each method is proved to make the board's step and
  to keep cache and tree coherent, and reading the tree back gives the cache.
- **The event bus** (`EventBus`, `EventDelivery`), **the agent registry** (`AgentRegistry`, `AgentHomes`,
  `AgentStore`), **staging into git** (`Staging`), **shared feedback** (`FeedbackStore`) and **the project cache**
  (`ProjectCache`): the interleaved parts, each with an invariant over all runs.
- **Search** (`Reals`, `Cosine`, `MinHeap`, `VecIndex`, `FeedbackScore`, `Search`) and **lists and files**
  (`Ordering`, `Cursor`, `Listing`, `Frontmatter`, `Text`, `TextMeaning`).

Functions that methods are proved against have laws of their own, stated without them: what they mean, with
the constants written out (`…Means` and its like).

`dafny verify dfyconfig.toml` checks everything.

## What the proofs found

- `completion.md` is written from three free texts and read back by headings. A line of a text that starts
  with `## ` is read as a heading, so the rest of that text is lost at the next load, while the cached ticket
  still shows it. `CompletionRoundTripIff` says exactly when that happens, `CompletedTextIsLost` completes a
  ticket on any board with texts that go that way, and `Project` and its reload differ in exactly those tickets.
- A frontmatter file reads back exactly when no later line of the yaml text starts with `---`; a cursor exactly
  when the id is not empty. The body, and separators inside an id, are free.
- `PromoteIdea` into a phase that does not exist reports not-found, and the idea is promoted all the same
  (`PromotionSticks`, and `PromotionSticksSomewhere` on a board with one idea).
- A heartbeat reads a record and rewrites it later without the lock, so one that writes after the sweep has moved
  the file brings it back beside the archived one. `OneHomeIff`: with sweeps that wait at least a grace after expiry
  (24 hours in the service), no run leaves a session in both directories exactly when every heartbeat is written
  within that grace of its record's expiry. The code does not look at the time again before it writes.
  `HeartbeatMayResurrect` is the run for any longer delay. The index stays exact all the same (`RewriteKeeps`).
- Following cursors over a list that changes in between goes on behind the anchor's present place, and ends with an
  empty page when the anchor has left the list (`PageAfterChange`, `WalkContinuesBehind`). `AnchorGoneEndsWalk`: a
  ready list walked one ticket a page loses its second ticket once the first is in testing.
- Inserts keep the project cache within its bound, so the LRU half of `SweepIdle` never has anything to do.
- Search fetches twice the limit by raw score (four times with a column filter, never more than 50) and re-scores
  only those. `PageExactIff`: the page is a true top k under every rating history exactly when no matching ticket
  outside the over-fetch scores above the k-th kept raw score times the least multiplier. The code does not check
  that, and `NearMissIsLost` gives three scores and six likes that lose the best hit. `FetchedCheckIsEnough` is a
  check the search could make.

## Assumptions

Times of successive writes increase; uuids are new; a directory rename and a file rename are atomic; flock
excludes; staging an existing path records everything at or beneath it (no ignored files). Go's map iteration
is an arbitrary choice, its integers are unbounded except where `ticketLess` uses the largest one, its strings
are sequences of characters standing for bytes, and its floats are reals. `math.Sqrt`, base64 and RFC 3339
formatting are parameters with the properties the code relies on; a library sort is a function whose result is
the one sorted permutation, and the sift loops of container/heap are written out.

## Model

| member | source | states |
|---|---|---|
| Graph.DependencyUpdateCreatesCycle | internal/svc/tickets.go:1404-1432 | the search with one visited set for all new dependencies answers true exactly when one of them reaches the ticket |
| Graph.ReachesTarget | internal/svc/tickets.go:1405-1424 | a found target is reachable, and otherwise everything visited is closed up to the open calls and avoids the target |
| Graph.UpdateAcyclicIff | internal/svc/tickets.go:600-614 | replacing a ticket's dependencies keeps the graph acyclic exactly when no new one reaches it |
| BoardCalls.ResolvePhaseMeans | internal/svc/tickets.go:1273-1281 | a phase reference is an id first and a slug otherwise, and resolves to nothing only when it is neither |
| BoardCalls.BlockedByMeans | internal/svc/tickets.go:1357-1369 | the blocked-by list is built dependency by dependency, each kept unless it is live and done |
| BoardCalls.RemoveIdMeans | internal/svc/tickets.go:1337-1350 | removal works entry by entry and drops exactly the target |
| BoardCalls.CompactRefsMeans | internal/svc/tickets.go:1371-1389 | references are compacted one by one: blanks go, the rest are trimmed |
| BoardCalls.CreateMeans | internal/svc/tickets.go:34-202 | each error in its order; on success the new ticket field by field from the input, with an empty trail, and nothing else changed |
| BoardCalls.NewTicketIsBlocked | internal/svc/tickets.go:112-199 | a new ticket is free from birth exactly when every dependency it names is done |
| BoardCalls.UpdateMeans | internal/svc/tickets.go:600-684 | an accepted update replaces the named fields by what was given, trimmed or compacted, and leaves all else |
| BoardCalls.UpdateErrors | internal/svc/tickets.go:537-614 | an update of a live ticket fails exactly for a negative wave, a blank title, a bad reference or a cycle |
| BoardCalls.MoveMeans | internal/svc/tickets.go:705-858 | the dependency gate with its quantifier: refused under enforcement exactly when some dependency is missing or not done; otherwise the column is the target and one entry names both columns, author and time |
| BoardCalls.GateHolds | internal/svc/tickets.go:749-763 | in a step without an unenforced move a ticket that enters in_progress has every dependency done |
| BoardCalls.RunGateHolds | internal/svc/tickets.go:749-763 | so at every such moment of every run |
| BoardCalls.CompleteMeans | internal/svc/tickets.go:893-1068 | on success each of the three sections holds its own trimmed text, stamped with agent and time, and one completion entry is filed |
| BoardCalls.FlipArchiveMeans | internal/svc/archive.go:52-205 | only the flag changes, with one entry of the matching kind |
| BoardCalls.PromoteMeans | internal/svc/ideation.go:80-199 | only the kind changes, with one promote entry |
| BoardCalls.AssignMeans | internal/svc/tickets_phase.go:30-212 | only the phase changes, to the resolved one or to none, with one entry |
| BoardCalls.AddCommentMeans | internal/svc/comments.go:34-169 | only the trail grows, by a user entry of the caller |
| BoardCalls.DeleteMeans | internal/svc/tickets.go:1100-1239 | the ticket and its trail go, the other tickets lose its id from both lists, and all else stays |
| BoardCalls.CreatePhaseMeans | internal/svc/phases.go:25-136 | each error in its order; otherwise one phase more, with trimmed name, its slug and the number |
| BoardCalls.UpdatePhaseMeans | internal/svc/phases.go:189-281 | only the name of the resolved phase changes |
| BoardCalls.DeletePhaseMeans | internal/svc/phases.go:285-347 | refused exactly while a ticket names the phase; otherwise it alone goes |
| BoardLaws.UpdateRejectsOnlyCycles | internal/svc/tickets.go:537-614 | with valid references an update is accepted exactly when the edited graph is acyclic |
| BoardLaws.UpdateKeepsInv | internal/svc/tickets.go:600-684 | an accepted update keeps every board invariant |
| BoardLaws.CreateKeepsInv | internal/svc/tickets.go:88-202 | a created ticket depends on live work only and closes no cycle |
| BoardLaws.DeleteKeepsInv | internal/svc/tickets.go:1148-1239 | the delete cascade leaves no reference to the deleted ticket and all invariants intact |
| BoardLaws.StepKeepsInv | internal/svc/tickets.go:705-858 | every call, successful or not, keeps acyclicity, live edges, phases, trails and completions |
| BoardLaws.RunKeepsInv | internal/svc/tickets.go:34-1239 | every board of every run from an empty project satisfies the invariant |
| BoardLaws.RunKeepsHistory | internal/svc/tickets.go:780-858 | across any stretch of a run a trail only grows, an idea stays in todo, and a done ticket keeps column and completion |
| BoardLaws.IdeaStaysInTodo | internal/svc/tickets.go:740-747 | in every reachable board an idea is in todo |
| BoardLaws.SomethingIsUnblocked | internal/svc/tickets.go:1357-1369 | while work is pending some pending ticket has nothing in its blocked-by list |
| BoardLaws.AnyOrderDrains | internal/svc/tickets.go:893-1084 | any sequence of completions of unblocked tickets takes exactly one off the pending set each, so n of them finish n |
| BoardLaws.BoardDrains | internal/svc/tickets.go:1357-1369 | such a sequence exists on every board that satisfies the invariant, and ends with nothing pending |
| BoardLaws.RunDrains | internal/svc/tickets.go:893-1084 | so from every board of every run, whatever calls led there |
| BoardLaws.RunKeepsCommentIds | internal/svc/comments.go:84-169 | in every board of every run no two comments share an id and none is blank |
| BoardLaws.PromotionSticks | internal/svc/ideation.go:36-75 | once flipped the ticket stays work; the call fails exactly when a named phase does not exist, else the ticket is in that phase |
| BoardLaws.PromotionSticksSomewhere | internal/svc/ideation.go:36-75 | an idea on a board without phases, promoted into a phase by name: not found, and the idea is work |
| BoardLaws.SweepArchives | internal/svc/archive.go:266-274 | a sweep archives exactly the active tickets listed, with one archive entry on each trail, and touches no other |
| AuditTrail.ArchiveEntriesAlternate | internal/svc/archive.go:84-91 | in every prefix of a trail archive entries exceed unarchive entries by one exactly when the ticket is archived there |
| AuditTrail.DoneIsFinal | internal/svc/tickets.go:925-930 | a trail that has reached done stays in done, and one still an idea never left todo |
| AuditTrail.LastColumnChange | internal/svc/tickets.go:845-858 | a ticket outside todo has a last column change in its trail, and it led to the present column |
| AuditTrail.OwnerScan | cmd/tickets_please/commit_hook.go:345-356 | the scan ends with the author of the last claiming entry, or with the creator when there is none |
| AuditTrail.OwnerOfInProgress | cmd/tickets_please/commit_hook.go:338-366 | for an in-progress ticket the scan finds the author of its last column change |
| TicketTree.BasesUnique | internal/svc/tickets.go:1286-1322 | no two ticket directories of the project share a name |
| TicketTree.RenameTargetVacant | internal/svc/tickets_phase.go:63-97 | the directory a reassigned ticket moves to is never taken |
| TicketTree.FreshNumberFreshBase | internal/svc/tickets.go:1303-1322 | a name with a number past every other is taken by no directory |
| TicketTree.RemovePhaseKeepsTickets | internal/svc/phases.go:310-347 | removing the directory of a phase without tickets removes no ticket directory |
| TicketTree.CascadeCoherent | internal/svc/tickets.go:1148-1239 | after the cascade the tree holds exactly the remaining tickets with the deleted id gone from their files |
| ProjectService.ComputeBlockedBy | internal/svc/tickets.go:1357-1369 | the loop yields the open dependencies, missing ones included, in order |
| ProjectService.RemoveIdLoop | internal/svc/tickets.go:1337-1350 | the loop drops every occurrence and keeps the rest in order |
| ProjectService.ValidateTicketRefs | internal/svc/tickets.go:1371-1389 | accepted exactly when the compacted list omits the ticket itself and names live work only |
| ProjectService.Project.FindTicketDir | internal/svc/tickets.go:1439-1460 | the walk finds the one directory of a live ticket, and none for another id |
| ProjectService.Project.UniqueTicketDirName | internal/svc/tickets.go:1303-1322 | the plain numbered name is free, so no suffix is ever tried |
| ProjectService.Project.CreateTicket | internal/svc/tickets.go:34-202 | the call makes the board's create step with the code's first error, writes nothing on error, and keeps cache and tree coherent; the cached ticket is stated field by field from the input |
| ProjectService.Project.UpdateTicket | internal/svc/tickets.go:537-684 | likewise for update, cycle search included |
| ProjectService.Project.MoveTicket | internal/svc/tickets.go:705-858 | likewise for move; under enforcement open work is kept from in_progress exactly by a dependency that is missing or not done |
| ProjectService.Project.CompleteTicket | internal/svc/tickets.go:893-1068 | likewise for completion, with the trimmed texts rendered to completion.md |
| ProjectService.Project.DeleteTicket | internal/svc/tickets.go:1100-1239 | likewise for delete: dependents are rewritten in tree and cache alike |
| ProjectService.Project.FlipArchiveTicket | internal/svc/archive.go:52-205 | likewise for archive and unarchive, each refused when already so |
| ProjectService.Project.ArchivePhase | internal/svc/archive.go:228-276 | the phase's active tickets are swept in id order; archived lists exactly those, skipped exactly the ones already archived |
| ProjectService.Project.PromoteTicket | internal/svc/ideation.go:80-199 | likewise for turning an idea into work |
| ProjectService.Project.PromoteIdea | internal/svc/ideation.go:36-75 | the flip and then, when another phase is asked for, the reassignment, with the error of either half |
| ProjectService.Project.AssignTicketToPhase | internal/svc/tickets_phase.go:30-212 | likewise for reassignment: the directory moves under the new parent in the same step |
| ProjectService.Project.CreateComment | internal/svc/comments.go:34-169 | likewise for a user comment |
| ProjectService.Project.AddPhase | internal/svc/phases.go:25-136 | likewise for phase creation: a taken slug is refused, and the number is one past the largest |
| ProjectService.Project.EditPhase | internal/svc/phases.go:189-281 | likewise for a phase update: slug, number and directory stay |
| ProjectService.Project.RemovePhase | internal/svc/phases.go:285-347 | likewise for phase deletion, refused while a ticket names it; ticket directories are untouched |
| ProjectLoader.WalkComments | internal/store/comments.go:19-51 | reading a ticket's comment files by name gives its trail in order |
| ProjectLoader.LoadTickets | internal/cache/projectcache.go:534-572 | the walk rebuilds every ticket and trail, with only completion texts passing through the parser |
| ProjectLoader.Reload | internal/cache/projectcache.go:499-606 | after any successful call a fresh load equals the cache, except for the texts of tickets whose sections hold a heading line, and equals it entirely exactly when there are none |
| ProjectLoader.CompletionSurvivesIff | internal/svc/tickets.go:893-972 | an accepted completion reads back at the next load exactly when none of its trimmed texts has a heading line |
| ProjectLoader.CompletedTextIsLost | internal/svc/tickets.go:893-972 | any open work ticket of a sound board can be completed with texts that the next load does not return |
| CompletionText.SplitCompletionSections | internal/cache/projectcache.go:771-816 | the line loop computes the sections between recognised headings |
| CompletionText.RenderMeans | internal/svc/tickets.go:939-972 | the file in its own words: each text under its heading, empty optional ones left out |
| CompletionText.PickMeans | internal/cache/projectcache.go:771-816 | each text is taken from its full heading, and from the short ones only without it |
| CompletionText.CompletionRoundTripIff | internal/svc/tickets.go:939-972 | three trimmed texts are read back as written exactly when none of their lines starts a heading |
| CompletionText.HeadingInsideIsLost | internal/cache/projectcache.go:783-800 | texts the completion checks accept, one of them a heading line, are not read back |
| CompletionText.ExtractLearningsSection | internal/svc/hydrate.go:376-400 | the flag-and-buffer loop computes the lines behind the learnings heading |
| CompletionText.ParsersAgreeOnLearnings | internal/svc/hydrate.go:376-400 | on files of plain sections both parsers return the learnings as written |
| EventBus.StepKeepsExactlyOnce | internal/eventbus/eventbus.go:158-198 | every atomic step of any goroutine keeps each connected subscriber's events, had or still to come, equal to those due, each once and as published |
| EventBus.RunKeepsExactlyOnce | internal/eventbus/eventbus.go:158-248 | so in every state of every interleaving; a loss implies a closed done channel |
| EventDelivery.PublishMeans | internal/eventbus/eventbus.go:158-185 | an event with a topic is logged under the next number; each registered subscriber to one of its topics is picked once, under the first such topic, and no other |
| EventDelivery.AttemptMeans | internal/eventbus/eventbus.go:187-197 | a connected reader with fewer than 64 queued gets the event at the end of its queue and stays connected; with 64 it is disconnected and gets nothing |
| EventDelivery.StepOnReader | internal/eventbus/eventbus.go:158-248 | all that one step of any goroutine can do to a connected reader |
| EventDelivery.DisconnectedOnlyWhenFull | internal/eventbus/eventbus.go:187-197 | in every run a reader loses its connection only by cancelling or by an attempt against 64 queued |
| EventDelivery.IdleReaderHasAll | internal/eventbus/eventbus.go:187-240 | a connected reader with nothing queued or waiting has exactly what it is due |
| EventDelivery.ReaderCanBeServed | internal/eventbus/eventbus.go:187-197 | from every state some steps hand a connected reader all that is queued and waiting, in order, without disconnecting it |
| EventDelivery.RingHolds | internal/eventbus/eventbus.go:165-171 | a ring still holds an event exactly while fewer than 1024 mentions of the topic have followed it |
| EventDelivery.RetainedMeans | internal/eventbus/eventbus.go:220-237 | a replay holds exactly the events after the given number that a wanted ring still holds, and nothing for number 0 |
| EventBus.PublishOnce | internal/eventbus/eventbus.go:172-184 | publishing adds one pending delivery to exactly the subscribers it is newly due to |
| EventBus.Bus.AppendToRings | internal/eventbus/eventbus.go:165-171 | each ring holds the last 1024 events appended for its topic |
| EventBus.Bus.PublishLocked | internal/eventbus/eventbus.go:158-185 | the locked phase stamps the next number, updates rings and picks targets as one step |
| EventBus.Bus.DeliverOne | internal/eventbus/eventbus.go:187-197 | one unlocked delivery leaves the waiting list; with fewer than 64 queued it is queued for a connected reader, with 64 the reader is disconnected |
| EventBus.Bus.Snapshot | internal/eventbus/eventbus.go:220-237 | the replay is sorted and holds exactly the retained newer events, each once and genuine |
| EventBus.Bus.Subscribe | internal/eventbus/eventbus.go:209-239 | snapshot and registration are one step, so nothing falls between replay and live events |
| AgentRegistry.ActiveHolderIsTheHolder | internal/store/agents.go:212-229 | the index read returns exactly the record a walk over live records would report for the key |
| AgentRegistry.AtMostOneHolder | internal/store/agents.go:183-207 | no key has two unexpired live records |
| AgentRegistry.RegisterMeans | internal/store/agents.go:183-207 | refused exactly for an empty id or key or another unexpired holder; otherwise the session has its file and holds the key, and every other keeps its file |
| AgentRegistry.ArchiveOneMeans | internal/store/agents.go:320-346 | an archived session is in the archive alone, and its key is freed when it held it |
| AgentRegistry.StepKeepsInv | internal/store/agents.go:254-346 | registrations, both halves of an unlocked heartbeat, clock ticks, unlocked reads and locked batches each keep the index exact |
| AgentRegistry.RunKeepsInv | internal/store/agents.go:183-346 | every state of every interleaving has an exact index |
| AgentRegistry.RewriteKeeps | internal/svc/agents.go:112-129 | a heartbeat's late rewrite of what it read leaves files and index sound and only expired records in the archive |
| AgentHomes.StepKeepsOneHomeIff | internal/store/agents.go:254-353 | a step gives a session a second directory exactly when it writes a heartbeat of a record archived by then |
| AgentHomes.OneHomeIff | internal/svc/agent_archive.go:8-36 | heartbeats written by expiry plus a delay leave live and archive disjoint, in all runs whose sweeps wait at least the grace, exactly when the delay is within the grace |
| AgentHomes.HeartbeatMayResurrect | internal/store/agents.go:346-353 | for every grace and longer delay, a run from an empty registry that ends with one session both live and archived |
| AgentRegistry.IndexAlwaysRefinesWalk | internal/store/agents.go:212-229 | at every moment of a run the index lookup and the full walk agree |
| AgentRegistry.ReadAgentFinds | internal/store/agents.go:161-180 | an id registered before the read starts is found, however many moves happen between its two steps |
| AgentRegistry.WalkMissesNothing | internal/store/agents.go:112-137 | a walk interleaved with archiving visits every id registered before it began |
| AgentStore.FilledIsIndexed | internal/store/agents.go:301-318 | backfilling every unexpired record of a registry with unique holders makes the index exact |
| AgentStore.Store.RegisterAgent | internal/store/agents.go:183-207 | a key with another unexpired holder is refused, otherwise record and index entry are written |
| AgentStore.Store.ArchiveExpired | internal/store/agents.go:254-318 | an uninterrupted pass moves exactly the long-expired records, establishes the exact index from gaps, and counts both in its report |
| AgentStore.Store.ReadAgent | internal/store/agents.go:161-180 | the live record, else the archived one, else not found |
| Cosine.CauchySchwarz | internal/vecindex/cosine.go:19-26 | by induction over the accumulation, the squared dot product is at most the product of the squared norms |
| Cosine.CosineLoop | internal/vecindex/cosine.go:15-35 | one pass computes the cosine, with 0 for mismatched, empty and zero vectors |
| Cosine.CosBounded | internal/vecindex/cosine.go:15-35 | every score lies in [-1, 1] |
| Cosine.CosSymmetric | internal/vecindex/cosine.go:15-35 | the order of the two vectors does not matter |
| Cosine.CosScaleInvariant | internal/vecindex/cosine.go:15-35 | scaling a vector by a positive factor does not matter |
| Cosine.CosMeans | internal/vecindex/cosine.go:15-35 | the score times the two norms is the sum of products |
| Cosine.CosPositiveIff | internal/vecindex/cosine.go:15-35 | the score has the sign of the sum of products |
| Cosine.CosOfMultiple | internal/vecindex/cosine.go:15-35 | a vector with a non-zero coordinate scores 1 against itself and every positive multiple |
| MinHeap.RootIsLeast | internal/vecindex/index.go:154-157 | no hit in a heap scores below its root |
| MinHeap.Heap.Push | internal/vecindex/index.go:150-153 | the heap keeps its order and gains exactly the hit |
| MinHeap.Heap.ReplaceRoot | internal/vecindex/index.go:156-159 | overwriting the root and fixing it exchanges exactly that hit |
| MinHeap.Heap.Pop | internal/vecindex/index.go:162-165 | a hit no other scores below is taken, and the rest is a heap |
| VecIndex.Best | internal/vecindex/index.go:177-197 | the pooled score is attained by a vector of the query's length and is the greatest such, or there is none |
| VecIndex.MaxCosine | internal/vecindex/index.go:177-197 | the loop over a running best computes that score, over the single vector when there are no paragraphs |
| VecIndex.Offer | internal/vecindex/index.go:150-159 | one candidate turns the best k of the seen ids into the best k with it |
| VecIndex.Drain | internal/vecindex/index.go:162-165 | popping into a slice from the end leaves it in descending score |
| VecIndex.RankingMeans | internal/vecindex/index.go:118-122 | a ranking has distinct ids, as many as limit and candidates allow, descending, and no omitted candidate beats a returned one |
| VecIndex.TiesById | internal/vecindex/index.go:168-173 | equal scores come in id order |
| VecIndex.LimitMeans | internal/vecindex/index.go:123-130 | ten hits by default, fifty at most |
| VecIndex.ScoresMean | internal/vecindex/index.go:138-197 | scored are exactly the entries of the kind and owner with a vector of the query length, by their greatest cosine over paragraphs, or the whole without any |
| VecIndex.AlignedScoresBest | internal/vecindex/index.go:118-175 | an entry that points the query way scores 1 and the first hit scores 1 |
| VecIndex.Index.Search | internal/vecindex/index.go:123-175 | the result is a ranking of exactly the matching entries, whatever order the map is walked in |
| FeedbackScore.MultiplierWithin | internal/svc/feedback_score.go:46-68 | the multiplier is positive, at most 1, and at least the clamped floor when enabled |
| FeedbackScore.MultiplierMonotone | internal/svc/feedback_score.go:46-68 | more likes never lower it and more dislikes never raise it |
| FeedbackScore.UsableMeans | internal/svc/feedback_score.go:46-60 | senseless settings give way to prior counts of 2 and the nearer end of the floor range |
| FeedbackScore.MultiplierMeans | internal/svc/feedback_score.go:46-68 | the height above the floor weighed with all counts and priors equals the room above the floor weighed with likes and their prior |
| Search.ApplyQualityMultiplier | internal/svc/feedback_score.go:82-118 | the loops rescore and sort the hits, keep the raw scores by id, and leave hits alone when rescoring is off |
| Search.EntryKeyMeans | internal/svc/feedback_score.go:124-134 | each kind of hit has its own key prefix, summaries none |
| Search.AdjustMeans | internal/svc/feedback_score.go:97-109 | a positive score is multiplied by what the ticket's own ratings are worth, any other is kept |
| Search.KeepsMeans | internal/svc/search.go:212-234 | the filter switch by switch: deleted and, unless asked for, archived tickets, ideas and other columns stay off the page |
| Search.LimitsMean | internal/svc/search.go:153-192 | ten results by default and fifty at most; twice or four times as many fetched, fifty at most |
| Search.AdjustWithin | internal/svc/feedback_score.go:97-109 | rescoring never raises a score and never changes its sign |
| Search.RescoredSound | internal/svc/feedback_score.go:90-117 | the result is a permutation of the adjusted hits in strict result order |
| Search.CorrelatingStaysAbove | internal/svc/feedback_score.go:97-104 | a positive hit stays above every non-positive one |
| Search.CutIsExact | internal/svc/search.go:181-242 | with everything fetched, or the k-th adjusted score at least the lowest fetched one, the first k kept hits are a true top k of the index by adjusted score |
| Search.PageExactIff | internal/svc/search.go:181-242 | the page is a true top k under every rating history exactly when each matching ticket left unfetched scores at most the floored k-th kept raw score |
| Search.FetchedCheckIsEnough | internal/svc/search.go:181-192 | having fetched everything, or a floored k-th kept score that reaches the lowest fetched one, makes the page safe |
| Search.NearMissIsLost | internal/svc/search.go:181-242 | limit 1, scores 0.9, 0.85 and 0.84, six likes on the third: the page shows 0.675 while the unfetched third adjusts to 0.756 |
| Search.Build | internal/svc/search.go:206-243 | the walk with early exit returns the first hits that pass the filter |
| Search.SearchTickets | internal/svc/search.go:153-243 | blank query or project is refused; otherwise the fetched hits are a ranking, every hit shown passes the filter with its raw score times the worth of its ratings, the page is exact when safe or when the cut is reached, and it is full when the filter drops nothing |
| Staging.RunTouches | internal/store/stage.go:29-73 | every file a sequence of ops changed lies at or beneath a touched path |
| Staging.MoveCarries | internal/store/stage.go:45-54 | a rename carries every file beneath it over and leaves none behind |
| Staging.FailureLeavesPrefix | internal/store/stage.go:188-196 | a failing run leaves exactly the files of the ops before the failing one |
| Staging.RunKeeps | internal/store/stage.go:29-73 | every file and directory keeps its parent directories |
| Staging.StagingCloses | internal/store/git.go:73-94 | staging the touched paths makes index and tree agree wherever they agreed before the run |
| Staging.OpMeans | internal/store/stage.go:34-73 | a successful write leaves the staged content, a rename every file under its new path, a remove nothing |
| Staging.WriteSucceedsIff | internal/store/stage.go:34-40 | a write succeeds exactly with its file staged, no file above and no directory at the destination |
| Staging.RenameSucceeds | internal/store/stage.go:45-54 | a rename of something that exists to a free place succeeds |
| Staging.WrittenStays | internal/store/stage.go:188-196 | after a successful run a written path holds what was staged for it unless a later op reaches there |
| Staging.RemovedStays | internal/store/stage.go:188-196 | nothing is at or beneath a removed path unless a later op reaches there |
| Staging.RenamedCarries | internal/store/stage.go:188-196 | a file no other op reaches is under the new path with its content, and no longer under the old |
| Staging.SeparateWritesLand | internal/store/stage.go:106-209 | staged writes to separate places with room for them all succeed and land |
| Staging.IndexHasWritten | internal/store/git.go:73-94 | when the index follows the ops a written path is in it with the content on disk |
| Staging.SyncAllAt | internal/store/git.go:73-94 | at touched paths the index equals the tree, elsewhere it is as before |
| Staging.Repo.StageRemovedUnder | internal/store/git.go:32-50 | every vanished tracked file beneath the prefix is dropped from the index, without an error |
| Staging.Repo.StagePaths | internal/store/git.go:73-94 | the loop never gives up and stages each path as if synchronised |
| Staging.StageOp.Write | internal/store/stage.go:106-134 | on an open op the content is staged and one write registered, otherwise nothing changes |
| Staging.StageOp.Commit | internal/store/stage.go:179-209 | the ops are applied in order once; on success written paths hold what was staged, removed ones nothing, renamed files are at their new place, and under auto-commit the index agrees; separate writes with room succeed; a failure stages nothing and leaves the applied prefix |
| FeedbackStore.ReplaySummarises | internal/store/feedback.go:165-239 | a key's record counts every rating and retrieval committed since its last delete and keeps the last ten reasons in order |
| FeedbackStore.StepKeepsInv | internal/store/feedback.go:244-268 | each step inside or outside the lock keeps every process's memory equal to a past version of the file |
| FeedbackStore.WriteCommits | internal/store/feedback.go:244-268 | only a write inside the lock commits, and it applies its own change to what the file held |
| FeedbackStore.RunLosesNothing | internal/store/feedback.go:244-268 | in every run of several processes the file reflects all commits, whoever made them |
| FeedbackStore.RunNeverGoesBack | internal/store/feedback.go:87-127 | a process's memory never returns to an older version |
| FeedbackStore.Store.RecordRating | internal/store/feedback.go:165-191 | invalid keys and ratings are refused unchanged; otherwise file and memory both show the record with one rating more: its side counted, the time stamped, and the reason cut to 500 bytes among the last ten |
| FeedbackStore.Store.RecordRetrieval | internal/store/feedback.go:196-211 | every non-empty key is counted, repeats included, in one write |
| FeedbackStore.Store.DeleteMany | internal/store/feedback.go:227-239 | the keys' records are gone from file and memory |
| ProjectCache.ProjectCache.Lookup | internal/cache/projectcache.go:203-215 | a fresh entry is returned with its one handle, a stale one is evicted, and the books stay balanced |
| ProjectCache.ProjectCache.LoadFromDisk | internal/cache/projectcache.go:597-624 | an unlocked load adds one in-flight project and its watcher |
| ProjectCache.ProjectCache.Insert | internal/cache/projectcache.go:384-420 | a faster caller's entry wins and the own watcher closes; otherwise the project is in, at most one least recently used entry is out, and the bound holds |
| ProjectCache.ProjectCache.EvictLocked | internal/cache/projectcache.go:445-462 | the slug leaves all three maps and its watcher closes once |
| ProjectCache.ProjectCache.CloseWatcher | internal/cache/projectcache.go:468-480 | an open watcher closes once and a second call does nothing |
| ProjectCache.ProjectCache.HandleFor | internal/cache/projectcache.go:484-493 | a slug keeps its handle, or gets the minted one when it has none |
| ProjectCache.ProjectCache.Oldest | internal/cache/projectcache.go:424-441 | the chosen slug was accessed no later than any other |
| ProjectCache.RoomMadeMeans | internal/cache/projectcache.go:384-441 | below the bound an insert evicts nothing; at the bound one project, with every other accessed no earlier |
| ProjectCache.ProjectCache.SweepIdle | internal/cache/projectcache.go:279-311 | exactly the entries idle beyond the limit go |
| ProjectCache.ProjectCache.ResolveLoaded | internal/cache/projectcache.go:316-326 | a loaded slug, or a loaded project with that id; none only when no such slug is loaded and, with ids unique, no such project |
| Frontmatter.EncodeMarkdown | internal/store/frontmatter.go:40-57 | the buffer holds fence, yaml, fence and the body with a final newline |
| Frontmatter.EncodeMeans | internal/store/frontmatter.go:40-57 | a file is a fence line, the yaml text, a fence line and the body |
| Frontmatter.EnsuredMeans | internal/store/frontmatter.go:40-57 | the body is written as it is, with a newline added when it lacks one |
| Frontmatter.SplitMeans | internal/store/frontmatter.go:101-120 | a text without an opening fence is its own body, and a byte order mark is skipped |
| Frontmatter.IndexFrom | internal/store/frontmatter.go:121-124 | the first occurrence, or none at all |
| Frontmatter.FrontmatterRoundTripIff | internal/store/frontmatter.go:101-135 | splitting an encoded file returns the yaml less its newline and the ensured body exactly when no later yaml line starts with three dashes |
| Cursor.CursorRoundTripIff | internal/svc/tickets.go:1509-1536 | decoding undoes encoding exactly for non-empty ids, separators in them included |
| Cursor.CursorMeans | internal/svc/tickets.go:1509-1513 | a cursor carries the time, a bar and the id |
| Cursor.DecodeMeans | internal/svc/tickets.go:1515-1536 | exactly a parsable time before the first bar and a non-empty id behind it decode |
| Cursor.PageMeans | internal/svc/tickets.go:508-525 | a page is cut at the limit only, and its cursor names its last entry |
| Cursor.TakePage | internal/svc/tickets.go:509-525 | the scan for the anchor and the cut at the limit compute the page and its next cursor |
| Cursor.PageAt | internal/svc/tickets.go:508-525 | the cursor of a position leads back to it and its page to the next position |
| Cursor.WalkIsWhole | internal/svc/tickets.go:508-525 | the pages got by following cursors, put together, are the whole list |
| Cursor.PageAfterChange | internal/svc/tickets.go:508-525 | asked again over a changed list, the call goes on right behind the anchor where it is now, and without the anchor answers an empty last page |
| Cursor.WalkExists | internal/svc/tickets.go:520-525 | following cursors always ends with an empty one |
| Listing.TicketOrder | internal/svc/tickets.go:1488-1504 | on tickets with distinct ids the comparison is a strict total order |
| Listing.ListingUnique | internal/svc/tickets.go:465-506 | a query has only one sorted, filtered list, whatever order the map is walked in |
| Listing.ListedMeans | internal/svc/tickets.go:465-506 | what each filter of a query lets through |
| Listing.ListedInOrder | internal/svc/tickets.go:1488-1504 | waves ascend with the tickets without one last, then creation time, then id |
| Listing.NewTicketIsReadyIff | internal/svc/tickets.go:486-502 | a new ticket is on the ready list exactly when it is work and all it depends on is done |
| Listing.ListTickets | internal/svc/tickets.go:439-533 | the call returns the cursor's page of that list |
| Listing.TicketPagesPartition | internal/svc/tickets.go:508-525 | over unchanged tickets the pages partition the list |
| Listing.WalkContinuesBehind | internal/svc/tickets.go:508-525 | of a changed list a walk is still to see exactly the tickets sorted behind the anchor's present place, none when it is not listed |
| Listing.AnchorGoneEndsWalk | internal/svc/tickets.go:486-525 | two ready tickets, one a page: when the first goes to testing the walk ends without the second |
| Listing.ReadyListIs | internal/svc/tickets.go:486-502 | on a sound board the ready list holds exactly the unblocked pending work that is neither archived nor in testing |
| Listing.ReadyListNamesWork | internal/svc/tickets.go:486-502 | while work is pending there is an unblocked pending ticket, and the ready list names it exactly when it is neither archived nor in testing |
| Listing.Collect | internal/svc/comments.go:285-306 | exactly the comments in scope that pass the filters, each once |
| Listing.ListCommentsScoped | internal/svc/comments.go:237-342 | a bad cursor and an unknown ticket are refused in that order; otherwise the cursor's page of the one sorted list |
| Listing.CommentListingUnique | internal/svc/comments.go:285-321 | the comments a query names have only one sorted list |
| Listing.CommentMatchesMeans | internal/svc/comments.go:346-390 | what each filter of a comment query lets through |
| Listing.InScopeMeans | internal/svc/comments.go:285-291 | the ticket and the phase a query is narrowed to |
| Listing.CommentsInOrder | internal/svc/comments.go:308-321 | oldest first, newest first when descending, ids breaking ties the same way round |
| Listing.CommentPagesPartition | internal/svc/comments.go:308-341 | the pages partition the list in ascending and in descending order |
| Listing.RunCanListComments | internal/svc/comments.go:284-306 | every board of every run meets what the comment listing asks for |
| Listing.ProjectCanList | internal/cache/projectcache.go:499-606 | so does every loaded project between two calls: one trail a ticket, comment ids unique and not blank, and a slug index onto its phases |
| Ordering.SortIsSorted | internal/vecindex/index.go:168-173 | a list without repeats comes out strictly ascending |
| Ordering.SortedUnique | internal/svc/tickets.go:506 | only one order of the same elements is sorted |
| Ordering.StrLessMeans | internal/svc/tickets.go:1488-1504 | strings compare by their first difference, a proper prefix first |
| TextMeaning.TrimSpaceMeans | internal/svc/validation.go:25-58 | trimming takes all white space off the two ends and nothing else |
| TextMeaning.BlankMeans | internal/svc/validation.go:42-47 | blank is nothing but white space |
| TextMeaning.Utf8LenMeans | internal/svc/validation.go:52-58 | length in bytes: one an ASCII character, at most four any, added up |
| TextMeaning.Pad3Means | internal/svc/tickets.go:1303-1322 | numbers are decimal and padded to three digits |
| TextMeaning.MakeSlugMeans | internal/domain/slug.go:21-51 | a slug is the words of the title in lower case, joined by single dashes and cut at 48; without a word it is untitled |
| Text.MakeSlugIsSlug | internal/domain/slug.go:21-51 | a slug is lower-case letters and digits in runs joined by single dashes, at most 48 characters and never empty |
| Text.MakeSlugSpells | internal/domain/slug.go:21-51 | it spells the title's letters and digits in order, all of them unless cut; a title without any is untitled |

## Left out

- Two processes racing on one project: numbers and preconditions are computed before the lock, so each service call is one step on one loaded project.
- Session and role checks, acting-for and created-for links, html unescaping of titles, and event publication by the service calls.
- Ticket and comment bodies, phase descriptions and summaries, `updated_at` and `archived_at` stamps, and the raw yaml: records are values.
- Crashes inside a lock body, and disk errors other than the conflicts a rename or a parent directory can meet; a remove that fails half-way.
- The vector index's upsert, delete and owner removal, the embed worker, sidecars and providers.
- Comment and learning search: the same fetch, rescore and filter as ticket search with other filters.
- ProjectCache.ProjectCache.ResolveLoaded: does not model the walk over mounted stores for slugs that are not loaded; the store resolvers are not part of this model.
- ProjectCache.ProjectCache.SweepIdle: the ticker around it, and CloseAll, are loops of the calls modelled.
- ProjectLoader.Reload: a project whose watcher misses a change, and two loaded copies of one project, are not modelled; the code makes no promise there.
- Staging.StageOp.Commit: the commit object itself; its message and author are not modelled.
- Floating-point rounding: scores and multipliers are reals.
- Rounds of automatic archiving by policy, dashboards, wave listing, handlers, migration and installation.
- Non-ASCII case folding: headings and slugs fold ASCII letters only.
