# minijob: a verified model of its scheduler

minijob is a job queue server: clients create jobs, workers pull them, and a scheduler moves each job between a pending
set, an index of queued jobs, a retry queue and a delayed queue, while a table of locks keeps two jobs that need the same
resource apart. This project models that scheduler, the structures it must keep consistent, and the two backends that
save its jobs, and proves that they do.

How the files fit together:

- `scheduler.dfy` says what each critical section of the service does to the scheduler state (one value), and `runs.dfy`
  puts the sections together as the steps of a run. `invariants.dfy`, `moves.dfy`, `admission.dfy`, `operations.dfy` and
  `retries.dfy` prove what every step keeps; `restart.dfy` says what loading stored jobs gives; `guarantees.dfy`,
  `census.dfy`, `histories.dfy` and `polls.dfy` state what holds in all runs, from any loaded start and across restarts, and in all
  interleavings with long polls; `exact.dfy`, `delays.dfy` and `effects.dfy` say precisely what single operations do, and
  `outcomes.dfy` says it again in states, histories, fields of the jobs and numbers of the settings, without the functions
  that define the scheduler.
- `service.dfy` is the service itself: its maps, its two linked priority queues, its lock table, its index, its metrics
  and its backend are objects changed in place by methods and loops. Each method is proved to perform its step of the
  scheduler, from any valid object state, and `steps.dfy` joins the two: every step of a run is carried out by a method.
- `queue.dfy` and `heaps.dfy` are the index of the queued jobs: two families of binary heaps over the same entries, which
  store their position in both. `pq.dfy` is the linked-list priority queue, `resources.dfy` the lock table, `jobs.dfy` the
  job and its history automaton, `metrics.dfy` and `counters.dfy` the incremental counters, `pullorder.dfy` and
  `ordering.dfy` the orders and their unique arrangements, `integers.dfy` the 64-bit wrap.
- `writelog.dfy`, `redis.dfy` and `writer.dfy` are the write-behind log of the Redis backend: meaning of the operations,
  coalescing, a client whose pipelines fail in part, and the writer as a protocol and as an object.
- `saving.dfy` and `provider.dfy` are the save protocol of the in-memory backend under interleavings, the provider and the
  life cycle of its loop; `backup.dfy` goes from a run of the scheduler through the map and the file to the next start.
- `listing.dfy` is the paginated, filtered and sorted listing of the jobs; `listed.dfy` says what a client sees of it, in
  the words of the request and the fields of the jobs.

Choices that matter for reading the statements:

- One mutex protects the scheduler, so that every critical section is one atomic step. Its clock is read once; times do
  not decrease along a run. Ids are natural numbers, fresh when a job is created. The backoff is an arbitrary function
  into nanoseconds; a delay of zero retries at once.
- A job at rest is one no operation is in the middle of changing. A run starts with stored jobs that are at rest or were
  saved between their creation and their first scheduling, and that leave no work undone; `Restart.LoadIsExact` says
  what follows without the last condition.
- "Holding" (every queued or running job holds all it lists) is claimed for runs without an administrative unlock in
  which no two stored jobs that are queued or running list the same resource; a weaker ownership of every lock is claimed
  for all runs.
- `"*"` is the only topic that means all topics, and a pull of zero jobs yields nothing, as in service/queue.go:112-120;
  the comment at service/iservice.go:12-13 says otherwise.
- The status counters of a topic are one table from states to numbers in `metrics.dfy`; `counters.dfy` has the separate
  fields of the source and its two switches, and refines it.

Three promises hold only under a condition, and the condition is proved to be exact:

- Listing pages tile the list if and only if the list is empty or `total + limit - 1` fits in 64 bits. A page number
  whose index wraps makes the call fail, or answer other jobs, or none; `Listing.PanicsExactly` and
  `Listing.PageIsRightExactly` say which. The web layer keeps both numbers small.
- A Stop of the in-memory provider answers without an error whenever its loop had begun, also when the last save of the
  loop failed. The file then holds the changes made before the call if and only if the map did not change between the
  copy that the file holds and the call (`SaveProtocol.StopReflectsExactly`); which copy that is depends on whether the
  last write of the loop replaced the file. `SaveProtocol.FirstStopMissesAChange` and `SaveProtocol.SecondStopMissesAChange`
  are runs in which a change is missed.
- Loading stored jobs leaves no work undone if and only if some of them were just created, because only then an admission
  pass follows, or every pending one needs something that a queued or running one lists.

## Model

| member | source | states |
|---|---|---|
| `Guarantees.EveryStateIsGood` | service/service.go:489-499 | In every state of every run, from loaded jobs or none, through operations, periodic tasks and restarts: each container holds exactly the jobs of its state once, every lock belongs to a queued or running job that lists it, the counters equal recounts, the kept copies equal the jobs, no pending job is left unblocked; and every queued or running job holds all it lists, if no two stored ones listed the same and while no administrator released a lock |
| `Guarantees.NothingStored` | service/service.go:133-199 | A service that finds no stored job starts empty, and may start a run |
| `Runs.StepIsGood` | service/service.go:590-603 | Every step (create, clone, pull, start, succeed, cancel, fail, delete one, queued or all, unlock, timeout change, five periodic tasks) keeps all of that, and bumps the wake-up channel whenever it queues a job |
| `Guarantees.RunsAreExclusive` | service/resourcesmanager.go:72-94 | In runs without an administrative unlock, from stored jobs without conflict, no two queued or running jobs list the same resource, and the lock table holds exactly the pairs (resource, queued or running job that lists it) |
| `Invariants.ResourcesAreExclusive` | service/resourcesmanager.go:52-70 | The same for one state: ownership and holding make the lock table a function of the job map |
| `Guarantees.EveryHistoryIsAccounted` | service/service.go:1058-1137 | In every run: #START = #FAIL + #CANCEL + #SUCCESS + (1 if running), #FAIL <= max(1, MaxRetry), reached exactly by the terminated jobs |
| `Histories.NothingHappensEarly` | service/service.go:446-487 | In every state of every run, from stored jobs whose histories are in the order of time: whatever happened to a job after its creation and its delay, its being queued and each of its starts among them, has a time at which its start time was reached |
| `Histories.EveryHistoryIsInTime` | service/service.go:489-499 | In every state of every run the events of every job are in the order of time, none later than the last event of the run |
| `Histories.EventRecords` | job/job.go:278-285 | Every operation, periodic task and restart leaves the history of each job that stays as the beginning of what it is afterwards, and gives each new event its own time |
| `Census.EveryJobIsAccounted` | metrics/servicemetrics.go:181-236 | In every state of every run, for each topic, the jobs that exist (which the counter says exactly) plus the jobs counted as deleted since the last start are exactly the jobs loaded by that start or created since |
| `Census.LoadCensus` | metrics/servicemetrics.go:336-353 | Loading counts every stored job once in its topic, and no deletion, also when created jobs are then scheduled and queued |
| `Census.RemoveKept` | service/service.go:538-588 | A deletion takes one from the existing jobs of its topic and adds one to the deleted ones; no other topic changes |
| `Census.CreateCounts` | service/service.go:247-311 | An accepted creation adds exactly one to existing plus deleted in its topic, whatever it admits afterwards |
| `Polls.NoPollSleepsThrough` | service/service.go:659-705 | In every interleaving of operations, periodic tasks, polls and restarts, from any loaded start, a poll that waits on a channel not yet closed has no queued job matching its topic |
| `Polls.NoWakeUpIsLost` | service/service.go:501-505 | Every single move keeps that, because a step that queues a job replaces the channel in the same critical section |
| `Polls.NothingFound` | service/service.go:743-768 | A look at the queue finds nothing if and only if no job was asked for or no queued job matches |
| `Polls.LookWaitsExactly` | service/service.go:659-705 | A poll that looks at the queue waits if and only if no job was asked for or no queued job has its topic, and it may look again; it then waits on the current channel, the scheduler is as it was, and so are the polls of others |
| `Admission.AdmitKeeps` | service/service.go:337-363 | One admission pass, from any coherent state, leaves every due pending job blocked by another holder, keeps the invariants, only queues pending jobs and gives new locks only to them |
| `Admission.AdmissionRespectsPriority` | service/service.go:356-363 | A job left pending by a pass needs a resource that was held before the pass, or is held by a job of this pass that comes before it in the strict queue order |
| `Outcomes.AdmissionPrefers` | service/service.go:356-363 | The same in fields: a resource listed by a job left pending is held by another job, which held it before, or was pending, was queued by the pass, and has the higher priority, or the same and an earlier first event, or both the same and a smaller id |
| `Scheduler.PassOrder` | service/service.go:347-357 | The pass tries exactly the pending jobs no lock blocks, in ascending queue order |
| `Exact.PullIsExact` | service/service.go:693-741 | A pull of n jobs starts precisely the min(n, number queued) first jobs of the topic in (priority, creation, id) order, each now running with the given timeout; no other job changes and none is refused |
| `Outcomes.PullStartsFirstInLine` | service/service.go:693-741 | In fields: a pull of n starts n of the queued jobs of the topic or all of them, those first by priority, first event and id; each gets a START event, is running, and has the timeout of the pull; nothing else changes |
| `Outcomes.PullPrefers` | service/service.go:1668-1678 | Of two queued jobs of the topic, the one a pull starts has a higher priority than the one it leaves, or the same one and an earlier first event, or both the same and a smaller id |
| `PullOrder.FirstTicketsAreFirstInLine` | service/queue.go:110-129 | The first tickets of the index are those of the jobs first in line, by the fields of the jobs; "*" is every topic |
| `Exact.DeleteQueuedIsExact` | service/service.go:605-633 | Exactly the created, delayed, pending and queued jobs are gone, although every single deletion runs an admission pass; the rest is untouched and keeps its locks |
| `Outcomes.DeleteQueuedInFields` | service/service.go:605-633 | What is left are exactly the running, hidden, succeeded, failed and canceled jobs, unchanged |
| `Exact.RetentionIsExact` | service/service.go:1412-1453 | For every order the unstable sort may choose, the check deletes a prefix of the completed jobs in last-update order: at most the allowed number survives, none as old as the limit, each deletion for one of the two reasons, and no job that is not completed |
| `Outcomes.RetentionInSettings` | service/service.go:1412-1453 | In the numbers of the settings: the check deletes the k ended jobs updated first; at most maxJobs ended ones are left, none as old as maxAge seconds on the clock of milliseconds (or as its 64-bit wrap); each deleted one was one too many or that old |
| `Exact.TimeoutsAreExact` | service/service.go:1455-1497 | Exactly the running jobs whose timeout is over (with the wrap of the 64-bit product) fail once; every other job is left alone or admitted |
| `Outcomes.TimeoutInFields` | service/service.go:1455-1497 | A job fails if and only if it is running and its last event is at least its visibility timeout in seconds ago, on the clock of milliseconds (or its 64-bit wrap); it is then terminated, queued or hidden by the number of its FAIL events |
| `Exact.FailIsExact` | service/service.go:1058-1137 | A failure concerns its job and the jobs it lets in: it appends FAIL and one of ENQUEUE, HIDE, TERMINATE to its job, TERMINATE exactly at the limit |
| `Delays.DelayedCheckIsExact` | service/service.go:1499-1537 | Precisely the delayed jobs whose start time is reached become pending (perhaps queued at once); none is due afterwards |
| `Outcomes.DelayInFields` | service/service.go:1499-1537 | A delayed job stays as it is while its start time is not reached, and otherwise gets PENDING, and perhaps ENQUEUE, at once |
| `Effects.CreateIsExact` | service/service.go:247-311 | A refused creation changes nothing; an accepted one adds the job with its two first events (and perhaps ENQUEUE), the others are left alone or admitted |
| `Outcomes.CreateInFields` | service/service.go:247-311 | In fields and settings: refused at maxAllowedJobs or the limit of the backend; otherwise one job more, as the client specified it, with CREATE and DELAY if its start time lies ahead, and else with CREATE and PENDING, and perhaps ENQUEUE |
| `Outcomes.PendingIsDue` | service/service.go:446-455 | In every state of every run, a pending job has no start time or one that is reached |
| `Effects.FinishIsExact` | service/service.go:909-971 | The job succeeded; the locks afterwards are those without what it held, plus locks of jobs just admitted |
| `Outcomes.FinishInFields` | service/service.go:909-971 | The job gets SUCCESS, is succeeded, and holds nothing |
| `Effects.CancelIsExact` | service/service.go:973-1049 | The job is canceled and queued again, keeps its locks, and no lock is lost |
| `Outcomes.CancelInFields` | service/service.go:973-1049 | The job gets CANCEL and ENQUEUE, is queued, and every lock stays where it was |
| `Effects.FailDecides` | service/service.go:1107-1194 | Which of the three a failed job gets: TERMINATE when its failures are used up, ENQUEUE when its delay is zero and nothing blocks it (then it takes what it lists and nothing else changes), else HIDE with its retry time in the queue; in the other two cases what it held is free or went to jobs just admitted |
| `Outcomes.FailInFields` | service/service.go:1107-1194 | In fields: with its FAIL events the job is terminated at maxRetry; or queued at once with all it lists, when the backoff is zero and no other job holds any of it; or hidden, without locks, to be retried after the backoff in nanoseconds on the clock of milliseconds |
| `Outcomes.LimitMeansFailed` | service/service.go:1139-1162 | The limit that FailJob reports is reached if and only if the job is terminated |
| `Effects.DeleteIsExact` | service/service.go:538-588 | The job is gone, every other job is left alone or admitted, and what the job held is free or went to jobs just admitted; a missing job changes nothing |
| `Effects.UnlockAllIsExact` | service/service.go:1313-1328 | Afterwards the only locks are those of jobs the following pass admitted |
| `Effects.UnlockOneIsExact` | service/service.go:1330-1355 | The other locks are as before; the released resource is free or went to a job just admitted |
| `Effects.FirstJobRuns` | service/service.go:659-741 | From creation to work: in an empty service that accepts jobs, a job that is due is queued at once and the next pull of its topic starts it |
| `Retries.AttemptRetriesServes` | service/service.go:365-396 | The retry loop ends; the queue is the one before with the retried jobs filtered out in the original order, every due job left is still blocked by another holder at the end, jobs not due are untouched, and all invariants are kept |
| `Outcomes.RetryInFields` | service/service.go:365-396 | A hidden job whose retry time is not reached is left alone; one that is due is queued, or stays hidden because another job holds something it lists; no other job changes |
| `Retries.ReinsertedInFront` | service/service.go:393-395 | Putting the held-back jobs back one by one restores their places ahead of the jobs that are not due |
| `Retries.CheckDelayedServes` | service/service.go:1521-1537 | The loop over the delayed queue and the pass keep the invariants, work conservation and the wake-ups |
| `Operations.CreateServes` | service/service.go:247-311 | Creation and cloning keep the invariants, work conservation, held locks and wake-ups |
| `Operations.FinishServes` | service/service.go:951-970 | So does success |
| `Operations.RequeueServes` | service/service.go:1016-1048 | So does cancelling |
| `Operations.FailServes` | service/service.go:1107-1194 | So does every branch of a failure: end, immediate retry, later retry |
| `Operations.StartAllServes` | service/service.go:813-874 | So does starting the candidates of a pull |
| `Operations.DeleteEachServes` | service/service.go:619-632 | So does any list of deletions, each with its pass |
| `Operations.RetainServes` | service/service.go:1444-1452 | So does the loop of the retention check |
| `Operations.TimeoutsServe` | service/service.go:1485-1496 | So does the timeout check |
| `Runs.UnlockAllServes` | service/service.go:1313-1328 | The release of every lock keeps the weaker ownership and re-establishes work conservation |
| `Runs.UnlockOneServes` | service/service.go:1330-1355 | The same for one lock |
| `Runs.DeleteAllServes` | service/service.go:590-603 | Deleting everything leaves a good empty scheduler; in each topic the deleted count takes in what existed and every other counter is zero |
| `Runs.ChangeTimeoutServes` | service/service.go:1196-1233 | Changing a timeout keeps jobs, copies and index in agreement |
| `Outcomes.ChangeTimeoutInFields` | service/service.go:1196-1233 | The job and its kept copy have the timeout asked for, and nothing else changes |
| `Moves.QueuedKeeps` | service/service.go:398-487 | Locking, enqueueing and leaving its container keeps all invariants for a pending, hidden or just failed job |
| `Moves.GiveUpKeeps` | service/service.go:1139-1162 | Terminating a job that used up its failures keeps all invariants |
| `Moves.HideKeeps` | service/service.go:1164-1194 | Hiding a failed job and queueing its retry keeps all invariants |
| `Moves.RemoveKeeps` | service/service.go:538-583 | Taking a job out of every container, the locks and the counters keeps all invariants |
| `Moves.MovedKeepsCoherent` | service/service.go:489-499 | Moving one job between containers as its state says keeps every container equal to the jobs of its state |
| `Restart.RestartRoundTrip` | service/service.go:133-199 | Loading what the backend kept of a scheduler at rest rebuilds the same jobs, pending set, index and delayed jobs, every hidden job in the retry queue and due now, exact counters, and the same locks when every queued or running job held its own |
| `Restart.LoadIsExact` | service/service.go:133-199 | Loading any jobs at rest or just created: all invariants hold; each job is as stored, a job just created is delayed or pending or queued by the pass that follows; work conservation holds if and only if a pass followed or every stored pending job needs something in use; every queued or running job holds all it lists if and only if no two stored ones list the same |
| `Outcomes.LoadInFields` | service/service.go:187-193 | A job stored as created is delayed if its start time lies ahead, and else pending or queued; every other job is as stored, or was pending and is queued |
| `Restart.ScheduleEachKeeps` | service/service.go:187-193 | Scheduling the jobs just created one by one, while the others of them still wait, keeps containers, locks and counters |
| `Backup.FileGivesBack` | jobbackendprovider/inmemoryprovider/inmemoryprovider.go:78-140 | A service that starts from the file, after any interleaving of changes, saves, failed writes and stops, comes back as the scheduler was when the map was copied |
| `Backup.RunComesBack` | jobbackendprovider/inmemoryprovider/inmemoryprovider.go:78-140 | A run of the scheduler and a run of its backend: when the file holds a copy made after the k-th event and before the next change of the map, the service starts again in the k-th state |
| `Backup.StopAndStart` | jobbackendprovider/inmemoryprovider/inmemoryprovider.go:55-140 | When the last save of the loop succeeded and nothing changed since Stop was first called, the service starts again in its last state |
| `ServiceSteps.StopAndStart` | service/service.go:133-199 | The objects: a successful save, then a new provider over the same file and a new service that loads it, give the same jobs in the same containers |
| `Restart.LocksComeBack` | service/resourcesmanager.go:55-70 | Whatever was unlocked, the rebuilt table gives every lock to a queued or running job that lists it, and is the old table when every such job held all it lists |
| `Jobs.ReloadedAtRest` | job/job.go:182-192 | Recomputing the states of a job at rest from its history changes nothing |
| `Jobs.AddEventKeepsWord` | job/job.go:278-285 | An event the automaton allows keeps the history a word with matching state and previous state, and counts a failure exactly for FAIL |
| `Jobs.RestAfter` | job/job.go:194-217 | After a resting event the job is at rest, terminated if and only if its failures are used up |
| `Jobs.StartsAreAccounted` | job/job.go:278-285 | In every history of the automaton each START is closed by one FAIL, CANCEL or SUCCESS, except a last one |
| `Jobs.StartsAreSeparated` | job/job.go:278-285 | Two STARTs are separated by an ENQUEUE |
| `Jobs.FinalEventsAreLast` | job/job.go:194-217 | Nothing follows SUCCESS or TERMINATE |
| `Jobs.Job.constructor` | job/job.go:270-276 | A new job has one event, its creation, and the states that follow from it |
| `Jobs.Job.AddHistoryEvent` | job/job.go:278-285 | The object becomes the value with the event appended, the old state as previous state and the state of the event |
| `Jobs.Job.SetStateFromHistory` | job/job.go:182-192 | The object becomes the value with the states of its history |
| `Jobs.Job.GetHistoryStates` | job/job.go:287-294 | One state per event, in order |
| `Jobs.Job.GetCountFailures` | job/job.go:229-238 | The loop counts the FAIL events |
| `QueueIndex.QueuedJobs.Add` | service/queue.go:80-93 | Both heaps stay heap-ordered with true positions, there is a heap exactly for each topic with jobs, and the contents grow by the ticket (a job queued already stays) |
| `QueueIndex.QueuedJobs.Remove` | service/queue.go:95-108 | The same, and the contents lose exactly the job, found by its stored positions |
| `QueueIndex.QueuedJobs.First` | service/queue.go:110-129 | Popping and pushing back returns exactly the n first tickets of the topic in pull order (filter, sort, take) and leaves the contents and the invariant |
| `QueueIndex.QueuedJobs.constructor` | service/queue.go:72-78 | An empty index is valid |
| `QueueIndex.TakenAreFirst` | service/queue.go:112-120 | Entries popped in order, ahead of the rest, are the sorted list of the matching tickets cut at n; "*" matches every topic |
| `QueueIndex.PrefixOfArrangement` | service/queue.go:118-120 | An ascending list ahead of all other elements is the beginning of the unique arrangement |
| `Heaps.JobHeap.Push` | service/queue.go:49-53 | Appending and rising keeps the heap, the positions in this heap, and the positions in the other heap |
| `Heaps.JobHeap.Pop` | service/queue.go:55-61 | Removes an entry no remaining one comes before, keeping heap and positions |
| `Heaps.JobHeap.RemoveAt` | service/queue.go:100-107 | Removes the entry at any position: swap with the last, sink, else rise |
| `Heaps.JobHeap.Up` | service/queue.go:38-47 | The rising loop turns a heap with one hole above into a heap, in place |
| `Heaps.JobHeap.Down` | service/queue.go:38-47 | The sinking loop turns a heap with one hole into a heap, or reports that the element did not move |
| `Heaps.JobHeap.Swap` | service/queue.go:43-47 | Exchanges two entries and their positions, not their positions in the other heap |
| `Heaps.JobHeap.First` | service/queue.go:117-127 | The two loops return the first entries in pull order and restore the heap |
| `Heaps.RootIsFirst` | service/queue.go:38-41 | In a heap no entry comes before the root |
| `PullOrder.BeforeIsStrictTotal` | service/service.go:1668-1678 | The queue order is strict and total on the tickets of different jobs |
| `PullOrder.SortedIds` | service/service.go:1680-1689 | The ids in strictly increasing order |
| `PriorityQueues.PriorityQueue.Enqueue` | pq/pq.go:42-57 | Relinking the list equals inserting behind every item of the same or a higher priority |
| `PriorityQueues.PriorityQueue.DequeueWithPriority` | pq/pq.go:81-92 | Takes the first item exactly when its priority reaches the minimum |
| `PriorityQueues.PriorityQueue.Remove` | pq/pq.go:99-122 | Unlinks the first node with the value and reports exactly whether there was one |
| `PriorityQueues.PriorityQueue.Clear` | pq/pq.go:129-133 | Empties the list |
| `PriorityQueues.InsertedKeeps` | pq/pq.go:42-57 | Insertion adds exactly the item and keeps the queue descending |
| `PriorityQueues.RemovedKeeps` | pq/pq.go:99-122 | Removal deletes exactly the value and keeps the order |
| `PriorityQueues.RemoveUndoesInsert` | pq/pq.go:42-122 | Inserting and removing a new value gives the queue back |
| `Resources.ResourcesManager.LockResources` | service/resourcesmanager.go:75-94 | All or none: succeeds exactly when nothing blocks the job, then locks every listed name once and counts the newly locked |
| `Resources.ResourcesManager.UnlockResources` | service/resourcesmanager.go:98-110 | Releases and returns exactly what the job holds and lists |
| `Resources.ResourcesManager.UnlockResource` | service/resourcesmanager.go:37-50 | Releases one name and reports whether it was locked |
| `Resources.ResourcesManager.LockResourcesForJobs` | service/resourcesmanager.go:55-70 | The nested loops give each name to the last queued or running job, in id order, that lists it |
| `Resources.LockThenRelease` | service/resourcesmanager.go:75-110 | Locking an unblocked job gives it everything; releasing it again gives the old table back when it held nothing |
| `Metrics.ChangeKeepsCounts` | metrics/servicemetrics.go:181-236 | A state change keeps every counter of every topic equal to its recount, and each counter it takes one from is above zero |
| `Metrics.CreationKeepsCounts` | metrics/servicemetrics.go:212-214 | So does a creation |
| `Metrics.DeletionKeepsCounts` | metrics/servicemetrics.go:232-234 | So does a deletion, of the state counter and of the existing, total and active ones |
| `Metrics.ReplayTelescopes` | metrics/servicemetrics.go:336-345 | Replaying a loaded history adds exactly one job, in its last state |
| `Metrics.LoadingKeepsCounts` | metrics/servicemetrics.go:336-353 | A loaded job keeps every counter exact |
| `Metrics.LockingKeepsCounts` | metrics/servicemetrics.go:461-474 | The lock counters follow a successful locking |
| `Metrics.ReleasingKeepsCounts` | metrics/servicemetrics.go:461-474 | The lock counters follow a release; no more is subtracted than was counted |
| `Metrics.UnlockingOneKeepsCounts` | metrics/servicemetrics.go:704-714 | The lock counters follow an administrative release of one lock; the counter was above zero |
| `Metrics.ClearingKeepsCounts` | metrics/servicemetrics.go:374-394 | Deleting everything leaves exact counters of no job |
| `TopicCounters.JobMetrics.OnJobStateChange` | metrics/servicemetrics.go:181-236 | The two switches over the counter fields perform the state change of the counters |
| `TopicCounters.JobMetrics.UpdateTopicMetrics` | metrics/servicemetrics.go:613-634 | The topic fields follow the state change |
| `TopicCounters.JobMetrics.UpdateFromHistory` | metrics/servicemetrics.go:336-353 | The loop over the states of a loaded history performs the replay and counts the job once |
| `TopicCounters.JobMetrics.UpdateResourcesLockedCount` | metrics/servicemetrics.go:461-474 | Adds, or subtracts down to zero |
| `TopicCounters.JobMetrics.ClearAll` | metrics/servicemetrics.go:374-384 | Everything is zero but the deleted count, which takes in what existed |
| `TopicCounters.ServiceMetrics.NotifyJobEvent` | metrics/servicemetrics.go:265-282 | A topic seen for the first time gets its own object; its fields follow the state change and the other objects stay |
| `TopicCounters.ServiceMetrics.UpdateMetricsFromJobHistory` | metrics/servicemetrics.go:336-353 | A loaded job is replayed into the object of its topic; the other objects stay |
| `TopicCounters.ServiceMetrics.OnDeleteAllJobs` | metrics/servicemetrics.go:374-390 | The loop over the topics, in any order, counts everything as deleted |
| `JobService.Service.constructor` | service/service.go:1704-1723 | Parts that share no object make a valid service that stands for the empty scheduler |
| `JobService.NewService` | service/service.go:1699-1724 | Creates such parts, and a valid empty service over a given backend |
| `JobService.Service.AddHistoryEvent` | service/service.go:489-499 | The index follows the state of the job through remove and add |
| `JobService.Service.NotifyJobEvent` | service/service.go:299-299 | The backend object, told of the event, replaces the copy of a job it knows, and the metrics object of the topic moves the job between its counters: together, the notification of the scheduler |
| `JobService.Service.LockResources` | service/service.go:425-444 | Locks all or nothing, and counts |
| `JobService.Service.UnlockJobResources` | service/service.go:635-657 | Releases what the job holds, and counts |
| `JobService.Service.RequiresLockedResources` | service/service.go:1657-1666 | True exactly when another job holds something the job lists |
| `JobService.Service.RetryJob` | service/service.go:398-423 | Queues the job exactly when nothing blocks it |
| `JobService.Service.EnqueueJob` | service/service.go:446-487 | The step of the scheduler for one candidate of a pass |
| `JobService.Service.PassList` | service/service.go:347-357 | Collecting in any order and sorting gives the list of the pass |
| `JobService.Service.TryEnqueuePendingJobs` | service/service.go:337-363 | The loops perform the admission pass of the scheduler |
| `JobService.Service.SetJobStateToDelayed` | service/service.go:313-320 | The job gets its DELAY event, waits by start time in the delayed queue, and the observers know; nothing else changes |
| `JobService.Service.SetJobStateToPending` | service/service.go:322-329 | The job gets its PENDING event, is in the pending set, and the observers know; nothing else changes |
| `JobService.Service.CreateJob` | service/service.go:249-311 | Refuses exactly at the limits, otherwise performs the creation step |
| `JobService.Service.CloneJob` | service/service.go:876-907 | A creation with what the client chose for the other job; a missing job changes nothing |
| `JobService.Service.StartJob` | service/service.go:813-874 | Succeeds exactly for a queued job and starts it |
| `JobService.Service.FindBestJobCandidates` | service/service.go:743-768 | Through the heaps: exactly the candidates the scheduler names; the service is unchanged |
| `JobService.Service.PullJobsOnce` | service/service.go:693-741 | The pull step; the ids it returns are those of the jobs first in line by their fields, in that order, at most n and all if there are fewer; they run with the timeout of the pull |
| `JobService.Service.SetJobAsSuccessful` | service/service.go:909-971 | Succeeds exactly for a running job, with the step of the scheduler |
| `JobService.Service.CancelJob` | service/service.go:973-1049 | Succeeds exactly for a running job, with the step of the scheduler |
| `JobService.Service.FailJob` | service/service.go:1051-1137 | Succeeds exactly for a running job, with the step of the scheduler; it answers that the limit is reached exactly when the FAIL events with this one reach maxRetry |
| `JobService.Service.OnJobFailedTooManyTimes` | service/service.go:1139-1162 | The job is terminated, releases what it holds before the observers are told, and a pass follows |
| `JobService.Service.RetryJobLater` | service/service.go:1164-1194 | The job is hidden, releases what it holds, waits by retry time in the retry queue, and a pass follows |
| `JobService.Service.DeleteJob` | service/service.go:538-588 | Succeeds exactly for a known job, with the step of the scheduler |
| `JobService.Service.DeleteAllJobs` | service/service.go:590-603 | Every container, the locks and the kept copies are empty, the index is a new valid one, and each topic counts its jobs as deleted |
| `JobService.Service.DeleteQueuedJobs` | service/service.go:605-633 | Collecting in id order and deleting performs the step of the scheduler |
| `JobService.Service.SortedJobIds` | service/service.go:1680-1689 | Collecting from the map in any order and sorting gives the ids in increasing order |
| `JobService.Service.AttemptJobRetries` | service/service.go:365-396 | The loop over the linked retry queue and the loop that puts blocked jobs back perform the retry step and end |
| `JobService.Service.CheckDelayedJobs` | service/service.go:1499-1537 | The loop over the linked delayed queue and the pass perform the step |
| `JobService.Service.CheckJobsVisibilityTimeout` | service/service.go:1455-1497 | Collecting, failing and admitting perform the step |
| `JobService.Service.DeleteOldCompletedJobs` | service/service.go:1412-1453 | Collecting, sorting and deleting perform the step for some order by last update |
| `JobService.Service.UnlockAllResources` | service/service.go:1313-1328 | Every lock and lock counter is cleared, and a pass follows |
| `JobService.Service.UnlockResource` | service/service.go:1330-1355 | Succeeds exactly for a locked name, with the step of the scheduler |
| `JobService.Service.ChangeVisibilityTimeoutJob` | service/service.go:1196-1233 | Succeeds exactly for a known job, with the step of the scheduler |
| `JobService.Service.LoadJobs` | service/service.go:133-199 | Loading what the file of the backend holds performs the loading of the scheduler, jobs just created included |
| `JobService.Service.CountLocks` | service/service.go:172-179 | The lock count of each topic, by owner, from a loop in any order |
| `ServiceSteps.Request` | service/service.go:531-605 | Every request is carried out by its method as the corresponding step of a run |
| `ServiceSteps.Tick` | service/service.go:1594-1608 | Every periodic task is carried out by its method as the corresponding step of a run |
| `ServiceSteps.ServeRequest` | service/service.go:37-42 | A service whose state is good stays good, whatever is asked of it |
| `ServiceSteps.ServeTick` | service/service.go:1594-1608 | So does every periodic task; a retention check that is switched off changes nothing |
| `Listing.OrderIsStrictTotal` | service/service.go:1921-1947 | For every list of criteria, criteria then creation then id is a strict total order on jobs of different ids |
| `Listing.CompareJobs` | service/service.go:1921-1947 | The comparison loop is negative, positive exactly as the order says |
| `Listing.ParseSort` | service/service.go:1883-1919 | The parsing loop gives the known criteria in order and ignores the others |
| `Listing.FilterJobs` | service/service.go:1825-1854 | Keeps exactly the jobs that pass every filter |
| `Listing.SortJobs` | service/service.go:1883-1948 | The same jobs in ascending order |
| `Listing.GetJobs` | service/service.go:1775-1823 | Collecting, filtering, sorting and cutting give the answer the list determines, a failed call included |
| `Listing.PagesTileExactly` | service/service.go:1791-1806 | For every limit >= 1 the pages 1 to TotalPages concatenate to the whole list if and only if it is empty or the sum total + limit - 1 fits in 64 bits |
| `Listing.PagesListEveryMatch` | service/service.go:1785-1814 | Together the pages list every job that passes the filters exactly once, in the order of the criteria |
| `Listed.PagesInAskedOrder` | service/service.go:1883-1948 | For each of the eight sort words and for no parameter, the order of any two jobs of the pages by priority, topic, first or last event; then by first event and id |
| `Listed.ListInWordOrder` | service/service.go:1883-1948 | For every sort parameter: its words between commas, trimmed, decide in turn, unknown ones not at all; then the earlier first event, then the smaller id |
| `Listed.ListedExactly` | service/service.go:1825-1881 | A job is in the pages if and only if its state has the name asked for in any case, its topic is the one asked for, and its id has the searched text in it in any case; and it is there once |
| `Listed.SplitIsExact` | service/service.go:1900-1900 | Joining the pieces of a parameter gives it back, and no piece has a comma |
| `Listed.TrimIsExact` | service/service.go:1901-1901 | Trimming takes away exactly the blanks at both ends |
| `Listed.TextBeforeIsLess` | service/service.go:1931-1932 | Texts are in the order of the first place where they differ |
| `Listing.AnswerInNumbers` | service/service.go:1785-1822 | The total is the length of the filtered list; the number of pages is 1 for a negative limit, and otherwise what it takes to hold the list |
| `Listing.PagesAreFull` | service/service.go:1791-1814 | No page up to TotalPages is empty, and every page but the last is full |
| `Listing.PanicsExactly` | service/service.go:1791-1811 | For every page and limit of 64 bits, with first the index (page - 1) * limit as it wraps: a call fails if and only if the limit is zero; or it is positive and the page ends before the list begins, or begins in the list and its end wraps; or it is negative, the page begins before the end of the list and its end does not wrap |
| `Listing.PanicsExactlyWhenFits` | service/service.go:1791-1811 | The same in terms of page and limit where nothing wraps: limit zero, or a negative page or limit that cuts existing jobs out of range |
| `Listing.PageIsRightExactly` | service/service.go:1791-1811 | For every positive page and limit of 64 bits the call answers the jobs of that page if and only if: a page that begins in the list ends within 64 bits; for one that begins behind it, the wrapped index is behind the list too or the cut is empty |
| `Listing.FirstIndexWraps` | service/service.go:1798-1799 | The index is the product modulo the 64-bit range, however the steps wrap |
| `Listing.HugePages` | service/service.go:1798-1811 | Two inputs whose index wraps: one makes the call fail, the other answers page 1 |
| `WriteLog.CoalescingIsSafe` | jobbackendprovider/redisprovider/writer.go:222-241 | Applied to any store the operations may have changed in part, the coalesced operations give what all operations applied in order give |
| `WriteLog.CoalescedIsMinimal` | jobbackendprovider/redisprovider/writer.go:222-241 | At most one operation per key, and a deletion of everything only at the beginning |
| `WriteLog.CoalescedAreSurvivors` | jobbackendprovider/redisprovider/writer.go:222-241 | Coalescing keeps exactly the operations no later one replaces, in order |
| `WriteLog.Coalesce` | jobbackendprovider/redisprovider/writer.go:224-241 | The loops that move the kept operations to the front of the same array compute it |
| `WriteLog.Filter` | jobbackendprovider/redisprovider/writer.go:230-236 | The inner loop keeps the operations of other keys, in place |
| `WriteLog.RetryIsSafe` | jobbackendprovider/redisprovider/writer.go:162-170 | Doing everything again after a partial attempt gives what one complete attempt gives |
| `RedisClient.Redis.Execute` | jobbackendprovider/redisprovider/writer.go:174-201 | Success means all operations applied in order; failure leaves every key as before or as some operation left it |
| `WriteLog.LastOperationDecides` | jobbackendprovider/redisprovider/writer.go:174-201 | After success a key has the value and the time to live of the last operation on it when that is a SET, and is missing when that is a DEL or a deletion of all job keys |
| `WriteLog.NoOperationNoChange` | jobbackendprovider/redisprovider/writer.go:174-201 | A key that no operation is about keeps its entry |
| `RedisClient.Redis.DeleteAllJobs` | jobbackendprovider/redisprovider/writer.go:203-220 | Success deletes exactly the job keys, whatever batches the scan returns; failure deletes some of them |
| `WriterProtocol.NothingIsForgotten` | jobbackendprovider/redisprovider/writer.go:119-171 | In every interleaving of pushes, batches, partial failures, retries and stop: what is unsettled and then the queue, applied to the store, give all accepted operations applied once in order |
| `WriterProtocol.ExitLosesNothing` | jobbackendprovider/redisprovider/writer.go:131-139 | When the loop ended and was not abandoned, the store holds everything that was accepted |
| `WriterProtocol.MoveKeepsInv` | jobbackendprovider/redisprovider/writer.go:119-171 | Every move keeps the invariant: counters, queue as the end of what was accepted, one unsettled list that completes the store, health equal to an empty retry list at the loop head |
| `WriterProtocol.NoMissedSignal` | jobbackendprovider/redisprovider/writer.go:82-90 | The step that ends the wait of a request signals the condition |
| `WriterProtocol.WaitedForAreSent` | jobbackendprovider/redisprovider/writer.go:82-90 | A request that waited relies on its operations having left the queue, and having reached the store where nothing is to be retried |
| `WriterProtocol.DoneMeansSent` | jobbackendprovider/redisprovider/writer.go:144-149 | An operation is counted as done when an attempt that sent it is over |
| `WriterProtocol.ClosedStaysClosed` | jobbackendprovider/redisprovider/writer.go:97-103 | After the stop nothing is accepted |
| `WriterProtocol.RedisWriter.Push` | jobbackendprovider/redisprovider/writer.go:70-80 | The push step; after the stop the operation is dropped |
| `WriterProtocol.RedisWriter.TakeBatch` | jobbackendprovider/redisprovider/writer.go:126-139 | Takes at most 1024 operations behind those to retry, or ends the loop |
| `WriterProtocol.RedisWriter.Publish` | jobbackendprovider/redisprovider/writer.go:144-148 | The count of attempted operations moves and the waiting requests are signaled |
| `WriterProtocol.RedisWriter.Settle` | jobbackendprovider/redisprovider/writer.go:150-163 | Success clears what was to be retried; failure coalesces it |
| `WriterProtocol.RedisWriter.AfterDelay` | jobbackendprovider/redisprovider/writer.go:164-169 | The delay doubles up to its limit, or the abandoned loop ends |
| `WriterProtocol.RedisWriter.Round` | jobbackendprovider/redisprovider/writer.go:125-170 | One uninterrupted round applies everything, or leaves a partial store and the coalesced retry list |
| `SaveProtocol.NoChangeIsForgotten` | jobbackendprovider/inmemoryprovider/inmemoryprovider.go:122-140 | In every interleaving: the file equals the map, or the generation differs from the saved one, or a change is about to be counted |
| `SaveProtocol.StopSavesTheChanges` | jobbackendprovider/inmemoryprovider/inmemoryprovider.go:55-62 | A returned Stop: with no loop, no error means the file holds every change made before the call; with a loop there is never an error, the loop is over, and if its last save succeeded the file holds every change made before the first Stop |
| `SaveProtocol.StopReflectsExactly` | jobbackendprovider/inmemoryprovider/inmemoryprovider.go:55-62 | For every Stop of every run, at every later moment: the file holds every change made before the call if and only if the map did not change between the copy the file holds and the call |
| `SaveProtocol.StopWithLoopReflectsExactly` | jobbackendprovider/inmemoryprovider/inmemoryprovider.go:55-62 | Where the last save of the loop reached its write: that copy is the one of this save if the write replaced the file, else the one of an earlier save, whether or not an error was reported |
| `SaveProtocol.LateStopReflectsExactly` | jobbackendprovider/inmemoryprovider/inmemoryprovider.go:55-62 | For a Stop called when the loop is over: if and only if the file was up to date at the call |
| `SaveProtocol.LastWriteDecides` | jobbackendprovider/inmemoryprovider/inmemoryprovider.go:273-291 | Once the last save of the loop reached its write, no later move changes which copy the file holds |
| `SaveProtocol.FirstStopMissesAChange` | jobbackendprovider/inmemoryprovider/inmemoryprovider.go:55-62 | A concrete run: the map changes, Stop is called, the last write of the loop fails, and Stop returns without an error although the file does not hold the change |
| `SaveProtocol.NothingIsSavedAfterTheLoop` | jobbackendprovider/inmemoryprovider/inmemoryprovider.go:55-62 | Once the loop is over nothing is saved any more: a change made after its last copy stays out of the file, also when Stop is called again |
| `SaveProtocol.SecondStopMissesAChange` | jobbackendprovider/inmemoryprovider/inmemoryprovider.go:55-62 | A concrete run: the loop is over, the map changes, a second Stop returns without an error and the file does not hold the change |
| `SaveProtocol.OneLoopAtMost` | lifecycle/lifecycle.go:26-34 | Begin succeeds at most once, never after a Stop, and the loop ends once |
| `SaveProtocol.StopIsNeverStuck` | lifecycle/lifecycle.go:48-58 | A waiting Stop can always return or save, or the loop or the save under way can go on |
| `SaveProtocol.MoveKeepsInv` | jobbackendprovider/inmemoryprovider/inmemoryprovider.go:273-307 | Every move keeps generations, file and owners in agreement |
| `InMemoryProvider.Provider.LoadJobs` | jobbackendprovider/inmemoryprovider/inmemoryprovider.go:78-110 | Map and answer are what the file holds, with the states of the histories, and nothing is left to save |
| `InMemoryProvider.Provider.OnJobCreated` | jobbackendprovider/inmemoryprovider/inmemoryprovider.go:142-153 | Keeps the job unless the provider is full |
| `InMemoryProvider.Provider.OnJobUpdated` | jobbackendprovider/inmemoryprovider/inmemoryprovider.go:213-222 | A known job gets a new copy; the change is counted |
| `InMemoryProvider.Provider.OnJobDeleted` | jobbackendprovider/inmemoryprovider/inmemoryprovider.go:190-196 | The copy is gone; the change is counted |
| `InMemoryProvider.Provider.OnJobsDeleted` | jobbackendprovider/inmemoryprovider/inmemoryprovider.go:237-243 | Every copy is gone; the change is counted |
| `InMemoryProvider.Provider.NotifyJobEvent` | jobbackendprovider/inmemoryprovider/inmemoryprovider.go:335-348 | The copies follow the event, or nothing happens while jobs are restored |
| `InMemoryProvider.Provider.SaveLocked` | jobbackendprovider/inmemoryprovider/inmemoryprovider.go:122-140 | Success makes file and generation current; a failure leaves the generation, so that the next tick tries again |
| `InMemoryProvider.Provider.Sync` | jobbackendprovider/inmemoryprovider/inmemoryprovider.go:295-307 | Saves exactly when the generation moved; without an error the file, read back, gives the map |
| `InMemoryProvider.Lifecycle.Begin` | lifecycle/lifecycle.go:26-34 | True exactly for the first loop that no Stop preceded |
| `InMemoryProvider.Lifecycle.AskToStop` | lifecycle/lifecycle.go:48-53 | Afterwards no loop begins; the answer says whether one had begun |

## Left out

- HTTP handlers, Swagger, Consul, CORS, web server signals, configuration and command line: plumbing over libraries.
- JSON payloads, job properties, callbacks, loggers and the event log file: they do not influence the scheduler.
- Prometheus vectors, histograms, percentiles, success rates and average durations, `ResourceMetricsMap` and disabled metrics: float or library work, or not an exact mirror of the locks.
- The backoff formula and configuration checks: the delay is an arbitrary function.
- Files, network and Redis commands: a file is the last written job map, a store is a map from keys to entries; expiry of keys in real time and commands executed after the client gave up on them are not modelled.
- Wrap-around of the 64-bit generation and of the writer's counters: they are natural numbers.
- Several readings of the clock inside one critical section: one value stands for all of them.
- The shared job pointers of the containers: containers hold ids, and the service holds job values in its map; the object with its fields is `Jobs.Job`, which the service does not own.
- JobService.Service.CreateJob: the id is a parameter that no job has, in place of the loop over random version 7 identifiers.
- Restart.LoadIsExact: jobs stored in the middle of a cancellation or of a failure, as after a crash between two notifications of one critical section, are loaded as the source does, but nothing is claimed of them.
- JobService.Service.LoadJobs: the events by which loaded jobs are announced to the backend, which ignores them while jobs are restored (`InMemoryProvider.Provider.NotifyJobEvent`), are not sent.
- The Redis provider as the backend of `JobService.Service`: there the backend is the in-memory provider; the write-behind log of the Redis provider is modelled by itself.
- Listing.ParseSort: white space is that of ASCII; other Unicode spaces are not modelled.
- Listing.FilterJobs: letter case is that of ASCII; other Unicode letters are not modelled.
- InMemoryProvider.Provider.LoadJobs: the provider without persistent storage, which keeps ids and never writes, is not modelled.
- InMemoryProvider.Provider.SaveLocked: no change of the map comes between reading the generation and copying the map; all such interleavings are in `saving.dfy`.
- InMemoryProvider.Provider.Sync: no change interrupts the save, as above.
- InMemoryProvider.Lifecycle.AskToStop: the wait until the loop has returned is not part of the method; `SaveProtocol.StopIsNeverStuck` is about it.
- Guarantees.EveryStateIsGood: starts with stored jobs that leave work undone are not runs; `Restart.LoadIsExact` covers them.
- WriterProtocol.NoMissedSignal: fairness of the operating system's scheduler, and with it that a signaled request runs, is not modelled.
- `writer.healthy` between the publication of an attempt and the next loop head, where the source lets it lag.
- The run-once flags of the periodic tasks and the tickers: a periodic task is a step that may happen at any time.
- Read-only queries (one job, all jobs, statistics, disk usage, health) apart from the listing: easy projections of the state.
- `Peek`, `Dequeue`, `Len` and `IsEmpty` of the priority queue and the mock backend: easy members, unused by the scheduler.
- Creation date of a job without history, where the source panics: no reachable job has an empty history.
