# AgentZ gateway: a verified model of its protocols and algorithms

This project models the parts of the AgentZ gateway whose correctness spans many
steps or many functions, and proves what they promise:

- the workflow-evaluation engine: admission under a concurrency cap, judging over
  a buffered channel, checkpoints under a lease, transcript collection over the
  session graph, and scoring against medians (`Evaluation`, `Scoring`,
  `EvaluationEngine`, `Coordinator`, `CoordinatorScores`,
  `CoordinatorTime`, `Transcript`);
- dashboards: acyclicity of Sankey links by Kahn's algorithm (`Sankey`) and the
  publish transaction with its idempotency keys, window reservations and delta
  accounting (`DashboardPublish`);
- coding projects: deletion against concurrent checkouts, Git operations and
  prompts (`ProjectDeletion`), and resolving a session through its ancestors
  (`SessionAncestry`);
- inference credentials and quotas: rotation across two stores
  (`CredentialRotation`), one-time OAuth tickets (`OAuthTicket`), token refresh
  from two processes (`TokenRefresh`), provider usage computed in two ways
  (`ProviderUsage`), agent admission under the organisation lock (`AgentQuota`);
- the OpenAPI generator: rewriting 3.1 schemas to 3.0 without narrowing them
  (`SchemaRewrite`, `EnumMembers`, `NullFree`) and bringing a document under a namespace with every reference
  still resolving (`RefRewrite`), both over the JSON trees of `JsonTree`;
- the chat notification hub with its coalescing channels (`ChatEvents`).

Protocols are state machines: a `NextStep` predicate gives one atomic action (a
database statement, a Kubernetes write, a check-and-set put, a lock) per case, an
invariant is proved for every step, and the theorems hold at every position of
every run. Loops and in-place updates are methods or classes whose contracts tie
them to a specification that does not repeat their bodies; the lemmas then prove
what that specification means.

What the model takes as given: a reserving statement adds atomically, and only when the result stays
within its maximum; a Kubernetes Update is compare-and-set on the resource
version; a key-value put with check-and-set succeeds only on the exact version;
advisory locks exclude as their mode says; random identifiers are new; judgment
grades lie in 0..4; resource quantities are not negative.

Some properties turned out narrower than they look, and the model says exactly how:

- The int32 agent counter wraps: with a count quota of 2147483647 one agent too
  many passes. `AgentQuota.CountCheckExactIff` shows that this is the only such
  quota.
- The first deletion mark alone does not close a project.
  `ProjectDeletion.FirstMarkInsufficient` is a complete run in which a prompt gets
  in after it; `ProjectDeletion.FirstMarkExact` shows that some continuation lets
  somebody in if and only if, when the mark is written, a prepare past its check
  will create its checkout or record its agent's missing main checkout, or a Git
  remove of a ready checkout is past its check.
- Two lease holders never judge the same execution as long as judges start soon
  after the checkpoint that renewed the lease: with leases of 180 seconds and
  judges that live at most 130, `CoordinatorTime.ExclusiveIff` shows that a delay
  of up to 50 seconds is the exact bound, and `CoordinatorTime.LapseDoublesJudges`
  builds the run for every longer one.
- Null as a type is not always gone after the rewriting: a union of null and one
  boolean schema, or of null and one branch with a union of its own, keeps it;
  `NullFree.NodeNullFreeIff` shows that these are the only such nodes.
- A type list that names only `null` is widened to accept everything;
  `SchemaRewrite.TypeListExactIff` shows that naming another type is the exact
  condition.
- The schema rewriter takes enum members for schemas and can lose one:
  `EnumMembers.EnumMemberLost` gives the input, and `EnumMembers.EnumWidensIff`
  the exact condition, that no object inside a member is one the rewriter changes.
- For the reserved pool provider name the two usage computations can differ;
  `ProviderUsage.SearchAgreesIff` says exactly when they agree.

## Model

| member | source | states |
|---|---|---|
| Evaluation.AdvanceFromKeeps | internal/gateway/evaluations.go:711-823 | from any index, for any answers of the cluster, a scheduling pass ends with at most max(cap, slots already taken) running and judging executions, and changes no judged or finished execution and no score |
| Evaluation.AdvanceKeeps | internal/gateway/evaluations.go:711-823 | a whole pass keeps the cap once it holds, and leaves a list with nothing queued or running as it was |
| Evaluation.NobodyWaitsBesideFreeSlot | internal/gateway/evaluations.go:719-730 | after a pass that did not stop, an execution is still queued only if all slots were taken at the moment it was looked at, for all lists and cluster answers |
| Evaluation.PassFillsSlots | internal/gateway/evaluations.go:719-745 | with nothing running and every run still to be created, a pass ends with exactly min(cap, taken + queued) slots taken, or unchanged above the cap |
| Evaluation.ObserveMeans | internal/gateway/evaluations.go:737-822 | an execution goes to judging exactly with complete evidence, which it then carries; it fails exactly when its run is gone, not its own or left no transcript; the pass stops exactly when cluster or agent cannot be reached |
| Evaluation.CancelOneMeans | internal/gateway/evaluations.go:908-948 | a cancelled execution stays open exactly while its deleted run is waited for or could not be removed, and nothing but state and message changes |
| Evaluation.RejudgeKeepsEvidence | internal/gateway/evaluations.go:401-412 | a re-judge clears verdict, score and message of every kept transcript and keeps all evidence |
| Evaluation.OccupiedUpdate | internal/gateway/evaluations.go:712-730 | replacing one execution moves the number of taken slots by exactly the difference of its own slot |
| Evaluation.RejudgeOccupies | internal/gateway/evaluations.go:401-412 | a re-judge of finished executions occupies exactly one slot per kept transcript, so it starts above the cap if and only if more transcripts than slots were kept |
| Evaluation.RejudgeMayExceedCap | internal/gateway/evaluations.go:401-412 | for every cap there are finished executions whose re-judge exceeds it |
| EvaluationEngine.Engine.CountActive | internal/gateway/evaluations.go:712-718 | the counting loop returns the number of running and judging executions |
| EvaluationEngine.Engine.AdvanceRuns | internal/gateway/evaluations.go:711-823 | the in-place pass with its separately maintained counter equals the pass defined with the true number of taken slots, on every branch and early return |
| EvaluationEngine.Engine.Examine | internal/gateway/evaluations.go:737-822 | each branch after admission gives the specified execution and releases its slot exactly when the execution no longer occupies one |
| EvaluationEngine.Engine.Cancel | internal/gateway/evaluations.go:908-948 | executions are cancelled as specified in list order up to the first run that cannot be removed, and the rest stays as it was; without such a run all are, and the evaluation becomes cancelled exactly when every execution is then terminal |
| EvaluationEngine.Engine.RequestRejudge | internal/gateway/evaluations.go:376-424 | accepted exactly for a completed evaluation with some transcript; then every kept transcript goes back to judging with its verdict cleared, otherwise nothing changes |
| EvaluationEngine.Engine.ComputeReferences | internal/gateway/evaluations.go:1281-1319 | stops exactly while something is queued or running; otherwise references exist exactly when a succeeded execution has finite non-negative metrics, and are the medians of their tokens and calls |
| EvaluationEngine.Engine.ScoreExecutions | internal/gateway/evaluations.go:1280-1364 | the in-place scoring equals the specified score of all executions against frozen or newly computed references |
| EvaluationEngine.Engine.RateExecution | internal/gateway/evaluations.go:1320-1363 | one execution gets exactly its specified efficiency and score, including the cases where it gets none or zero |
| Scoring.SortedUnique | internal/gateway/evaluations.go:1304-1318 | two sorted lists with the same elements are equal, so the median does not depend on the sort |
| Scoring.MedianOrderFree | internal/gateway/evaluations.go:1304-1318 | the median of a list is the median of every reordering of it |
| Scoring.MedianIsMedian | internal/gateway/evaluations.go:1304-1313 | the computed value is the mean of the two middle values of every sorted arrangement of the list, with at most half of the values strictly below and at most half strictly above it |
| Scoring.MetricsAre | internal/gateway/evaluations.go:1283-1303 | the metric lists hold one entry for each succeeded execution with finite non-negative metrics, and theirs alone |
| Scoring.NewReferencesAre | internal/gateway/evaluations.go:1281-1319 | references exist exactly when such an execution does, and are the medians of the multisets of their tokens and calls |
| Scoring.ReferencesOrderFree | internal/gateway/evaluations.go:1281-1319 | the references do not depend on the order of the executions |
| Scoring.MetricsPermute | internal/gateway/evaluations.go:1283-1303 | reordered executions yield reordered metric lists |
| Scoring.RateRange | internal/gateway/evaluations.go:1320-1363 | measured efficiency lies in [0,1], and the score is absent, 0 or in [60,100] |
| Scoring.RateMeans | internal/gateway/evaluations.go:1320-1363 | when an execution is measured, when it is scored and when it scores zero, and that nothing else of it changes |
| Scoring.GradeScale | internal/gateway/evaluations.go:1359-1362 | the scale runs from 60 to 100, with the exact weight of correctness, judged and measured efficiency |
| Scoring.EfficiencyScale | internal/gateway/evaluations.go:1334-1345 | costing what the references cost measures one half, costing nothing measures one, and each metric alone makes a strict difference |
| Scoring.ScoreRange | internal/gateway/evaluations.go:1280-1364 | a scoring pass keeps every execution in those ranges and the references non-negative |
| Scoring.CheaperScoresNoLower | internal/gateway/evaluations.go:1334-1362 | with fixed references, no more tokens and no more tool calls never give a lower score |
| Scoring.ScoreIgnoresOldScores | internal/gateway/evaluations.go:1320-1363 | once references can be set, the result of scoring depends on the evidence only, not on scores left from before |
| Scoring.ScoreIdempotent | internal/gateway/evaluations.go:1280-1364 | scoring twice equals scoring once |
| Coordinator.StepKeeps | internal/gateway/evaluations.go:558-701 | every action of every lease holder and its judges, every claim, save, lost reply, crash, cancel request and retry keeps the invariant of the stored row and of all holders, stale ones included |
| Coordinator.RunKeeps | internal/gateway/evaluations.go:466-701 | the invariant holds at every position of every run from a new evaluation, with any number of holders |
| Coordinator.ConcurrencyRespected | internal/gateway/evaluations.go:633-672 | until a re-judge is accepted, neither the stored evaluation nor any holder's copy ever has more running and judging executions than the cap; an excess later consists of judged executions only |
| Coordinator.RejudgeExceedsIff | internal/gateway/evaluations.go:401-412 | an accepted re-judge stores as many judging executions as transcripts were kept, above the cap if and only if those outnumber it |
| Coordinator.FinishedMeansTerminal | internal/gateway/evaluations.go:639-651 | a stored evaluation marked completed or cancelled has only terminal executions and no lease |
| Coordinator.JudgesNeverBlock | internal/gateway/evaluations.go:592-672 | a holder's live judges plus waiting results never exceed the cap, no execution has two of them, and each judge finds room in the channel; across holders see CoordinatorTime |
| Coordinator.JudgeCanFinish | internal/gateway/evaluations.go:666-671 | at every position of every run every live judge's finishing step is possible |
| Coordinator.JudgesFillSlots | internal/gateway/evaluations.go:658-672 | launching can always go on or end, and ends exactly when every judge slot is taken or every judged execution has its judge |
| Coordinator.PassOutcome | internal/gateway/evaluations.go:638-657 | after a pass the evaluation is completed exactly when every execution is terminal, and goes on to the checkpoint exactly when something is to be judged |
| Coordinator.CancellingOnlyCancels | internal/gateway/evaluations.go:558-563 | at every position of every run a holder that claimed after a cancel request has neither advanced nor a judge |
| Coordinator.CancelHonoured | internal/gateway/workflow/db/query.sql:257-264 | while a cancel request stands, every save leaves the evaluation running or cancelled |
| Coordinator.DrainFinishes | internal/gateway/evaluations.go:592-600 | in every continuation of a leaving holder, once each judge live at the start has finished, in any order and between any other steps, no judge is live and the holder can leave |
| Coordinator.LeavingOnlyDrains | internal/gateway/evaluations.go:592-600 | no step makes a leaving holder start a judge or stop leaving |
| Coordinator.BaseWasStored | internal/gateway/workflow/db/query.sql:245-264 | what a holder works from was the stored record at some earlier position |
| Coordinator.AdmissionAfterCheckpoint | internal/gateway/evaluations.go:610-657 | whenever a holder admits a queued execution, its copy equals a record stored earlier, so every judgment it received is durable; while it has the lease, its copy equals what is stored now |
| Coordinator.WriteBackLosesNothing | internal/gateway/evaluations.go:677-698 | replacing an execution by a judge's copy and scoring gives exactly what updating only the judge's fields in place and scoring would give |
| CoordinatorTime.Untimed | internal/gateway/evaluations.go:466-701 | every state of a timed run, with lease deadlines and judge timeouts, is reached by a run of the coordinator |
| CoordinatorTime.RunTimely | internal/gateway/workflow/db/query.sql:245-264 | with launches within 50 seconds of the checkpoint, at every position a holder has the lease it renewed last or the lease has run out, and every live judge ends before its holder's lease does |
| CoordinatorTime.OneHolderJudges | internal/gateway/evaluations.go:655-672 | then at most one holder has live judges at any position of any timed run |
| CoordinatorTime.LapseDoublesJudges | internal/gateway/workflow/db/query.sql:245-264 | for every longer delay, a timed run in which the lease lapses while the first holder's judge lives and a second holder judges the same execution |
| CoordinatorTime.ExclusiveIff | internal/gateway/evaluations.go:655-672 | no execution ever has live judges of two holders, in any timed run of any evaluation, if and only if the delay between a checkpoint and the launches after it is at most 50 seconds |
| CoordinatorScores.StepScores | internal/gateway/evaluations.go:1280-1364 | every step keeps grades, efficiencies and scores in range, references exact, and stored references unchanged once set |
| CoordinatorScores.ReferencesAreMedians | internal/gateway/evaluations.go:1281-1319 | at every position of every run, references that are set, stored or held, are the medians of the tokens and of the calls of the succeeded measurable executions of that very list, with nothing in it queued or running |
| CoordinatorScores.ReferencesNeverMove | internal/gateway/evaluations.go:1281-1319 | once stored, the references are the same at every later position of the run, through re-judging, cancellation and stale holders |
| CoordinatorScores.ScoresStayInRange | internal/gateway/evaluations.go:1320-1363 | at every position of every run every efficiency lies in [0,1] and every score is absent, 0 or in [60,100], in the stored row and in every copy |
| Transcript.ReadParts | internal/gateway/evaluations.go:1058-1099 | one message's parts are settled or not, with the counted tool calls and the delegated sessions in order |
| Transcript.ReadMessages | internal/gateway/evaluations.go:1024-1103 | one session's messages are read exactly when each is complete, with token, call and completion totals equal to sums over the assistant messages that count |
| Transcript.StartedIsEarliest | internal/gateway/evaluations.go:1029-1037 | with creation times other than zero the start is the earliest user message |
| Transcript.TotalCountsAll | internal/gateway/evaluations.go:1055-1057 | input, output, reasoning and both cache tokens count alike |
| Transcript.CallsCounted | internal/gateway/evaluations.go:1077-1079 | every tool call counts except the two that only report on the workflow |
| Transcript.TasksNamed | internal/gateway/evaluations.go:1080-1098 | a session is delegated exactly by a completed task that names one |
| Transcript.ChargedFromStart | internal/gateway/evaluations.go:1049-1057 | one more message is charged exactly if the assistant created it at the start or later |
| Transcript.AppendNew | internal/gateway/evaluations.go:1001-1006 | exactly the linked sessions not yet seen are appended, once each, in the order they are linked |
| Transcript.Enqueue | internal/gateway/evaluations.go:1001-1006 | on a worklist whose entries are the ones seen, no entry ever repeats |
| Transcript.ListedDone | internal/gateway/evaluations.go:970-1104 | a worklist read to its end holds exactly the reachable sessions |
| Transcript.ReadSession | internal/gateway/evaluations.go:976-1104 | one iteration succeeds exactly on a readable session, keeps the worklist closed under the links of what was read, and extends the totals |
| Transcript.ReadAll | internal/gateway/evaluations.go:970-1104 | on every finite graph the worklist ends, either at a reachable session that cannot be read or with all of them read |
| Transcript.Collect | internal/gateway/evaluations.go:956-1116 | collection succeeds if and only if every reachable session can be read and the times are ordered; the evidence then lists each reachable session exactly once with the summed tokens and calls |
| Transcript.FinishedReaches | internal/gateway/evaluations.go:1051-1107 | the latest completion is at least a time exactly when some message of some listed session ends at or after it |
| Transcript.TimesDecided | internal/gateway/evaluations.go:1105-1107 | the final time test, made on the list, is a fact about the reachable sessions alone |
| Sankey.OrderedIsAcyclic | internal/gateway/dashboard.go:1896-1915 | a topological order excludes every closed walk |
| Sankey.BackwardWalkCloses | internal/gateway/dashboard.go:1896-1915 | in a finite set where every node has a predecessor inside, there is an actual cycle |
| Sankey.Tabulate | internal/gateway/dashboard.go:1877-1895 | finds the first repeated link, or builds exactly the adjacency and in-degree maps of the link set |
| Sankey.ZeroNodes | internal/gateway/dashboard.go:1896-1901 | the initial queue holds each node of in-degree zero once |
| Sankey.VisitNode | internal/gateway/dashboard.go:1904-1911 | counting off a node's links keeps every counter equal to the remaining incoming links and the queue ordered |
| Sankey.VisitVerdict | internal/gateway/dashboard.go:1902-1915 | a full count is a topological order of all nodes, a short count leaves a cycle |
| Sankey.Visit | internal/gateway/dashboard.go:1896-1912 | the visited count equals the number of nodes exactly when the graph has no cycle |
| Sankey.ValidateLinks | internal/gateway/dashboard.go:1877-1916 | reports the first duplicate exactly when there is one, and accepts a duplicate-free list exactly when its graph is acyclic, with an order or a cycle as witness |
| DashboardPublish.ReplaceExact | internal/gateway/dashboard/db/query.sql:205-224 | the upsert followed by the conditional delete leaves exactly the new records, whatever was stored |
| DashboardPublish.ReserveWindow | internal/gateway/dashboard/db/query.sql:139-156 | succeeds exactly when the three sums stay within their maxima; then the window's counters are those sums, within the maxima, every other window and table is untouched, and on refusal everything is |
| DashboardPublish.ReserveLatest | internal/gateway/dashboard/db/query.sql:178-190 | adjusts the agent's usage exactly when the result lies in bounds, an absent row starting from the positive part |
| DashboardPublish.ReserveWindows | internal/gateway/dashboard.go:528-611 | the three reservations refuse in source order, and together charge one call to the minute and the bytes and temporal records to the day |
| DashboardPublish.Store | internal/gateway/dashboard.go:613-690 | temporal records are appended, or latest rows replaced, with their usage, exactly when the quota admits it |
| DashboardPublish.Reserve | internal/gateway/dashboard.go:528-714 | from the first reservation to the commit, either the whole effect is made or nothing changes |
| DashboardPublish.Publish | internal/gateway/dashboard.go:392-714 | the transaction equals an up-front verdict by the first failing condition, and a single combined effect if that verdict accepts; every refusal and every replay leaves the database unchanged |
| DashboardPublish.DeletedKeepsUsage | internal/gateway/dashboard/db/schema.sql:139-185 | deleting a dashboard returns exactly its stored bytes to its agent; the floor at zero never decides |
| DashboardPublish.ReplacedKeepsUsage | internal/gateway/dashboard.go:649-690 | delta accounting keeps every agent's counter equal to what its latest widgets store |
| DashboardPublish.ExpiredTotal | internal/gateway/dashboard/db/query.sql:713-739 | retention gives back exactly the rows it removed; the floor at zero never decides |
| DashboardPublish.ApplyKeeps | internal/gateway/dashboard.go:417-714 | publishes, dashboard creations and deletions, expiry of records and of idempotency rows keep all counters exact and within quota |
| DashboardPublish.RunKeeps | internal/gateway/dashboard.go:417-714 | the same after any sequence of them |
| DashboardPublish.UsageEqualsStored | internal/gateway/dashboard.go:649-690 | after any sequence, retention included, latest usage equals the bytes stored for the agent and retained records equal the rows stored, both within quota |
| DashboardPublish.WindowsWithinQuota | internal/gateway/dashboard.go:528-611 | the accepted publishes of any minute or day charge at most the quota in calls, bytes and temporal records |
| DashboardPublish.HistoryWithinQuota | internal/gateway/dashboard.go:528-611 | on the history alone: after any run an agent's records published to temporal widgets on a day, its bytes of a day and its publishes of a minute are within the quotas, and the stored counters are exactly those sums, so latest publishes charge no records |
| DashboardPublish.AcceptedIff | internal/gateway/dashboard.go:392-714 | after any run a publish is accepted if and only if its checks pass, its key is not on record, and the history of the minute and day and the stored rows leave room for it |
| DashboardPublish.AcceptedStores | internal/gateway/dashboard.go:613-690 | an accepted publish adds its records to a temporal widget or makes them exactly a latest widget's rows, and touches no other widget |
| DashboardPublish.DeletedExact | internal/gateway/dashboard/db/schema.sql:139-185 | a deleted dashboard is gone with its rows, and nothing else is |
| DashboardPublish.KeyTakesEffectOnce | internal/gateway/dashboard.go:467-499 | two accepted publishes of an agent share an idempotency key only if a clean-up removed that key between them, even when the second looked before the first committed |
| DashboardPublish.RetryReturnsOriginal | internal/gateway/dashboard.go:467-499 | until its key is cleaned up, and whatever else happened, a request under a used key changes and charges nothing; with the same body it returns the original count and time, with another body a conflict, unless an earlier check refuses it |
| ProjectDeletion.StepKeeps | internal/gateway/coding.go:428-560 | every database, lock or engine action keeps the lock table, the deleter's list and the seal |
| ProjectDeletion.RunKeeps | internal/gateway/coding.go:428-560 | the same at every position of every run |
| ProjectDeletion.RemovalGuarded | internal/gateway/coding.go:503-545 | files are removed only while the deleter holds the project lock exclusively and the delete lock, with every recorded checkout marked and in its list, and nobody else past a check |
| ProjectDeletion.RowsOfOneAgent | internal/gateway/coding.go:546-549 | the row deletion drops exactly the checkouts of the agent whose files were removed and leaves every other as it was |
| ProjectDeletion.RowsGoAfterFiles | internal/gateway/coding.go:524-553 | after the second mark a checkout's row goes only by a deleter that removed the files of that checkout's own agent before |
| ProjectDeletion.ProjectGoesAfterFiles | internal/gateway/coding.go:503-560 | a project goes only when the files of every checkout on the list its deleter read under the lock were removed since, each on its own agent |
| ProjectDeletion.MarksRespected | internal/gateway/coding.go:1331-1340 | a marked checkout is passed by a Git remove alone: no other Git operation and no prompt passes on it, no prepare selects it |
| ProjectDeletion.GitRemoveEnds | internal/gateway/coding.go:1364-1394 | a Git remove ends with its checkout's row gone or its mark cleared, and touches no other checkout |
| ProjectDeletion.NothingAdmittedAfterSecondMark | internal/gateway/coding.go:503-560 | after the second mark no prompt, prepare or mutating Git operation passes its check for the rest of the run |
| ProjectDeletion.SealedStable | internal/gateway/coding.go:637-664 | once everything is marked and nobody past a check can unmark, no step undoes that |
| ProjectDeletion.SecondMarkSeals | internal/gateway/coding.go:503-514 | the mark written under the exclusive lock seals the project |
| ProjectDeletion.FirstMarkExact | internal/gateway/coding.go:465-470 | after the mark written without the lock, no continuation of the run lets anybody pass a check if and only if no worker past its check can reopen a checkout when it is written |
| ProjectDeletion.ReopensLater | internal/gateway/coding.go:664-830 | from every reachable state with such a worker there is a continuation in which a prompt passes its check |
| ProjectDeletion.BarredStable | internal/gateway/coding.go:1297-1384 | once no checkout is open and no worker can reopen one, no step changes that and no check passes |
| ProjectDeletion.FirstMarkStopsMutations | internal/gateway/coding.go:637-664 | from the first mark to the end of every run, no prepare and no mutating Git operation passes its check, and a prompt only while some checkout is ready and unmarked |
| ProjectDeletion.FirstMarkInsufficient | internal/gateway/coding.go:1701-1728 | a concrete run: a failing Git remove clears the mark and a prompt is admitted although the project is being deleted |
| ProjectDeletion.HolderIsAlone | internal/gateway/coding.go:1910-1962 | while one worker holds the project lock exclusively, no other is past its check |
| SessionAncestry.Query | internal/gateway/db/query.sql:2844-2860 | on every parent graph, cycles included, returns a bound ancestor's checkout or shows that there is none |
| SessionAncestry.StoreChildren | internal/gateway/coding.go:1535-1546 | the catalogue is what storing the children one after the other from the top of the walk down makes of it: all of them, or those above the first one refused |
| SessionAncestry.StoredTopDown | internal/gateway/coding.go:1535-1546 | in that order each child follows its parent, the first one the resolved ancestor |
| SessionAncestry.CataloguedResolves | internal/gateway/coding.go:1478-1549 | once the walked children are stored, the catalogue alone resolves the session to the same checkout |
| SessionAncestry.Finish | internal/gateway/coding.go:1530-1547 | gives up exactly when a walked child lies outside the resolved checkout, before storing any; otherwise the children are stored top down onto what was there |
| SessionAncestry.FinishAtRoot | internal/gateway/coding.go:1507-1547 | a parentless root is stored and bound first, unless it is bound to somebody else's checkout, when it does not resolve and no child is stored; a refusal stores nothing, and children follow only with the root resolved and all of them in its checkout |
| SessionAncestry.ResolveSession | internal/gateway/coding.go:1478-1549 | the walk ends on every finite graph; a session the catalogue resolves is found at once with nothing stored; in every outcome the catalogue is the logged stores applied in order; children are stored only after the walk reached an ancestor that resolves to the checkout they all lie in, each after its parent; a store fails only where the walk's root or its next child is refused; nothing is found only if the walk closed, left the engine's sessions, ended at somebody else's root or a child lies elsewhere |
| CredentialRotation.StepKeeps | internal/gateway/inference.go:1157-1339 | updates, lost replies, rejections and cleaners keep the invariant over both stores |
| CredentialRotation.RunKeeps | internal/gateway/inference.go:1157-1339 | the same at every position of every run |
| CredentialRotation.CommittedCredentialExists | internal/gateway/inference.go:1157-1339 | an authenticating provider's credential path always exists and is on no superseded list, nor on one a cleaner read earlier |
| CredentialRotation.ReplacedPathListed | internal/gateway/inference.go:1291-1316 | whenever a committed object moves to another path or stops authenticating, the path it leaves is on its superseded list, with all that was listed before |
| CredentialRotation.ClearedListWasRead | internal/controller/inferenceprovider/reconciler.go:373-390 | only a cleaner that read that very object empties the list |
| CredentialRotation.RejectionCleansUp | internal/gateway/inference.go:1318-1324 | after a rejected rotation the new secret can be removed and is then gone |
| CredentialRotation.RemovedPathNeverPublished | internal/gateway/inference.go:1294-1339 | a path an update removes after an authoritative rejection is referred to by no committed object, before or after |
| CredentialRotation.DeadFrom | internal/controller/inferenceprovider/reconciler.go:373-390 | a path that no pending write can publish is never published later |
| OAuthTicket.StepKeeps | internal/gateway/inference.go:2161-2277 | issue, read, check, claim, lost reply and metadata deletion keep the invariant |
| OAuthTicket.RunKeeps | internal/gateway/inference.go:2161-2277 | the same at every position of every run |
| OAuthTicket.ConsumedAtMostOnce | internal/gateway/inference.go:2161-2277 | in every interleaving a ticket is consumed successfully at most once |
| OAuthTicket.SuccessWasChecked | internal/gateway/inference.go:2190-2277 | a successful claim replaced the very version that was checked, no later than the claim: the caller knew the secret, in time, as the tenant and user of the ticket, for a provider of its kind, unchanged if the ticket names one, with none but its models |
| OAuthTicket.RightfulCanClaim | internal/gateway/inference.go:2190-2277 | from every reachable state with the ticket unclaimed, a request that meets the checks can succeed |
| OAuthTicket.LateWriterFails | internal/gateway/inference.go:2249-2275 | a request can no longer claim once any competing claim was applied, its reply lost or not, or the metadata was deleted |
| TokenRefresh.StepKeeps | internal/extauth/inference.go:223-302 | every step of proxy and gateway refreshers keeps the invariant |
| TokenRefresh.RunKeeps | internal/extauth/inference.go:223-302 | the same at every position of every run |
| TokenRefresh.NoRotationLost | internal/gateway/inference.go:1001-1066 | every stored version descends from every earlier one by one refresh per version, whichever process made it |
| TokenRefresh.AnswersAreStored | internal/extauth/inference.go:223-302 | every record handed out is the content of a stored version, of the provider's kind, not blank, and without expiry or good for another minute when it was found |
| TokenRefresh.MutexExcludes | internal/extauth/inference.go:245-302 | at most one proxy request is inside the refresh section |
| ProviderUsage.UniqueMembers | internal/gateway/inference.go:365-370 | the loop keeps a pool's members, repeated ones once, in order |
| ProviderUsage.IndexMembers | internal/gateway/inference.go:364-376 | they are appended under the pool's name, and other names keep their lists |
| ProviderUsage.IndexPool | internal/gateway/inference.go:364-376 | the index then lists exactly what it listed and the members of that pool |
| ProviderUsage.IndexPools | internal/gateway/inference.go:363-376 | the index lists a provider under a name exactly when a pool of that name has it |
| ProviderUsage.AddSandbox | internal/gateway/inference.go:384-403 | adds one sandbox to exactly the providers it refers to directly or through a pool |
| ProviderUsage.BuildUsage | internal/gateway/inference.go:363-404 | for every provider the index holds exactly the sandboxes that use it |
| ProviderUsage.FindUsage | internal/gateway/inference.go:1641-1669 | the search for one provider returns exactly the sandboxes its test matches |
| ProviderUsage.SearchAgreesWithIndex | internal/gateway/inference.go:1641-1669 | for every provider but the reserved name both computations give the same sandboxes |
| ProviderUsage.ReservedNameDiverges | internal/gateway/inference.go:1641-1669 | for the reserved name the search returns every sandbox that uses any pool, a superset that can be strict |
| ProviderUsage.SearchAgreesIff | internal/gateway/inference.go:1641-1669 | with unique names both computations agree if and only if the provider is not the reserved name or every sandbox that uses a pool uses one that lists that name |
| ProviderUsage.CountsSandboxes | internal/gateway/inference.go:363-404 | with unique names the number of listed names is the number of sandboxes |
| AgentQuota.Measure | internal/agentquota/quota.go:68-84 | the accumulated usage is the wrapped count and the exact sums of effective requests |
| AgentQuota.RequestWins | internal/agentquota/quota.go:86-101 | a request wins over a limit, a limit counts where no request is given, and nothing counts for nothing |
| AgentQuota.AddMeasures | internal/agentquota/quota.go:152-159 | adding a prospective agent equals measuring the extended list, wrap-around included |
| AgentQuota.SumPermutes | internal/agentquota/quota.go:68-84 | resource sums do not depend on the order of the list |
| AgentQuota.FitsWithout | internal/agentquota/quota.go:68-84 | removing an agent keeps a list within quota |
| AgentQuota.CheckExact | internal/agentquota/quota.go:152-168 | within quota, the check refuses exactly when the extended list would not fit |
| AgentQuota.CountCheckExactIff | internal/agentquota/quota.go:152-168 | the wrapped counter check is exact for all counts if and only if the quota is below the largest int32 |
| AgentQuota.StatusAddsUp | internal/agentquota/quota.go:170-205 | taken plus available equals the limit in a dimension exactly when it is not exceeded |
| AgentQuota.StepKeeps | internal/gateway/agents.go:376-541 | creation, compensation, failure and deletion keep the quota and the lock discipline |
| AgentQuota.RunKeeps | internal/gateway/agents.go:376-541 | the same at every position of every run |
| AgentQuota.QuotaNeverExceeded | internal/gateway/agents.go:376-541 | in every run live agents stay within a fixed count, CPU and memory quota |
| SchemaRewrite.SplitNullableUnion | hack/openapi/generate_opencode_gateway.go:803-821 | returns the branches that are not null schemas, in order, and whether there was a null schema |
| SchemaRewrite.SamePrimitiveUnion | hack/openapi/generate_opencode_gateway.go:841-870 | finds a type exactly when all branches share one primitive type |
| SchemaRewrite.Node.RewriteNullable | hack/openapi/generate_opencode_gateway.go:746-801 | the in-place node rewriting equals the specified split of unions and type lists |
| SchemaRewrite.Node.RewritePrimitiveUnion | hack/openapi/generate_opencode_gateway.go:823-839 | the in-place collapsing equals its specification |
| SchemaRewrite.RewriteKeywords | hack/openapi/generate_opencode_gateway.go:702-744 | rewriting node by node and then the children equals the specified tree |
| SchemaRewrite.SplitWidens | hack/openapi/generate_opencode_gateway.go:746-771 | splitting null out of a union, merging a single branch included, refuses no accepted value |
| SchemaRewrite.SplitNarrows | hack/openapi/generate_opencode_gateway.go:746-771 | and accepts no new one when nothing constrains values beside the union and null branches say only null |
| SchemaRewrite.SplitTypesWidens | hack/openapi/generate_opencode_gateway.go:773-801 | splitting null out of a type list refuses no accepted value |
| SchemaRewrite.TypeListExactIff | hack/openapi/generate_opencode_gateway.go:773-801 | it accepts exactly the same values if and only if the list names another type |
| SchemaRewrite.CollapseWidens | hack/openapi/generate_opencode_gateway.go:823-839 | collapsing a union of one primitive type refuses no accepted value |
| SchemaRewrite.RewriteWidens | hack/openapi/generate_opencode_gateway.go:702-870 | for every schema tree over type, enum, anyOf, items and properties whose enum members hold no object the rewriter changes, every value accepted before the rewriting is accepted after it |
| SchemaRewrite.RewriteExact | hack/openapi/generate_opencode_gateway.go:702-870 | on such trees whose nodes meet the stated local conditions the rewriting accepts exactly the same values |
| NullFree.NodeNullFreeIff | hack/openapi/generate_opencode_gateway.go:746-801 | after its rewriting no type list of a node names null, and its union has a null branch exactly when it was a union of null and one branch that cannot be merged or brings such a union itself |
| NullFree.RewriteNullFree | hack/openapi/generate_opencode_gateway.go:702-870 | in a tree without such nodes, no union and no type list anywhere has null after the rewriting |
| NullFree.NodeCollapsed | hack/openapi/generate_opencode_gateway.go:823-839 | no union of one primitive type is left, and its type is the node's |
| NullFree.MarkedIff | hack/openapi/generate_opencode_gateway.go:746-801 | a node is marked nullable exactly when null was split out of its union or type list |
| EnumMembers.EnumWidensIff | hack/openapi/generate_opencode_gateway.go:735-743 | for a schema that only lists values, none is lost if and only if no object inside a listed value is one the rewriter changes |
| EnumMembers.EnumMemberLost | hack/openapi/generate_opencode_gateway.go:735-743 | the listed value with a type list is accepted before the rewriting and not after it |
| EnumMembers.FixedIff | hack/openapi/generate_opencode_gateway.go:702-744 | the rewriting leaves a tree as it is if and only if no object in it is changed by its own steps |
| EnumMembers.RewriteLighter | hack/openapi/generate_opencode_gateway.go:702-870 | a tree that the rewriting changes gets strictly lighter, so rewriting never comes back to a tree it left |
| RefRewrite.RefInjective | hack/openapi/generate_opencode_gateway.go:519-541 | a reference string determines its bucket and component name |
| RefRewrite.BuildRefMap | hack/openapi/generate_opencode_gateway.go:519-541 | exactly the references to upstream components are mapped, each to its prefixed name |
| RefRewrite.RewriteReferences | hack/openapi/generate_opencode_gateway.go:543-560 | the traversal replaces each mapped string that is the value of a key, once, and nothing else |
| RefRewrite.RewriteAt | hack/openapi/generate_opencode_gateway.go:543-560 | every place of the tree holds after the rewriting what it held before, up to the references inside |
| RefRewrite.PrefixBucket | hack/openapi/generate_opencode_gateway.go:674-681 | the namespaced bucket holds the same entries under prefixed names, as many as before |
| RefRewrite.MergeComponents | hack/openapi/generate_opencode_gateway.go:562-586 | each of the nine buckets becomes the base's entries overlaid with the extra ones; other keys stay |
| RefRewrite.Generate | hack/openapi/generate_opencode_gateway.go:362-438 | reference map, rewritten document and merged components are related as the lemmas below assume |
| RefRewrite.ComponentKept | hack/openapi/generate_opencode_gateway.go:562-586 | every upstream component is found in the merged document under its prefixed name, rewritten |
| RefRewrite.BaseKept | hack/openapi/generate_opencode_gateway.go:562-586 | every component of the base stays as it is unless its name carries the prefix |
| RefRewrite.BucketsComplete | hack/openapi/generate_opencode_gateway.go:519-531 | the buckets are the nine component kinds of OpenAPI 3.0 |
| RefRewrite.ReferencesResolve | hack/openapi/generate_opencode_gateway.go:362-438 | if every upstream component reference names a component, then every component reference of the rewritten document stands where an original one stood and resolves to the rewritten copy of its target |
| RefRewrite.ReferencesKept | hack/openapi/generate_opencode_gateway.go:543-560 | every string value keeps its place, renamed if mapped and unchanged otherwise |
| RefRewrite.ResolvesUnique | hack/openapi/generate_opencode_gateway.go:519-541 | a reference resolves to one target only |
| ChatEvents.BroadcastReachesWorkspace | internal/gateway/chat.go:1027-1032 | for a workspace without a slash, the prefix test selects exactly the keys of that workspace |
| ChatEvents.CancelInert | internal/gateway/chat.go:1009-1020 | cancelling a watcher that is gone changes nothing |
| ChatEvents.CancelIdempotent | internal/gateway/chat.go:1009-1020 | cancelling twice equals cancelling once |
| ChatEvents.AlwaysSound | internal/gateway/chat.go:994-1042 | every sequence of subscribe, publish, receive and cancel keeps hub and channels consistent |
| ChatEvents.NoNotificationLost | internal/gateway/chat.go:1024-1042 | a live watcher with a matching publish since its last receive has a non-empty channel |
| ChatEvents.NeverSendsOnClosed | internal/gateway/chat.go:1024-1042 | whatever a publish reaches is an open channel |
| ChatEvents.ReceivesIncrease | internal/gateway/chat.go:1024-1042 | each received revision is larger than the one received before |
| ChatEvents.BroadcastExact | internal/gateway/chat.go:1024-1042 | a workspace-wide publish makes exactly that workspace's watchers due |
| ChatEvents.KeyedPublishExact | internal/gateway/chat.go:1027-1032 | a publish to a scope with a slash makes exactly that key's watchers due |
| ChatEvents.PublishOffers | internal/gateway/chat.go:1033-1040 | an unread revision stays, an empty channel of a reached watcher gets the revision after its last, other channels get nothing |
| ChatEvents.ChatSessionEvents.Subscribe | internal/gateway/chat.go:994-1007 | files a new open channel holding revision 0 under the key, everything else unchanged |
| ChatEvents.ChatSessionEvents.Cancel | internal/gateway/chat.go:1009-1020 | removes and closes the watcher if it is still filed |
| ChatEvents.ChatSessionEvents.Notify | internal/gateway/chat.go:1033-1040 | every watcher of one key moves to its next revision, which is sent if its channel is empty and dropped if an unread one is waiting |
| ChatEvents.ChatSessionEvents.Publish | internal/gateway/chat.go:1024-1042 | exactly the watchers of matching keys are offered their next revision; nothing else changes |

## Left out

- HTTP decoding and response writing, error mapping, server-sent events, reverse proxies, CLI wiring and the web code.
- Postgres, Kubernetes and OpenBao themselves: their operations are atomic steps with the contracts given above. SHA-256, JWT, AES-GCM and JSON encoding are opaque.
- Floating point: scores, metrics and token totals are real numbers, with one extra value for NaN and the infinities.
- Evaluation: messages, times, durations and judge text beyond what the states depend on; deleting an evaluation; the runs in the cluster themselves, so the cap is about the stored evaluation and each holder's copy.
- Coordinator.JudgesNeverBlock: per lease holder; across holders it depends on time (CoordinatorTime.ExclusiveIff).
- CoordinatorTime.ExclusiveIff: one clock for the database and the processes; a judge ends within its two-minute timeout and ten seconds of clean-up.
- Coordinator.DrainFinishes: that each judge does finish is its two-minute timeout.
- Coordinator.AdmissionAfterCheckpoint: a judgment that its judge has finished but that still waits in the channel is not stored yet; its execution stays in judging.
- Dashboards: record validation other than Sankey links, query quotas and leases, interning of Sankey nodes, clean-up of old windows, and the temporal byte counter.
- DashboardPublish.RetryReturnsOriginal: the stored digest does not cover the path, so a same-body request to another widget of the agent is answered as a replay too.
- Coding: unlocked Git reads, adoption of existing worktrees, and generation that continues after an asynchronous prompt returned.
- Inference: creating and deleting providers, guardrails and catalogues. `CredentialRotation` starts from a created provider.
- AgentQuota.QuotaNeverExceeded: for a fixed quota with a count below 2147483647, the largest int32, where the code's counter wraps.
- SchemaRewrite.RewriteWidens: schemas without oneOf, patternProperties, prefixItems and exclusiveMinimum, whose rewriting is not modelled or can narrow, and without nullable, which is no 3.1 keyword; type lists hold strings; after the rewriting nullable is read as "null is also accepted" (section 4.7.24 of OpenAPI Specification 3.0.3).
- SchemaRewrite.RewriteExact: one direction only; outside its conditions a tree may still happen to be exact.
- SchemaRewrite.RewriteKeywords: children are rewritten as values and put back into the node, so sharing of subtrees between places is not captured.
- RefRewrite.RewriteReferences: the same; the tree is rebuilt as a value.
- RefRewrite.Generate: moving paths under the gateway prefix, the added agent parameter, security, tags and the route manifest.
- ChatEvents: the database listener that feeds the hub, and the grouping of sessions.
- Cedar authorization, inheritance of selections, MCP probing, delegation and event-trail views.
