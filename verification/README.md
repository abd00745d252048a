# KEE verification model

A Dafny model of the parts of KEE that decide what an organisation's memory may learn, with
proofs of what those parts keep over whole runs.

**The governed experience lifecycle.** An actor's handoff is distilled into candidate claims
(`Learning`), the claims are reconciled into a hash-chained memory (`Reconciler`,
`Normalization`), and the evolution worker replays an append-only event log to evaluate each
revision (`Evaluator`), plan practice (`Curriculum`, `Claims`), record practice runs and freeze
an artifact (`Artifacts`). `Worker` is the worker itself: a class whose `RunOnce` appends to the
log exactly what the function `RunPass` prescribes. `Lifecycle` states the per-revision
protocol that the source leaves implicit: which record may come next. `Refinement` proves that the
worker, which searches the whole log, follows that protocol whatever else the log holds and
wherever earlier passes were killed. `Guarantees` draws the conclusions for every run, `Provenance`
traces every field of the records on file to the inputs, the practice answers and the active
memory, and `Refusals` says what a pass finds in a log, and when it raises or leaves a revision alone.
`Histories` follows one revision from turn to turn, and `Restart`, `Overtaking`, `Smoothness` and
`Freezing` settle crash-restart confluence of a whole log. `Pipeline` and `Learner` join
reconciliation to freezing and to confluence, and `TwoBatches` is a log on which confluence fails.

**Canonical text.** `Canonical`, `Numbers` and `CodeUnits` print the text behind every digest and
parse it back. This is what justifies the symbolic digests of the rest of the model: a digest is the
constructor that was applied together with the content it was applied to, so equal digests
mean equal contents. That SHA-256 and the 24-character identifiers cut out of it do not
collide is an assumption.

**Idempotent operations.** `RpcReceipts` and `OperationReceipts` are the two receipt protocols as
interleaved steps of any number of processes, with crashes, beside the classes of one process.

**Stores.** `JsonStore`, `Evolution`, `Monitor` and `Memory` are classes over JSON repositories:
version chains, scan histories, and drafts applied by compare-and-swap.

`Sequences`, `Records`, `Decimals` and `Ordering` hold shared vocabulary.

## Three promises that the code does not keep, and when it does

*Crash-restart confluence.* A restarted pass leaves out every evaluated revision whose
candidates lie within some artifact's experiences, whoever's artifact that is
(src/llm_kee/experience/evolution_worker.py:442-450), while a running pass only leaves out what it froze itself.
Suppose an earlier revision's artifact holds a later revision's candidates. When a first pass is
killed right after the later revision's bootstrap verdict, before its plan, and a second one right
after the earlier revision's freeze, the later revision is never planned for or practised,
although uninterrupted it would have been. `Overtaking.Overtakes` proves that some schedule does
this. `TwoBatches.ConfluenceFails` is such a log: two broad batches that share a handoff, so that
one claim is proposed onto two memories; every revision in it is a proposal of its batch
(`TwoBatches.PostedIsLearned`). `Freezing.ConfluentIffNoneSwallowed` is the exact condition, over all
schedules and all logs on which a schedule can come to rest: no revision that will freeze
swallows a later one's candidates. Which revisions will freeze is itself read off the inputs by
`Freezing.FreezesIff`.

The logs of the learner always meet it, however many batches they hold, whatever the practice
answers and the active memory are, and are confluent even when turns raise
(`Learner.LearnerLogsAreConfluent`): an id holds the handoff it was cut from, so the claims of two
batches differ. This needs the order of cause and effect, that no memory holds a claim of
a handoff whose batch comes later; `Learner.GrownIsCausal` derives it from memory being
frozen out of earlier batches only. One broad batch on its own is confluent as well
(`Pipeline.BatchIsConfluent`), so sharing a handoff between batches is what it takes to fail.

*Monitor replay.* The latest snapshot is the one with the latest time, so a clock that goes back
separates the events from the snapshot (`Monitor.ClockGoingBack`). `Monitor.ScanReplaysIff`
says exactly when a scan keeps them together.

*A finished operation stays finished.* Callers that leave answers alone, as the command line
does, can still lose a success in two ways. A receipt that is final but no answer (failed,
interrupted) is handed out without the lock (src/llm_kee/runtime_protocol.py:146-148), so of two retries
one can write its failure over the other's success (`OperationReceipts.SuccessIsNotSticky`). And a
single caller that has stored its success still reports it inside the same `try`
(src/llm_kee/cli.py:375-386): when reporting fails or is interrupted it completes the receipt a second
time, after the lock is gone (`OperationReceipts.OneCallerLosesItsSuccess`). When the
first write itself failed, that second one can land under the hands of the next holder
(`OperationReceipts.HolderLosesItsReceipt`). `OperationReceipts.SuccessSticksIff` is the exact condition:
a success stays exactly when no caller of its key can still write, be it one that has not
yet returned from a completion, one still at work on a receipt the file no longer holds, or one
that holds, or is about to be handed, a final receipt that is no answer.

## Model

| member | source | states |
|---|---|---|
| Evaluator.TallyCounts | src/llm_kee/experience/evaluator.py:53-72 | every counter is the number of cases of the dataset with the property it is named after, in or out of the revision's scope |
| Evaluator.DecisionMeans | src/llm_kee/experience/evaluator.py:53-95 | over any dataset the decision is REJECTED exactly on foreign cases, fewer successes than the parent memory's or more than one percent negative transfer, and ACCEPTED exactly when in addition something supports the claim, nothing contradicts it and causes have a verified mechanism |
| Evaluator.OrderOfCasesIsIrrelevant | src/llm_kee/experience/evaluator.py:53-95 | permuting the cases changes neither success nor any field of the verdict except the dataset digest and the id cut from it |
| Evaluator.NoConcernsIffAccepted | src/llm_kee/experience/evaluator.py:74-95 | concerns are empty exactly when the decision is ACCEPTED |
| Evaluator.ListConcerns | src/llm_kee/experience/evaluator.py:74-86 | the list built append by append is the six concerns in order, each present exactly under its condition |
| Evaluator.EligibilityIsSafe | src/llm_kee/experience/models.py:230-239 | every evaluation passes its own validator, and an eligible one rests on same-session, promotion-eligible handoffs of all its candidates |
| Evaluator.EligibleIff | src/llm_kee/experience/evaluator.py:96-105 | over any dataset a verdict is release eligible exactly when the operation changes memory, the decision is ACCEPTED, the revision names some candidate, and for each candidate it names the handoff listed last under its handoff id is promotion eligible and same-session |
| Evaluator.EvaluatesIff | src/llm_kee/experience/evaluator.py:37-51 | a verdict is given exactly when the dataset and the handoffs are not empty, the revision's candidates are all there, of its scope and with their handoffs, and the handoffs that count are of its scope |
| Evaluator.ForeignCaseRejects | src/llm_kee/experience/evaluator.py:53-61 | every case is counted in or out of scope, out exactly when its tenant or its domain differs, and one such case rejects |
| Evaluator.VerdictRecords | src/llm_kee/experience/evaluator.py:107-136 | the verdict names its revision, scope and dataset, counts the cases and the causal claims without mechanism, and carries the latest time of its handoffs |
| Evaluator.CleanSupportKeepsAcceptance | src/llm_kee/experience/evaluator.py:53-95 | one more in-scope supporting success without counterexample or negative transfer keeps an acceptance |
| Evaluator.PracticeVerdict | src/llm_kee/experience/evolution_worker.py:415-424 | on practice cases the decision is REJECTED, NEEDS_EXPERIMENT or ACCEPTED exactly as some run failed, all passed with a causal claim, or all passed without one |
| Claims.RecoverClaim | src/llm_kee/experience/curriculum.py:32-65 | from hypotheses that hold a claim's fragments in any order, among others and with separators inside chunks, the whole payload is read back |
| Claims.ReadFragment | src/llm_kee/experience/curriculum.py:62-65 | a fragment is read back to its hash, index, total and chunk |
| Claims.FragmentLength | src/llm_kee/experience/curriculum.py:57-65 | a full fragment stays within 2048 characters exactly while its two counters use at most 934 digits |
| Curriculum.ClaimsRecovered | src/llm_kee/experience/curriculum.py:89-92 | every candidate's full payload can be read out of the plan's deduplicated hypotheses, mixed with concerns |
| Curriculum.FragmentsConcat | src/llm_kee/experience/curriculum.py:89-91 | the fragments of a list of candidates are each candidate's, one after the other |
| Curriculum.Tasks | src/llm_kee/experience/curriculum.py:144-228 | the task list built by appending is `TasksOf`, about which the next rows speak |
| Curriculum.PlanShape | src/llm_kee/experience/curriculum.py:89-228 | a plan for any candidates has one or two tasks, two exactly when deep or when something besides the claims is open, numbered from 1, retrying the target exactly at the end of a deep plan, with all claims in the first task and two calls per task in the budget |
| Curriculum.PlanTestsHypotheses | src/llm_kee/experience/curriculum.py:92-228 | the hypotheses its tasks test are exactly the plan's hypotheses |
| Curriculum.PlanTasks | src/llm_kee/experience/curriculum.py:144-228 | every task of a plan gets exactly the given fixtures, once each and in order; the first verifies exactly the sealed claims, and the last tests every hypothesis of the plan, in its order |
| Curriculum.PlanRecords | src/llm_kee/experience/curriculum.py:89-141 | what a plan takes from its evaluation, its candidates and its inputs, what its identity is cut out of, and a budget of four tasks, two calls for each task, 100000 micro-dollars and 900 seconds |
| Curriculum.UnsealedTasks | src/llm_kee/experience/curriculum.py:177-195 | without sealed claims each of the first two hypotheses, or the first one and then the retry of a deep plan, gets a task of its own |
| Curriculum.PlanSucceedsIff | src/llm_kee/experience/curriculum.py:82-141 | planning succeeds exactly on a target that is not blank, some fixtures, and distinct candidates of the evaluation's scope, with a deep target that fits its task |
| Curriculum.ClosesIff | src/llm_kee/experience/curriculum.py:257-270 | a handoff closes the run of a task exactly when it has the plan's tenant, domain and memory and is bound to the task |
| Curriculum.BatchAcceptedIff | src/llm_kee/experience/curriculum.py:285-303 | a batch is accepted exactly when tasks and runs match, every run is closed and of this plan, and the last run of a deep plan's retry passed |
| Curriculum.CompletedBatch | src/llm_kee/experience/curriculum.py:234-303 | a batch begun from a plan and closed run by run is accepted unless a deep plan's target retry failed |
| Artifacts.OrderOfEvaluationsIsIrrelevant | src/llm_kee/experience/artifact.py:31-73 | the artifact, its identity included, does not depend on the order of its evaluations |
| Artifacts.FreezesIffSound | src/llm_kee/experience/models.py:355-366 | freezing succeeds exactly on some experiences with distinct ids, all reconciled and of one scope, and some evaluations, all of that scope and of one bundle |
| Artifacts.FrozenIsValid | src/llm_kee/experience/artifact.py:31-73 | a frozen artifact passes its validator, holds exactly the snapshot, and is release eligible exactly when every evaluation behind it is |
| Normalization.NormalizedTwice | src/llm_kee/experience/reconciler.py:119-121 | normalisation is idempotent |
| Normalization.SameNormalIffSameWords | src/llm_kee/experience/reconciler.py:119-121 | two texts normalise alike exactly when they are the same words in lower case |
| Normalization.SpacingIsIrrelevant | src/llm_kee/experience/reconciler.py:119-121 | any white space may stand between two texts |
| Normalization.CaseIsIrrelevant | src/llm_kee/experience/reconciler.py:119-121 | texts with the same lower case, letter by letter, normalise alike |
| Normalization.NormalIsSingleSpaced | src/llm_kee/experience/reconciler.py:119-121 | a normal text has no white space at its ends and single blanks inside |
| Normalization.SpacesAre | src/llm_kee/experience/reconciler.py:119-121 | the characters that `split` and `strip` take for white space: those with Unicode's White_Space property and the four information separators |
| Reconciler.ReconcileBatch | src/llm_kee/experience/reconciler.py:26-45 | refuses a batch exactly when some candidate has another scope or parent; otherwise each candidate is judged against memory as its predecessors left it |
| Reconciler.ProposalMeaning | src/llm_kee/experience/reconciler.py:47-117 | NO_CHANGE exactly for a known signature, QUALIFY exactly for a new one that is contradicted, with a contradicted experience as target and all of them as conflicts, ADD otherwise; the revision is valid |
| Reconciler.NoChangeIffRephrased | src/llm_kee/experience/reconciler.py:119-129 | with the source's normalisation, a claim changes nothing exactly when memory holds one of its kind with the same words up to letter case and white space in condition, action and outcome |
| Reconciler.QualifiesIffOpposed | src/llm_kee/experience/reconciler.py:60-85 | with the source's normalisation, a claim is a QUALIFY exactly when no experience rephrases it and some has the same words in condition and action and other words in outcome, and otherwise an ADD; the conflicts are the ids of all such experiences in memory order, and the first of them is the target |
| Reconciler.ProposalRecords | src/llm_kee/experience/reconciler.py:88-116 | what a revision's id is cut out of, its scope, the memory it proposes, and which of the three reasons it gives |
| Reconciler.MemoryGrows | src/llm_kee/experience/reconciler.py:40-45 | the old memory is a prefix of the new one, which is longer by one for each memory-changing revision, in the same scope |
| Reconciler.MemoryStaysValid | src/llm_kee/experience/reconciler.py:88-93 | memory never holds a claim of another scope |
| Reconciler.ChainIsUnbroken | src/llm_kee/experience/reconciler.py:88-116 | revisions form an unbroken chain of parent and proposed hashes from the batch's memory to the result, and a link is trivial exactly for NO_CHANGE |
| Reconciler.SignaturesStayDistinct | src/llm_kee/experience/reconciler.py:52-59 | pairwise distinct signatures stay distinct |
| Reconciler.TargetsAreRemembered | src/llm_kee/experience/reconciler.py:60-79 | every QUALIFY target is already in memory and contradicts the claim |
| Reconciler.MemoryKnows | src/llm_kee/experience/reconciler.py:40-45 | afterwards memory knows the old and the new signatures, each new one once |
| Reconciler.OrderIsIrrelevant | src/llm_kee/experience/reconciler.py:40-45 | neither the order of a batch nor repeats in it decide what memory knows or how large it is |
| Reconciler.AgainChangesNothing | src/llm_kee/experience/reconciler.py:52-76 | reconciling claims with absorbed signatures again, under any parent, yields only NO_CHANGE |
| Reconciler.StepwiseFreezing | src/llm_kee/experience/evolution_worker.py:514-522 | frozen in order, each memory-changing revision of a batch passes both hash guards on the memory its predecessors left |
| Reconciler.FreezingRefinesBatch | src/llm_kee/experience/evolution_worker.py:514-531 | freezing and activating the revisions one by one ends at exactly the snapshot the batch returned |
| Reconciler.AtMostOneIsFrozen | src/llm_kee/experience/evolution_worker.py:514-522 | against one active memory at most one memory-changing revision of a batch passes both guards |
| Learning.Distill | src/llm_kee/experience/distiller.py:52-92 | one candidate for each conclusion in order, or failure exactly when some conclusion fails |
| Learning.DistilsIff | src/llm_kee/experience/distiller.py:52-92 | a handoff distils exactly when each conclusion parses, its condition, action, outcome and mechanism joined by spaces mention no restricted phrase in lower case, it gives a mechanism exactly to what is more than an association, and the evidence is there without repeats |
| Learning.NothingRestricted | src/llm_kee/experience/distiller.py:177-185 | no condition, action, outcome or mechanism of a distilled candidate mentions a restricted phrase in any letter case |
| Learning.DistilledRecords | src/llm_kee/experience/distiller.py:59-91 | what each candidate takes from its handoff and its claim |
| Learning.IdDeterminesClaim | src/llm_kee/experience/distiller.py:62-73 | an experience id determines the whole claim |
| Learning.IdsStayUnique | src/llm_kee/experience/distiller.py:59-91 | merging distilled claims never puts one id into memory twice |
| Learning.ArrivalOrderIsIrrelevant | src/llm_kee/experience/service.py:57-68 | a broad batch gives the same result for every permutation of handoffs with distinct ids |
| Learning.BroadBatchIsInOrder | src/llm_kee/experience/service.py:57-68 | a broad batch takes all its handoffs by ascending id and reconciles their claims in that order |
| Learning.DistilledConcat | src/llm_kee/experience/service.py:60-64 | the claims of a list of handoffs are each handoff's, one after the other |
| Learning.BroadBatchSucceedsIff | src/llm_kee/experience/service.py:44-63 | a broad batch succeeds exactly when it is not empty and every handoff starts from this memory and distils |
| Learning.AtomicBatch | src/llm_kee/experience/service.py:70-95 | one handoff gives one revision for each claim, chained from its parent memory to the final snapshot |
| Learning.AtomicBatchRecords | src/llm_kee/experience/service.py:70-95 | what the batch record says of its handoff, scope and memory, its claims and revisions, and the final hash |
| Learning.AtomicBatchSucceedsIff | src/llm_kee/experience/service.py:70-95 | a valid handoff makes a valid batch record exactly when it starts from this memory and distils |
| Learning.BatchIdDeterminesBatch | src/llm_kee/experience/service.py:77-95 | two batch records with one id are equal, so a retry submits the same unit |
| Worker.EvolutionWorker.BuildIndexes | src/llm_kee/experience/evolution_worker.py:376-391 | one walk over the log fills the insertion-ordered indexes |
| Worker.EvolutionWorker.FindDataset | src/llm_kee/experience/evolution_worker.py:393-425 | the cases of the first plan of the revision whose tasks are all answered, else the bootstrap case; what these cases are, the rows of `Provenance` say |
| Worker.EvolutionWorker.PractisePlan | src/llm_kee/experience/evolution_worker.py:481-510 | posts a handoff and a run for each open task that is answered, and stops at an answer that does not close its run |
| Worker.EvolutionWorker.ExperimentOn | src/llm_kee/experience/evolution_worker.py:468-511 | reuses the evaluation's plan or posts one, then practises |
| Worker.EvolutionWorker.FreezeRevision | src/llm_kee/experience/evolution_worker.py:514-531 | posts an artifact exactly behind both hash guards |
| Worker.EvolutionWorker.AdvanceRevision | src/llm_kee/experience/evolution_worker.py:459-531 | evaluates unless this dataset was evaluated, then follows the decision |
| Worker.EvolutionWorker.ReviseEach | src/llm_kee/experience/evolution_worker.py:452-531 | the loop over revisions, with its running lists and the set of frozen revisions |
| Worker.EvolutionWorker.RunOnce | src/llm_kee/experience/evolution_worker.py:433-532 | the log is extended by exactly the posts of the pass, and the records among them are counted |
| Refusals.IndexesHoldTheLatest | src/llm_kee/experience/evolution_worker.py:376-391 | for any log whatever, the indexes of evaluations, plans, runs and artifacts hold, once each, exactly the records that no later event about the same subject replaces |
| Refusals.InputsHoldTheLatest | src/llm_kee/experience/evolution_worker.py:376-391 | so do the indexes of handoffs, candidates and revisions |
| Refusals.PassStartsIff | src/llm_kee/experience/models.py:128-203 | a pass gets to its revisions exactly when no handoff, candidate or revision in the log is malformed, and otherwise raises with nothing posted |
| Refusals.PassedOver | src/llm_kee/experience/evolution_worker.py:453-457 | a revision that is NO_CHANGE, done or short of a candidate is passed over |
| Refusals.LacksHandoff | src/llm_kee/experience/evolution_worker.py:458 | a revision with a candidate whose handoff is missing raises with nothing posted |
| Refusals.FreezingMeans | src/llm_kee/experience/evolution_worker.py:514-531 | when freezing is left undone, when it raises, and when it posts an artifact |
| Refusals.AcceptedAre | src/llm_kee/experience/evolution_worker.py:523 | an artifact rests on all the accepted evaluations of its revision and on no others |
| Lifecycle.BootstrapNeedsExperiment | src/llm_kee/experience/evolution_worker.py:393-404 | the author's own result never suffices: the bootstrap verdict is always NEEDS_EXPERIMENT |
| Lifecycle.BroadPlanHasTwoTasks | src/llm_kee/experience/evolution_worker.py:472-476 | every plan the worker builds has exactly two tasks, named after the evaluation it answers |
| Lifecycle.PracticeIsNotBootstrap | src/llm_kee/experience/evolution_worker.py:406-425 | a practice dataset is never mistaken for the bootstrap dataset |
| Lifecycle.NextKeepsShape | src/llm_kee/experience/evolution_worker.py:452-531 | the protocol keeps a revision's history well formed: at most two evaluations and plans, the second on the first plan's practice, every run from a task of a plan, an artifact only on an acceptance |
| Refinement.AdvanceLocal | src/llm_kee/experience/evolution_worker.py:459-531 | searching the whole log finds what the revision's own records hold |
| Refinement.AdvanceFollows | src/llm_kee/experience/evolution_worker.py:459-531 | a turn posts the protocol's next records in order, and what is left to do when it does not raise |
| Refinement.StepKeepsInv | src/llm_kee/experience/evolution_worker.py:376-391 | every legal post keeps all histories well formed, and reloading the log sees exactly what was posted |
| Refinement.TurnsAreLegal | src/llm_kee/experience/evolution_worker.py:452-531 | every post of a pass is, when it is posted, the next record of some revision |
| Guarantees.KilledIsLegal | src/llm_kee/experience/evolution_worker.py:433-532 | so is every post of a pass killed anywhere |
| Guarantees.RunsAreSound | src/llm_kee/experience/evolution_worker.py:433-532 | every log reachable by arriving inputs and killed passes, each with its own answers and active memory, is well formed |
| Guarantees.ChangesAreNewRecords | src/llm_kee/experience/evolution_worker.py:433-532 | the number a pass returns is by how many records the reloaded log has grown |
| Guarantees.AtMostEightRecords | src/llm_kee/experience/evolution_worker.py:406-425 | over any run a revision has at most eight evaluations, plans, runs and artifacts, and none after the eighth |
| Guarantees.FrozenMemoryWasPractised | src/llm_kee/experience/evolution_worker.py:512-531 | in every reachable log each artifact belongs to a revision with a fully practised plan, every run of it PASS, only associations claimed, and an ACCEPTED evaluation of that practice in the log |
| Guarantees.OnlyActiveMemoryIsExtended | src/llm_kee/experience/evolution_worker.py:514-531 | a pass freezes only revisions whose parent is the active memory, onto exactly that memory, with its artifact as parent and the worker's schema and retrieval version |
| Provenance.FirstVerdictIsTheAuthors | src/llm_kee/experience/evolution_worker.py:393-404 | in every reachable log the first verdict on a revision counts one case in scope that neither supports nor refutes, and that both memories won exactly when the first claim's handoff passed |
| Provenance.SecondVerdictIsThePractice | src/llm_kee/experience/evolution_worker.py:406-425 | the second verdict counts the two runs of the first plan: each passed run supports and wins, each other one refutes and harms, and the parent memory wins both |
| Provenance.PlansAskForPractice | src/llm_kee/experience/evolution_worker.py:468-480 | every plan on file names its revision's candidates and parent memory, answers its evaluation, has two tasks over exactly the evidence of the claims, and the fixed budget |
| Provenance.RunsAreAnswered | src/llm_kee/experience/evolution_worker.py:481-510 | in every reachable log, wherever passes were killed, each run stands right behind the posted handoff whose verdict, hashes, id and time it carries, which has the run's scope and memory and is bound to its task |
| Provenance.EligibleMemoryIsFirstHand | src/llm_kee/experience/evaluator.py:96-105 | in every reachable log an artifact is release eligible exactly when the handoffs behind the claims it adds are all promotion eligible and same-session, and it is dated by the latest of them |
| Histories.ChainExtends | src/llm_kee/experience/evolution_worker.py:452-531 | a revision's uninterrupted history grows one protocol record at a time |
| Histories.PartOfTurn | src/llm_kee/experience/evolution_worker.py:459-531 | what a turn killed anywhere has kept |
| Histories.TurnAgain | src/llm_kee/experience/evolution_worker.py:459-531 | past the first practice, a whole turn that did not raise leaves a history whose next turn does not raise either |
| Histories.RaiseAgain | src/llm_kee/experience/evolution_worker.py:459-531 | a turn that raises leaves a history with no next record whose next turn raises again |
| Histories.NoTurnRaises | src/llm_kee/experience/evolution_worker.py:459-531 | when the uninterrupted history ends without an error, no turn on the way there raises, wherever it was killed before |
| Restart.AheadKept | src/llm_kee/experience/evolution_worker.py:452-531 | wherever a pass is killed, an earlier revision stays at least as far as a later one |
| Restart.Confluence | src/llm_kee/experience/evolution_worker.py:433-532 | without overtaking, every schedule of killed passes that comes to rest leaves each revision its uninterrupted history |
| Restart.MissingHandoffBlocks | src/llm_kee/experience/evolution_worker.py:455-458 | behind a revision with a missing handoff no later revision gets a record on any schedule, and none comes to rest |
| Smoothness.SmoothIsSturdy | src/llm_kee/experience/evolution_worker.py:452-531 | with everything in scope, valid answers and an extensible memory, stated on the inputs, every outcome rests |
| Overtaking.RestsIffSturdy | src/llm_kee/experience/evolution_worker.py:433-532 | without overtaking, some schedule comes to rest exactly when (`Sturdy`) every revision is passed over, being NO_CHANGE or short of a candidate, or has its handoffs and an uninterrupted history that ends without an error |
| Overtaking.TwoPassesFinish | src/llm_kee/experience/evolution_worker.py:433-532 | on `Sturdy` inputs, from any log that they lead to, two passes that are not killed leave the worker nothing to do |
| Overtaking.UninterruptedFinishes | src/llm_kee/experience/evolution_worker.py:433-532 | on `Sturdy` inputs two uninterrupted passes from a fresh log bring every revision to its outcome |
| Overtaking.Overtakes | src/llm_kee/experience/evolution_worker.py:442-454 | on `Sturdy` inputs a revision whose candidates an earlier one freezes is left without a plan for good by some schedule, although its uninterrupted history has one |
| Overtaking.ConfluentIff | src/llm_kee/experience/evolution_worker.py:433-532 | on `Sturdy` inputs every schedule that comes to rest agrees with the uninterrupted one exactly when no outcome of an earlier revision holds a later one's candidates |
| Freezing.FreezesIff | src/llm_kee/experience/evolution_worker.py:512-531 | a revision ends frozen exactly when its first plan passes every task, it claims only associations, both guards hold and no turn of it raises |
| Freezing.ConfluentIffNoneSwallowed | src/llm_kee/experience/evolution_worker.py:433-532 | on `Sturdy` inputs, the condition of `Overtaking.ConfluentIff` read off the practice answers, the kind of the claims and the active memory |
| TwoBatches.PostedIsLearned | src/llm_kee/experience/service.py:40-68 | the revisions of the witness log are exactly those of two broad batches, of one handoff and of that handoff and another |
| TwoBatches.ConfluenceFails | src/llm_kee/experience/evolution_worker.py:442-454 | on that log crash-restart confluence fails |
| TwoBatches.FirstAloneIsFrozen | src/llm_kee/experience/evolution_worker.py:433-532 | with the first of the two batches alone, two passes freeze its claim and nothing is left to do |
| Pipeline.BatchRevisionFreezesIff | src/llm_kee/experience/evolution_worker.py:512-531 | a batch's revision, met on its parent memory, is frozen exactly when practice passes, it claims no cause and no turn of it raises, and then yields the batch's next memory |
| Pipeline.BatchNeverOvertakes | src/llm_kee/experience/reconciler.py:40-117 | in a log of one learned batch no outcome holds a later revision's claim, for any practice answers and any active memory |
| Pipeline.BatchIsConfluent | src/llm_kee/experience/evolution_worker.py:433-532 | such a log is confluent: every schedule that comes to rest leaves each revision its uninterrupted history, whether or not turns raise |
| Learner.LearnerNeverOvertakes | src/llm_kee/experience/worker.py:160-176 | in a log of any number of atomic batches of distinct handoffs, each built on the memory active at its time, no outcome holds a later revision's claim |
| Learner.LearnerLogsAreConfluent | src/llm_kee/experience/evolution_worker.py:433-532 | every such log is confluent, whether or not turns raise |
| Learner.GrownIsCausal | src/llm_kee/experience/worker.py:160-176 | when each memory was frozen out of an earlier batch or knows nothing of the log, none holds a claim of a later handoff |
| Numbers.RangeByPoint | src/llm_kee/experience/hashing.py:25-26 | the test 1e-6 <= abs(x) < 1e21 is a test of where the decimal point stands |
| Numbers.NumberIsEcma | src/llm_kee/experience/hashing.py:18-38 | the rewriting of `repr` gives the layout of section 3.2.2.3 of RFC 8785 for every float |
| Numbers.ReadEcma | src/llm_kee/experience/hashing.py:18-38 | that layout is read back to the same sign, digits and point: the value is kept |
| Numbers.WholeIsEcma | src/llm_kee/experience/hashing.py:19-20 | an integer below 1e21 is laid out as the float of the same value |
| CodeUnits.BytesCompareAsUnits | src/llm_kee/experience/hashing.py:57 | sorting by UTF-16BE bytes is sorting by UTF-16 code units, as in section 3.2.3 of RFC 8785 |
| CodeUnits.PairsStandForCharacters | src/llm_kee/experience/hashing.py:57 | one unit for a character of the basic plane, a surrogate pair for any other |
| CodeUnits.KeysAreDistinct | src/llm_kee/experience/hashing.py:57 | different names never compare as equal |
| Canonical.ReadQuoted | src/llm_kee/experience/hashing.py:49-50 | an escaped text is read back by a reader that takes only the spelling of section 3.2.2.2 of RFC 8785: no raw control character, and `\u00xx` only where there is no escape of two characters |
| Canonical.ReadsOnlyQuoted | src/llm_kee/experience/hashing.py:49-50 | that reader takes a text from its canonical spelling and from no other |
| Canonical.ParseBack | src/llm_kee/experience/hashing.py:40-60 | in any context a parser recovers from canonical text exactly the value it was printed from |
| Canonical.TextsEqualIff | src/llm_kee/experience/hashing.py:40-60 | two texts are equal exactly when the values are equal up to dictionary order and 1 against 1.0 |
| Canonical.EqualTextsEqualValues | src/llm_kee/experience/hashing.py:40-60 | equal texts mean equal values, integers of any size included |
| Canonical.InsertionOrderIsIrrelevant | src/llm_kee/experience/hashing.py:54-58 | the order in which a dictionary was filled does not reach the text |
| Canonical.NamesAscendByUnits | src/llm_kee/experience/hashing.py:57-58 | names are written in the order of their code units |
| RpcReceipts.StepKeepsInv | src/llm_kee/rpc.py:89-153 | a lock is held by exactly the call inside the block, and every answer given or underway is on file |
| RpcReceipts.RunKeepsInv | src/llm_kee/rpc.py:100-111 | a receipt once written never changes |
| RpcReceipts.OneCommitPerKey | src/llm_kee/rpc.py:89-153 | in any interleaving with failures and crashes the responses for a key share one input hash and one output, and at most one of them is not replayed |
| RpcReceipts.RetrySucceeds | src/llm_kee/rpc.py:119-153 | once its key is unlocked, a new call left alone answers from the receipt or does the work and leaves one |
| RpcReceipts.EndedCallsHoldNothing | src/llm_kee/rpc.py:114-116 | when every call has ended, crashed ones included, no lock is held |
| RpcReceipts.ReceiptStore.Claim | src/llm_kee/rpc.py:89-116 | held key, other input, receipt or new work, with the lock kept exactly in the last two cases |
| RpcReceipts.ReceiptStore.Invoke | src/llm_kee/rpc.py:119-153 | one call alone does what its moves do, and its lock is free however it ends |
| OperationReceipts.OperationReceiptStore.Acquire | src/llm_kee/runtime_protocol.py:178-185 | fails exactly when any store holds the key, and then holds nothing new |
| OperationReceipts.OperationReceiptStore.Release | src/llm_kee/runtime_protocol.py:187-191 | gives back this store's lock and no other |
| OperationReceipts.OperationReceiptStore.Begin | src/llm_kee/runtime_protocol.py:139-160 | comes back with the lock exactly when the receipt is running, and otherwise, a failed write included, leaves every lock as it was |
| OperationReceipts.OperationReceiptStore.Complete | src/llm_kee/runtime_protocol.py:162-170 | if the disk takes it, the file has the given status, output and time with the operation, input hash and start of the receipt; the lock is given back either way |
| OperationReceipts.OperationReceiptStore.Interrupt | src/llm_kee/runtime_protocol.py:172-173 | completes as interrupted |
| OperationReceipts.OperationReceiptStore.RunStreamed | src/llm_kee/cli.py:356-386 | one command replays an answer on file, and otherwise does the work and puts its outcome on file |
| OperationReceipts.OperationReceiptStore.RunTwice | src/llm_kee/cli.py:370-377 | a retry of a command that succeeded reads back the status and output that the first run stored |
| OperationReceipts.ReplayReadsBack | src/llm_kee/runtime_protocol.py:139-170 | over any run a key's file says the operation, input hash and time it was first begun with and the status, output and time of the last completion that was written, and whoever looks with this input hash is handed just that |
| OperationReceipts.RunKeepsInv | src/llm_kee/runtime_protocol.py:143-154 | a key's input hash never changes |
| OperationReceipts.HandedOutWithItsLock | src/llm_kee/runtime_protocol.py:139-160 | in every interleaving a running receipt handed to a caller is the one on file exactly while the file is running, and comes with the lock as long as no caller of its store has completed the key without owning the lock; a receipt handed out without the lock is final |
| OperationReceipts.OneHolder | src/llm_kee/runtime_protocol.py:143-160 | two callers with the running receipt of a key in such stores are one |
| OperationReceipts.OthersLeaveTheHolder | src/llm_kee/runtime_protocol.py:162-191 | another caller takes a holder's lock exactly by giving the key back through the holder's own store, and its receipt exactly by a completion that is written; both need a caller that has no right to the lock any more |
| OperationReceipts.LockKeptIff | src/llm_kee/runtime_protocol.py:178-191 | along any run a caller at work keeps the lock it owns exactly when no other caller of its store gives the key back meanwhile |
| OperationReceipts.CompleteReleases | src/llm_kee/runtime_protocol.py:187-191 | the step that releases drops this store's lock on the key and touches no other |
| OperationReceipts.NoLockLeaks | src/llm_kee/runtime_protocol.py:139-191 | after any run, failed writes and crashes included, a key that no caller is working on is unlocked |
| OperationReceipts.RewritersAreKnown | src/llm_kee/runtime_protocol.py:162-170 | a final receipt changes exactly by a completion of its key that the disk takes, and whoever can do that was handed it without the lock, has completed before, or holds a receipt the file no longer has |
| OperationReceipts.SuccessSticksIff | src/llm_kee/cli.py:370-386 | over all runs of callers that leave answers alone, a succeeded or insufficient receipt stays as it is exactly when no caller of its key can still write |
| OperationReceipts.OneCallerLosesItsSuccess | src/llm_kee/cli.py:375-386 | a single caller whose reporting fails after it stored its success ends with a failure on file |
| OperationReceipts.HolderLosesItsReceipt | src/llm_kee/cli.py:375-386 | a caller whose first write failed can put its failure on file while another caller holds the lock and the running receipt |
| OperationReceipts.SuccessIsNotSticky | src/llm_kee/cli.py:369-385 | two retries of a failed operation, both of callers that leave answers alone, can end with a failure written over a success |
| JsonStore.JsonRepository.Get | src/llm_kee/storage/json_store.py:26-27 | the first record with the id |
| JsonStore.JsonRepository.Upsert | src/llm_kee/storage/json_store.py:29-40 | replaces the record with this id in place, or appends |
| JsonStore.PutIsAssignment | src/llm_kee/storage/json_store.py:29-40 | an upsert is an assignment to an insertion-ordered map |
| Evolution.EvolutionService.CreateEvent | src/llm_kee/evolution/service.py:11-40 | the three repositories after one change set, and the event returned |
| Evolution.EvolutionService.LatestVersion | src/llm_kee/evolution/service.py:49-57 | the last of the target's highest version numbers |
| Evolution.EvolutionService.History | src/llm_kee/evolution/service.py:42-47 | the events of an identifier, whatever kind of target it names |
| Evolution.EvolvedChain | src/llm_kee/evolution/service.py:11-40 | a change adds one link to its target's chain and leaves every other target's versions and events alone |
| Evolution.HistoriesAreChains | src/llm_kee/evolution/service.py:11-57 | after any changes to any targets each target has versions 1 to n, only the newest active, each valid until its successor's start, and one event per link; the i-th version and event record the i-th change's content, operation, reason, evidence, time and change set |
| Evolution.HistoryIsOneChainIff | src/llm_kee/evolution/service.py:42-47 | `history` gives one target's chain exactly when no other kind of target goes by the identifier |
| Monitor.Diff | src/llm_kee/monitoring/scanner.py:69-114 | the two loops report arrivals and departures in order |
| Monitor.ChangesAt | src/llm_kee/monitoring/scanner.py:69-114 | each path gets exactly the change it deserves, and no path gets two |
| Monitor.ChangesTell | src/llm_kee/monitoring/scanner.py:69-125 | a path is reported exactly when its hash or presence changed, as created, deleted or modified by its presence before and now, with the hashes and times of both sides, and with priority 5 exactly when it went |
| Monitor.ReplayRebuilds | src/llm_kee/monitoring/scanner.py:69-114 | replaying a difference turns the old paths and hashes into the new ones |
| Monitor.NoChangesIffSame | src/llm_kee/monitoring/scanner.py:69-114 | nothing is reported exactly when no path and no hash has changed |
| Monitor.MonitorService.LatestSnapshot | src/llm_kee/monitoring/scanner.py:40-48 | the last of the root's latest snapshots |
| Monitor.MonitorService.Scan | src/llm_kee/monitoring/scanner.py:16-32 | one event with its own signal for every change, and the new snapshot |
| Monitor.ScanRecords | src/llm_kee/monitoring/scanner.py:16-32 | a scan adds an event and its signal for each change, in order, and a snapshot that names the events |
| Monitor.ScanReplaysIff | src/llm_kee/monitoring/scanner.py:16-48 | a scan keeps events and latest snapshot together exactly when its clock is in time or it saw nothing new |
| Monitor.OtherRootsUntouched | src/llm_kee/monitoring/scanner.py:16-48 | scanning one root leaves the history of every other root alone |
| Monitor.HistoryReplays | src/llm_kee/monitoring/scanner.py:16-48 | after any scans of any roots, a root whose own scans come in the order of their times has events that rebuild its latest snapshot's paths and hashes |
| Monitor.ClockGoingBack | src/llm_kee/monitoring/scanner.py:40-48 | a clock that goes back breaks the replay |
| Memory.NormalizeRelativeDates | src/llm_kee/memory/service.py:496-506 | the six replacements in order |
| Memory.ReplacingAddsNone | src/llm_kee/memory/service.py:503-505 | a replacement splices no word together that its text is neutral to, and leaves none of the word it replaces |
| Memory.DatedIsUndated | src/llm_kee/memory/service.py:496-506 | normalising removes all six words, and changes a text exactly when it contains one |
| Memory.DatedOnce | src/llm_kee/memory/service.py:496-506 | normalising again, on any day, changes nothing |
| Memory.DatesTheOne | src/llm_kee/memory/service.py:496-506 | around a single word for a date the text stays as it is, and the word becomes the day before, the day itself or the day after |
| Memory.SectionIsAppended | src/llm_kee/memory/service.py:491-494 | a section follows the old text without its trailing white space, with a dated heading and a trimmed, normalised body |
| Memory.MemoryService.MakeDraft | src/llm_kee/memory/service.py:76-96 | the draft remembers the content it was made from |
| Memory.MemoryService.ApplyDraft | src/llm_kee/memory/service.py:98-117 | succeeds exactly while the file has that content, and then writes the normalised proposal |
| Memory.MemoryService.RejectDraft | src/llm_kee/memory/service.py:119-126 | marks the draft and touches no file |
| Memory.AppliedOntoItsBase | src/llm_kee/memory/service.py:76-117 | over any run of drafts, applies, rejections and outside edits an applied draft finds the content it was drafted from, and its proposal arrives unchanged exactly when no relative date is left in it |
| Memory.GivenProposalIsUndated | src/llm_kee/memory/service.py:81-88 | a proposal that was given is normalised when drafted |

## Left out

- Restart.Confluence: is stated for schedules that come to rest; `Overtaking.RestsIffSturdy` says exactly which logs without overtaking have one.
- Overtaking.ConfluentIff: the direction from agreement to no overtaking assumes that every outcome rests (`Sturdy`); the other direction (`Restart.Confluence`) does not.
- Overtaking.RestsIffSturdy: the direction from a resting schedule to `Sturdy` assumes that nothing is overtaken, since an overtaken revision is never met again and so cannot raise.
- Guarantees.RunsAreSound: inputs that arrive while a pass is under way are ordered after it, because a pass reads its inputs before it posts; two workers on one scope at a time are not modelled.
- Worker.EvolutionWorker.RunOnce: the server is the log itself, so paging (`events`), heartbeats, HTTP errors, and the rollout observations that `collect_rollout_observations` posts are not modelled; a missing practice runner is one that never answers.
- Worker.EvolutionWorker.ExperimentOn: the target text of a worker plan leaves out the revision id that the source appends; the plan's identity holds the evaluation, which names the revision.
- Learning.Distill: reading a claim out of a conclusion (`_parse_claim`) is a parameter, a function of the conclusion and its handoff; the boundary check on its result is modelled.
- Normalization.NormalizedTwice: lower-casing works character by character, so letters whose lower case depends on their neighbours, such as the final sigma, are not covered.
- Canonical.ParseBack: texts are sequences of Unicode scalar values; lone surrogates, non-finite floats, keys that are not texts and other types, which the source rejects, are not values of the model.
- Canonical.TextsEqualIff: holds for integers below 1e21 in magnitude; larger ones are printed in full, where a float of the same value has an exponent.
- Numbers.NumberIsEcma: a float is given by its shortest digits; that Python finds them, and that comparing the float with 1e-6 and 1e21 is comparing their value, is assumed.
- OperationReceipts.HandedOutWithItsLock: `complete` is taken to be called with a final status, as its callers do, never with `running`.
- Curriculum.Tasks: a task's allowed actions and success criteria, constant texts, are not modelled.
- Curriculum.PlanSucceedsIff: the budget is the default one; a budget given by the caller is not modelled.
- Normalization.SameNormalIffSameWords: lower-cases character by character, like `Normalization.NormalizedTwice`.
- Normalization.SpacingIsIrrelevant: lower-cases character by character, like `Normalization.NormalizedTwice`.
- Normalization.CaseIsIrrelevant: lower-cases character by character, like `Normalization.NormalizedTwice`.
- Normalization.NormalIsSingleSpaced: lower-cases character by character, like `Normalization.NormalizedTwice`.
- Learning.NothingRestricted: lower-casing is taken to work piece by piece, which leaves out the final sigma.
- Refusals.PassStartsIff: the digests that records carry about themselves, the bounds on field lengths and the form of times, which the validators check as well, are not modelled.
- OperationReceipts.OperationReceiptStore.RunStreamed: every write and every report succeeds; failing ones are moves of the model with many callers.
- Pipeline.BatchIsConfluent: speaks of logs with the revisions of one broad batch; many atomic batches are the subject of `Learner.LearnerLogsAreConfluent`, and across broad batches the general condition applies.
- Learner.LearnerLogsAreConfluent: each handoff has one batch in the log; posting a batch again is not modelled.
- Monitor.MonitorService.Scan: the files of a tree are a parameter; collecting and hashing them, ignored paths and the keyword table behind signal types are not modelled.
- Memory.MemoryService.ApplyDraft: is one step; the lease file around it, which is checked and then written, is not modelled, nor are target paths, the manifest and the copies under `.drafts`.
- SHA-256, UUIDs, clocks, timestamps as texts, the evaluator's bundle content, and the field lengths that the record types bound: digests are symbolic, generated ids are counters, times are integers.
- Success and negative-transfer rates are compared through their integer counters, which share one denominator; floating-point division is not modelled.
- The content check that the sandbox practice runner makes on its answers, its HTTP calls and timeouts: any function to an optional handoff.
- The model gateway, request validation, authorisation and the HTTP server around `invoke`; the work inside it is an arbitrary result.
- Intent detection, skills, workflows, proposal generation, improvement loops and the knowledge-graph adapter are outside the model.
