# Claude Code wrapper: verified model

The wrapper runs one Claude Code process in a pod, feeds it prompts over a PTY, and tells an operator what came
of each turn. This project models the four parts of it whose correctness spans several functions, and proves
what each part is for.

1. **The turn manager** (`TurnStore`, `SessionCore`, `SessionSlot`, `SessionPty`, `SessionWorld`, `SessionRuns`,
   `SessionHistory`, `SessionResume`, `SessionSignals`, `SessionSubmits`, `SessionManager`). Every critical section of the manager's lock is a function from state to state in
   `SessionCore`; the class `SessionManager.Manager` updates its fields the way the source does and is proved to
   compute those functions. `SessionWorld` adds the goroutines (each with its place between critical sections),
   `ptyMu`, and one write log per PTY; `SessionRuns` states the theorems about every interleaving of submits,
   hooks, crashes, relaunches, interrupts, write failures, stall timers, transcript discovery and shutdown.
   `SessionHistory`, `SessionResume` and `SessionSignals` read the decisions off the run itself: who is admitted and
   relaunched and how a turn ends; what becomes of a turn that a crash or an interrupt cut short, and what is then on
   the PTY; and what the state, the timer, the suspected stall, the transcript path and the counters amount to.
2. **Boot-time git recovery** (`Git`, `Aborts`, `Resume`, `Boots`, `Bootstrap`, `Directive`). A small git: commits
   with what they contain, local and tracking refs, HEAD, FETCH_HEAD, a tree with dirty, staged and conflicted paths,
   and the operations a killed process leaves half done, with how far they had got. Every command may succeed or fail by a scripted reply, so each
   contract holds for every sequence of replies. The imperative methods follow the phases of the source.
3. **The transcript readers** (`Tailer`, `TailerState`, `Probe`, `Results`, `OutcomeStatus`, `Strings`). The
   follower of a growing file, what it remembers between lines, the liveness probe, and the one-pass readers,
   each proved equal to a declarative reading of the whole history.
4. **The finaliser hand-off and the skills clone** (`RepoLists`, `Finalizer`, `HandOff`, `Reprompts`, `Skills`). Reports and
   repository lists parked by suppressed callbacks and merged into later ones, under every interleaving of
   finalisers. `HandOff` joins the session, the report accumulator and the finalisers into one world: a hand-over
   begins the finaliser of that turn, a re-prompt is a submit of that session, a drain is for that turn. And the
   clone protocol, with a crash allowed after any step.

What the models assume, and what they leave to the environment:

- `newID` is fresh and not empty. Turn ids are naturals; 0 stands for the empty string.
- Clocks, replies of git, transcript contents, PTY errors and process deaths are parameters, so every theorem is
  about all of them.
- git: commits and what they contain never change; an abort that reports success removes the conflict markers of
  its own operation and brings in no others, but may keep markers that no operation in progress made; it takes HEAD
  back to where a run of picks, reverts or patches began, when HEAD is still at the end of the run, and a rebase back
  to its branch and to what that was; a commit, a hard reset or any working abort ends a merge, cherry-pick or
  revert; the local `rev-parse --verify` probe is accurate; `ls-remote` may answer anything; a yes from
  `merge-base --is-ancestor`, `diff --quiet` or `symbolic-ref` is true, a no may be any failure.
- A rename is atomic; removing a directory is not, and may fail or die with any part of it left.
- All readers of a transcript decode a line the same way.

Where the code and its own comments disagree, the model follows the code:

- The session-id check on a Stop hook (internal/session/session.go:1560) never rejects anything: a completion
  clears the id in the same critical section that sets it. `SessionRuns.AnyHookCompletes` says exactly when a
  hook completes the turn in the slot, and `SessionRuns.HookCanEndTwoTurns` reaches, for any hook, a state in
  which it has completed one turn and its second delivery completes the next.
- `CommitAndPushAll` is said to put each repository in one list only. By name that holds whatever the pushes do
  if and only if no two repositories share a name: `RepoLists.OwnListsDisjoint`.
- A checkout is said to be removed only when both usability probes fail (internal/bootstrap/resume.go:86). One
  failure is enough: `Resume.IsUsableRepo`.
- An abort is said never to move a branch, and so never to lose a commit (internal/bootstrap/resume.go:203-205).
  `cherry-pick --abort`, `revert --abort` and `am --abort` of a run of several commits take the branch back to where
  the run began, and `rebase --abort` resets the branch the rebase began on: `Aborts.AbortMayLose` is the exact
  condition for one abort, `Resume.PrepareWorkspace` (`BranchesKept`) for a boot, and `Boots.BootOverPicks` runs a
  boot over such a session.
- A sentinel is said to ride only with a tree whose checkout ran to completion (internal/bootstrap/skills.go:149-150),
  and a kill to leave at worst something to clone again (internal/bootstrap/skills.go:79-88). The removal of the old clone is not covered: cut short
  it may leave the sentinel without the checkout, which a later boot then trusts, or neither sentinel nor .git, which
  every later boot refuses to replace. `Skills.SentinelVouches` is the exact condition, `Skills.SentinelCanLie` and
  `Skills.WreckIsNeverReplaced` are the two cases.
- Undoing half-done operations first is said to keep conflict markers off the branch
  (internal/bootstrap/resume.go:200-203). It does so for the markers of those operations. Markers that no operation
  in progress made survive a working abort (`Aborts.AbortMayKeepStray`) and are committed:
  `Resume.PrepareWorkspace` keeps every old branch free of them when there are none, and with no operation in
  progress they always reach the checked-out branch unless git will not stage or commit (`Resume.StrayIsCommitted`);
  `Resume.BranchTakesMarks` is the exact condition for one run of phase D.

## Model

| member | source | states |
|---|---|---|
| TurnStore.Store.Create | internal/turn/store.go:20-27 | a new Running record is added last in order; every other record stays |
| TurnStore.Store.Get | internal/turn/store.go:29-38 | the stored record, or none |
| TurnStore.Store.Touch | internal/turn/store.go:54-63 | only a Running record's activity stamp moves; says whether it did |
| TurnStore.Store.Complete | internal/turn/store.go:65-82 | any stored record, finished or not, becomes Complete; a missing one is an error and nothing changes |
| TurnStore.Store.Interrupt | internal/turn/store.go:84-94 | the same for an interrupted turn, which keeps its partial text |
| TurnStore.Store.Fail | internal/turn/store.go:96-105 | the same for Failed |
| SessionManager.Manager.GetCurrentTurnID | internal/session/session.go:299-306 | the turn in the slot, else the last completed one |
| SessionManager.Manager.Admit | internal/session/session.go:1154-1168 | the manager computes the admission that `SessionHistory.WhoIsAdmitted` is about |
| SessionManager.Manager.Reserve | internal/session/session.go:1176-1198 | Dead, Booting and busy are refused; otherwise the turn is stored and takes the slot in one step |
| SessionManager.Manager.InstallTimer | internal/session/session.go:1221-1224 | the stall timer is armed whatever the slot holds by then |
| SessionManager.Manager.ClearCurrentLocked | internal/session/session.go:1681-1688 | the slot is freed and its turn becomes the last completed one |
| SessionManager.Manager.Complete | internal/session/session.go:1538-1640 | a Stop hook finishes the turn in the slot, or is refused with the counters it costs |
| SessionManager.Manager.CompleteFromTranscript | internal/session/session.go:1063-1106 | a turn answered before the crash is finished from the transcript, if it still holds the slot |
| SessionManager.Manager.FailTurn | internal/session/session.go:1111-1138 | a turn lost to a crash is failed, if it still holds the slot |
| SessionManager.Manager.FailSubmitWrite | internal/session/session.go:1694-1718 | a turn whose prompt could not be written is failed without a hand-over |
| SessionManager.Manager.CompleteAfterInterrupt | internal/session/interrupt.go:140-187 | an interrupted turn is finished, if it still holds the slot |
| SessionManager.Manager.InstallResumeTimer | internal/session/session.go:1034-1057 | the timer is armed only for the turn still in the slot |
| SessionManager.Manager.MarkStallSuspected | internal/session/session.go:368-387 | only the turn in the slot can be suspected |
| SessionManager.Manager.OnTailerActivity | internal/session/session.go:330-342 | activity clears the suspicion and re-arms the timer of the turn in the slot |
| SessionManager.Manager.OnDeath | internal/session/session.go:734-771 | a death stops the timer and costs a restart, unless the pod is stopping |
| SessionManager.Manager.RelaunchWith | internal/session/session.go:796-813 | a new process is installed unless shutdown came first |
| SessionManager.Manager.FinishBoot | internal/session/session.go:701-705 | Booting becomes Ready only for the process that is still installed |
| SessionManager.Manager.AdoptTranscript | internal/session/session.go:1374-1388 | a discovered transcript is adopted unless a hook named another one |
| SessionManager.Manager.BeginShutdown | internal/session/session.go:1815-1822 | stopping is set and the state is Dead |
| SessionSlot.HookVerdicts | internal/session/session.go:1538-1575 | in a sound state a hook is accepted exactly when a turn holds the slot and the session is neither Dead nor Booting |
| SessionSlot.AdmitStep | internal/session/session.go:1154-1168 | admitting a submit keeps the invariant, the one late hand-off included |
| SessionSlot.ReserveStep | internal/session/session.go:1176-1198 | taking the slot keeps the invariant, for a fresh id |
| SessionSlot.FinishStep | internal/session/session.go:1063-1106 | finishing from the transcript keeps the invariant and ends at most its own turn |
| SessionSlot.FailStep | internal/session/session.go:1111-1138 | failing a lost turn keeps the invariant and ends at most that turn |
| SessionSlot.ActivityStep | internal/session/session.go:330-342 | activity keeps the invariant and finished records |
| SessionSlot.StallStep | internal/session/session.go:368-387 | the stall timer keeps the invariant and ends nothing |
| SessionSlot.InstallStep | internal/session/session.go:796-813 | installing a process keeps the invariant |
| SessionSlot.HookStep | internal/session/session.go:1538-1640 | a hook keeps the invariant and ends at most the turn in the slot |
| SessionSlot.DeathStep | internal/session/session.go:734-771 | a death keeps the invariant, the relaunch budget included |
| SessionSlot.InterruptStep | internal/session/interrupt.go:140-187 | an interrupt keeps the invariant and ends at most its own turn |
| SessionSlot.FailWriteStep | internal/session/session.go:1694-1718 | a failed write keeps the invariant and ends at most its own turn |
| SessionSlot.FoundStep | internal/session/session.go:1374-1388 | transcript discovery keeps the invariant and ends nothing |
| SessionPty.ScannedIsFrames | internal/session/session.go:1206-1218 | a log the scan accepts is a concatenation of whole frames, up to one open paste |
| SessionPty.FramesScan | internal/session/session.go:1206-1218 | and every concatenation of whole frames is accepted |
| SessionRuns.Step | internal/session/session.go:734-1724 | every step of every goroutine, transcript discovery included, keeps the invariant and changes no finished record |
| SessionRuns.OneTurnHoldsTheSlot | internal/session/session.go:1538-1640 | in every reachable state a record is Running iff it is current, and "record not found" cannot happen |
| SessionRuns.FinishedForever | internal/turn/store.go:65-105 | no continuation of any run changes a finished record or any prompt |
| SessionRuns.HandedOverOnce | internal/session/session.go:1720-1724 | each turn reaches OnTurnDone at most once and only finished; finished turns are the disjoint union of those handed over and those failed by a write |
| SessionRuns.CountersAgree | internal/session/session.go:1081-1132 | completed, succeeded, the three labels, the gauge and the hook counters agree with the records |
| SessionRuns.RelaunchesBounded | internal/session/session.go:734-787 | relaunch attempts never exceed MaxRestarts times one more than the turns that succeeded |
| SessionRuns.PtyFramed | internal/session/session.go:1206-1218 | each PTY's log is whole frames and at most one open paste of the lock's holder |
| SessionRuns.PastesArePrompts | internal/session/session.go:996-1030 | what is pasted for a turn, first or again, is the prompt it was created with |
| SessionRuns.CreditedToTheLatest | internal/session/session.go:299-306 | the turn that reports read now are credited to is the one created last, running or finished |
| SessionRuns.AnyHookCompletes | internal/session/session.go:1544-1575 | exactly when a hook completes the turn in the slot; its session id plays no part |
| SessionRuns.RedeliveredHookEndsNextTurn | internal/session/session.go:1538-1640 | from any reachable state: a hook that completes a turn, delivered again after the next submit, completes that next turn |
| SessionRuns.HookCanEndTwoTurns | internal/session/session.go:1538-1640 | for any hook there is a run in which it completes one turn and is accepted again for the next |
| SessionRuns.StallNeedsTurn | internal/session/session.go:368-387 | a suspected stall always has a Running turn in the slot |
| SessionHistory.OneLateHandoff | internal/session/session.go:1154-1168 | counted over the run, at most one submit is admitted past the pod's deadline |
| SessionHistory.WhoIsAdmitted | internal/session/session.go:1154-1168 | after any run a submit is admitted before the deadline, and past it iff it is the first hand-off and before the hard cap; a refused one changes nothing |
| SessionHistory.WhoTakesTheSlot | internal/session/session.go:1176-1198 | an admitted submit takes the slot iff the session is up and idle, with its record as created; otherwise nothing changes |
| SessionHistory.WhoIsRelaunched | internal/session/session.go:734-771 | counted over the run, a death leads to a relaunch iff there were at most MaxRestarts since a turn was last completed; otherwise the turn in flight is to be failed |
| SessionHistory.StoppingStays | internal/session/session.go:796-813 | once shutdown has begun it stays so, and the process is never replaced |
| SessionHistory.HowTurnsEnd | internal/turn/store.go:65-105 | a turn ends by one of five steps; its record says, field by field, what that step said and keeps the rest, and the slot is free |
| SessionResume.PlaceFitsPast | internal/session/session.go:734-990 | after any run, where a goroutine stands fits what its own earlier steps met, and the turn is the one it took up |
| SessionResume.CompletedOnlyIfAnswered | internal/session/session.go:957-972 | a turn is completed from the transcript only over a continued conversation whose last message is a terminal answer of the assistant |
| SessionResume.ResumeDecides | internal/session/session.go:920-990 | and conversely; a resuming goroutine goes on iff its turn holds the slot of a ready session, and otherwise writes to the PTY |
| SessionResume.SentAgain | internal/session/session.go:950-1028 | by the time the timer is installed, the goroutine has written, on the PTY it found, the stored prompt and the key after a fresh relaunch, the key alone after a continued one |
| SessionResume.SentOnce | internal/session/session.go:1199-1224 | by the time a submitted turn's timer is installed, its goroutine has written the stored prompt and the key, on the PTY it found when it took the slot |
| SessionResume.WhyFailed | internal/session/session.go:745-787 | a turn is failed as lost only after a death without budget, a relaunch given up, or a failed write |
| SessionResume.CarriesOn | internal/session/session.go:772-787 | a turn carried over a death is not dropped before it is to be resumed or failed |
| SessionResume.RewriteEnds | internal/session/session.go:976-1028 | a resumed turn that could not be written is failed on the next step |
| SessionResume.FirstWriteEnds | internal/session/session.go:1199-1226 | a prompt that could not be written fails its turn on the next step; one written whole gets its timer |
| SessionResume.InterruptedOnlyByMarker | internal/session/interrupt.go:100-124 | a turn is ended as interrupted only when the last look at its known transcript found the marker |
| SessionResume.PollDecides | internal/session/interrupt.go:100-124 | and conversely; the goroutine waits on while the turn holds the slot, no marker shows and time is not up |
| SessionResume.WhoIsInterrupted | internal/session/interrupt.go:55-63 | an interrupt reaches a session that is up and not stopping, and does nothing to any other |
| SessionResume.EscapeLands | internal/session/interrupt.go:65-81 | the escape key goes out alone, and leaves the goroutine waiting for the turn it interrupted, if there was one |
| SessionResume.WhoIsProbed | internal/session/session.go:1268-1300 | and so does a probe |
| SessionSignals.EffectStep | internal/session/session.go:330-387 | every step has just the one effect on state, timer, stall, path, slot, counters and stamps that it is put down as |
| SessionSignals.SuspectedSince | internal/session/session.go:368-387 | a stall is suspected iff the timer of the turn in the slot went off and nothing has cleared it; it is dated by the first such alarm |
| SessionSignals.TimerIs | internal/session/session.go:1221-1224 | the timer is the last one installed, for whatever turn, and runs iff nothing has stopped it since |
| SessionSignals.PathIs | internal/session/session.go:1374-1388 | the transcript path is the last completing hook's, or before any the first one discovered |
| SessionSignals.StampIs | internal/turn/store.go:54-63 | a record's activity stamp is that of the last line credited to its turn, or its start |
| SessionSignals.StateIs | internal/session/session.go:701-705 | the state is that of the last step that sets one |
| SessionSignals.LabelsCount | internal/session/session.go:1544-1640 | each counter counts, by its label, the turns that ended that way or the hooks that met that answer |
| SessionSignals.BusyHasTurn | internal/session/session.go:1176-1198 | a busy session has a turn |
| SessionSubmits.SubmitInvStep | internal/session/session.go:1176-1226 | every turn between its reservation and its timer is brought in by one goroutine, and has not been given up |
| SessionSubmits.WrittenStays | internal/session/session.go:1199-1226 | a turn whose prompt is written is never given up for a failed write |
| Git.ExecOk | internal/bootstrap/bootstrap.go:187-349 | no command loses or rewinds a local branch, except `checkout -B` over one that exists and the aborts that `Loses` names |
| Git.AbortOk | internal/bootstrap/resume.go:190-245 | an abort that works keeps every branch at a descendant if and only if it is not one that `Loses` names |
| Git.MergedOk | internal/bootstrap/bootstrap.go:268-349 | a merge that works contains both sides and moves no branch backwards |
| Git.AdvancesKeepsCommits | internal/bootstrap/resume.go:78-117 | if branches only advance, every commit a branch reached is still reached by one |
| Git.NoRunsAdvances | internal/bootstrap/resume.go:205-245 | with no run of picks and no rebase in progress, what aborts leave is every branch with all it had |
| Git.StaysHeld | internal/bootstrap/resume.go:253-262 | a commit on a branch that no interrupted operation can take off it stays so after any command, new operations that stop part way included, but a forced checkout of that branch |
| Git.Checkout.Git | internal/bootstrap/bootstrap.go:187-349 | one command with the next reply |
| Resume.RescueNamesDiffer | internal/bootstrap/resume.go:253-262 | the nine rescue names are different |
| Resume.ClaimRescueBranch | internal/bootstrap/resume.go:269-277 | the first name git accepts; it was no branch before and no branch moves |
| Resume.NameRescueBranch | internal/bootstrap/resume.go:281-288 | the first of the nine names that git accepts, after the others were tried in order; it was no branch; with no name, all nine were refused |
| Resume.RescueBranchNames | internal/bootstrap/resume.go:253-259 | the base name and its eight numbered successors |
| Resume.UnstageOversized | internal/bootstrap/repo.go:165-200 | only oversized paths leave the index, and each does unless git refused to unstage it; nothing uncommitted is lost |
| Resume.SaveTree | internal/bootstrap/resume.go:339-348 | add, unstage, commit: the whole tree is in one commit, without the oversized paths that git would unstage, or the tree is as dirty as before |
| Resume.KeepOnBranch | internal/bootstrap/resume.go:393-411 | the commit is made on the rescue branch and HEAD goes back |
| Aborts.AbortOne | internal/bootstrap/resume.go:190-245 | the second spelling is tried when the first fails and there is one; what a working abort does to the branch, and that a failed one changes only the tree |
| Aborts.AbortInProgress | internal/bootstrap/resume.go:205-245 | only aborts run, each for an operation found in progress; one note for each that worked, in order; fails exactly when one was given up, and whatever is left in progress was tried in every spelling and refused; short of two rebases at once branches lose commits exactly when an abort that worked takes some |
| Aborts.AbortMayKeepStray | internal/bootstrap/resume.go:190-245 | for any operation and any stray markers, git may report a working abort that keeps them |
| Aborts.AbortMayLose | internal/bootstrap/resume.go:205-212 | git has an answer to an abort that loses commits of a branch if and only if `Loses` holds: HEAD at the end of a run of picks, or a rebase whose branch took commits since |
| Aborts.LossIsExact | internal/bootstrap/resume.go:205-245 | short of two rebases at once, the aborts of a boot lose commits exactly when one that worked was one that `Loses` names before the boot |
| Resume.RescueUnabortable | internal/bootstrap/resume.go:388-419 | no branch that existed moves; what can be staged ends as a commit on an unused rescue branch, and is reported; wiped exactly when claim, add or commit failed |
| Resume.CommitInPlace | internal/bootstrap/resume.go:331-363 | a dirty tree becomes a commit on HEAD, unless git would not stage or commit it; a new branch names it exactly when git calls HEAD detached and one of the nine names is free; no oversized path is in it but one git refused to unstage |
| Resume.IsDirty | internal/bootstrap/resume.go:313-313 | dirty iff one of the two diffs just asked did not come back quiet |
| Resume.RescueWorkingTree | internal/bootstrap/resume.go:312-364 | the phase as a whole, with and without a failed abort; a tree both diffs call quiet is left alone: nothing staged, committed or claimed, and one more command run |
| Resume.IsUsableRepo | internal/bootstrap/resume.go:123-127 | unusable exactly when one of the two probes failed |
| Resume.AbortAndRescue | internal/bootstrap/resume.go:95-117 | phases C and D: exactly when the checkout is wiped; everything uncommitted is in the one commit made or still there; the report is exactly the aborts that worked and the commit made, kept on a branch iff HEAD was detached; a quiet tree is left as the aborts left it; no oversized path is committed but one git would not unstage; which branches can lose commits or gain conflict markers |
| Resume.PrepareWorkspace | internal/bootstrap/resume.go:78-117 | no branch loses a commit but to an abort of what had put it there, and then it does; exactly when the checkout is wiped; otherwise everything uncommitted is in one commit or still there, and only untracked or oversized files miss it unless git would not stage or commit; the report is exactly the aborts that worked and the commit made; a tree both diffs call quiet is left alone; after an abort was given up no old branch takes a commit; old branches gain no conflict markers if none are stray, and with no operation in progress stray ones do reach the branch |
| Resume.BranchTakesMarks | internal/bootstrap/resume.go:335-364 | phase D puts conflict markers on the checked-out branch if and only if its commit took a path that held some |
| Resume.StrayIsCommitted | internal/bootstrap/resume.go:335-364 | whatever git answers, stray markers end on the branch unless git will not stage or commit |
| Boots.BootAfterBoot | internal/bootstrap/resume.go:253-289 | over any boots and sessions on one checkout, what is returned is every rescue the boots made, each is still on its own branch, and no two share one |
| Boots.BootOverPicks | internal/bootstrap/resume.go:205-245 | a session that dies in a run of picks: whatever git answers, the boot loses commits of the branch unless the abort is given up or the checkout is unusable |
| Bootstrap.UnshallowBestEffort | internal/bootstrap/bootstrap.go:250-258 | one fetch, for a shallow clone only; no branch changes, whatever it does |
| Bootstrap.MergeRemoteTaskBranch | internal/bootstrap/bootstrap.go:268-313 | which questions and merges lead to each result; unless it is a conflict the branch contains the fetched remote tip, and on a conflict no branch moved |
| Bootstrap.ReconcileWithBase | internal/bootstrap/bootstrap.go:321-349 | which commands lead to each result; up-to-date or merged means HEAD contains the base tip, otherwise no branch moved |
| Bootstrap.CheckOutComplete | internal/bootstrap/bootstrap.go:195-199 | checked out and completed; no branch moves, and it fails only by the checkout |
| Bootstrap.AdoptLocal | internal/bootstrap/bootstrap.go:195-206 | checked out, completed and, when owned, published, in that order; no branch moves |
| Bootstrap.AdoptRemote | internal/bootstrap/bootstrap.go:208-223 | completed, fetched and made at the one tip that was fetched in the call, or the command that failed |
| Bootstrap.AdoptBoth | internal/bootstrap/bootstrap.go:225-233 | checked out, completed, fetched and reconciled, never reset; it contains the tip fetched in the call unless a conflict is reported |
| Bootstrap.FetchAndMerge | internal/bootstrap/bootstrap.go:229-233 | one fetch of the task branch, and the merge of exactly what it brought |
| Bootstrap.TakeArm | internal/bootstrap/bootstrap.go:191-234 | the arm is the one for the answers of the two probes, its result says which it was, and a remote tip is fetched exactly when there is one; which commands ran |
| Bootstrap.Proceed | internal/bootstrap/bootstrap.go:191-241 | the base is reconciled exactly for an owned branch that was resumed; the tip fetched is contained unless a conflict is reported; which commands ran for each result |
| Bootstrap.CheckoutTaskBranch | internal/bootstrap/bootstrap.go:187-241 | the probes come first and choose the arm; the branch only moves to descendants; it fails only by a command it cannot do without; a remote tip is fetched exactly when ls-remote saw one; HEAD contains that tip and the base tip unless a conflict with the one or the other is reported; which commands ran for each result |
| Bootstrap.ConflictsAreStops | internal/bootstrap/bootstrap.go:268-349 | after those commands a conflict is reported iff the merge it is about was run and stopped, or for the base iff origin/HEAD could not be resolved |
| Directive.OrderedRepoUnion | internal/bootstrap/bootstrap.go:521-534 | no directory twice, first occurrences only, none left out |
| Directive.Buckets | internal/bootstrap/bootstrap.go:455-474 | each bucket is exactly the repositories with that property, in order |
| Directive.MandatoryOrdered | internal/bootstrap/bootstrap.go:495-513 | inspect lines, then own-remote lines, then base lines |
| Directive.MandatoryIsWhatIsAsked | internal/bootstrap/bootstrap.go:495-513 | a line is there if and only if some repository needs it |
| Directive.ResumeDirective | internal/bootstrap/bootstrap.go:455-515 | no block iff nothing to say; the header names each repository mentioned once |
| Directive.NothingMandatory | internal/bootstrap/bootstrap.go:411-515 | a repository has no mandatory line iff it has nothing to inspect and both reconciles ended well |
| Directive.LinesMandatory | internal/bootstrap/bootstrap.go:495-513 | the merge lines of a repository are there exactly for its two reconciles, and each rescue has its line |
| Directive.Obtain | internal/bootstrap/resume.go:78-117 | the checkout handed on is the old one, prepared, exactly when there was no reason to wipe it, or else the fresh clone |
| Directive.BringUp | internal/bootstrap/bootstrap.go:687-704 | there is an entry exactly when the branch was resumed or something was prepared, and it carries all that was prepared; a result exactly for an owned resumed branch; a merge line exactly when that merge was run and stopped, or origin/HEAD was not to be had; a tip that HEAD lacks has its merge line, each rescue its inspect line; it fails only by a command it cannot do without |
| Directive.WhoIsMentioned | internal/bootstrap/bootstrap.go:455-494 | the header leaves out one kind of entry only: a branch of another owner adopted from the remote, with nothing prepared |
| Directive.InformationalIsWhatIsNoted | internal/bootstrap/bootstrap.go:495-515 | the workspace's notes come first, then every note of every repository, and nothing else |
| Directive.BaseRefIsBase | internal/bootstrap/bootstrap.go:376-384 | the ref a base line names has the tip that was to be merged, unless the base is itself called HEAD |
| Directive.Boot | internal/bootstrap/bootstrap.go:651-705 | the same for the whole boot, which fails only for one of three named reasons; where what was prepared is exactly the commits made and aborts that worked; while the checkout is still the one it was, no branch loses a commit but to an abort of what had put it there; it is another one only after a failed usability probe, or an abort given up whose tree could not be kept |
| Tailer.LinesUnique | internal/transcript/tailer.go:579-606 | a text is cut into lines in one way only |
| Tailer.NewlineEndsChunk | internal/transcript/tailer.go:579-614 | every newline in what was processed ends a chunk |
| Tailer.Follower.Poll | internal/transcript/tailer.go:579-614 | one read: chunks stay a cutting of the first readPos bytes, partial is the rest of what was read |
| Tailer.Follower.HalfTurn | internal/transcript/tailer.go:579-614 | reading and counting as two steps; in between the processed bytes are ahead of readPos |
| Tailer.Follower.Follow | internal/transcript/tailer.go:579-634 | everything visible is read, however it was split |
| Tailer.Follower.CaughtUpTo | internal/transcript/tailer.go:461-483 | true means every line that ends at or before the target was processed, wherever the reader was interrupted by a look; false means readPos is still short of it |
| Tailer.ChunksAreLines | internal/transcript/tailer.go:579-614 | while no partial reaches the cap, the chunks are exactly the lines read |
| Tailer.ShortLinesAreLines | internal/transcript/tailer.go:579-614 | a file without a newline-free run of cap bytes is processed line by line, however it is split |
| Tailer.CaughtUpMeansProcessed | internal/transcript/tailer.go:461-483 | caught up means every line that ends at or before the target was processed |
| TailerState.IssueLog.AccumulateInternalIssue | internal/transcript/tailer.go:432-440 | the report is added, after dropping another turn's |
| TailerState.IssueLog.DrainInternalIssues | internal/transcript/tailer.go:446-456 | the turn's reports are returned and cleared, or none |
| TailerState.DrainReturnsTheTurnsReports | internal/transcript/tailer.go:432-456 | over any history a drain returns exactly the turn's reports since its last drain and since another turn reported |
| TailerState.DrainReturnsAll | internal/transcript/tailer.go:432-456 | all of a turn's reports, late ones too, are returned by the first drain for it |
| TailerState.EachReportReturnedOnce | internal/transcript/tailer.go:432-456 | every report is returned once, dropped once, or pending |
| TailerState.TaskCalls.Observe | internal/transcript/tailer.go:783-969 | set and counter are the Task calls of this turn that have no result yet |
| TailerState.TaskCalls.ObserveAll | internal/transcript/tailer.go:783-969 | the same over a whole transcript |
| TailerState.OutstandingStep | internal/transcript/tailer.go:783-969 | which Task calls are outstanding after one more event |
| TailerState.QueueTracker.EnqueueItem | internal/transcript/tailer.go:150-157 | the newest 128 items are kept |
| TailerState.QueueTracker.RemoveKey | internal/transcript/tailer.go:166-183 | everything goes for an empty key, else the oldest match, else the oldest item |
| TailerState.QueueTracker.PendingSince | internal/transcript/tailer.go:187-194 | none iff nothing is pending; otherwise the time of the entry that a removal of no known item would drop, the oldest pending time while enqueues came in order |
| TailerState.RemovalDrops | internal/transcript/tailer.go:166-183 | a removal drops all, the first entry with the key, or else the first of all, and keeps the others in order |
| TailerState.NewestAreKept | internal/transcript/tailer.go:150-157 | with no removals the last 128 entries are pending |
| TailerState.OldestIsReported | internal/transcript/tailer.go:135-194 | with enqueues in time order, after any history what is pending is in order, so the first entry has the oldest time |
| Probe.ProbeTracker.RegisterProbe | internal/transcript/probe.go:114-124 | the previous probe gets its outcome, the new one is pending |
| Probe.ProbeTracker.DiscardProbe | internal/transcript/probe.go:130-136 | the tracked probe goes without an outcome |
| Probe.ProbeTracker.FinalizeProbe | internal/transcript/probe.go:140-146 | an unfinished probe gets its outcome; a second call does nothing |
| Probe.ProbeTracker.FinishLocked | internal/transcript/probe.go:152-174 | one emission, of the kind the state says, unless it was finished |
| Probe.ProbeTracker.NoteEnqueueLine | internal/transcript/probe.go:218-229 | the first own line stamps the probe; says whether the line is the probe's own |
| Probe.ProbeTracker.NoteRemovalLine | internal/transcript/probe.go:236-245 | a pending probe is delivered |
| Probe.ProbeTracker.NoteAssistantBlock | internal/transcript/probe.go:251-276 | a delivered probe is answered by a marked text no older than the delivery |
| Probe.OneOutcomeEach | internal/transcript/probe.go:114-174 | probes get one outcome each, in the order they were registered |
| Probe.ProbesAccountedFor | internal/transcript/probe.go:114-174 | registered = outcomes + unfinished discards + an unfinished current probe |
| Probe.OnlyForward | internal/transcript/probe.go:236-276 | a probe keeps its identity and only moves pending, delivered, answered |
| Probe.AnswersFollowDeliveries | internal/transcript/probe.go:251-276 | an answer carries the marker and is never older than its delivery |
| Probe.OutcomeReadsTheTranscript | internal/transcript/probe.go:114-174 | what is reported of a probe, when, and once: answered with the time from the send to the first answer, delivered unanswered, or never delivered, by what followed its registration |
| Probe.EnqueueReadsTheTranscript | internal/transcript/probe.go:218-229 | the enqueue stamp is that of the first stamped line that queued its text |
| Probe.StateReadsTheTranscript | internal/transcript/probe.go:215-276 | the state is delivered iff a removal followed, answered iff a marked text then did, with the first ones' stamps |
| Strings.TrimSpaceTrims | internal/transcript/probe.go:218-229 | trimming takes off spaces at both ends, all of them and nothing else |
| Results.ModelsInFirstSeenOrder | internal/transcript/result.go:261-280 | the models used, each once, in the order of first use |
| Results.TotalIsSums | internal/transcript/result.go:261-280 | each of the four token counts is added up on its own |
| Results.SumTurnTokens | internal/transcript/result.go:238-282 | for each model, each count is the sum over the assistant lines after the last typed prompt |
| Results.LastMessage | internal/transcript/result.go:42-72 | role and stop reason of the last conversation entry |
| Results.WasInterrupted | internal/transcript/result.go:121-153 | true iff the last conversation entry carries the marker |
| Results.LastSeparator | internal/transcript/result.go:306-311 | the last "__" of a tool name |
| Results.BareNameIs | internal/transcript/result.go:304-311 | a namespace is cut off up to its last separator; a name without one is its own bare name |
| Results.CriticalIsOutcome | internal/transcript/result.go:284-311 | a tool is critical iff it is named submit_outcome or ends in __submit_outcome |
| Results.VerdictDecides | internal/transcript/result.go:350-386 | what the scan remembers is the last correlated result |
| Results.CallIdsAreCalls | internal/transcript/result.go:359-365 | the remembered ids are those of the critical calls made |
| Results.FailedCriticalOutcome | internal/transcript/result.go:337-395 | a failure iff the last result of a call of submit_outcome, under any namespace, is an error, with that result's text |
| OutcomeStatus.CodeIsNumber | internal/transcript/result.go:471-488 | three digits are read as the number they spell |
| OutcomeStatus.LeadingStatusIs | internal/transcript/result.go:471-488 | a status is read off the front exactly when three digits in range stand there alone |
| OutcomeStatus.ScanStatus | internal/transcript/result.go:433-461 | none iff no position reports a status; otherwise the first one |
| OutcomeStatus.OneMarkerEach | internal/transcript/result.go:414-457 | at one position at most one marker leads to a status, so their order does not matter |
| OutcomeStatus.FirstStatusIsUnique | internal/transcript/result.go:433-461 | "the first status" is one number |
| OutcomeStatus.MarkersDoNotClash | internal/transcript/result.go:414-414 | the markers of the source satisfy what that needs |
| OutcomeStatus.OutcomeErrorStatus | internal/transcript/result.go:433-461 | a status iff the text reports one, and then the first |
| OutcomeStatus.RetryableOutcomeFailure | cmd/wrapper/app.go:793-799 | retryable iff there is no status or the first is at least 500 |
| OutcomeStatus.RepromptDirective | cmd/wrapper/app.go:815-829 | which of the two directives is sent, for which texts |
| RepoLists.CommitAndPushAll | internal/bootstrap/repo.go:230-272 | every repository is attempted; the two lists are those pushed and those failed |
| RepoLists.OwnListsDisjoint | internal/bootstrap/repo.go:230-272 | a turn's lists are disjoint whatever happens iff no two repositories share a name |
| RepoLists.NamedIs | internal/bootstrap/repo.go:238-268 | each list names exactly the repositories with its result, by name or, when that is empty, by base |
| RepoLists.NamedConcat | internal/bootstrap/repo.go:238-268 | each repository adds its name to the list of its own result, in order |
| RepoLists.DedupInFirstSeenOrder | cmd/wrapper/app.go:200-212 | the union keeps the order of first occurrences |
| RepoLists.MinusConcat | cmd/wrapper/app.go:215-230 | subtraction goes element by element, in order |
| RepoLists.UnionRepos | cmd/wrapper/app.go:200-212 | the names of both lists, each once, in first-seen order |
| RepoLists.SubtractRepos | cmd/wrapper/app.go:215-230 | the names of the first list that are not in the second, in order |
| RepoLists.Merge | cmd/wrapper/app.go:172-196 | disjoint, no repeats, no name lost; exactly which names are failed and pushed |
| RepoLists.MergeRepoLists | cmd/wrapper/app.go:193-196 | the loops compute that merge |
| RepoLists.HoldIsIdentity | cmd/wrapper/app.go:139-158 | holding when nothing is held changes nothing |
| RepoLists.HeldSaysLatest | cmd/wrapper/app.go:154-196 | what is held after any chain of suppressed turns says what the latest turn naming a repository said |
| RepoLists.DeliveredSaysLatest | cmd/wrapper/app.go:154-196 | a delivered turn after any chain reports failed, or pushed, exactly by the latest turn naming it |
| Finalizer.App.HoldRepoLists | cmd/wrapper/app.go:154-158 | the lists are folded into what is held |
| Finalizer.App.HoldInternalIssues | cmd/wrapper/app.go:120-127 | reports are appended to those held |
| Finalizer.App.TakePendingInternalIssues | cmd/wrapper/app.go:131-137 | what was held is returned and no longer held |
| Finalizer.App.TakePendingRepoLists | cmd/wrapper/app.go:162-168 | what was held is returned and no longer held |
| Finalizer.App.Reprompt | cmd/wrapper/app.go:838-858 | issued iff the budget allows and the session accepts; a refusal gives the budget back |
| Finalizer.App.FinalizeTurn | cmd/wrapper/app.go:420-506 | with no other finaliser: what is delivered or held, and nothing lost between |
| Finalizer.AloneIsSequential | cmd/wrapper/app.go:420-506 | the interleaved steps refine the sequential finaliser: taken with no other in between, they leave its shared state and its callback |
| Finalizer.ReportsStep | cmd/wrapper/app.go:120-137 | one step of one finaliser loses and copies no report |
| Finalizer.EveryReportInOnePlace | cmd/wrapper/app.go:420-506 | under any interleaving each drained report is in one callback, held, or with one running finaliser |
| Finalizer.SuppressionsBounded | cmd/wrapper/app.go:838-858 | at most two callbacks are ever suppressed; a finaliser delivers at most once |
| Finalizer.DeliveredBounds | cmd/wrapper/app.go:838-858 | once all finalisers have finished, all but at most two delivered, and none twice |
| Finalizer.ReportsDeliveredOrHeld | cmd/wrapper/app.go:420-506 | and every report drained was delivered, as often as it was drained, or is held |
| Finalizer.OutcomesOf | cmd/wrapper/app.go:420-506 | once all finalisers have finished, each one begun for a turn delivered for it or was suppressed |
| Finalizer.NoRepoLost | cmd/wrapper/app.go:154-196 | no interleaving loses a repository that a turn pushed or failed |
| Finalizer.DeliveredListsAreClean | cmd/wrapper/app.go:176-196 | no callback calls a repository both pushed and failed |
| HandOff.HandedOverCount | cmd/wrapper/app.go:295-311 | hand-overs and failed writes together are as many as the finished turns |
| HandOff.Step | cmd/wrapper/app.go:295-506 | every step of the joint world keeps the joint invariant |
| HandOff.OneCallbackEach | cmd/wrapper/app.go:295-506 | in every reachable state a turn has at most one callback, and only when it is finished and was handed over; at rest each finished turn has exactly one, unless it was suppressed or its prompt could not be written |
| HandOff.SuppressedMadeATurn | cmd/wrapper/app.go:838-858 | the re-prompt of a suppressed callback took the slot with another turn |
| Reprompts.SuppressedForAWrittenTurn | cmd/wrapper/app.go:838-858 | and that turn's prompt was written: at rest, once finished, it has a callback of its own or was suppressed in turn |
| Reprompts.RepromptIsNoHandoff | cmd/wrapper/app.go:838-858 | a re-prompt leaves the late hand-off, and everything else the manager guards, as it is when it asks to be admitted |
| HandOff.FirstDrainReturnsAll | internal/transcript/tailer.go:432-456 | in every reachable state the first drain for the latest turn returns every report ever credited to it |
| HandOff.EveryReportAccountedFor | cmd/wrapper/app.go:420-506 | every report read is delivered, held, with a running finaliser, waiting for its drain, or dropped, as often as it was read |
| HandOff.EveryTurnButTwoAnswered | cmd/wrapper/app.go:295-311 | at rest there are as many callbacks as finished turns, less those whose prompt failed and at most two suppressed |
| Skills.Disk.Promote | internal/bootstrap/skills.go:193-208 | exactly when the replacement takes the clone directory's place, and what is left there when it does not |
| Skills.Disk.RemoveClone | internal/bootstrap/skills.go:201-203 | a removal passes through, and may stay with, a part of the directory |
| Skills.Disk.Attempt | internal/bootstrap/skills.go:134-157 | success, iff every step works on what stands there, means a completed, stamped checkout of the ref |
| Skills.Disk.CloneSkillsRepo | internal/bootstrap/skills.go:95-184 | cloned iff it is wanted, the sentinel does not name the ref, and one of three attempts works; every step taken is a legal one |
| Skills.ForeignBlocks | internal/bootstrap/skills.go:194-200 | no attempt works over a directory that is no skills clone |
| Skills.CloneCanWork | internal/bootstrap/skills.go:130-158 | over anything else an attempt whose steps all work makes the clone, unless one before it left something no longer to be told to be one |
| Skills.SentinelVouches | internal/bootstrap/skills.go:116-184 | over any boots, each dying anywhere, a sentinel always names a checkout that ran to completion iff no removal takes any of a checkout before the sentinel |
| Skills.SentinelCanLie | internal/bootstrap/skills.go:112-122 | and a boot can be made to skip on the word of a sentinel whose checkout is gone |
| Skills.ForeignNeverReplaced | internal/bootstrap/skills.go:186-208 | a directory that is no skills clone is never replaced |
| Skills.WreckIsNeverReplaced | internal/bootstrap/skills.go:193-203 | what a removal left without .git and sentinel is such a directory: no later boot clones again |
| Skills.CloneBootAfterBoot | internal/bootstrap/skills.go:95-208 | over any boots of the cloning code, a clone directory that is gone at the end was removed over a complete replacement |
| Skills.LostOnlyToAReplacement | internal/bootstrap/skills.go:122-208 | the same in every state of boots that each may die anywhere |
| Skills.NeverPartlyBuilt | internal/bootstrap/skills.go:122-157 | in every state of boots that may die anywhere the clone directory is absent, or what remains of the original one or of a completed checkout |
| Skills.SkippedIsThere | internal/bootstrap/skills.go:112-122 | a boot that skips cloning has a completed checkout of the ref, if no removal took any of one before its sentinel |

## Left out

- The turn record is a value in the store; the source hands out references into it, so a caller that keeps one and
  writes to it is not modelled.
- `SessionManager.Manager` groups the fields about the slot and the metric collectors into two records; the
  critical sections still update them in the source's order.
- PTY bytes, the ring buffer, boot-dialog detection and ANSI stripping: boot is one step that may end either way.
- The raw writes of `bootWait` and Shutdown's Ctrl-C, which do not take `ptyMu`: `SessionRuns.PtyFramed` is about
  the writers that do.
- Liveness: nothing says that a turn ends, because the wrapper puts no time bound on one.
- Decoding of JSON and YAML; the models start from decoded entries. Rendering of tool results as text.
- Tailer.Follower.Follow: one file without reopening; a replaced inode and a read error start over in the source.
- Results.SumTurnTokens: sums are unbounded integers; the source adds 64-bit ones.
- `LastAssistant` and the tool-call and stream counters, which would add only easy members.
- OutcomeStatus.OutcomeErrorStatus: lower-casing is that of ASCII and of the two other characters that lower to
  ASCII; any other character matches nothing either way.
- The size scan behind the unstaging of oversized files: `big` is an arbitrary list of paths.
- Boots.BootAfterBoot: the sessions are made of the modelled commands; amending, resetting to another commit,
  deleting a branch and finishing a rebase are the agent's own rewriting, and are not among them.
- Aborts.LossIsExact: with a rebase in progress in both of git's ways at once, only one half is stated, that no
  branch loses what no interrupted operation had put there.
- Stale-lock sweeping, the workspace identity file, commit-hash text in notes, and the extra skill sources.
- The prose of the resume block and of the two re-prompts; both are tagged values.
- Finalizer.App.FinalizeTurn: the commit and push, the drain, the transcript scan and the session's answer are
  parameters; metrics, log lines and the lifecycle hook are not modelled.
- Skills.Disk.CloneSkillsRepo: the sentinel does not name the repository, so a changed URL with the same ref is
  not noticed, in the source as in the model; the credential helper is not modelled.
- HTTP routing, authentication, callback URLs, configuration, settings rendering, push client, statusline and rate
  limits: input and output, or easy claims.
