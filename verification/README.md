# A verified model of the agent workspace

This project models the parts of the repository that keep state over long runs
or rewrite one structure into another, and proves what they keep. One Dafny
module stands for one source file or one joint behaviour:

| module | what it models |
|---|---|
| `Protocol`, `Tokens` | messages and parts, and the token estimate |
| `Condenser`, `Passes`, `Pairing`, `Answering`, `Compaction`, `Elision` | context compaction: which pass runs and what it leaves, the cut, the two passes, pairing of calls and results in both directions, termination and token accounting, recovery of elided outputs |
| `Artifacts`, `Adapter`, `Pipeline` | vendor filtering, conversion to and from the SDK's messages, and the four steps of `prepareStep` together |
| `Recovery`, `AnsweredRequests`, `Settling` | what the four steps keep over many requests: elided outputs, answered calls, and an end of compaction |
| `Sidecar`, `Supervision` | the supervisor of the local server process, as a class and as steps over an explicit world of children, callbacks and timers: what it never does, and what it brings about |
| `Split`, `Sse`, `LineBuffer` | leftmost splitting, and the two incremental readers built on it |
| `Edits`, `Checkpoints` | exact replacement, and the file store with snapshots and undo |
| `Approvals` | the approval gate, as a class and as runs of requests, answers, timers, revocations and shutdown |
| `Walk`, `Paths` | the bounded breadth-first walk, and path confinement |
| `Money`, `Overshoot` | prices, meter and spend ceiling, and the ceiling against the steps of running turns |
| `Store`, `Sessions` | the SQL tables as sets and maps of rows, and live sessions over them |
| `Billing` | what a session's requests cost, what its meter records, and what reaches its thread's rows in `Store` |
| `Common`, `Text` | options, results, numerals, JavaScript string helpers |

Where the source updates an object, the model is a class whose methods are
proved equal to a step function (`Step`, `Launched`, `Absorb`, `Snapped` and so
on); the properties over runs are lemmas about that function. Loops of the
source are loops here. A step function is held to two kinds of lemma: what it
never does, over every run, and what it brings about, stated over inputs and
observable results and not through the function itself.

## What the proofs found

Some promises hold only under a condition. The code is modelled as it is, and
the condition is proved exact: it holds if and only if the promise does. Where
the failing side is a run or an input of its own, one is given.

* A pass of elision can be undone from the files exactly when results elided to
  one file have one output (`Elision.PassIsLosslessIff`). Calls share a file when
  their ids name one path, as `a` and `./a` do (`Elision.DottedIdSharesFile`); ids
  without a slash never do (`Elision.PlainIdsHaveOwnFiles`).
* The file does not say whether it held a string or the JSON value that the string
  spells (`Elision.FileDoesNotShowKind`). The outputs of a history can be read back
  exactly when no string among them spells the JSON of another
  (`Elision.DecoderExistsIffNoStringSpells`).
* Between requests the SDK's messages carry a placeholder without its mark. A pass
  keeps every result recoverable exactly when the placeholders before its boundary
  are within its threshold (`Recovery.PassKeepsRecoverableIff`), and without the
  lossy pass the same is exact for whole runs of requests
  (`Recovery.RoundsKeepRecoverableIff`). A longer placeholder is elided again, and
  its text replaces the output in the file (`Recovery.LongPlaceholderLosesOutput`).
* `recentBoundary` never separates a call from a result, whatever is kept recent,
  exactly when no cut between the two is safe
  (`Pairing.BoundaryNeverSeparatesIff`). A tool message without any result between
  them makes one safe (`Pairing.EmptyToolMessageSeparates`).
* The lossy pass keeps every answered call answered exactly when the kept head
  answers its own calls (`Answering.CondensedAnsweredIff`); a `keepFirst` that cuts
  right behind a call sends the call without its result
  (`Answering.HeadBehindCallLosesResult`). The same is exact for whole requests and
  for runs of them (`AnsweredRequests.RoundsAnsweredIff`).
* In a single edit, `$$`, `$&`, `` $` `` and `$'` in the new text are expanded by
  `String.prototype.replace` (section 22.1.3.19 of ECMA-262). The new text goes in
  literally for every file exactly when it has none of these four patterns
  (`Edits.InsertedLiterallyIffNoPattern`).
* Snapshots are named by the millisecond. An overwrite loses none of a file's kept
  contents exactly when the name of its snapshot is free, or what that name held is
  the file's contents, the new ones, or in another checkpoint of the file
  (`Checkpoints.OverwriteLosesNothingIff`). Two overwrites in one millisecond lose
  the first contents (`Checkpoints.SameMillisecondLoses`).
* Two files share a checkpoint directory exactly when their paths are the same up
  to leading slashes, or one is all slashes and the other is `root`
  (`Checkpoints.SameDirectoryIff`).
* `LineBuffer` is lossless for every cut of a stream exactly when no line exceeds
  the limit (`LineBuffer.LosslessIffNoLongLine`).
* A further `start` of the supervisor is harmless, whatever comes of it and
  whatever happens next, exactly when a child is held or no restart is pending
  (`Sidecar.StartIsHarmlessIff`). Otherwise a start that succeeds ends with two
  children (`Sidecar.StartDuringRestartDoubles`), and one that fails allows a sixth
  launch (`Sidecar.FailingStartDuringRestartOverruns`).
* A server published as running has a process at every point of a run exactly when
  every ready line of the current generation is read while a process is held
  (`Sidecar.RunningIsHeldIff`).
* Reasoning read back from the SDK has lost its provider and is dropped as
  foreign, so a fitting history goes out unchanged exactly when it carries no
  reasoning, or the vendor is the placeholder that reasoning gets when it is read
  back (`Pipeline.FittingHistoryUnchangedIff`).
* Live and stored histories stay together throughout a run exactly when every
  message comes from its thread's current agent, if there is one, and neither a
  message nor a deletion falls into an opening of its thread
  (`Sessions.ResumeAgreesWithLive`). After any other step some session differs from
  its rows or has no thread, at once or when its opening ends
  (`Sessions.StepKeepsAgreementIff`); a turn that outlives the deletion of its
  thread is such a run (`Sessions.LateAnswerEntersReopenedThread`).
* The billed dollars of a session exceed the metered ones by exactly what failed
  turns cost, of the session's own agent and of its scouts and reviewers, the
  uncached input that the summed report of a turn no longer shows, the scouts that
  throw or whose research call cannot write its report files, and all images. The two are
  equal exactly when none of this has a price (`Billing.BilledIsMeteredIff`); three
  runs that bill three dollars and meter none are `Billing.NotMetered`.
* A turn is recorded at its end, so it can overshoot the spend ceiling by more than
  a step (`Overshoot.OvershootIsNotOneStep`). Once a turn may proceed none of its
  steps is stopped, whatever they cost (`Overshoot.AllStepsPass`), so it stays within
  its last step of the limit exactly when the dollars before that step had not
  reached it (`Overshoot.OneStepBoundIff`). Turns of one session may overlap: the
  overshoot is less than the dollars of the turns in progress when the limit was
  reached (`Overshoot.OvershootIsTurnsInProgress`), which is one turn when they do
  not (`Overshoot.OvershootIsOneTurn`) and more than any one when they do
  (`Overshoot.OverlapIsNotOneTurn`). Nothing bounds what failed turns cost together
  (`Overshoot.FailedTurnsAreUnbounded`).

Three statements carry a premise that is enough and not shown to be needed. The undo
guarantees are about paths in normal form, which are exactly those that
normalising leaves alone (`Checkpoints.FilePathIsNormal`); a path with dot segments
can name a checkpoint (`Checkpoints.CheckpointHasAlias`). Recovery over requests
with the lossy pass asks placeholders to fit that the pass may drop
(`Recovery.RoundsKeepRecoverable`). Preparing what was sent again and again stops
compacting when every text that elision can put in the place of a result is within
the threshold (`Settling.RequestsSettle`); when texts are longer, some conversations
compact for ever (`Settling.NeverSettles`).

## Model

| member | source | states |
|---|---|---|
| `Condenser.RecentBoundary` | packages/core/src/condenser.ts:186-208 | the loop returns the greatest index up to `max(0, n - keepRecent)` that is 0 or has no result at it and no call just before it |
| `Condenser.ElideToolOutputs` | packages/core/src/condenser.ts:105-145 | returns the elided history, its writes in order, and whether anything changed |
| `Condenser.ElideParts` | packages/core/src/condenser.ts:113-140 | exactly the results over the threshold that were not elided before become placeholders and are written |
| `Condenser.SummariseMiddle` | packages/core/src/condenser.ts:148-175 | at least two middle messages become one summary, fewer are left alone |
| `Condenser.Condense` | packages/core/src/condenser.ts:57-99 | partition, lossless pass, lossy pass only when still over budget, sizes and strategy before and after |
| `Condenser.NothingElided` | packages/core/src/condenser.ts:105-145 | without a write the history comes back as it was, so the change flag is exact |
| `Passes.SelectsOneByOne` | packages/core/src/condenser.ts:67-70 | messages are taken out one by one, in order |
| `Passes.SelectsByFlag` | packages/core/src/condenser.ts:67-70 | each exactly when its pinned flag is the one asked for |
| `Passes.ElidedPartByPart` | packages/core/src/condenser.ts:105-145 | exactly the results before the tail whose output exceeds the threshold and is not yet elided are replaced, keeping call, tool and error flag; every other part and every message frame is as it was |
| `Passes.WritesAreBulky` | packages/core/src/condenser.ts:105-145 | one write for each of those results |
| `Passes.PlaceholderTells` | packages/core/src/condenser.ts:130-135 | a placeholder determines the size that was taken out and the path it went to |
| `Passes.FittingIsUntouched` | packages/core/src/condenser.ts:61-65 | a history within the budget comes back as it is and writes nothing |
| `Passes.LosslessPassSuffices` | packages/core/src/condenser.ts:72-99 | when elision brings it within the budget, or nothing can be summarised, the result is exactly pinned and elided messages |
| `Passes.LossyPassFollows` | packages/core/src/condenser.ts:81-99 | otherwise it is exactly pinned messages, head, one summary of the middle between, and tail |
| `Passes.SizesAreReported` | packages/core/src/condenser.ts:57-99 | the sizes before and after are those of the input and of the result |
| `Pairing.WellFormedIffPaired` | packages/core/src/condenser.ts:177-208 | the indexed meaning of "every result follows its call with only results between" agrees with a left-to-right scan |
| `Pairing.CondensedWellFormed` | packages/core/src/condenser.ts:57-175 | condensing keeps every result behind its call, for all options |
| `Pairing.SummarisedPaired` | packages/core/src/condenser.ts:148-175 | the lossy pass alone keeps the pairing, wherever `keepFirst` cuts |
| `Pairing.BoundaryKeepsPairsTogether` | packages/core/src/condenser.ts:177-208 | a call and a result with only results between are on the same side of the boundary |
| `Pairing.BoundaryNeverSeparatesIff` | packages/core/src/condenser.ts:177-208 | for any call and any result behind it: together for every `keepRecent` exactly when each cut between has a result behind it or a call before it |
| `Pairing.EmptyToolMessageSeparates` | packages/core/src/condenser.ts:186-216 | a history in which a tool message without results makes the boundary separate a pair |
| `Answering.SummarisedAnsweredIff` | packages/core/src/condenser.ts:148-175 | the lossy pass keeps answered calls answered exactly when the kept head answers its own |
| `Answering.CondensedAnsweredIff` | packages/core/src/condenser.ts:57-175 | the same for the whole condenser: also when the lossy pass does not run |
| `Answering.HeadBehindCallLosesResult` | packages/core/src/condenser.ts:148-175 | a history and a `keepFirst` that send a call without its result |
| `Answering.ScanIsAnswered` | packages/core/src/condenser.ts:148-175 | answered calls by index agree with a left-to-right scan of what is owed |
| `AnsweredRequests.PreparedAnsweredIff` | packages/core/src/agent.ts:256-319 | a request leaves answered calls answered exactly when the lossy pass does not run or the head it keeps answers its own |
| `AnsweredRequests.RoundsAnsweredIff` | packages/core/src/agent.ts:256-319 | the runs of requests that are answered throughout are exactly those whose kept heads are |
| `Compaction.CompactionProgresses` | packages/core/src/condenser.ts:57-175 | a round that compacts lowers messages plus unelided results |
| `Compaction.CompactionTerminates` | packages/core/src/condenser.ts:57-175 | condensing its own output stops compacting within that many rounds |
| `Settling.RequestProgresses` | packages/core/src/agent.ts:256-319 | a request that compacts lowers messages plus results over the threshold, and none raises them |
| `Settling.RequestsSettle` | packages/core/src/agent.ts:256-319 | preparing what was sent again stops compacting within that many requests, when the texts of elision fit |
| `Settling.NeverSettles` | packages/core/src/condenser.ts:105-145 | a threshold below every placeholder: each request compacts, for ever |
| `Compaction.ElidedMeasure` | packages/core/src/condenser.ts:105-145 | the lossless pass lowers the measure by exactly the number of its writes |
| `Compaction.ElisionNeverRaises` | packages/core/src/condenser.ts:105-145 | elision never raises the estimate when placeholders are no longer than the threshold |
| `Compaction.SummarisedTokens` | packages/core/src/condenser.ts:148-175 | after the lossy pass the estimate is exactly pinned, head, summary and tail |
| `Tokens.EstimateTokens` | packages/core/src/tokens.ts:25-54 | the nested loop computes the sum of the per-message estimates |
| `Tokens.TokensAppend` | packages/core/src/tokens.ts:25-36 | the estimate is additive over concatenation |
| `Tokens.TokensOfPartition` | packages/core/src/condenser.ts:67-70 | the pinned and unpinned parts together cost what the whole costs |
| `Tokens.EstimateFollowsWeight` | packages/core/src/tokens.ts:25-89 | four times the estimate is the characters that are sent, and sixteen a message, rounded up part by part; an image weighs 12,000 characters and another attachment 40,000 |
| `Elision.PassStandsFor` | packages/core/src/condenser.ts:105-145 | one pass leaves a history whose placeholders all have their output on file, whatever order the writes complete in |
| `Elision.ElisionIsLossless` | packages/session/src/manager.ts:393-402 | over any number of passes of the condenser on its own messages, with any options and write orders, reading the files back gives the whole history |
| `Elision.PassIsLosslessIff` | packages/session/src/manager.ts:393-402 | one pass is lossless exactly when outputs elided to one file agree |
| `Elision.PlainIdsHaveOwnFiles` | packages/session/src/manager.ts:395-402 | call ids without a slash have files of their own |
| `Elision.DottedIdSharesFile` | packages/session/src/manager.ts:395-402 | every id shares its file with its dotted form |
| `Elision.FileDoesNotShowKind` | packages/session/src/manager.ts:395-402 | a string and the JSON value it spells are written alike, so no decoder serves both |
| `Elision.DecoderExistsIff` | packages/session/src/manager.ts:395-402 | a decoder exists exactly when no two different outputs are written alike, as for any way of writing |
| `Elision.DecoderExistsIffNoStringSpells` | packages/session/src/manager.ts:395-402 | for JSON that tells its values apart: exactly when no string output spells what another output is written as |
| `Elision.ElidingTwiceIsOnce` | packages/core/src/condenser.ts:105-145 | the tail is untouched, and a second pass writes and changes nothing |
| `Artifacts.CountOwnSignatures` | packages/gateway-model/src/artifacts.ts:135-145 | the loop counts the signed reasoning parts of the provider |
| `Artifacts.StripForeignReasoning` | packages/gateway-model/src/artifacts.ts:55-72 | drops exactly the reasoning of other vendors and counts it, keeping everything else in order |
| `Artifacts.StrippingKeepsOwnSignatures` | packages/gateway-model/src/artifacts.ts:55-95 | stripping never loses a signature of the target |
| `Artifacts.PrepareForProvider` | packages/gateway-model/src/artifacts.ts:82-133 | always returns the stripped messages: the replay guard never fires |
| `Artifacts.StrippedIsSameIff` | packages/gateway-model/src/artifacts.ts:55-72 | nothing changes exactly when no part is foreign |
| `Artifacts.SameProviderIff` | packages/gateway-model/src/artifacts.ts:150-166 | providers are the same exactly when their vendors are in lower case, whatever the model, with Google under three names |
| `Artifacts.KeptPartByPart` | packages/gateway-model/src/artifacts.ts:55-72 | each part is kept or dropped on its own, and the order stays |
| `Artifacts.OwnSignaturesPartByPart` | packages/gateway-model/src/artifacts.ts:135-145 | a part counts when it is reasoning of the target with a signature that is not empty |
| `Adapter.ToModelMessage` | packages/core/src/adapter.ts:27-67 | one message becomes one SDK message or none, by role |
| `Adapter.ToModelMessages` | packages/core/src/adapter.ts:27-67 | the loop converts all messages in order and drops those without content |
| `Adapter.ModelMessageRetraction` | packages/core/src/adapter.ts:86-208 | one message sent, read back and sent again is the same message |
| `Adapter.SendIsRetraction` | packages/core/src/adapter.ts:27-315 | sending what was read back from what was sent gives the same messages, for every history |
| `Adapter.MessageArrives` | packages/core/src/adapter.ts:27-67 | a message sends nothing exactly when no part can be sent in its role; otherwise one SDK message which, read back, has all those parts in order, equal in text, call, tool, input, output and attachment |
| `Adapter.HistoryArrives` | packages/core/src/adapter.ts:27-208 | the same for whole histories: every message with something to send arrives, in order |
| `Adapter.SurvivesIffCanonical` | packages/core/src/adapter.ts:86-208 | an SDK message that is read and sent again is the same exactly when it is in the form this code sends |
| `Adapter.SentIsCanonical` | packages/core/src/adapter.ts:27-67 | everything sent is in that form: lone texts as strings, images as images, answers wrapped by the kind of their value |
| `Adapter.OtherFormsAreRead` | packages/core/src/adapter.ts:86-275 | strings, bare outputs, unreadable content and images without a type are read as text, output, note and PNG |
| `Pipeline.PrepareStep` | packages/core/src/agent.ts:256-319 | the budget check comes first; then read back, condense, filter, convert, with the writes of the lossless pass |
| `Pipeline.WellFormedModelIff` | packages/core/src/adapter.ts:86-166 | the pairing of SDK messages is the pairing of what they are read back as |
| `Pipeline.SentPaired` | packages/core/src/adapter.ts:27-67 | converting, which drops empty messages, keeps the pairing |
| `Pipeline.PreparedWellFormed` | packages/core/src/agent.ts:256-319 | what one request sends is paired when what the SDK holds is, for all options and vendors |
| `Pipeline.RoundsWellFormed` | packages/core/src/agent.ts:256-319 | the same over any number of rounds, each appending paired messages |
| `Pipeline.ReadReasoningIsForeign` | packages/core/src/adapter.ts:86-166 | read-back parts are foreign exactly when they are reasoning and the vendor is not the placeholder |
| `Pipeline.FittingHistoryUnchangedIff` | packages/core/src/agent.ts:256-319 | a history sent before that fits goes out unchanged exactly when it has no reasoning (or the vendor is the placeholder) |
| `Pipeline.RequestCarries` | packages/core/src/agent.ts:256-319 | one request carries exactly the messages of the condensed and stripped history that have something to send, part by part |
| `Recovery.RoundKeepsRecoverable` | packages/core/src/agent.ts:256-319 | one request keeps every result it sends recoverable, through read-back, both passes, filter and conversion, when the placeholders its pass looks at fit |
| `Recovery.RoundsKeepRecoverable` | packages/core/src/agent.ts:256-319 | the same over any number of requests, each with options, vendor and write order of its own |
| `Recovery.PassKeepsRecoverableIff` | packages/core/src/condenser.ts:105-145 | a pass keeps every result recoverable exactly when the placeholders before its boundary are within its threshold |
| `Recovery.LongPlaceholderLosesOutput` | packages/core/src/condenser.ts:113-140 | a longer one is elided again, and neither its text nor the file gives the output back |
| `Recovery.RoundsKeepRecoverableIff` | packages/core/src/agent.ts:256-319 | without the lossy pass, all stays recoverable throughout a run of requests exactly when its placeholders fit |
| `Recovery.PlaceholderKeepsFileIff` | packages/core/src/condenser.ts:113-140 | a placeholder that was read back keeps its file exactly when it is within the threshold |
| `Sidecar.SidecarController.Start` | apps/mac-shell/Sources/MacShell/SidecarController.swift:59-65 | the new state is the step `Start`: nothing when a process is held, else a fresh budget and a launch |
| `Sidecar.SidecarController.RestartNow` | apps/mac-shell/Sources/MacShell/SidecarController.swift:69-82 | cancels, resets the budget, and launches or terminates first |
| `Sidecar.SidecarController.StopBlocking` | apps/mac-shell/Sources/MacShell/SidecarController.swift:89-115 | signals, waits, kills if needed, and lets go of everything |
| `Sidecar.SidecarController.Launch` | apps/mac-shell/Sources/MacShell/SidecarController.swift:119-210 | failing to resolve, failing to run, or a child of a new generation with its watchdog |
| `Sidecar.SidecarController.HandleReadyLine` | apps/mac-shell/Sources/MacShell/SidecarController.swift:233-251 | only a line of the current generation counts |
| `Sidecar.SidecarController.HandleExit` | apps/mac-shell/Sources/MacShell/SidecarController.swift:253-298 | old generations are ignored; a stop ends or relaunches; a crash counts and backs off or gives up |
| `Sidecar.SidecarController.OnWatchdog` | apps/mac-shell/Sources/MacShell/SidecarController.swift:202-210 | terminates a child that is not running in time |
| `Sidecar.SidecarController.OnRestartTimer` | apps/mac-shell/Sources/MacShell/SidecarController.swift:253-298 | an armed restart timer fires once and launches |
| `Sidecar.SidecarController.OnKillTimer` | apps/mac-shell/Sources/MacShell/SidecarController.swift:302-315 | a delayed SIGKILL reaches only a running child of its own generation |
| `Sidecar.SidecarController.BeginTermination` | apps/mac-shell/Sources/MacShell/SidecarController.swift:302-315 | SIGTERM to the held child and a delayed SIGKILL for its generation |
| `Sidecar.BackoffGrows` | apps/mac-shell/Sources/MacShell/SidecarController.swift:392-394 | delays start at 0.4 s, never shrink and never exceed 8 s |
| `Sidecar.StepKeepsInv` | apps/mac-shell/Sources/MacShell/SidecarController.swift:59-315 | every event of a supervised run keeps the invariant of controller and world |
| `Sidecar.AtMostOneChild` | apps/mac-shell/Sources/MacShell/SidecarController.swift:59-315 | in every interleaving at most one child is alive, it is the held one, and signals reach only the live child of the generation that armed them |
| `Sidecar.NeverStuckStarting` | apps/mac-shell/Sources/MacShell/SidecarController.swift:119-298 | "starting" has a child or a pending exit, "restarting" has an armed timer |
| `Sidecar.AtMostFiveLaunches` | apps/mac-shell/Sources/MacShell/SidecarController.swift:253-298 | without a user restart or a 30 s healthy run at most five launches ever happen |
| `Sidecar.LaunchesBetweenResets` | apps/mac-shell/Sources/MacShell/SidecarController.swift:253-298 | the bound holds between any two resets of the budget |
| `Sidecar.StaleCallbackDoesNothing` | apps/mac-shell/Sources/MacShell/SidecarController.swift:190-315 | a callback of another generation changes nothing but its own pending entry |
| `Sidecar.StoppedHasNoChild` | apps/mac-shell/Sources/MacShell/SidecarController.swift:89-115 | after `stopBlocking` no child is alive or held, and its signals were well aimed |
| `Sidecar.StopIsTerminal` | apps/mac-shell/Sources/MacShell/SidecarController.swift:89-115 | no later callback or timer launches anything |
| `Sidecar.StartIsHarmlessIff` | apps/mac-shell/Sources/MacShell/SidecarController.swift:59-65 | a further `start` keeps one child and five launches in every continuation, for every outcome, exactly when a child is held or no restart is pending |
| `Sidecar.StartDuringRestartDoubles` | apps/mac-shell/Sources/MacShell/SidecarController.swift:59-65 | in every other state a start that succeeds is followed by a second child |
| `Sidecar.FailingStartDuringRestartOverruns` | apps/mac-shell/Sources/MacShell/SidecarController.swift:59-65 | in every other state a start that fails, to resolve or to run, is followed by six launches on one budget |
| `Sidecar.AtMostOneChildWithStarts` | apps/mac-shell/Sources/MacShell/SidecarController.swift:59-315 | the safety and launch bounds hold with any number of such starts |
| `Sidecar.SecondStartBreaksIt` | apps/mac-shell/Sources/MacShell/SidecarController.swift:59-65 | such a state is reached: a run from the first start with two children at once |
| `Sidecar.LateReadyLine` | apps/mac-shell/Sources/MacShell/SidecarController.swift:233-251 | a current ready line publishes a running server, with a process exactly when one is held |
| `Sidecar.RunningIsHeldIff` | apps/mac-shell/Sources/MacShell/SidecarController.swift:233-298 | running means a held process throughout a run exactly when no current ready line comes late |
| `Supervision.StartLaunches` | apps/mac-shell/Sources/MacShell/SidecarController.swift:59-65 | a start without a child launches one of a new generation on a fresh budget, or publishes why not |
| `Supervision.RestartLaunches` | apps/mac-shell/Sources/MacShell/SidecarController.swift:69-82 | a restart without a child launches at once, whatever was pending |
| `Supervision.RestartTerminates` | apps/mac-shell/Sources/MacShell/SidecarController.swift:69-82 | a restart asks a live child to stop, once, and arms the delayed kill |
| `Supervision.StubbornChildIsKilled` | apps/mac-shell/Sources/MacShell/SidecarController.swift:302-315 | a child that ignores it gets SIGKILL when the delay is over |
| `Supervision.RestartRelaunches` | apps/mac-shell/Sources/MacShell/SidecarController.swift:253-264 | from every state with a child: restart, death and exit end with a new child, held, watched and starting, after one more launch |
| `Supervision.StopSignals` | apps/mac-shell/Sources/MacShell/SidecarController.swift:89-115 | the blocking stop sends exactly SIGTERM, and SIGKILL to a child that does not obey |
| `Supervision.CommandAfterStopLaunches` | apps/mac-shell/Sources/MacShell/SidecarController.swift:59-82 | a command after a stop launches as if nothing had been stopped |
| `Supervision.ExitAfterStopIsIdle` | apps/mac-shell/Sources/MacShell/SidecarController.swift:253-264 | the exit that comes after a stop ends in idle and launches nothing |
| `Supervision.CrashIsAnswered` | apps/mac-shell/Sources/MacShell/SidecarController.swift:266-298 | an unrequested exit is retried after its delay until the fifth failure in a row, which is published for good, with the reason |
| `Supervision.RestartTimerLaunches` | apps/mac-shell/Sources/MacShell/SidecarController.swift:288-297 | the armed timer launches on the budget that is left |
| `Supervision.CrashIsFollowedByLaunch` | apps/mac-shell/Sources/MacShell/SidecarController.swift:253-298 | a child that dies within the budget is replaced |
| `Supervision.HealthyRunForgives` | apps/mac-shell/Sources/MacShell/SidecarController.swift:266-276 | the next failure is the first one again exactly after thirty seconds from the ready line |
| `Supervision.BackoffDoubles` | apps/mac-shell/Sources/MacShell/SidecarController.swift:390-394 | the delay doubles with every failure from 0.4 s up to 8 s |
| `Supervision.ReadyIsPublished` | apps/mac-shell/Sources/MacShell/SidecarController.swift:244-251 | a ready line in time publishes the server and calls the watchdog off |
| `Supervision.SilenceIsTerminated` | apps/mac-shell/Sources/MacShell/SidecarController.swift:200-209 | a child that is not running when its watchdog fires is asked to stop, and the reason is kept |
| `Supervision.WatchdogSparesRunning` | apps/mac-shell/Sources/MacShell/SidecarController.swift:200-209 | a watchdog that fires on a running server lets it run |
| `Supervision.StartingIsWatched` | apps/mac-shell/Sources/MacShell/SidecarController.swift:119-298 | throughout every supervised run a starting child is watched, has been timed out, or is being stopped |
| `Supervision.CallbacksAreUsedUp` | apps/mac-shell/Sources/MacShell/SidecarController.swift:190-315 | a callback or timer that is not pending does nothing, and one that is fires once |
| `Split.PiecesConcat` | apps/web/app/page.tsx:412-415 | splitting in two steps: only the last piece can still grow |
| `Split.JoinPieces` | packages/session/src/tools-edit.ts:72-74 | joining the pieces with the separator gives the text back |
| `Split.SplitCountIsUpperBound` | packages/session/src/tools-edit.ts:135-138 | no family of disjoint occurrences is larger than the split count |
| `Split.SplitCountIsReached` | packages/session/src/tools-edit.ts:135-138 | some family of disjoint occurrences is as large |
| `Sse.Printer.Send` | apps/web/app/api/chat/route.ts:51-58 | one frame while open, none after a failed write |
| `Sse.PrintTurn` | apps/web/app/api/chat/route.ts:51-69 | a connected client gets one frame per event and then the end frame |
| `Sse.ReadSse` | apps/web/app/page.tsx:404-431 | the reading loop delivers what splitting the whole stream at once delivers, however it is cut |
| `Sse.HandleFrames` | apps/web/app/page.tsx:416-428 | the inner loop skips empty and malformed frames and stops at the end frame |
| `Sse.StreamRoundTrip` | apps/web/app/page.tsx:404-431 | printing events and reading the stream in any chunks gives exactly the events before the end frame |
| `Sse.PayloadOfAnyFrame` | apps/web/app/page.tsx:416-421 | the payload of a frame is what stands behind `data:`, whatever white space surrounds it; a frame without any has none |
| `Sse.FrameByFrame` | apps/web/app/page.tsx:416-428 | a frame without a payload or with a malformed one counts for nothing, an event is delivered in its place, the end frame ends it |
| `LineBuffer.Buffer.Append` | apps/mac-shell/Sources/MacShell/SidecarLaunch.swift:225-237 | returns the complete lines, keeps the rest, and never holds more than the limit |
| `LineBuffer.Buffer.Drain` | apps/mac-shell/Sources/MacShell/SidecarLaunch.swift:240-245 | returns the unfinished line once |
| `LineBuffer.ReadPipe` | apps/mac-shell/Sources/MacShell/SidecarController.swift:212-229 | all reads and the final drain give the decoded lines of the stream function |
| `LineBuffer.StreamIsLossless` | apps/mac-shell/Sources/MacShell/SidecarLaunch.swift:225-245 | without an over-long line no cut changes the lines |
| `LineBuffer.LosslessIffNoLongLine` | apps/mac-shell/Sources/MacShell/SidecarLaunch.swift:225-245 | every cut is lossless exactly when no line exceeds the limit |
| `LineBuffer.PrintedLinesArrive` | apps/mac-shell/Sources/MacShell/SidecarLaunch.swift:225-256 | however the stream is cut, every printed line arrives decoded and without the carriage return that may end it |
| `Edits.CountIsGreatest` | packages/session/src/tools-edit.ts:135-138 | the count is the greatest number of pairwise disjoint occurrences |
| `Edits.ReplaceAllBySelf` | packages/session/src/tools-edit.ts:72-74 | replacing a text by itself changes nothing |
| `Edits.ReplaceAllWithout` | packages/session/src/tools-edit.ts:72-74 | a text without the needle stays as it is |
| `Edits.ReplaceAllAtFirst` | packages/session/src/tools-edit.ts:72-74 | the first occurrence is replaced, and what is behind it as if it stood alone |
| `Edits.ReplaceAllLength` | packages/session/src/tools-edit.ts:72-74 | the length changes by the difference of the texts for every counted occurrence |
| `Edits.EditIsRefusedIff` | packages/session/src/tools-edit.ts:40-70 | which edits are refused and why, by where the old text occurs, and what the others report |
| `Edits.ExpandAtDollar` | packages/session/src/tools-edit.ts:72-74 | what stands for each of the four patterns (section 22.1.3.19 of ECMA-262), and that any other dollar sign is itself |
| `Edits.SingleOccurrence` | packages/session/src/tools-edit.ts:44-74 | with one occurrence, what both branches make of prefix, occurrence and suffix |
| `Edits.InsertedLiterallyIffNoPattern` | packages/session/src/tools-edit.ts:72-74 | the branches agree on every file exactly when the new text has no replacement pattern |
| `Checkpoints.DecodeInverts` | packages/session/src/checkpoints.ts:106-108 | the escaped name decodes to the path, and has no slash |
| `Checkpoints.SameDirectoryIff` | packages/session/src/checkpoints.ts:96-108 | when two files share a checkpoint directory |
| `Checkpoints.FilePathIsNormal` | packages/workspace/src/paths.ts:33-38 | the paths of the undo guarantees are exactly the normal ones |
| `Checkpoints.CheckpointHasAlias` | packages/workspace/src/local.ts:68-72 | outside normal form every checkpoint has other names |
| `Checkpoints.Workspace.Snapshot` | packages/session/src/checkpoints.ts:38-51 | copies an existing file under the name of its time, and nothing else |
| `Checkpoints.Workspace.ListCheckpoints` | packages/session/src/checkpoints.ts:54-70 | all checkpoints of the file, each once, latest first |
| `Checkpoints.Workspace.Restore` | packages/session/src/checkpoints.ts:73-94 | snapshots, then writes the chosen or latest checkpoint back, or fails and changes nothing |
| `Checkpoints.Workspace.WriteFile` | packages/session/src/tools.ts:67-94 | a denied overwrite changes nothing, an allowed one is snapshotted first |
| `Checkpoints.Workspace.EditFile` | packages/session/src/tools-edit.ts:36-91 | refuses or snapshots and writes the edited text |
| `Checkpoints.StepPreserves` | packages/session/src/checkpoints.ts:38-94 | one write, edit or undo keeps every content on record |
| `Checkpoints.NothingIsLost` | packages/session/src/checkpoints.ts:38-108 | after any run, whatever a file held is its contents or one of its own checkpoints |
| `Checkpoints.EditThenUndo` | packages/session/src/checkpoints.ts:72-94 | an overwriting write or edit, undone, gives the original |
| `Checkpoints.UndoTwice` | packages/session/src/checkpoints.ts:72-94 | a second undo gives back the contents before the first |
| `Checkpoints.EveryVersionComesBack` | packages/session/src/checkpoints.ts:38-94 | over any run, undoing to the checkpoint of an overwrite gives back what was overwritten, at any later time |
| `Checkpoints.UndoOfChosen` | packages/session/src/checkpoints.ts:73-94 | naming a checkpoint of the file gives back that one; any other name changes nothing |
| `Checkpoints.UndoOfNone` | packages/session/src/checkpoints.ts:73-94 | naming none gives back a latest one |
| `Checkpoints.StepTouchesItsFile` | packages/session/src/tools.ts:67-94 | a call writes its own file and its snapshot, and nothing else |
| `Checkpoints.WriteTakesEffect` | packages/session/src/tools.ts:67-94 | an approved write or a new file takes effect, a refused one changes nothing |
| `Checkpoints.ListedIffRightBelow` | packages/session/src/checkpoints.ts:54-70 | the checkpoints of a file are exactly the files right below its directory |
| `Checkpoints.OverwriteLosesNothingIff` | packages/session/src/checkpoints.ts:38-51 | an overwrite keeps all kept contents of the file exactly when its snapshot's name is free or what it held is kept otherwise |
| `Checkpoints.SameMillisecondLoses` | packages/session/src/checkpoints.ts:44-48 | a run within one millisecond that loses contents |
| `Approvals.ApprovalGate.RequestApproval` | packages/session/src/approvals.ts:69-117 | a granted scope allows at once, everything else waits |
| `Approvals.ApprovalGate.Resolve` | packages/session/src/approvals.ts:130-142 | true exactly when the id waits, and only then settles it |
| `Approvals.ApprovalGate.OnTimeout` | packages/session/src/approvals.ts:82-85 | denies the request if it still waits |
| `Approvals.ApprovalGate.RevokeScope` | packages/session/src/approvals.ts:125-127 | withdraws a grant and nothing else |
| `Approvals.ApprovalGate.DenyEverything` | packages/session/src/approvals.ts:152-154 | the loop denies every waiting request |
| `Approvals.SettledAtMostOnce` | packages/session/src/approvals.ts:69-154 | in every run no request is settled twice, and none waits and is settled |
| `Approvals.NobodyIsForgotten` | packages/session/src/approvals.ts:69-154 | in every run the waiting and the settled requests together are exactly those made |
| `Approvals.PendingIffWaits` | packages/session/src/approvals.ts:69-154 | a request waits from its own event, unless a grant covers it, up to the first event that decides it |
| `Approvals.SettledIffDecided` | packages/session/src/approvals.ts:69-154 | a covered request is allowed at once; any other is settled by the first answer, timer or shutdown that reaches it, allowed exactly by an allowing answer |
| `Approvals.SettlementsStay` | packages/session/src/approvals.ts:69-154 | a settlement is never changed later |
| `Approvals.GrantedIff` | packages/session/src/approvals.ts:97-127 | the granted scopes are exactly those consented to and not revoked since |
| `Approvals.AllowedIffEarned` | packages/session/src/approvals.ts:69-154 | a request is allowed exactly by an answer to it, or by a grant in force when it is made |
| `Approvals.OnlyDenials` | packages/session/src/approvals.ts:82-85 | timers and shutdown only deny, and shutdown leaves nothing waiting |
| `Walk.DrainIsBreadthFirst` | packages/subagents/src/tools.ts:172-202 | the queue visits level by level |
| `Walk.DrainMeetsListing` | packages/subagents/src/tools.ts:172-202 | the queue visits the files of the recursive listing, each once |
| `Walk.WalkTree` | packages/subagents/src/tools.ts:172-202 | terminates; visits a prefix of at most `maxFiles` files, all of those unless stopped |
| `Walk.VisitEntries` | packages/subagents/src/tools.ts:190-200 | the inner loop queues the directories not skipped and visits the files within budget |
| `Walk.Visitor.Visit` | packages/subagents/src/tools.ts:101-130 | the callback adds the hits of one file up to the cap, is marked truncated exactly when the cap was reached before all had been looked at, and stops the walk when full |
| `Walk.Collect` | packages/subagents/src/tools.ts:101-159 | both tools return the first `maxResults` hits of the first `maxFiles` files, and are truncated exactly when the cap was reached before all of those had been looked at |
| `Walk.EveryHitIsFound` | packages/subagents/src/tools.ts:101-159 | a hit is collected exactly when some line of some file is one |
| `Walk.FilesOneByOne` | packages/subagents/src/tools.ts:101-130 | the hits of files come one file after the other |
| `Walk.CompleteWalk` | packages/subagents/src/tools.ts:172-202 | within budget, the files visited are those of the recursive listing, each exactly once |
| `Walk.MetIffReached` | packages/subagents/src/tools.ts:32-42 | the walk meets exactly the files below the root through directories that can be listed and have none of the eight names left out |
| `Paths.RenderRoundTrip` | packages/workspace/src/paths.ts:33-38 | a normalised path reads back as its segments |
| `Paths.NormalIffSegments` | packages/workspace/src/paths.ts:33-38 | normalising leaves a path alone exactly when it is slashes and segments |
| `Paths.InsideIffPrefix` | packages/workspace/src/paths.ts:55-63 | the string test holds exactly when the root's segments come first |
| `Paths.AcceptedIff` | packages/workspace/src/paths.ts:17-47 | accepted exactly without null byte and when the target begins with the root; the result is inside |
| `Paths.ShallowDotsAccepted` | packages/workspace/src/paths.ts:17-47 | an input whose `..` never outruns its depth is accepted at its own normal form |
| `Paths.WorkspacePathRoundTrip` | packages/workspace/src/paths.ts:107-110 | the reported path of a file inside is its segments below the root, and resolves to the file again |
| `Paths.RelativeLeadsThere` | packages/workspace/src/paths.ts:107-110 | the relative path between any two absolute paths leads from the one to the other |
| `Paths.AbsoluteIgnoresBase` | packages/workspace/src/paths.ts:17-47 | an absolute path resolves to its own normal form, whatever the base |
| `Paths.InsideIsBelow` | packages/workspace/src/paths.ts:55-63 | every path inside is the root and segments below it |
| `Money.PriceAdd` | packages/protocol/src/cost.ts:50-98 | pricing is additive over usage |
| `Money.TimesIsProduct` | packages/protocol/src/cost.ts:83-98 | a count at a price is their product |
| `Money.PriceIsTariff` | packages/protocol/src/cost.ts:83-98 | a price is the tariff per million tokens: input, cache writes and reads at their multiples of it, output, and searches by the call; reasoning is not charged again |
| `Money.EveryTokenIsBilled` | packages/gateway-model/src/meter.ts:15-37 | every reported token is in one bucket: without an uncached count the three input buckets make up the reported input |
| `Money.StepBucketsVsTotal` | packages/gateway-model/src/meter.ts:15-37 | over a turn every bucket adds up, and the uncached input can only be less in the total |
| `Money.StepsCoverTurn` | packages/core/src/agent.ts:341-352 | step prices add up to at least the turn's price, exactly so when every step reports uncached tokens |
| `Money.Meter.Record` | packages/gateway-model/src/meter.ts:83-86 | both totals grow by the cost |
| `Money.Meter.StartRun` | packages/gateway-model/src/meter.ts:89-91 | only the run total is reset |
| `Money.BudgetGuard.AssertCanProceed` | packages/gateway-model/src/budget.ts:58-67 | the run limit is tested first, then the session limit |
| `Money.BudgetGuard.TrippedIff` | packages/gateway-model/src/budget.ts:69-91 | tripped, a zero remainder and full utilisation coincide |
| `Money.BudgetGuard.SpentAndRemaining` | packages/gateway-model/src/budget.ts:79-91 | spent and remaining make up each limit, and the utilisation is the greater of the two fractions |
| `Money.VerdictNamesScope` | packages/gateway-model/src/budget.ts:58-67 | a refusal names a scope that reached its limit, with its numbers, the run first |
| `Money.TotalsAreSums` | packages/gateway-model/src/meter.ts:79-91 | the session total is the sum of all records, the run total that of those since the run started |
| `Money.SinceCheckIsSum` | packages/gateway-model/src/budget.ts:49-67 | the dollars that the bound allows for are those recorded since the last check that passed |
| `Money.DriveGuard` | packages/gateway-model/src/gateway.ts:99-171 | a guard and its meter go through exactly the states of the run function |
| `Money.OvershootIsBounded` | packages/gateway-model/src/budget.ts:49-67 | recorded totals stay below their limit plus what was recorded since a check last passed, and the run below the session |
| `Money.SessionLimitIsFinal` | packages/gateway-model/src/budget.ts:58-67 | once the session limit is reached no later check passes |
| `Overshoot.OvershootIsTurnsInProgress` | packages/gateway-model/src/budget.ts:49-67 | over any interleaving of turns, what is recorded or pending stays below the limit plus the dollars of the turns in progress when it was reached |
| `Overshoot.OvershootIsOneTurn` | packages/gateway-model/src/budget.ts:49-67 | when turns do not overlap, plus the dollars of one turn |
| `Overshoot.OverlapIsNotOneTurn` | apps/web/app/api/chat/route.ts:60-64 | for every limit, two overlapping turns that exceed it by more than either |
| `Overshoot.AllStepsPass` | packages/core/src/agent.ts:256-259 | whatever its steps cost, none is stopped once a turn may proceed |
| `Overshoot.OvershootIsNotOneStep` | packages/gateway-model/src/budget.ts:49-57 | for every limit, a turn that overshoots it by more than any of its steps |
| `Overshoot.OneStepBoundIff` | packages/gateway-model/src/budget.ts:49-57 | so a turn stays within its last step of the limit exactly when the dollars before that step were below it |
| `Overshoot.FailedTurnsAreUnbounded` | packages/core/src/agent.ts:423-452 | any number of failed turns passes the check |
| `Overshoot.LimitRefuses` | packages/gateway-model/src/budget.ts:58-67 | a reached limit refuses the next step of every turn and every new turn, and nothing else does |
| `Overshoot.OneMoreStepEach` | packages/core/src/agent.ts:256-259 | once the session limit is reached no turn begins and each finishes at most the step it is in, over every interleaving |
| `Overshoot.EventsCount` | packages/core/src/agent.ts:341-452 | where the dollars of steps, scouts, ended and failed turns are counted: billed, pending, recorded or lost |
| `Billing.BilledIsMeteredIff` | packages/core/src/agent.ts:341-434 | billed less metered dollars over turns, research, reviews and images are exactly what goes unrecorded; nothing does exactly when every spending is whole or free |
| `Billing.ScoutSplits` | packages/subagents/src/scout.ts:139-163 | a scout's price is what it reports and what its own meter never saw |
| `Billing.NotMetered` | packages/subagents/src/spawn-tool.ts:95-131 | a failed turn, a scout that fails, and a scout whose report cannot be written: three dollars each, none metered |
| `Billing.Ledger.Emit` | packages/session/src/manager.ts:263-270 | exactly one row for `cost.updated` while the thread is there, and no row otherwise |
| `Billing.Ledger.EmitSteps` | packages/core/src/agent.ts:341-352 | the prices shown add up to the price of the steps, and neither meter nor rows change |
| `Billing.Ledger.Turn` | packages/core/src/agent.ts:341-434 | a run starts, steps are priced for show, a completed turn is recorded once in meter and rows, a failed one not at all; the run total is then that of the turn |
| `Billing.Ledger.SpawnScout` | packages/subagents/src/scout.ts:85-163 | a scout runs on a meter of its own and reports that meter's total |
| `Billing.Ledger.RunResearch` | packages/subagents/src/spawn-tool.ts:69-143 | scouts run, reports are written, and only then every scout goes into the meter once and their dollars into one row |
| `Billing.Ledger.RunReview` | packages/session/src/tools-documents.ts:239-272 | a review that reports is recorded in meter and rows alike |
| `Billing.RecordsAreMetered` | packages/subagents/src/spawn-tool.ts:128-141 | what goes into the meter one by one and what goes to the rows are the same dollars |
| `Billing.FailureLeavesNoRow` | packages/core/src/agent.ts:423-452 | how many records and rows each kind of spending leaves: none on failure, not even one of zero dollars |
| `Billing.Ledger.Spend` | packages/session/src/manager.ts:263-270 | one spending: meter and rows grow by its metered dollars, and no other thread's rows change |
| `Billing.Ledger.SpendAll` | packages/session/src/manager.ts:263-270 | over any run of turns, research and reviews the meter grows by the metered dollars, and the rows by the same while the thread is there |
| `Billing.LedgerEqualsMeter` | packages/session/src/manager.ts:263-270 | a session with the deletion of its thread: rows and meter agree up to it, and then differ by exactly what was metered since |
| `Store.RowsDecideMessages` | packages/store/src/schema.ts:50-62 | rows numbered without a gap determine every thread's messages |
| `Store.RowsOfAppend` | packages/store/src/store.ts:155-190 | numbering on from the last row appends to the thread's list and to no other |
| `Store.DeletionTakesItsOwnSpend` | packages/store/src/store.ts:148-233 | deleting a thread takes exactly its own spend off the total |
| `Store.DeletionSparesOthers` | packages/store/src/store.ts:148-153 | no other thread's cost rows change |
| `Store.SumOfParts` | packages/store/src/store.ts:224-233 | a sum of rows is the sum of its parts, down to the single row |
| `Store.Store.CreateThread` | packages/store/src/store.ts:70-95 | a blank id and a taken id are refused, otherwise an empty thread appears |
| `Store.Store.DeleteThread` | packages/store/src/store.ts:148-153 | removes the thread with all its rows and no others |
| `Store.Store.NextSeq` | packages/store/src/store.ts:158-162 | the maximum plus one is the number of rows |
| `Store.Store.AppendMessages` | packages/store/src/store.ts:155-190 | all messages go in behind the others, or none when the thread is missing |
| `Store.Store.LoadMessages` | packages/store/src/store.ts:192-208 | the rows in order of their numbers are the thread's messages |
| `Store.Store.RecordCost` | packages/store/src/store.ts:210-214 | one row, refused for a missing thread |
| `Store.Store.SumCosts` | packages/store/src/store.ts:224-233 | the left fold is the sum of the rows |
| `Store.Store.ThreadCost` | packages/store/src/store.ts:216-218 | the sum of the thread's own rows |
| `Sessions.StepKeepsAgreementIff` | packages/session/src/manager.ts:217-490 | an orderly step keeps live and stored histories together; after any other some session is apart from its rows, at once or when its opening ends |
| `Sessions.DisorderlyDeletionLosesMessage` | packages/session/src/manager.ts:462-475 | a deletion inside an opening: the next message is remembered and stored nowhere |
| `Sessions.ResumeAgreesWithLive` | packages/session/src/manager.ts:217-490 | the runs in which every live session agrees with its rows throughout are exactly the orderly ones |
| `Sessions.RowsAreWhatWasSaid` | packages/session/src/manager.ts:371-390 | the rows of a thread that is not deleted are those it had and everything said since, once each and in order |
| `Sessions.AgentsRememberWhatTheyHeard` | packages/core/src/agent.ts:188-198 | an agent remembers what it was made with and everything it heard, until the server restarts |
| `Sessions.OpeningGoesLive` | packages/session/src/manager.ts:217-240 | opening ends with a live session whose history is the rows of the thread, made on first sight |
| `Sessions.ThreadsComeAndGo` | packages/session/src/manager.ts:462-490 | threads come and go by their own commands only, and a restart keeps them all |
| `Sessions.RestartRestoresHistory` | packages/session/src/manager.ts:217-240 | restarting and opening again gives the history the live agent had |
| `Sessions.LateAnswerEntersReopenedThread` | packages/session/src/manager.ts:462-475 | an answer that outlives its thread lands in the thread reopened under its id |
| `Sessions.OverlappingOpensSplit` | packages/session/src/manager.ts:217-428 | two overlapping first requests, and a turn of the first caller that the live session misses |
| `Sessions.SessionManager.BeginOpen` | packages/session/src/manager.ts:217-240 | a blank id is refused, a live session reused, otherwise the thread is made on first sight and loaded |
| `Sessions.SessionManager.EndOpen` | packages/session/src/manager.ts:427-428 | the session goes into the map |
| `Sessions.SessionManager.Deliver` | packages/session/src/manager.ts:371-390 | the history grows first, then the row is stored or refused |
| `Sessions.SessionManager.Send` | packages/core/src/agent.ts:188-198 | the question is stored at once, the answer only when the turn completes |
| `Sessions.SessionManager.DeleteThread` | packages/session/src/manager.ts:462-475 | session, thread and exactly the thread's rows go |

## Left out

- Lengths are counted in Dafny characters, not UTF-16 code units; `toLowerCase`, UTF-8 decoding and `JSON.parse` are parameters.
- A JSON value is its compact and its indented text; values that `JSON.stringify` refuses or cannot print are not modelled.
- Promises: a tool call, a persist call and a store call are single steps; only the orders named in the lemmas (persist calls, openings, turns, timers, callbacks) interleave.
- Events for the user interface, except the costs that the ledger reads.
- Model providers and the SDK's own loop; `resolveAttachments` is not part of `Adapter`, and neither are `toInstructions` and the pin.
- The supervisor's pipes, log tail, stdin handshake and Keychain; its generation counter is unbounded, where the source wraps at 64 bits.
- Launch environment and ready-line parsing in `SidecarLaunch.swift` and `parseReadyLine`.
- Files named by a path that is not in normal form: the store here is keyed by the path given, where the workspace resolves it first.
- Directories of the workspace: a file store maps paths to contents, and a listing of one checkpoint directory is the set of files right below it.
- `assertRealPathInRoot` and symbolic links; Windows paths; roots that are relative to the working directory.
- Regular expressions, globs and binary detection in the scout tools: a parameter says which lines of a file hit.
- The walk reads one unchanging finite tree; the order of `list` is the order of the children.
- Billing.Ledger.RunResearch: the row carries dollars only, as the source's own delta does, so token buckets of research are not compared.
- Recovery.RoundsKeepRecoverable: outputs that the lossy pass or the SDK drops altogether are outside it.
- Provider charges for a step that never finishes; whether an image's tool call ends in a file.
- Elided outputs whose call id steps out of the workspace: the persist call fails, and the request with it.
- Floating-point rounding: dollars are reals. Provider payloads behind `serverWebSearches` are a count per step.
- Billing.LedgerEqualsMeter: the deletion falls between spendings, and the thread is not made again under the same id; cost rows of a reopened thread are not modelled.
- Titles, model aliases and time stamps of threads, schema migration, and rows written by older builds.
- Sessions.SessionManager.DeleteThread: the files of the deleted workspace and the approvals it denies are not part of this step.
- Token storage, connectors, MCP, document building and the React user interface.
