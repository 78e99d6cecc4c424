# StateFork in Dafny

StateFork keeps versions of a running environment. A *physical* snapshot stores
a full backend image; a *virtual* snapshot stores only the commands run since
its parent. Restoring a virtual snapshot walks up to the nearest physical
ancestor, starts that image and replays the commands on the way down. This
project models that manager, the policies that choose the kind of a snapshot,
the benchmark log, the interactive shell, the timeline file and the size texts,
and proves what they promise.

## How it is organised

| file | content |
|---|---|
| `Prelude.dfy`, `Text.dfy`, `Decimal.dfy` | optional values, ranks; lines and stripping; digits, three-decimal numbers, snapshot ids |
| `SnapshotTree.dfy` | the snapshot graph, the walk to the nearest physical ancestor, the graph update |
| `Deciders.dfy`, `Benchmark.dfy` | the snapshot policies; the log and its class |
| `ManagerModel.dfy` | the state machine of the manager on values: one function per operation |
| `EnvManager.dfy` | the manager as an object that updates its fields in place, each method tied to `ManagerModel` |
| `Soundness.dfy` | the shape kept by every operation of every run, exactly when the live state keeps up with it, and the promise of `restore` |
| `Reference.dfy` | the simple machine of full copies that every manager refines, whatever its policy |
| `Policy.dfy`, `Accounts.dfy` | replay-cost bounds; the log as an account of the run |
| `Kinds.dfy`, `Journal.dfy` | which snapshots are physical under each policy; every entry of the log of a run |
| `Limits.dfy` | exact conditions, concrete failures, and clocks that make runs fresh |
| `TreePrint.dfy` | the printed tree and reading it back |
| `Timeline.dfy`, `TimelineRoundTrip.dfy` | the timeline writer and reader, and their round trip |
| `Sizes.dfy`, `Statistics.dfy` | size texts; statistics of the log |
| `Shell.dfy` | typed lines as runs of the manager |

## What is assumed

- The environment is a value of an arbitrary type `S`. What a command does to it,
  its reply and its time depend only on the state and the command (`World.run`),
  and times are non-negative reals.
- Everything the program draws from outside is a parameter: the random policy's
  coin, the clock, the backend's new id and time or its failure (`Luck`), and the
  outcome of starting an image (`Launch`). A failed start leaves any state at all;
  the container backend removes the old container before it starts the new one.
- A run is *fresh* when each new id is unused. Starts may fail in a fresh run and
  leave any environment behind. Shape, registry, log and the promise of `restore`
  are proved for all fresh runs. Freshness is needed: `TreeSurvivesIffIdIsNew` and
  `WalksEndIffIdIsOffTheWalk` say exactly what a repeated id breaks, and
  `GoodClocksMakeRunsFresh` shows that distinct clock readings inside one window of
  10^7 milliseconds and distinct UUIDs are enough.
- A run is *legal* when it is fresh and each failed start left the environment
  alone; then every state is sound. No result about runs needs that. Each says for
  all fresh runs exactly when it holds: by the soundness of the states in which
  snapshots are taken (`RunRefines`, `EndToEnd`), or by what commands charge before
  and after a failed start (`CounterExactIff`, `ReplayStaysBelowIff`). Legal runs
  meet all these conditions (`LegalRunsSnapshotSoundly`, `LegalRunsStayBounded`).
  `NextSoundIff` says exactly when each operation leads to a sound state, and
  `RestoreSoundIff` that a successful restore always does.
- Reachable states are those of the shell's operations: snapshot, restore, step
  and cmd, from an attached manager. In a *sound* state the live environment is the
  one that replaying `last` and the pending log would give.

## Where the code and its documentation disagree

- `controller/README.md:48` says the threshold policy acts when the time *exceeds*
  the threshold; the code acts when it reaches it. The strict bound of
  `ReplayStaysBelowThreshold` depends on that.
- `controller/README.md:50` describes the counter as the time since the last
  physical snapshot. `restore` does not reset it, so the equality fails
  (`CounterOvershoots`); it survives a restore exactly when the counter was zero
  (`CounterExactAfterRestoreIff`), and `SlackLaw` gives the counter's exact law.
- Both bounds suppose that a command costs in its replay what it was charged. After
  a failed start that breaks the environment it need not: the command is charged
  for the broken environment and replayed from the image. So a virtual node can cost
  more than the threshold (`BrokenStartExceedsThreshold`) and the counter can be
  wrong without any restore (`BrokenStepMiscounts`). `ReplayStaysBelowIff` and
  `CounterExactIff` give the exact conditions; it is enough that no command charges
  less, or that all charge the same (`ReplayStaysBelowThreshold`,
  `CounterExactWithoutRestores`).
- A command that raises is logged and replayed but its time is never counted, so
  the threshold does not bound real replay time (`RaisingReplayExceedsThreshold`).
  Real time is counted time plus the time of raising commands
  (`TimeIsCountedOrRaised`), so a virtual node replays in less than the threshold
  exactly when its raising commands take less than the threshold minus its counted
  cost (`RealReplayBelowThreshold`).

## Model

| member | source | states |
|---|---|---|
| Soundness.RestoreReturnsToTheMoment | controller/base_env_manager.py:60-201 | In any well-shaped state take a snapshot of either kind, by `snapshot` or `step`, go on with any fresh run, whatever its failed starts leave behind, then restore it: the restore succeeds iff the backend does, the state after it is sound, and the live state is the one at the moment of the snapshot iff the snapshot was physical or that moment was sound. |
| Soundness.NextShaped | controller/base_env_manager.py:60-293 | Every shell operation with a fresh id keeps tree, registry and positions in order and changes the state of no older node, whatever a failed start does. |
| Soundness.NextSoundIff | controller/base_env_manager.py:60-293 | For each shell operation in any well-shaped state, sound or not, exactly when it leads to a sound state. |
| Soundness.NextSound | controller/base_env_manager.py:60-293 | Every legal shell operation keeps the invariant tying graph, images, position, pending log and live state, and changes the state of no older node. |
| Soundness.Run | interface/shell.py:75-150 | A fresh run keeps the shape in every state it reaches, a legal one the invariant too. |
| Soundness.SnapshotCapturesIff | controller/base_env_manager.py:60-125 | In any well-shaped state the new node stands for the live state, and the state after the snapshot is sound, iff the snapshot is physical or the state was sound. |
| Soundness.TreeStaysWellFormed | controller/base_env_manager.py:86-120 | After any fresh run: one physical root, earlier parents, children lists exactly the parent links in creation order, physical nodes without commands; no node removed or changed. |
| Soundness.RestoreEffect | controller/base_env_manager.py:136-201 | A restore of any node in any branch succeeds iff the node is known and the backend starts; it then has the node's state, position and an empty log, and adds the node's replay cost to the counter; otherwise only the live state can differ. |
| Soundness.RestoreSoundIff | controller/base_env_manager.py:136-201 | In any well-shaped state a restore of a known node leads to a sound state iff the start succeeds or its failure happens to leave the expected environment. |
| Soundness.RegistryAgreement | controller/container_env_manager.py:103-143 | In every state a fresh run reaches the registry holds exactly the physical ids, a known id fails only when the backend fails, and starting a virtual id changes nothing. |
| Soundness.StepSound | interface/shell.py:96-103 | `step` keeps the invariant and never moves the live state. |
| Soundness.CreateEnvSoundIff | controller/base_env_manager.py:215-236 | In a sound state, starting an environment keeps the invariant iff the id is not registered or the environment started (the image, or what a failure left) equals the live one; in any well-shaped state iff it equals the expected one. |
| Soundness.ImagesKeepTheirNames | controller/container_env_manager.py:103-123 | After any fresh run every new physical snapshot is registered under the prefix, a colon and its id, and no older registration changed. |
| Soundness.StartMeans | controller/container_env_manager.py:127-143 | An id that is unknown or without an image name is refused untouched; a known one leaves its image live if the start succeeds, and otherwise what the failure left. |
| Soundness.NothingRestoresAfterCleanup | controller/container_env_manager.py:145-152 | After cleanup every registered image and only those are gone, the graph stays, and no restore or start succeeds. |
| Kinds.NewNodeKind | decider/decider.py:27-56 | The node an operation adds is physical always, never, iff the coin fell so, or iff the counter had reached the threshold, as the policy has it; a physical one has the backend's id, an image and no commands, a virtual one a 'v' id, no image and the log. |
| Kinds.SnapshotReturns | controller/base_env_manager.py:60-125 | A snapshot returns a new id, last in creation order and the new position, unless it is physical and the backend fails; then it changes nothing. |
| Kinds.KindsOfRun | decider/decider.py:27-56 | At the end of any fresh run every node still has the kind that its policy chose from the counter before its snapshot and its coin, and has an image iff it is physical. |
| Kinds.AlwaysFalseNeverCommits | decider/decider.py:41-47 | Under the always-virtual policy no fresh run changes registry, store or the number of "snapshot" and "container" entries, and every new node is virtual. |
| Kinds.AlwaysTrueAlwaysCommits | decider/decider.py:33-39 | Under the always-physical policy every new node of a fresh run is physical, with an image and without commands. |
| SnapshotTree.ChainIsThePath | controller/base_env_manager.py:166-190 | The walk's reversed chain and end point are exactly the virtual path of parent links from a physical node to the node asked for. |
| SnapshotTree.PhysicalAncestorExists | controller/base_env_manager.py:173-175 | In a tree with a physical root the branch without a physical ancestor is unreachable. |
| SnapshotTree.AttachKeepsTree | controller/base_env_manager.py:111-115 | The graph update with a fresh id keeps the tree and preserves every older node. |
| Reference.NextSimulates | controller/base_env_manager.py:60-293 | One operation under any policy, with any failed start, is the steps of the machine of full copies that it stands for, iff a virtual snapshot it takes is taken in a sound state; tree, position, log and live state agree in any case. |
| Reference.RunRefines | controller/base_env_manager.py:60-293 | A fresh run, with any failed starts, refines a run of the machine of full copies, with the same live states and nodes, iff every virtual snapshot is taken in a sound state; then the replies are the same. |
| Reference.ReplyOfCommand | controller/base_env_manager.py:268-293 | The machine of full copies answers each command once, in order, with the return code, output and error text of its outcome in the live state, or with -1, no output and the exception's text. |
| Reference.ReplyOfUserCommand | controller/base_env_manager.py:268-293 | In any fresh run each user command is answered once, in order, with those fields of its outcome in the live environment of that moment; replayed commands are not answered. |
| Reference.LegalRunsSnapshotSoundly | controller/base_env_manager.py:60-293 | In a legal run every snapshot, virtual or physical, is taken in a sound state. |
| Reference.SameEventsLookAlike | controller/README.md:35-46 | Two managers with different policies, clocks and ids to which the same happens, failed starts included, end looking alike and gave the same replies, if each took its virtual snapshots in sound states. |
| Reference.DeciderTransparency | controller/README.md:35-46 | Two managers with different policies, clocks and ids, given the same requests and no backend failure, end with the same live state, log, position and tree shape, and gave the same replies. |
| Reference.EndToEnd | controller/base_env_manager.py:108-201 | After any fresh run, with any failed starts, every node is what the user's own commands on its branch make of the base image iff every physical snapshot was taken in a sound state; then so is the live state, with the log, iff the end is sound. |
| Reference.AttachedSoundIff | controller/container_env_manager.py:103-108 | A manager attached to a running container refines the fresh machine of full copies and is sound iff that container is in the state of its base image. |
| Reference.BuiltIsSound | controller/container_env_manager.py:200-205 | A built container's manager is sound whatever ran before. |
| Policy.SlackLaw | controller/base_env_manager.py:67-201 | How far the counter runs ahead of the path cost plus the log cost, in any well-shaped state: moved by a command by what the live environment charges more than the expected one, nothing in a sound state; kept by virtual snapshots, zeroed by physical ones, and set to the old counter by a restore. |
| Policy.CounterExactIff | controller/README.md:50 | After any fresh run the counter equals the path cost of the position plus the cost of the log iff the run moved the slack to zero: what the last restore or physical snapshot left of it plus the gaps of the commands since. |
| Policy.CounterExactAfterRestoreIff | controller/base_env_manager.py:155-161 | After a restore the counter equals the path cost iff it was zero before. |
| Policy.CounterExactWithoutRestores | controller/README.md:50 | In fresh runs without restores whose commands charge what their replay will, the counter equals the path cost of the position plus the cost of the log. |
| Policy.NewNodeCost | controller/base_env_manager.py:98-108 | A new virtual node costs the counter minus the slack. |
| Policy.ReplayStaysBelowIff | decider/decider.py:49-56 | Under any policy, after any fresh run, every virtual node's counted replay cost is below a bound iff at each virtual snapshot of the run the counter was below the bound plus the slack. |
| Policy.ReplayStaysBelowThreshold | decider/decider.py:49-56 | Under the threshold policy, after any fresh run and any restores, every virtual node's counted replay cost is strictly below the threshold, if no command charged less than its replay will. |
| Policy.LegalRunsStayBounded | decider/decider.py:49-56 | In legal runs, whose failed starts leave the environment alone, both hold: the threshold bounds every virtual node, and without restores the counter is exact. |
| Policy.CountedIsRealIff | controller/base_env_manager.py:276-290 | Counted cost equals real replay time iff no replayed command raises after taking time. |
| Policy.TimeIsCountedOrRaised | controller/base_env_manager.py:276-290 | Real replay time is the counted cost plus the time of the commands that raise. |
| Policy.RealReplayBelowThreshold | controller/base_env_manager.py:192-196 | Under the threshold policy, after any fresh run, a virtual node replays in less real time than the threshold iff its raising commands take less than the threshold minus its counted cost; and in less than the threshold plus their time if every virtual snapshot was affordable, so if no command charged less than its replay will. |
| Accounts.RunBalanced | controller/benchmark.py:160-165 | In every state a fresh run reaches entry i has sequence i + 1, the "snapshot" entries are the physical nodes after the root in creation order, and "restore" entries name physical nodes. |
| Accounts.LedgerConservation | controller/base_env_manager.py:83-288 | Over any fresh run the log gains one entry per successful snapshot, restore and start, and one "exec" entry per user command and per replayed command. |
| Accounts.ReportCountsTheRun | controller/benchmark.py:209-228 | After any fresh run the statistics report counts one snapshot per registered image besides the root's, and for every operation the calls of the run, with their total time. |
| Journal.LogIsExact | controller/base_env_manager.py:83-288 | After any fresh run the log is what it was and then exactly the run's entries, in order, each with its operation, target and time: commands on the current position, starts on their ids, restores on the physical ancestor, and the replay's commands on the position being left. |
| Journal.TimeConservation | controller/benchmark.py:160-165 | Over any fresh run the logged time of each operation grows by exactly the times of its calls and replayed commands. |
| Accounts.RestoreLogged | controller/base_env_manager.py:187-196 | A restore writes one entry for the physical ancestor and one per replayed command, with the replay's time. |
| Accounts.ReplayIsBookedOnTheOldPosition | controller/base_env_manager.py:187-199 | Replayed commands are logged under the position being left. |
| Accounts.SnapshotsArePaidFor | controller/base_env_manager.py:70-96 | Under the threshold policy, after any fresh run, threshold times the number of "snapshot" entries plus the counter never exceeds the logged execution time. |
| Accounts.FreshManagerIsBalanced | controller/base_env_manager.py:32-47 | A fresh manager whose image exists meets the starting conditions of all bounds. |
| Limits.TreeSurvivesIffIdIsNew | controller/base_env_manager.py:100-115 | The graph update of a snapshot keeps the tree iff the new id is not in the graph. |
| Limits.WalksEndIffIdIsOffTheWalk | controller/base_env_manager.py:166-179 | After a snapshot the walk of `restore` from the new node ends, and so do the walks from all nodes, iff the snapshot is physical or its id is not one of the nodes on the walk up from its parent. |
| Limits.SelfParentNeverEnds | controller/base_env_manager.py:170-177 | The sharpest case: a virtual snapshot that repeats its parent's id is its own parent, and after any number of steps the walk is still there. |
| Limits.FailedRestoreSoundIff | controller/container_env_manager.py:133-141 | After a failed restore the state is sound iff the failure left the expected environment; every node still restores to its state; the next snapshot captures the live environment iff it is physical or the failure did no harm. |
| Limits.StrayStartMisplacesSnapshot | controller/base_env_manager.py:215-236 | After any start of a registered id, restoring the next virtual snapshot gives the state from before the start, and so the state it was taken in iff the environment started equals the live one. |
| Limits.CounterOvershoots | controller/README.md:50 | A legal run of two operations from a fresh manager, one command and one restore, after which the counter is one second and the path cost is zero. |
| Limits.RaisingReplayExceedsThreshold | controller/base_env_manager.py:278-284 | A legal run of two operations from a fresh manager with the default threshold of five, one raising command and one snapshot, after which the virtual node costs nothing and replays for ten seconds. |
| Limits.BrokenStartExceedsThreshold | controller/gvisor_env_manager.py:93-107 | A fresh run of three operations from a sound fresh manager with the default threshold of five, a failed restore, one command and one snapshot, after which the virtual node costs ten seconds. |
| Limits.BrokenStepMiscounts | controller/gvisor_env_manager.py:93-107 | A fresh run of two operations without restores from a sound fresh manager, a step whose start fails and one command, after which the counter is zero and the path and log cost ten seconds. |
| Limits.GoodClocksMakeRunsFresh | controller/base_env_manager.py:100 | Distinct milliseconds in one window of 10^7 and distinct UUID prefixes make every run fresh, whatever its starts do. |
| Limits.GoodClocksFromTheStart | controller/container_env_manager.py:97-108 | For a manager just attached to a container with one image, whose tag is no snapshot id, good clocks alone make every run fresh. |
| Decimal.VirtualIdText | controller/base_env_manager.py:100 | A virtual id is a 'v' and seven digits, the milliseconds modulo 10^7. |
| Decimal.RoundedTo | controller/benchmark.py:42 | Printing rounds to the nearest, and a tie to the even neighbour. |
| Decimal.Fixed3Text | scripts/benchmark_all.py:49 | A printed number is a minus sign if negative, the whole part without leading zeros, a dot and three digits. |
| Decimal.VirtualIdCollision | controller/base_env_manager.py:100 | Two virtual ids are equal iff their milliseconds agree modulo 10^7. |
| Decimal.VirtualIdsDistinct | controller/base_env_manager.py:100 | Distinct milliseconds in a window shorter than 10^7 give distinct ids. |
| Decimal.IdKindsDisjoint | controller/container_env_manager.py:116 | Virtual ids, physical ids and "base" never coincide. |
| Decimal.Fixed3Read | scripts/benchmark_all.py:49 | Reading a number printed with three decimals gives the value rounded to three decimals. |
| EnvManager.EnvironmentManager.constructor | controller/container_env_manager.py:97-108 | A new manager has one physical root "base" in graph and registry, under the name of the base image, stands on it, and has an empty log and a zero counter. |
| EnvManager.EnvironmentManager.Snapshot | controller/base_env_manager.py:60-125 | The object's new state and the returned id are those of the state machine, for either kind and for backend failure, also with a repeated id. |
| EnvManager.EnvironmentManager.AttachNode | controller/base_env_manager.py:111-115 | Storing the node object and appending to the parent object's children is the graph update on values. |
| EnvManager.EnvironmentManager.ExecCommand | controller/base_env_manager.py:268-293 | State, log entry and counter after a command, raising or not; the reply is the outcome's return code, output and error text, or -1, no output and the exception's text. |
| EnvManager.EnvironmentManager.WalkUp | controller/base_env_manager.py:166-179 | The loop ends and collects the chain leaf first, with the physical ancestor if there is one. |
| EnvManager.EnvironmentManager.ReplayAll | controller/base_env_manager.py:192-196 | The nested loops run the chain's commands in order. |
| EnvManager.EnvironmentManager.Restore | controller/base_env_manager.py:136-201 | Result and new state of `restore` on unknown, physical and virtual ids, with success and failure. |
| EnvManager.EnvironmentManager.CreateEnvFromSnapshot | controller/base_env_manager.py:215-236 | Result and new state of a start. |
| EnvManager.EnvironmentManager.CoreSnapshot | controller/container_env_manager.py:115-125 | A commit adds the image and its registry entry, a failure adds nothing. |
| EnvManager.EnvironmentManager.CoreCreateEnv | controller/container_env_manager.py:127-143 | Result and live environment of the backend's start are those of the state machine, as `Soundness.StartMeans` says them. |
| EnvManager.EnvironmentManager.Cleanup | controller/container_env_manager.py:145-152 | The loop removes every registered image and empties the registry. |
| EnvManager.EnvironmentManager.PrintNode | controller/base_env_manager.py:320-328 | The recursion ends and appends the lines of the subtree. |
| EnvManager.EnvironmentManager.PrintSnapshotTree | controller/base_env_manager.py:312-337 | The returned text is the heading "Snapshot Tree:" and the lines of all roots, each line as `TreePrint.TextIsPrinted` says, or the message for an empty graph. |
| TreePrint.LinesDetermineTree | controller/base_env_manager.py:320-337 | For each printed line the nearest earlier line with a smaller indent is the parent's, none for the root, and the lines it owns are its children in creation order. |
| TreePrint.EveryNodeOnce | controller/base_env_manager.py:320-337 | Every id of the graph is printed exactly once and nothing else is. |
| TreePrint.MarkedOnce | controller/base_env_manager.py:321-326 | Exactly one line is marked current, the current snapshot's, and one last, the last snapshot's, iff the two differ. |
| TreePrint.IndentIsDepth | controller/base_env_manager.py:320-328 | A node at depth d is printed with indent 1 + 2d. |
| TreePrint.TextIsPrinted | controller/base_env_manager.py:320-337 | The first line of the text is "Snapshot Tree:"; the line of a node at depth d is 1 + 2d spaces, "- ", its id, then " (current)" iff it is the current snapshot, " (last)" iff it is the last one and not the current, and nothing otherwise. |
| TreePrint.EveryNodeHasItsLine | controller/base_env_manager.py:320-337 | Every node of the tree has such a line in the text. |
| TreePrint.TextDeterminesTree | controller/base_env_manager.py:312-337 | Two trees that print the same text have the same nodes, parents, children order and marks. |
| Benchmark.BenchmarkStats.AddEntry | controller/benchmark.py:160-165 | The counter grows by one and the new entry carries it. |
| Timeline.TimelineManager.Flush | scripts/benchmark_all.py:36-40 | The file gets the cached lines in order and the cache is empty. |
| Timeline.TimelineManager.WriteAll | scripts/benchmark_all.py:29-52 | Whatever the flush pattern, the file holds the lines of the calls in call order. |
| Timeline.ParseTimelineFile | scripts/visualize_timeline.py:20-42 | The reader's loop computes the fold of its line rule, including the two exceptions it lets escape. |
| Text.LineEnds | scripts/visualize_timeline.py:25-26 | A line of a text file ends at its first line feed or carriage return. |
| Text.StripMiddle | scripts/visualize_timeline.py:27 | Stripping removes exactly the white space at both ends. |
| Timeline.SectionLine | scripts/visualize_timeline.py:30-32 | A line in brackets opens a section of that name without steps, whatever is between the brackets. |
| Timeline.CaptionLine | scripts/visualize_timeline.py:33-35 | A line that starts with '>' captions the text up to its first colon; without a colon the reader fails. |
| Timeline.CommentLine | scripts/visualize_timeline.py:27-29 | A comment and a blank line do nothing. |
| Timeline.StepLineRead | scripts/visualize_timeline.py:36-41 | Any other line with two commas is a step, split at the last two; outside a section the reader fails, a duration that is no number skips the line, and so do fewer commas. |
| Timeline.PutKeepsOrder | scripts/visualize_timeline.py:32 | Assigning to a key keeps the order of keys and adds a new one at the end. |
| Timeline.CommentsAreTransparent | scripts/visualize_timeline.py:27-29 | A file parses like its lines that are neither blank nor comments, so inserting such lines anywhere changes nothing. |
| TimelineRoundTrip.FileRoundTrip | scripts/visualize_timeline.py:20-42 | A whole file of carried calls with its header, appended to any terminated text, parses to what the text and the calls meant if the text ends inside a section or no step precedes the first one, and to KeyError otherwise, or to the exception the text raises already. |
| TimelineRoundTrip.WriteFile | scripts/benchmark_all.py:29-62 | The writer object, opened on existing text, writes header, default colours and the calls in order, with flushes anywhere. |
| TimelineRoundTrip.WriteThenRead | scripts/benchmark_all.py:29-62 | The round trip for the file that the writer object leaves, read by the reader's loop. |
| TimelineRoundTrip.DefaultLabelsRead | scripts/benchmark_all.py:54-62 | Each of the six default colours reads back with its name unless a later call captions it again. |
| TimelineRoundTrip.RoundTripIff | scripts/visualize_timeline.py:36-41 | For calls that lines can carry, after any lines before, the round trip holds if the reader is inside a section or no step precedes the first one; otherwise the reader raises KeyError. |
| TimelineRoundTrip.HeaderText | scripts/benchmark_all.py:25-27 | The three comment lines of a file, written out. |
| TimelineRoundTrip.SomeLines | scripts/benchmark_all.py:42-52 | A section, a compressed section, a step and a colour, written out as their lines. |
| TimelineRoundTrip.DefaultLines | scripts/benchmark_all.py:11-17 | The six default colour lines, written out, in the order of the enumeration. |
| TimelineRoundTrip.StepReadsIff | scripts/visualize_timeline.py:27-41 | Inside a section a step reads back, stripped and to three decimals and with commas in its name, iff its stripped name starts with neither `#` nor `>`. |
| TimelineRoundTrip.ColorReadsIff | scripts/visualize_timeline.py:33-35 | A colour line reads back after every parse so far iff its key has no colon; with a colon it fails already on an empty parse. |
| TimelineRoundTrip.SectionsInOrder | scripts/visualize_timeline.py:30-32 | The sections come back in call order, each with exactly its steps, iff no section key occurs twice; the current one is always the last opened. |
| TimelineRoundTrip.LastCaptionWins | scripts/visualize_timeline.py:33-35 | The last caption logged for a colour key is the one read, over earlier calls and earlier lines. |
| Sizes.HumanReadable | controller/benchmark.py:38-44 | The dividing loop prints the size in the largest fitting unit, to three decimals. |
| Sizes.HumanUnits | controller/benchmark.py:38-44 | Sizes below 1024 print as bytes, then over 1024, 1024^2 or 1024^3 as KB, MB or GB, with three decimals and a space. |
| Sizes.TieIsEven | controller/benchmark.py:42 | 1088 bytes, a tie at the third decimal, print as 1.062 KB. |
| Sizes.DecimalSize | controller/container_env_manager.py:57-76 | For digits a and b, not both empty, and a unit in either case, "a.b" and the unit read as the digits as one number, over ten to the number of decimals, times 1, 1024, 1024^2 or 1024^3, rounded down; what follows the unit is ignored. |
| Sizes.WholeSize | controller/container_env_manager.py:57-76 | Digits and a unit read as the number times the unit. |
| Sizes.RefusedSizes | controller/container_env_manager.py:62-66 | Texts without a leading number, without a unit after it, or whose number has two dots or no digit are refused. |
| Sizes.NamedSizes | controller/container_env_manager.py:60 | The three texts that the source names, "824.5MB", "56KB" and "1.2GB", as bytes. |
| Sizes.PrintThenParse | controller/container_env_manager.py:57-76 | A printed size without its space always parses, to the value `BytesBack`. |
| Sizes.RoundTripError | controller/container_env_manager.py:57-76 | The value that comes back is off by at most half a thousandth of the unit plus one byte, and exact below 1024. |
| Sizes.RoundTripMonotone | controller/benchmark.py:38-44 | A larger size never comes back smaller, across all units. |
| StatisticsReport.GetAllStatistics | controller/benchmark.py:209-228 | The loops give each operation of the log, and no other, the statistics of its times. |
| StatisticsReport.GroupsPartitionLog | controller/benchmark.py:214-216 | Group counts add up to the log's length and group totals to its total time. |
| StatisticsReport.ReportAgreesWithLog | controller/benchmark.py:214-216 | Count and total of each group are those that the log's own account gives. |
| StatisticsReport.GroupIsSubsequence | controller/benchmark.py:214-216 | Each group is the order-preserving subsequence of exactly its operation's entries. |
| StatisticsReport.StatisticsOrdered | controller/benchmark.py:219-228 | min <= median <= max and min <= mean <= max, and mean times count is the total. |
| StatisticsReport.ExtremesBound | controller/benchmark.py:225-226 | min and max occur in the group and bound it. |
| StatisticsReport.MedianIsTheMiddle | controller/benchmark.py:224 | For any sorted arrangement of the group, the median is the middle value, or the mean of the two middle ones if their number is even. |
| StatisticsReport.MedianSplits | controller/benchmark.py:224 | At least half of the group lies on each side of the median. |
| Shell.InteractiveShell | interface/shell.py:75-150 | A session leaves the manager where the run of its typed lines ends, cleaned up iff `exit` was typed. |
| Shell.LineMeaning | interface/shell.py:81-150 | A line that strips to `snapshot`, `step` or `exit` asks for just that, `set cmd off` and `set cmd on` switch the heading, `tree`, `stats`, `history`, `storage` and a bare prefix change nothing, and every other line without a keyword runs as stripped with the heading off and does nothing with it on. |
| Shell.PrefixedLine | interface/shell.py:87-110 | A line whose first word starts with `restore` or `cmd` restores or runs what follows its first space; other settings do nothing. |
| Shell.SessionOfActingLines | interface/shell.py:75-150 | A session of lines that each ask for something is one snapshot, step, restore or command per line, in order, up to the first `exit`, and exits iff that was typed. |
| Shell.QuietLine | interface/shell.py:112-143 | A setting or a line that changes nothing adds no operation to the session. |
| Shell.CommandByName | interface/shell.py:105-110 | Typing `cmd` and a text runs exactly that text, for every text that ends in no white space, under either heading setting. |
| Shell.RestoreByName | interface/shell.py:87-93 | Typing `restore` and an id restores that id for every id without white space, under either heading setting. |

## Left out

- Subprocess, docker, podman, criu, waypoint, gVisor, firecracker and ssh calls: their outcome is a parameter.
- What a real backend fails to capture in an image: `S` is whatever it captures.
- Exceptions raised inside a backend's snapshot or start: they are modelled as a failure of that call; that they also end the shell's loop is not.
- Command timeouts: replay drops them, so commands are taken without one.
- Float rounding: times and sizes are reals; printing rounds the exact value to the nearest, ties to even.
- Timeline.ParseTimelineFile: takes Python's `float` as a parameter; the round trip needs it only to agree with plain decimals (sign, digits, one dot), so exponents, inf, nan and underscores are whatever the parameter says.
- TimelineRoundTrip.FileRoundTrip: existing text must end its last line, as every line the writer writes does; a torn last line, which would swallow the first header line, is not described.
- Carriage returns in a timeline file end a line like newlines do; the pair counts as a line end and a blank line, which the reader skips.
- The text "<none>" that the log uses when there is no position is the absent target.
- Operation names of the log are an enumeration of the four strings the manager uses.
- Cleanup in the middle of a session, and callers that change a list-valued command after it was logged.
- `list_snapshots` lists the registry, hence physical ids only, and adds nothing to `RegistryAgreement`.
- Size calculators of the statistics report, `print_stats` and `print_history`: formatting of the same groups.
- The factory of managers, argument parsing, plotting, the HTTP benchmark loops and the sample applications: plumbing.
