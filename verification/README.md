# A verified model of the rejilla burning engine

This project models the hard core of librejilla-burn in Dafny and proves what it is supposed to guarantee.
`dafny verify dfyconfig.toml` checks all of it.

| file | what it models |
|---|---|
| `Flags.dfy` | flag words, media, result codes |
| `Plugins.dfy` | the flag pairs a plugin registers per medium, and queries over them |
| `Caps.dfy` | the capability graph: caps, links, compatible types |
| `BestLink.dfy` | the priority-driven search for the best chain of plugins |
| `FindLink.dfy` | the plain reachability search, and why the two searches agree |
| `GetFlags.dfy` | the walk that collects supported and compulsory flags |
| `Ways.dfy` | what that walk, and the answers for discs and blanking, come to, said by ways and plugins |
| `NewTask.dfy` | turning a chain into tasks, and when an erase task is inserted |
| `Registration.dfy` | the caps list as plugins register: links, copies, the two ways a caps is split |
| `ImageScan.dfy` | the scan that splits image caps while it re-sorts the list under its own cursor |
| `Pipeline.dfy` | jobs, pipes, activation, start and stop sweeps, whole runs, as functions and laws |
| `Roles.dfy` | what the jobs of new_task's tasks are asked to do |
| `Jobs.dfy` | the same jobs as a doubly linked chain of objects changed in place |
| `Tracks.dfy` | the session's list of tracks and the cursor of a task |
| `Average.dfy` | the sliding average packed into 32-bit integers |
| `MediumFlags.dfy` | the flags the engine answers for the disc in the burner: as it is, once blanked, and what drive and disc can do |
| `Consistency.dfy` | the correction of the session's flags before a burn |
| `Drives.dfy` | waiting, ejecting, asking, drive locks, as functions on the state of the burn |
| `Protocol.dfy` | checks, prompts, settings stack, tasks, recording, blanking, as functions on the state of the burn |
| `BurnLaws.dfy` | what holds over whole runs over the tasks, whole sessions, whole burns |
| `Burn.dfy` | the burn as an object changed in place, proved to do what those functions do and to obey those laws |
| `SmallTables.dfy`, `MergeRun.dfy`, `LostSourceRun.dfy`, `SimulatedRun.dfy` | three runs worked out in full, from plugin tables to the trace: two that go wrong, and one that goes well |
| `MergeAndBlank.dfy` | a session whose kept flags are refused together |
| `Grafts.dfy`, `GraftFiles.dfy` | the files handed to mkisofs, and their exact decoder |

Loops, searches and objects are methods and classes, as in the sources; each is proved against a function or a
predicate, and the laws are proved about those. Flag words are sets of their bits. Plugins, drives, the user and
system calls are parameters: lists and functions universally quantified, or a script of answers in `Drives.dfy`.

## How the laws relate to the code

Some claims one would like to make are false of the code. The model keeps the code as it is; a lemma gives the
case, another the exact condition.

- Starting a task again is not always safe. Stopping a job keeps its link (burn-job.c:844-921 never clears it), so
  if the next start fails before the pipes exist, the stop sweep follows the old link to a job without input.
  `Pipeline.RunBalancesIff` says of every run, whatever links are left over, when it comes out even and when it
  faults, and `Pipeline.StartedOnceMoreBalances` says so of the second start that run_tasks makes of each task.
  `Pipeline.SafeToStartIff` says when no world can make a start fault; `Pipeline.RunCanLeaveLink` and
  `Pipeline.SecondStartCanFault` are a run that leaves such a link and a second start that can fault for it.
- Splitting a caps that links to itself loses an edge (`Registration.SelfLinkLosesEdge`,
  `Registration.SplitPreservesMeaningIff`); copying two caps can create a self-link
  (`Registration.CopyingTwoLinksToItselfIff`).
- A job that is started again because ::start asked for it opens a second pipe over the first one. After n starts of
  a job that is not the first active one, 2(n-1) descriptors stay open, and none for the first
  (`Pipeline.RepeatedStartsLeak`). The job can write all the same, at every attempt
  (`Pipeline.EveryHandedJobCanWrite`).
- The plain search does not test the record flags of a session that asks for none (rejilla-caps-session.c:430-445), and
  asks different plugins of a link different questions, so it can find a way where the priority search has none
  (`FindLink.PlainFindsMore`); they agree both ways where one plugin passes all tests of its link
  (`FindLink.SearchesAgreeIff`).
- Dropping a redundant flag registration can hide a plugin from a query that checks compulsory flags, for whatever
  medium, exactly as `Plugins.RedundantDropHidesExactly` says.
- Fewer session flags never make more flags compulsory, except RAW in the answer for a disc: that happens exactly when
  the larger set of flags makes DAO compulsory, which takes RAW away (rejilla-caps-session.c:1646-1650), and the
  smaller one does not (`GetFlags.FewerFlagsForDisc`; `GetFlags.RawCanSurface` is a recorder for which it does).
- The flags that are kept one by one are not always answered together, because a failed answer leaves the flag set
  (rejilla-burn.c:1764-1842). `MergeAndBlank.KeptButNotTogether` is a session that keeps merging and blanking, which
  the engine refuses together; `Consistency.KeptTogetherIff` says exactly when what is kept is answered.
- A user who chooses to merge with the previous session can have the disc erased without having been asked about the
  data on it. The flags are checked again with merging among them, and if the engine knows how to merge only on the
  blanked disc, blanking becomes compulsory. `MergeRun.MergingErases` is such a run, from the plugin tables to the
  trace. It is the only way: a disc with content that is erased was checked in the same run over the tasks, and if it
  was going to be blanked then, its loss was agreed to right after; if not, nobody was asked about that, and the user
  chose to merge since (`BurnLaws.TasksEraseUnaskedIff`, and over a whole burn `BurnLaws.BurnErasesUnaskedIff`).
- Cancelling the eraser leaves one entry too many on the settings stack (rejilla-burn.c:2153-2154); every other exit
  restores it. A run ends like that exactly if the eraser ran in it and answered CANCEL, and then that was the last
  thing to happen (`BurnLaws.Tells`; `MergeRun.MergingErases` reaches it).
- A copy can leave the source drive locked. An image made on the way replaces the session's tracks
  (burn-task-ctx.c:361-398), so the session has no source drive any more; if the source is to be locked again after
  that, the burn forgets the drive it has locked (rejilla-burn.c:581). `Drives.LockSrcLosesIff` gives the condition,
  `BurnLaws.RecordUnlocks` says that with two drives nothing else is left locked save what refuses to be unlocked,
  and `LostSourceRun.SourceStaysLocked` is such a burn.
- A session that holds a track twice is walked through for ever (`Tracks.WalkEndsIff`); the tracks a task hands
  back do not all arrive unless they are distinct streams, or only one (`Tracks.AllArriveIff`).
- The grafts file reads back exactly if no path holds a newline (`Grafts.GraftsReadBackIff`,
  `GraftFiles.WriteToFiles`).
- A path is excluded from an image by a pattern in which every wildcard is escaped but the asterisk
  (burn-mkisofs-base.c:160-200), so it excludes nothing else exactly if there is none (`Grafts.ExcludesExactlyIff`).
- The search for processing plugins looks at the first node only (rejilla-caps-burn.c:264); the model does so
  too, so optimality of the chosen chain is claimed where no processing plugin is on.

The comment before the last pop in run_tasks (rejilla-burn.c:2252-2255) says that the used flags are kept; the code
restores the old ones, and so does the model.

## Model

| member | source | states |
|---|---|---|
| Plugins.EntryFor | librejilla-burn/burn-plugin.c:682-697 | the first registered entry whose media cover the medium, none before it does |
| Plugins.GetFlags | librejilla-burn/burn-plugin.c:682-697 | the lookup loop finds that entry |
| Plugins.GetAllFlags | librejilla-burn/burn-plugin.c:758-814 | the accumulating loop yields the union and masked intersection over the matching pairs |
| Plugins.UnionIsLeast | librejilla-burn/burn-plugin.c:758-814 | what is answered as supported is the least set holding every matching pair's |
| Plugins.MeetIsGreatest | librejilla-burn/burn-plugin.c:758-814 | what is answered as compulsory is the greatest set inside the mask and every matching pair's |
| Plugins.AllFlagsExact | librejilla-burn/burn-plugin.c:758-814 | a query is answered iff some pair supports the flags (and, if checked, has its compulsory ones set), with least upper and greatest lower bound |
| Plugins.FewerFlagsAnswerMore | librejilla-burn/burn-plugin.c:758-814 | fewer flags asked: still answered, more supported, less compulsory |
| Plugins.SetFlagsReal | librejilla-burn/burn-plugin.c:699-731 | registering prepends to the entry of the medium, or drops a redundant pair |
| Plugins.RegisteredIsFound | librejilla-burn/burn-plugin.c:699-731 | what was registered answers every later query within its supported flags |
| Plugins.RedundantDropIsInvisible | librejilla-burn/burn-plugin.c:699-731 | a dropped redundant pair changes neither the found result nor the supported set of an unchecked query |
| Plugins.RedundantDropHidesExactly | librejilla-burn/burn-plugin.c:699-731 | a checked query for any medium changes iff the same entry serves it and the dropped pair alone matches it |
| Plugins.RedundantDropCanHide | librejilla-burn/burn-plugin.c:699-731 | a concrete registration for which that happens |
| Caps.FindStartCaps | librejilla-burn/burn-caps.c:251-271 | the first caps in list order that can end a chain for the output |
| Caps.StartForMeans | librejilla-burn/burn-caps.c:251-271 | where a chain ends: the first caps compatible with the output that is a disc or takes files |
| Caps.CompatibleMeans | librejilla-burn/burn-caps.c:200-249 | a caps is compatible iff no bit that is wanted is missing, a disc is the very one, and a caps for video gets video |
| Caps.CompatibleTransitive | librejilla-burn/burn-caps.c:200-249 | compatibility is passed on |
| Caps.LinkActive | librejilla-burn/burn-caps.c:92-109 | a link is active iff some plugin on it is |
| Caps.LinkNeedDownload | librejilla-burn/burn-caps.c:111-140 | none iff a plugin works already or none could; else a best plugin held back by errors only |
| BestLink.PickIsBest | librejilla-burn/rejilla-caps-burn.c:81-147 | the plugin picked for a link is eligible, in the favoured group if any eligible one is, and of highest priority on its side |
| BestLink.EligibleIff | librejilla-burn/rejilla-caps-burn.c:93-120 | eligible iff the plugin is on without errors, the first entry for the medium has a pair that supports what is asked and demands nothing else, for record and for image flags, and it takes the medium |
| BestLink.LinkFindPlugin | librejilla-burn/rejilla-caps-burn.c:81-147 | the candidate loop computes that pick |
| BestLink.GetBestPath | librejilla-burn/rejilla-caps-burn.c:165-207 | keeps the path that is lexicographically better, the shorter when one is a prefix |
| BestLink.AtLeastTransitive | librejilla-burn/rejilla-caps-burn.c:165-207 | the comparison of paths is transitive |
| BestLink.AtLeastAntisymmetric | librejilla-burn/rejilla-caps-burn.c:165-207 | paths that beat each other have the same priorities |
| BestLink.HaveProcessingPlugin | librejilla-burn/rejilla-caps-burn.c:251-288 | looks at the first node of the list only |
| BestLink.CollectNodes | librejilla-burn/rejilla-caps-burn.c:325-398 | the candidate list holds exactly the followable links with their picks, highest priority first |
| BestLink.GetPluginResults | librejilla-burn/rejilla-caps-burn.c:218-249 | the search from behind a node, with the caps marked as used; BestLink.RouteKeepsToGroup says what group it keeps to |
| BestLink.RouteKeepsToGroup | librejilla-burn/rejilla-caps-burn.c:81-249 | along every route: the settled group is the one the search starts with, or else that of the first plugin that is in any; from then on a link takes a plugin of that group if an eligible one is of it, and the highest priority on its side; before, the highest priority of all |
| BestLink.FindBestLink | librejilla-burn/rejilla-caps-burn.c:290-527 | terminates on every graph; a result is a route avoiding the used caps that passes through no caps that fits already; none means there is no route; without modifiers no route has better priorities |
| BestLink.TryEqualPriorities | librejilla-burn/rejilla-caps-burn.c:455-527 | the tie-breaking stage keeps a route that is best among all |
| BestLink.RouteIsSimple | librejilla-burn/rejilla-caps-burn.c:290-527 | a route follows links of the graph from the start to a file-accepting caps compatible with the input, with active plugins, and meets no caps twice |
| BestLink.RouteIsChain | librejilla-burn/rejilla-caps-burn.c:290-527 | every route runs along a chain of usable links |
| BestLink.ChainCarriesRoute | librejilla-burn/rejilla-caps-burn.c:290-527 | every chain of usable links carries a route, whatever the group |
| BestLink.RoutesExistIffChainsDo | librejilla-burn/rejilla-caps-burn.c:290-527 | groups and priorities never decide whether there is a route |
| FindLink.LinkSomePlugin | librejilla-burn/rejilla-caps-session.c:394-486 | the three plugin loops of a link test: some active plugin accepts |
| FindLink.FindLink | librejilla-burn/rejilla-caps-session.c:562-659 | without callback OK iff the input can be reached; with one, OK still means it can |
| FindLink.EligibleIsOpen | librejilla-burn/rejilla-caps-session.c:394-486 | a plugin the priority search would use passes every test of the plain search |
| FindLink.RouteReaches | librejilla-burn/rejilla-caps-session.c:537-659 | a route of the priority search means the plain search reaches the input |
| FindLink.SearchesAgree | librejilla-burn/rejilla-caps-session.c:537-659 | both searches run on one session: a chain from the first means OK from the second, strict or lenient |
| FindLink.SearchesAgreeIff | librejilla-burn/rejilla-caps-session.c:394-659 | where on each link that passes one plugin passes all tests, the plain search reaches the input iff the priority search has a route |
| MediumFlags.SearchesAskAlike | librejilla-burn/rejilla-caps-session.c:537-560 | the plain search before a burn is asked the very question the priority search is asked for the same session; without the flag check it is asked for none |
| FindLink.PlainFindsMore | librejilla-burn/rejilla-caps-session.c:430-445 | a session that asks for no flags and a recorder that insists on DAO: the plain search says OK, the priority search has no route |
| GetFlags.LinkGetRecordFlags | librejilla-burn/rejilla-caps-session.c:326-363 | union of supported and intersection of compulsory record flags over the active plugins that answer |
| GetFlags.LinkGetDataFlags | librejilla-burn/rejilla-caps-session.c:365-392 | union of supported image flags over the active plugins |
| GetFlags.WalkFlags | librejilla-burn/rejilla-caps-session.c:1397-1514 | the recursive walk with its two reference parameters |
| Ways.LinkCounts | librejilla-burn/rejilla-caps-session.c:1419-1470 | a link is not skipped iff it leads somewhere, a plugin on it is on, and what is asked for, and what its input needs of a recorder, is supported; DAO for CUE and CDRDAO, RAW for CLONE |
| Ways.LinkGives | librejilla-burn/rejilla-caps-session.c:1364-1470 | such a link supports what some plugin on it does, save DAO for CLONE and RAW for other plain images; it demands what its input needs and what all plugins that answer demand, so the priority search would take that input with it |
| Ways.WalkAddsUp | librejilla-burn/rejilla-caps-session.c:1397-1514 | the walk supports what was supported and what some link of some way to the input supports; compulsory is what was so and every link of every way demands; data arrives by file or pipe iff it does over some way |
| GetFlags.RecordAnswerEases | librejilla-burn/rejilla-caps-session.c:326-363 | with fewer session flags a link supports more and demands less |
| GetFlags.OfLinkEases | librejilla-burn/rejilla-caps-session.c:1364-1395 | and it is not skipped if it was not with more flags, whatever the recorder's input demands |
| GetFlags.VisitAdds | librejilla-burn/rejilla-caps-session.c:1397-1514 | a walk only ever adds ways, support and freedom |
| GetFlags.FewerFlagsReachMore | librejilla-burn/rejilla-caps-session.c:1397-1514 | a subset of flags that reach the input reaches it too, with at least the support and at most the demands |
| GetFlags.FewerFlagsForDisc | librejilla-burn/rejilla-caps-session.c:1583-1663 | two walks for one disc that differ in the flags asked: with fewer the answer is not lost, support only grows, and nothing more becomes compulsory but RAW, and that iff the larger flags alone make DAO compulsory |
| GetFlags.LinkEases | librejilla-burn/rejilla-caps-session.c:1397-1514 | one link of a walk: skipped, fitting or followed, with fewer flags it adds at least as much and demands at most as much |
| GetFlags.RawCanSurface | librejilla-burn/rejilla-caps-session.c:1640-1655 | a recorder asked for nothing insists on RAW; asked for MULTI it insists on DAO, and RAW is not compulsory |
| GetFlags.CheckedIsSupported | librejilla-burn/burn-plugin.c:816-936 | a plugin that passes the flag check answers the flag query with those flags supported |
| GetFlags.ReachableHasFlags | librejilla-burn/rejilla-caps-session.c:1397-1514 | whatever find_link reaches, get_flags reaches, with any ways in and out that include the search's |
| GetFlags.WalkAnswersMore | librejilla-burn/rejilla-caps-session.c:1426-1447 | not conversely: compulsory flags stop the search, not the walk |
| NewTask.SortedRising | librejilla-burn/rejilla-caps-burn.c:529-565 | the modifiers are gone through by rising priority, none lost |
| NewTask.AddProcessingPlugins | librejilla-burn/rejilla-caps-burn.c:540-610 | every active modifier for the position gets a job, in that order: in the running task, in one new task, or in a task each |
| NewTask.ChosenAreSelected | librejilla-burn/rejilla-caps-burn.c:540-575 | exactly the active plugins meant for the position, each as often as it is there, by rising priority |
| NewTask.PlacingIsProcessing | librejilla-burn/rejilla-caps-burn.c:540-610 | such jobs change neither the chain jobs nor the action of the running task, and new tasks hold no chain job |
| NewTask.PureTaskIsItsGroup | librejilla-burn/rejilla-caps-burn.c:741-790 | without processing plugins a task is its group of chain jobs |
| NewTask.AssembleTasks | librejilla-burn/rejilla-caps-burn.c:741-790 | the jobs of all tasks are the path in input-to-output order, each with the next job's input as output type, grouped by pipe sharing; right before each job run exactly the active processing plugins of its caps, for preprocessing before the first and before the target before the others, with the type that arrives there |
| NewTask.FindPlan | librejilla-burn/rejilla-caps-burn.c:660-690 | a path iff the output is feasible, and a best one |
| NewTask.ChoosePlan | librejilla-burn/rejilla-caps-burn.c:668-740 | a best path for the medium as it is, or where there is none and blanking is allowed for the blanked one; none iff neither can be reached |
| NewTask.MakeTasks | librejilla-burn/rejilla-caps-burn.c:741-833 | the tasks carry out the path with every processing plugin in its place, those after the target last, each task with a job; an erase task, alone and last but one, iff there is an eraser |
| NewTask.NewTask | librejilla-burn/rejilla-caps-burn.c:612-833 | success iff the medium as it is, or blanked where that is allowed, can be reached; the tasks carry out a best path, and run every active processing plugin of its caps where it belongs, in shared or in separate tasks; an erase task iff only the blanked medium can be reached, alone and last but one |
| Registration.AddToLink | librejilla-burn/rejilla-caps-plugin.c:694-736 | a plugin joins the link to an input or gets a new one; nothing else changes |
| Registration.BurnCaps.DuplicateLinkList | librejilla-burn/rejilla-caps-plugin.c:160-171 | the copies of src's links stand in front of dest's, in reverse order |
| Registration.BurnCaps.ReplicateLinks | librejilla-burn/rejilla-caps-plugin.c:203-233 | dest gets src's links, and every other caps that leads to src leads to dest |
| Registration.BurnCaps.ReplicateTests | librejilla-burn/rejilla-caps-plugin.c:235-260 | every test that leads to src leads to dest |
| Registration.BurnCaps.ReplicateModifiers | librejilla-burn/rejilla-caps-plugin.c:186-201 | dest's modifiers are its own with those of src it lacked put in front, one by one |
| Registration.CopiedOnce | librejilla-burn/rejilla-caps-plugin.c:186-201 | copying makes no modifier come twice |
| Registration.OwnModifiersStay | librejilla-burn/rejilla-caps-plugin.c:186-201 | the own ones stay where they were; those in front are exactly src's that were missing |
| Registration.BurnCaps.CopyDeep | librejilla-burn/rejilla-caps-plugin.c:262-270 | dest takes over what leads from and to src and its modifiers; type and I/O of dest, src and every other caps stay |
| Registration.BurnCaps.CreateLinks | librejilla-burn/rejilla-caps-plugin.c:694-736 | exactly the links from output to each input gain the plugin; never a self-link |
| Registration.BurnCaps.DuplicateDeep | librejilla-burn/rejilla-caps-plugin.c:272-281 | the graph with src and its copy is the split graph |
| Registration.BurnCaps.SplitAs | librejilla-burn/rejilla-caps-plugin.c:298-317 | narrow, re-sort, copy, retype, insert: the split graph, with the list sorted and without repeats |
| Registration.BurnCaps.SplitIo | librejilla-burn/rejilla-caps-plugin.c:298-317 | the split of list_check_io |
| Registration.BurnCaps.SplitFormat | librejilla-burn/rejilla-caps-plugin.c:403-416 | the split of the image scan |
| Registration.SplitKeepsEdges | librejilla-burn/rejilla-caps-plugin.c:203-281 | without self-link, plugin edges between format and I/O cells are the same before and after |
| Registration.SplitKeepsTests | librejilla-burn/rejilla-caps-plugin.c:235-260 | so are the test edges |
| Registration.SplitKeepsModifiers | librejilla-burn/rejilla-caps-plugin.c:186-201 | so are the modifiers of every cell |
| Registration.SelfLinkLosesEdge | librejilla-burn/rejilla-caps-plugin.c:203-233 | with a self-link, an edge is lost |
| Registration.SplitPreservesMeaningIff | librejilla-burn/rejilla-caps-plugin.c:203-281 | a proper split preserves the meaning iff the caps has no self-link |
| Registration.FormatSplitMeaning | librejilla-burn/rejilla-caps-plugin.c:403-416 | that law for the format split |
| Registration.IoSplitMeaning | librejilla-burn/rejilla-caps-plugin.c:298-317 | that law for the I/O split |
| Registration.SplitAddsNoSelfLink | librejilla-burn/rejilla-caps-plugin.c:203-281 | splitting creates no self-link |
| Registration.CopyingTwoLinksToItselfIff | librejilla-burn/rejilla-caps-plugin.c:531-538 | copying two encompassing caps creates one iff the second links to the first |
| Registration.SmallerFormatSmallerNumber | librejilla-burn/rejilla-caps-plugin.c:71-146 | fewer formats sort before more |
| Registration.SortedOrdered | librejilla-burn/rejilla-caps-plugin.c:71-146 | re-sorting yields an ordered list |
| ImageScan.SplitTouchesFewer | librejilla-burn/rejilla-caps-plugin.c:385-420 | a split leaves one caps fewer partly overlapped: the measure of the scan |
| ImageScan.SplitKeepsAhead | librejilla-burn/rejilla-caps-plugin.c:403-420 | re-sorting under the cursor loses no caps that is still to be looked at |
| ImageScan.SplitAtCursor | librejilla-burn/rejilla-caps-plugin.c:403-420 | one split keeps everything the scan relies on |
| ImageScan.ScanImages | librejilla-burn/rejilla-caps-plugin.c:367-424 | the scan ends, keeps the meaning of the graph, returns caps that stand for exactly what it took, and leaves exactly the formats no caps with overlapping I/O covered |
| Pipeline.NextActive | librejilla-burn/burn-job.c:685-707 | the nearest later active job, none between |
| Pipeline.OneFirstAndOneLast | librejilla-burn/burn-job.c:175-215 | as soon as a job is active there is exactly one first and one last active job |
| Pipeline.OnlyLastActs | librejilla-burn/burn-job.c:982-1006 | of two jobs one is always asked for an image, and at most one may add a track |
| Roles.JobIsAsked | librejilla-burn/burn-job.c:1427-1471 | over the tasks new_task makes, with any of their jobs active: erasing is asked of the active eraser and no other; recording of the very last job, if it is active and the output is a disc, and it is the recorder of the path; a size, in fake mode, of the last active job; an image of all others |
| Roles.OneRecords | librejilla-burn/burn-job.c:1427-1471 | over all tasks of a session no two jobs record |
| Roles.TheOneWithADisc | librejilla-burn/rejilla-caps-burn.c:741-833 | only the last job of the last task makes a disc, and only the erase task holds an eraser |
| Pipeline.ActivateFromIs | librejilla-burn/burn-task.c:505-533 | which jobs are active after activation, and when the task is skipped |
| Pipeline.SittingOutKeepsTypes | librejilla-burn/burn-job.c:280-365 | whatever jobs sit out, each job still gets the type it was planned to take; a recorder never sits out; a skipped task would have changed nothing |
| Pipeline.DisconnectOwns | librejilla-burn/burn-job.c:844-888 | disconnecting closes each descriptor it gives up once, if the linked job has an input |
| Pipeline.DeactivateOwns | librejilla-burn/burn-job.c:251-278 | deactivating frees the job's pipe and clears the job |
| Pipeline.StopFromOwns | librejilla-burn/burn-task.c:194-233 | the stop sweep stops every job and frees every input of an active job, each descriptor once |
| Pipeline.StopFaultsIff | librejilla-burn/burn-task.c:194-233 | the sweep reads a missing input iff an active job is linked to a job without one |
| Pipeline.AtMostSixStarts | librejilla-burn/burn-task.c:279-322 | no more than six answers of ::start matter |
| Pipeline.StartMeans | librejilla-burn/burn-job.c:709-820 | when a start is OK, asks for another try, for a disc, for the end or is declined; only the last job may be done already, only one asked for a size may decline, and only then it is active no more |
| Pipeline.HandedJobCanWrite | librejilla-burn/burn-job.c:1307-1328 | a job handed to ::start that is not the last active one can get an open descriptor to write to, if the later jobs are fed |
| Pipeline.EveryHandedJobCanWrite | librejilla-burn/burn-task.c:535-586 | so it is at every attempt of every job in every start sweep, from any state and with any answers |
| Pipeline.SweepOutcome | librejilla-burn/burn-task.c:535-586 | the start sweep ends with every active job wired, or in a system that is safe to stop |
| Pipeline.SweepStopsFor | librejilla-burn/burn-task.c:535-586 | the sweep stops only for an active job refused when it was its turn, and with its answer |
| Pipeline.StepFlows | librejilla-burn/burn-job.c:1008-1125 | each report of a job, error or cancel keeps the chain wired or leaves it quiet |
| Pipeline.LoopGoesOnIff | librejilla-burn/burn-job.c:1008-1125 | exactly which report keeps the loop running: the first job starts on the next track, or leaves a chain that has jobs behind it |
| Pipeline.RunBalancesIff | librejilla-burn/burn-task.c:588-645 | over every run of a task without open pipes, whatever links are left over: if the start sweep ends or the stop after it is safe, no descriptor is closed that is not open, no missing input is read, and after the stop exactly the descriptors from before are open; and it faults iff the sweep gives up and that stop is not safe |
| Pipeline.PipesBalance | librejilla-burn/burn-task.c:588-645 | so every run of a task without links left over comes out even |
| Pipeline.StartedOnceMoreBalances | librejilla-burn/rejilla-burn.c:2203-2245 | a task that ran to learn the size is started again with the links it kept: the second run comes out even if its sweep ends, and faults iff the sweep gives up and an active job is then linked to one without input |
| Pipeline.SafeToStartIff | librejilla-burn/burn-job.c:844-921 | no world can make the start of a task without open pipes fault iff no active job but the last keeps a link from an earlier run |
| Pipeline.RepeatedStartsLeak | librejilla-burn/burn-task.c:279-322 | after n starts of a job exactly 2(n-1) descriptors stay open once everything is stopped, none if the job is the first active one, whenever that stop is safe; it is unless a link is left over |
| Pipeline.RunCanLeaveLink | librejilla-burn/burn-job.c:890-921 | a faultless run of two jobs that leaves such a link |
| Pipeline.SecondStartCanFault | librejilla-burn/burn-job.c:844-921 | started once more after that run, the two jobs can fault |
| Jobs.RunningTask.AddItem | librejilla-burn/burn-task.c:80-100 | the new job is the leader; next and previous stay inverse to each other |
| Jobs.RunningTask.JobIsLastActive | librejilla-burn/burn-job.c:175-194 | the walk forward |
| Jobs.RunningTask.JobIsFirstActive | librejilla-burn/burn-job.c:196-215 | the walk backward |
| Jobs.RunningTask.JobNextActive | librejilla-burn/burn-job.c:685-707 | the walk to the next active job |
| Jobs.RunningTask.JobGetAction | librejilla-burn/burn-job.c:1427-1471 | an image for all but the last active job |
| Jobs.RunningTask.ActivateJob | librejilla-burn/burn-job.c:327-365 | a job is active iff its plugin says OK; it may sit out only where its type is the one before it, and never as a recorder |
| Jobs.RunningTask.ActivateJobs | librejilla-burn/burn-task.c:505-533 | activation in place is ActivateFrom of the job states |
| Jobs.RunningTask.StartJob | librejilla-burn/burn-job.c:709-820 | starting in place is ItemStart of the job states |
| Jobs.RunningTask.StartJobPatiently | librejilla-burn/burn-task.c:279-322 | the retry loop calls ::start at most six times |
| Jobs.RunningTask.StartJobs | librejilla-burn/burn-task.c:535-586 | the walk from leader to first is the start sweep |
| Jobs.RunningTask.DisconnectJob | librejilla-burn/burn-job.c:844-888 | disconnecting in place changes only this job and the linked job's writing end |
| Jobs.RunningTask.DeactivateJob | librejilla-burn/burn-job.c:251-278 | deactivating in place |
| Jobs.RunningTask.StopJob | librejilla-burn/burn-job.c:890-921 | stopping in place: the link stays |
| Jobs.RunningTask.SendStopSignal | librejilla-burn/burn-task.c:194-233 | down to the first job, then up: the stop sweep |
| Jobs.RunningTask.Begin | librejilla-burn/burn-task.c:588-645 | after activation: the start sweep, and the stop sweep if it fails or nothing runs |
| Jobs.RunningTask.JobFinishedTrack | librejilla-burn/burn-job.c:1062-1125 | a finished track: the next one, leaving the chain, or the end |
| Jobs.RunningTask.JobFinishedSession | librejilla-burn/burn-job.c:1008-1060 | a finished session: leaving the chain or the end |
| Jobs.RunningTask.RestartFirst | librejilla-burn/burn-task.c:390-424 | with tracks left the first job is started again, or everything stops |
| Jobs.RunningTask.JobAddTrack | librejilla-burn/burn-job.c:982-1006 | only the last active job, asked for an image, may add a track |
| Tracks.AllArriveIff | librejilla-burn/rejilla-session.c:320-385 | tracks added one by one all arrive in order iff distinct and, if several, all streams |
| Tracks.Session.AddTrack | librejilla-burn/rejilla-session.c:320-385 | nothing twice; anything but a stream replaces what is there |
| Tracks.Session.PopTracks | librejilla-burn/rejilla-session.c:1935-1968 | gives back what was pushed |
| Tracks.Find | librejilla-burn/burn-task-ctx.c:310-313 | the first place of a track in the list |
| Tracks.WalkInListOrder | librejilla-burn/burn-task-ctx.c:296-328 | distinct tracks are visited in list order, each once, then the cursor stops |
| Tracks.WalkEndsIff | librejilla-burn/burn-task-ctx.c:296-328 | the walk ends iff no track is in the list twice |
| Tracks.TaskCtx.SetNextTrack | librejilla-burn/burn-task-ctx.c:296-328 | moves iff the action goes through tracks and there is a next one; the bytes written so far stay the same |
| Tracks.TaskCtx.GoThrough | librejilla-burn/burn-task.c:626-639 | the loop over skipped tracks ends, having visited a prefix of the list in order |
| Tracks.TaskCtx.Finished | librejilla-burn/burn-task-ctx.c:361-398 | the session gets the produced tracks, oldest first; its own wait on the pile |
| Tracks.StoredComeOutInOrder | librejilla-burn/burn-task-ctx.c:278-398 | prepending and reversing gives the order of adding |
| Average.EncodingError | librejilla-burn/burn-task-ctx.c:454-459 | a small sample comes back less than 1/10000 above, a large one less than 10000 below; both fit 32 bits |
| Average.GetAverage | librejilla-burn/burn-task-ctx.c:445-480 | the loop that deletes under its cursor leaves at most 16 entries and computes their mean |
| Average.ListedAreLatest | librejilla-burn/burn-task-ctx.c:445-480 | after any run of samples the list holds the latest sixteen storable ones, newest first |
| Average.AverageIsMeanOfLatest | librejilla-burn/burn-task-ctx.c:445-480 | the result is the mean of those samples up to the encoding error |
| MediumFlags.FindBlanker | librejilla-burn/rejilla-caps-session.c:212-281 | true iff some active plugin on a blanking link of a caps for the medium passes the blank flag check |
| Ways.CanBlankMeans | librejilla-burn/rejilla-caps-session.c:212-281 | the disc can be blanked iff an active plugin on a blanking link of a caps for the medium takes it with these flags and, for a DVD-RW to take more sessions, not fast |
| MediumFlags.GetBlankingFlags | librejilla-burn/rejilla-caps-session.c:59-157 | the three loops: union of supported and intersection of compulsory flags over the plugins that answer |
| Ways.BlankingFlagsAre | librejilla-burn/rejilla-caps-session.c:59-157 | supported is what some blanking plugin for the medium supports, compulsory what all that answer demand; never fast blanking for a sequential DVD-RW with more sessions to come |
| MediumFlags.GetFlagsForDisc | librejilla-burn/rejilla-caps-session.c:1583-1663 | start caps, walk, and the corrections for DAO, RAW and temporary files |
| Ways.DiscFlagsAre | librejilla-burn/rejilla-caps-session.c:1583-1663 | an answer iff some way leads to the input and CD-Text, if wanted, can be written; flag by flag what the ways support and demand; DAO drives out RAW; doing without temporary files is supported iff data can be piped, compulsory iff it can only be piped |
| MediumFlags.GetFlagsForMedium | librejilla-burn/rejilla-caps-session.c:1665-1801 | both walks, blanking, and the last corrections |
| MediumFlags.BaseStaysSupported | librejilla-burn/rejilla-caps-session.c:1665-1801 | what was supported beforehand still is, save what blanking rules out |
| MediumFlags.AnsweredIff | librejilla-burn/rejilla-caps-session.c:1665-1801 | there is an answer iff the disc as it is will do and need not be blanked, or blanking is possible and the disc as it is or blanked will do; and a sequential DVD-RW that is blanked fast can be recorded in one go |
| MediumFlags.DriveRefusesIff | librejilla-burn/rejilla-caps-session.c:2057-2180 | the query fails outright iff the drive cannot burn without underruns, or cannot simulate in the way of writing asked for, where that is asked |
| MediumFlags.CopyingAnswers | librejilla-burn/rejilla-caps-session.c:2057-2180 | copying with one drive: answered as for the image, but without NO_TMP_FILES and MERGE |
| MediumFlags.MediumFlagsAre | librejilla-burn/rejilla-caps-session.c:1665-1801 | flag by flag what the disc as it is, the blanked one and the blanking support and demand; merging and appending go with no blanking, DAO is compulsory for a DVD-RW blanked fast |
| MediumFlags.DriveLeaves | librejilla-burn/rejilla-caps-session.c:1516-1581 | flag by flag what drive and disc leave: simulating in the way of writing that is allowed, no second session where the drive cannot write track by track, and then DAO compulsory or impossible |
| MediumFlags.AnsweredIsTaken | librejilla-burn/rejilla-caps-session.c:2057-2180 | a flag that is answered as supported is one the drive is not refused for, simulating aside |
| MediumFlags.BlankingCompulsoryIff | librejilla-burn/rejilla-caps-session.c:1735-1752 | blanking is compulsory iff only the blanked disc will do, or it was demanded beforehand, by a walk or by the blanking plugins; supported iff the blanked disc will do or it was before |
| MediumFlags.HarmlessSupported | librejilla-burn/rejilla-caps-session.c:2057-2180 | CHECK_SIZE and NOGRACE are always supported, EJECT for a disc |
| Consistency.CorrectedFlags | librejilla-burn/rejilla-burn.c:1764-1842 | flags are only dropped, each kept one is supported together with others kept, compulsory ones come from an answer for kept flags, for all of them if they are answered together; merging is kept or the burn given up |
| Consistency.KeptExactly | librejilla-burn/rejilla-burn.c:1783-1842 | a flag is kept iff it was asked for and the last answer that was no failure supports it at its turn; the compulsory flags are those of the answer in force in the end; the burn is given up iff merging was asked for and is not supported at its turn |
| Consistency.ImageFlags | librejilla-burn/rejilla-caps-session.c:2016-2038 | for an image only the harmless flags are kept, and merging is an error |
| Consistency.KeptTogetherIff | librejilla-burn/rejilla-burn.c:1764-1842 | what the correction keeps is answered together iff simulating suits the kept way of writing, merging or appending is not kept with blanking, and the engine knows a way by the disc as it is or blanked; underruns need no test any more, as that flag is kept only for drives that can; and then the compulsory flags are that answer's |
| Consistency.BothKept | librejilla-burn/rejilla-burn.c:1783-1826 | merging and blanking are both kept where each is supported but they are refused together |
| MergeAndBlank.KeptButNotTogether | librejilla-burn/rejilla-caps-session.c:2147-2152 | a recorder and a blanker for which the session keeps both, and has no answer for both |
| Drives.EjectDrive | librejilla-burn/rejilla-burn.c:383-458 | on success the drive is not locked; no other drive is touched; no lock gets loose |
| Drives.WaitMeans | librejilla-burn/rejilla-burn.c:774-780 | waiting for a drive to be probed ends well once it is free, and is cancelled if the sleep is |
| Drives.UnmountMeans | librejilla-burn/rejilla-burn.c:308-352 | unmounting: an error after five sleeps, otherwise OK once it is unmounted and cancelled if a sleep is |
| Drives.EjectNeverGivesUp | librejilla-burn/rejilla-burn.c:413-457 | the ejecting loop never gives up by itself: it ends on the answer no, be it that the drive is empty, that a sleep is cancelled or that the user does not try again |
| Drives.LockSrc | librejilla-burn/rejilla-burn.c:570-642 | OK means the session's source is locked and remembered; another drive's lock and disc stay |
| Drives.LockSrcLosesIff | librejilla-burn/rejilla-burn.c:581-590 | a locked source is forgotten iff one is remembered and the session names none any more |
| Drives.LockRewritable | librejilla-burn/rejilla-burn.c:662-741 | OK means the burner is locked |
| Drives.LockDest | librejilla-burn/rejilla-burn.c:743-889 | OK means the burner is locked; a disc that will not do means it is not, or refused to be unlocked |
| Drives.ReloadDest | librejilla-burn/rejilla-burn.c:891-925 | OK means the burner is locked |
| Drives.UnlockMedias | librejilla-burn/rejilla-burn.c:1002-1061 | no drive is remembered any more, and none gets loose |
| Drives.LeftLocked | librejilla-burn/rejilla-burn.c:1002-1061 | of what the burn locked exactly the forgotten drives and those that refuse stay locked |
| Protocol.RunImager | librejilla-burn/rejilla-burn.c:1313-1451 | on OK, also after mending, a locked burner is still locked; it does not touch burner or disc unless the source is there |
| Protocol.ImagerGoesOnFor | librejilla-burn/rejilla-burn.c:1380-1451 | after which errors a failed imager runs again: no data, once the source of the session is ready; no place or names too long, iff the user agrees |
| Protocol.RunRecorder | librejilla-burn/rejilla-burn.c:1472-1665 | on OK, also after mending, a locked burner is still locked, and the last event is that the recorder wrote a disc, or made the temporary image |
| Protocol.RecorderGoesOnFor | librejilla-burn/rejilla-burn.c:1522-1665 | after which errors a failed recorder starts again, and what has changed by then; never with another disc where it was to append or merge for lack of space |
| Protocol.SlowerStep | librejilla-burn/rejilla-burn.c:1576-1605 | a slower speed is tried, never below one time CD speed and at most a quarter less, from above eight times that |
| Protocol.CheckDataLoss | librejilla-burn/rejilla-burn.c:1882-2033 | on OK or RETRY a locked burner is still locked; only the flags, the disc and the locks can have changed |
| Protocol.QuestionsAsked | librejilla-burn/rejilla-burn.c:1882-2033 | each of the four questions is put iff there is reason to; the last one unless an earlier answer ended the check |
| Protocol.LegalErase | librejilla-burn/rejilla-burn.c:2065-2072 | what new_task can plan holds an erase task only last but one, for a disc, with blanking among the flags, and not for a temporary image |
| Protocol.PlannedAsChecked | librejilla-burn/rejilla-burn.c:2065-2072 | the plan is asked for what the flags were checked for: same input, flags and disc or image, and the drive takes the flags iff the check was not refused outright |
| Protocol.RunAll | librejilla-burn/rejilla-burn.c:2078-2250 | if the last task does not erase, OK means a disc was written, or the temporary image was made where one is to be |
| Protocol.RunTasks | librejilla-burn/rejilla-burn.c:2036-2266 | settings and their stack are as before unless the run quits for a cancelled eraser, and then exactly one entry more is left |
| Protocol.EndsLikeTheLast | librejilla-burn/rejilla-burn.c:2388-2410 | running the tasks until no other try is asked for ends like such a run, made from the settings of the session |
| Protocol.CheckMeans | librejilla-burn/rejilla-burn.c:2448-2541 | a disc that is not what the checksum says fails the session; giving the comparison up does not |
| Protocol.AfterEraser | librejilla-burn/rejilla-burn.c:2152-2197 | the burn goes on only behind an eraser that succeeded, with the flags it was started with checked for the disc as it is now; it begins anew iff the user provides another disc after a failure |
| BurnLaws.AgreedUnaskedIff | librejilla-burn/rejilla-burn.c:1906-1980 | of a check that justifies erasing a disc with content: nobody was asked about its data since iff the disc was not going to be blanked then, and then merging was chosen since |
| BurnLaws.CheckedIsCleared | librejilla-burn/rejilla-burn.c:1882-2033 | on OK the disc in the burner was checked; with content, its loss was agreed to if it was to be blanked; the flags have changed only if merging was chosen |
| BurnLaws.EraseJustified | librejilla-burn/rejilla-burn.c:2150-2154 | erasing a cleared disc in the locked burner is justified |
| BurnLaws.RecorderTells | librejilla-burn/rejilla-burn.c:1472-1665 | the recorder writes only with the burner locked, also to a disc put in later |
| BurnLaws.EraseTells | librejilla-burn/rejilla-burn.c:2106-2197 | one erase event at most, justified if the disc is cleared and blanking wanted; the step quits iff the eraser answered CANCEL |
| BurnLaws.AllTells | librejilla-burn/rejilla-burn.c:2078-2250 | the loop over the tasks keeps the disc cleared until it is erased; nothing happens after a cancelled eraser |
| BurnLaws.TasksTell | librejilla-burn/rejilla-burn.c:2036-2266 | in a run over the tasks discs are written and erased with the burner locked, erased only after a check made in this run; it quits iff its eraser was cancelled |
| BurnLaws.TasksEraseUnaskedIff | librejilla-burn/rejilla-burn.c:1906-1980 | every disc erased in a run over the tasks was checked in this run; with content, nobody was asked about its data iff blanking was not among the flags of that check, and then merging was chosen since |
| BurnLaws.SessionTells | librejilla-burn/rejilla-burn.c:2366-2541 | the same over all runs of a session, with the simulation and the real recording |
| BurnLaws.SessionSettles | librejilla-burn/rejilla-burn.c:2366-2541 | the settings come back with at most DUMMY added, or the session quits with one entry more |
| BurnLaws.SessionWrites | librejilla-burn/rejilla-burn.c:2366-2541 | OK means the last event is that the recorder ran without DUMMY, on a disc or for the temporary image |
| BurnLaws.SimulationIsNotAll | librejilla-burn/rejilla-burn.c:2414-2470 | after a simulation that went well the session is OK only once the recorder has run again, for real |
| BurnLaws.AfterSpares | librejilla-burn/rejilla-burn.c:2414-2470 | and no disc is erased after the simulation |
| BurnLaws.OwnImageLeaves | librejilla-burn/rejilla-burn.c:2620-2679 | after the image is made the burn remembers no source, and the session names none in the burner iff the image has replaced it |
| BurnLaws.PrepareTells | librejilla-burn/rejilla-burn.c:2786-2830 | once the drives are ready the burner is locked, and the source is not in it iff the image made of it, if any, replaced it |
| BurnLaws.RecordTells | librejilla-burn/rejilla-burn.c:2759-2880 | over the whole burn, provided an image made first replaces the disc in the burner, every write is made with the burner locked and every erase justified by a check in this burn; it quits iff the eraser was cancelled |
| BurnLaws.BurnErasesUnaskedIff | librejilla-burn/rejilla-burn.c:2759-2880 | over such a burn too, a disc with content is erased without the question about its data iff it was not going to be blanked when last checked, and then merging was chosen since |
| BurnLaws.RecordSettles | librejilla-burn/rejilla-burn.c:2759-2880 | settings restored save for DUMMY, or one entry more after a cancelled eraser |
| BurnLaws.RecordUnlocks | librejilla-burn/rejilla-burn.c:2759-2880 | what is left locked has refused to be unlocked or was forgotten; with two drives nothing is forgotten iff the trace tells of no loss |
| BurnLaws.RecordWrites | librejilla-burn/rejilla-burn.c:2759-2880 | OK means the last event is that the recorder wrote a disc, and not as a simulation |
| BurnLaws.BlankKeepsAll | librejilla-burn/rejilla-burn.c:2926-2991 | blanks only with the burner locked; nothing but what refuses is left locked; settings untouched |
| Protocol.BlankingEnds | librejilla-burn/rejilla-burn.c:2926-2991 | an error that the disc cannot be rewritten ends blanking only if no other disc could be had or locked |
| MergeRun.SessionChecks | librejilla-burn/rejilla-burn.c:1764-1842 | for a recorder that merges on empty discs only: nothing asked for leaves blanking out, merging makes it compulsory |
| MergeRun.PlansToErase | librejilla-burn/rejilla-caps-burn.c:612-833 | new_task then plans to erase and to record, and nothing else |
| MergeRun.MergingErases | librejilla-burn/rejilla-burn.c:1959-1972 | a run over the tasks that erases a disc with data unasked, and quits because the eraser is cancelled |
| MergeRun.MergeRunExists | librejilla-burn/rejilla-burn.c:2065-2072 | new_task can make the plan that run needs |
| LostSourceRun.PlansTwoTasks | librejilla-burn/rejilla-caps-burn.c:612-833 | for a copy by way of an image new_task plans two tasks without erasing, and nothing else |
| LostSourceRun.LosesSource | librejilla-burn/rejilla-burn.c:644-660 | reloading the source fails and forgets the locked drive |
| LostSourceRun.SourceStaysLocked | librejilla-burn/rejilla-burn.c:1556-1573 | a whole copy that begins with no lock and leaves the source locked, though no drive refused |
| LostSourceRun.LostSourceRunExists | librejilla-burn/rejilla-burn.c:2065-2072 | new_task can make the plan that burn needs |
| SimulatedRun.PlansFirst | librejilla-burn/rejilla-caps-burn.c:612-833 | for a disc that must be blanked new_task plans to erase and to record, and nothing else |
| SimulatedRun.PlansAgain | librejilla-burn/rejilla-caps-burn.c:612-833 | once it is blanked, just to record |
| SimulatedRun.SimulatesAndRecords | librejilla-burn/rejilla-burn.c:2366-2541 | a session that goes well to the last answer: the loss agreed to, erased once, simulated, checked again, recorded for real, the settings back |
| SimulatedRun.SimulatedRunExists | librejilla-burn/rejilla-burn.c:2065-2072 | new_task can make the plans that session needs |
| Burn.Burn.EjectDrive | librejilla-burn/rejilla-burn.c:383-458 | the loop in place does what Drives.EjectDrive does to the state |
| Burn.Burn.LockSrc | librejilla-burn/rejilla-burn.c:570-642 | in place as Drives.LockSrc |
| Burn.Burn.LockRewritable | librejilla-burn/rejilla-burn.c:662-741 | in place as Drives.LockRewritable |
| Burn.Burn.LockDest | librejilla-burn/rejilla-burn.c:743-889 | in place as Drives.LockDest |
| Burn.Burn.ReloadDest | librejilla-burn/rejilla-burn.c:891-925 | in place as Drives.ReloadDest |
| Burn.Burn.UnlockMedias | librejilla-burn/rejilla-burn.c:1002-1061 | in place as Drives.UnlockMedias |
| Burn.Burn.RunImager | librejilla-burn/rejilla-burn.c:1313-1451 | the loop in place does what Protocol.RunImager does to the state |
| Burn.Burn.RunRecorder | librejilla-burn/rejilla-burn.c:1472-1665 | the loop in place does what Protocol.RunRecorder does to the state |
| Burn.Burn.CorrectFlags | librejilla-burn/rejilla-burn.c:1764-1842 | the loop over the flags leaves those of Consistency.CheckFlags, with the compulsory ones added |
| Burn.Burn.CheckSessionConsistency | librejilla-burn/rejilla-burn.c:1730-1880 | in place as Protocol.CheckSessionConsistency |
| Burn.Burn.PushSettings | librejilla-burn/rejilla-session.c:1834-1848 | a copy of the settings goes on the stack |
| Burn.Burn.PopSettings | librejilla-burn/rejilla-session.c:1850-1905 | the settings on top of the stack come back, if there are any |
| Burn.Burn.WarnAboutContent | librejilla-burn/rejilla-burn.c:1906-1980 | in place as Protocol.WarnAboutContent |
| Burn.Burn.CheckDataLoss | librejilla-burn/rejilla-burn.c:1882-2033 | in place as Protocol.CheckDataLoss |
| Burn.Burn.PlanTasks | librejilla-burn/rejilla-burn.c:2065-2072 | the plan is one that new_task can make |
| Burn.Burn.EraseStep | librejilla-burn/rejilla-burn.c:2106-2197 | in place as Protocol.EraseStep |
| Burn.Burn.RunAll | librejilla-burn/rejilla-burn.c:2078-2250 | the loop over the tasks in place does what Protocol.RunAll does to the state |
| Burn.Burn.RunTasks | librejilla-burn/rejilla-burn.c:2036-2266 | in place as Protocol.RunTasks, whose laws it obeys: writes and erases are justified in this call, it quits iff the eraser was cancelled, the settings come back otherwise |
| Burn.Burn.RecordSession | librejilla-burn/rejilla-burn.c:2366-2541 | in place as Protocol.RecordSession, with its laws about events and settings; OK means the recorder ran last, and for real |
| Burn.Burn.SameSrcDestImage | librejilla-burn/rejilla-burn.c:2620-2679 | in place as Protocol.SameSrcDestImage |
| Burn.Burn.Record | librejilla-burn/rejilla-burn.c:2759-2880 | the whole burn in place: events justified, quits iff the eraser was cancelled, settings and locks as BurnLaws says, OK means written for real |
| Burn.Burn.Blank | librejilla-burn/rejilla-burn.c:2926-2991 | in place as Protocol.Blank; blanks only with the burner locked, and nothing but what refuses is left locked |
| Grafts.EscapePath | librejilla-burn/burn-mkisofs-base.c:211-243 | the measured buffer is filled to its last place with the escaped text |
| Grafts.EscapeExcluded | librejilla-burn/burn-mkisofs-base.c:160-200 | the same for the glob characters, without copying when there is nothing to escape |
| Grafts.EscapeRoundTrip | librejilla-burn/burn-mkisofs-base.c:211-243 | dropping the backslashes gives the text back, for either set of special characters |
| Grafts.ExcludesExactlyIff | librejilla-burn/burn-mkisofs-base.c:122-209 | as a pattern an excluded line matches its own path, and no other iff there is no asterisk in it |
| Grafts.CutFindsTheMiddle | librejilla-burn/burn-mkisofs-base.c:245-281 | the first unescaped '=' is the one between the two paths |
| Grafts.LineRoundTrip | librejilla-burn/burn-mkisofs-base.c:245-281 | a graft line gives back both paths |
| Grafts.FileLinesAre | librejilla-burn/burn-mkisofs-base.c:91-120 | lines read back as written iff none holds a newline; otherwise there are more |
| Grafts.GraftsReadBackIff | librejilla-burn/burn-mkisofs-base.c:283-312 | a grafts file reads back as its entries, in order, iff no path holds a newline |
| GraftFiles.EntriesReordered | librejilla-burn/burn-mkisofs-base.c:347-365 | the order of the hash table does not change the multiset of entries |
| GraftFiles.MkisofsBase.AddGraft | librejilla-burn/burn-mkisofs-base.c:541-553 | the table holds each waiting graft under its URI, as often as it was added |
| GraftFiles.MkisofsBase.WriteGrafts | librejilla-burn/burn-mkisofs-base.c:314-365 | in whatever order, success writes exactly the waiting grafts |
| GraftFiles.ExcludedReadBackIff | librejilla-burn/burn-mkisofs-base.c:122-209 | the excluded paths read back in order iff none holds a newline |
| GraftFiles.WriteToFiles | librejilla-burn/burn-mkisofs-base.c:556-678 | success iff there are grafts and all are local with a place on the disc and all exclusions are local; then the grafts file gives back exactly the grafts iff no path holds a newline |

## Left out

- User interface, GObject types, properties, signals, reference counts, settings storage, module loading, logging: plumbing.
- System calls: a pipe is a pair of new positive numbers, a drive is what is locked and a number for its disc; failing writes to the mkisofs files are not modelled.
- Group-id assignment when plugins load: a plugin's group is a given number.
- The result list of list_check_io, and the order of data, stream and disc caps among themselves, which is a function handed in; images are ordered as the code orders them.
- Caps are named by numbers; a link names its target by number instead of by pointer.
- FindLink.FindLink: on graphs without circles only, because the code keeps no list of visited caps; so are the walk of GetFlags and its laws.
- BestLink.FindBestLink: optimality is stated without active processing plugins, whose preference in the code looks at the first node only; soundness, completeness and termination hold with them.
- NewTask.NewTask: the plugin for erasing is handed in; the search of rejilla_burn_caps_new_blanking_task is not part of this model, nor are checksumming tasks.
- The flags for copying with one drive (rejilla-caps-session.c:1803-2011): an answer handed in.
- Pipeline.RunBalancesIff: for runs in which no ::start answers RETRY or NOT_RUNNING; Pipeline.RepeatedStartsLeak says what repeated starts leave open.
- Writing an output file name, the check of free space and the plugin's ::start itself: answers from outside.
- Error values and their texts: only the result codes, and the classes of errors the burn mends.
- Tracks.TaskCtx.GoThrough: for sessions whose tracks are distinct; Tracks.WalkEndsIff says why.
- Average.AverageIsMeanOfLatest: over exact numbers; the rounding of doubles is not modelled, and samples are not negative.
- Burn.Burn.Record: the burner of a session does not change during a call; a request for a disc, and the question after a failed ejection, are answered with OK or CANCEL; a task run does not end in RETRY; whether a task handed tracks back is an answer from outside, so where the source is in the burner the law about events is stated for burns in which the image replaces it (`BurnLaws.ImageReplaces`), as it does where the job that makes it adds its track (burn-job.c:982-1006).
- Protocol.RunTasks: on graphs without circles, as the flag queries behind its checks; the session's input type is an answer from outside each time it is asked for.
- Burn.Burn.RecordSession: what the checksum comparison checks is an answer from outside.
- rejilla_burn_check and locking a medium for checksumming; power management; removing half-written images; asking for missing plugins.
- GraftFiles.WriteToFiles: without a video directory; conversions of file:// URIs are handed in, and a missing local path or disc path that the code would dereference ends the run as crashed.
- burn-image-format.c, burn-process.c and the data project tree: parsers and channel I/O around system calls.
