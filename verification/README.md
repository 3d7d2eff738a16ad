# Process hiding patch and pipeline shell: a verified model

A Linux 5.13 patch adds a `cloak` to every task, two system calls that set it and files under /proc that
switch hiding on and list what is hidden; a small shell runs pipelines. This project models the code that
has to stay right around them and proves what it is for.

- **Fork and the process tree.** `TaskForest`, `StacklessWalk`: the links of tasks and the stackless walk over
  them. `SubreaperMarks`: the pruned walk. `ForkTable`, `ForkInvariant`, `ForkRuns`, `ProcessTable`: what a fork
  does to the table, what every fork keeps, whole runs, and the program. `CopyProcess`: the acquisitions of
  copy_process and its unwinding labels, as nested blocks. `AddressSpace`: dup_mmap on a linked list.
  `Vfork`: the handshake over the completion on the parent's stack.
- **Scores.** `OomScore`: forks that publish a child before fixing it up, against writers of the score.
- **/proc.** `ProcListing`: the cursor over process groups. `Hiding`, `HideCalls`: cloak, flag and dentry cache,
  and the system calls. `HiddenList`: the list of hidden pids. `TaskListing`: the cursor over threads.
  `VmaNames`: names under map_files. `ChunkedReads`: cmdline and environ.
- **The shell.** `Pipelines`: descriptor tables. `CStrings`, `ShellText`, `ShellParser`, `Redirections`,
  `CommandLines`: buffers, clean, strtok, sscanf and the way from a line to commands.

Code that updates its state step by step is a class with the source's fields, or works on arrays, and each
method is proved against a function of the old state. Protocols between processes are state machines whose
runs are all interleavings of their steps. What comes from outside (allocators, failing callees, buffer
sizes, the moments at which other processors act) is a parameter.

What the code does although its documentation or its users expect otherwise:

- hide_user_processes puts the terminating NUL into its buffer before copying the name over it, while
  OSEXP-1.md puts it there afterwards: a name of sixteen or more characters hides nothing
  (`HideCalls.LongNameHidesNothing`). The code selects what the documented order would select exactly if the
  name is shorter or no leader of that user has its first fifteen characters as comm
  (`HideCalls.DocumentedOrderExact`).
- OSEXP-1.md calls the flag file /proc/hidden; the code creates /proc/hide. Writing it flushes no dentries, so
  a process hidden before may stay reachable by path (`Hiding.StaleDentry`); paths and listing agree exactly if
  the flag is not 1 or no cloaked leader has a live dentry (`Hiding.FlagWriteExact`).
- Recovering clears the cloak of thread-group leaders only; a thread hidden by its own id stays hidden
  (`Hiding.ThreadStaysHidden`). A task is shown afterwards exactly if it is a leader or was not cloaked
  (`Hiding.RecoverExact`).
- A score written through a non-leader thread whose vfork_done is set does not reach the other processes on
  the mm (`OomScore.ThreadWriteBreaksAgreement`). An uninterrupted write keeps the agreement exactly if
  vfork_done was seen NULL or no other sharer differs from the value (`OomScore.WriteExact`).
- A blank before a second redirection operator becomes part of the first file's name, and a tab before a later
  word ends the command: the words after it and all redirections are lost (`Redirections.TabEndsCommand`). A
  command is read as it was meant exactly if neither occurs (`Redirections.CommandExact`), and so is a whole
  line (`CommandLines.CommandLineRoundTrip`).
- A process group that is hidden at no single moment may be missing from the listing, because hidden_flag and cloak
  are read one after the other (`ProcListing.VisibleYetPassedOver`); not while one of them stays as it is
  (`ProcListing.VisibleListed`).
- Each piped command leaves save_in, save_out and both ends of its last pipe open (`Pipelines.Shell.RunPipeline`).
- environ_read advances the position over the bytes before the first transfer that fails, and returns what that
  transfer says: an error, or 0 as at the end of the file although a page has been delivered
  (`ChunkedReads.PageLostAtEndOfFile`). It returns the number of bytes exactly if all that was wanted came, or
  the very first transfer reported 0 (`ChunkedReads.CountIsReturned`).

`dafny verify dfyconfig.toml` checks the project.

## Model

| member | source | states |
|---|---|---|
| `ProcessTable.Tasks.WalkProcessTree` | hide_processes_system_call/patch/kernel/fork.c:2786-2816 | the goto machine ends and calls the visitor on exactly the sequence of the recursive pre-order traversal, with the same data and the same stop |
| `StacklessWalk.ResumeDown` | hide_processes_system_call/patch/kernel/fork.c:2796-2801 | after a positive answer, `goto down` leaves exactly the rest that recursion would leave: the child group first, then everything pending above it |
| `StacklessWalk.ResumeSkip` | hide_processes_system_call/patch/kernel/fork.c:2795-2806 | a negative answer ends the walk, zero passes over the whole subtree and goes on with the next sibling |
| `StacklessWalk.ResumeNextThread` | hide_processes_system_call/patch/kernel/fork.c:2794-2806 | when a thread has no more children the walk goes on with the next thread of the same group, and nothing pending is lost |
| `StacklessWalk.ResumeUp` | hide_processes_system_call/patch/kernel/fork.c:2808-2813 | when a group is done, real_parent and group_leader alone recover the place to go on at, and the test against top is right |
| `StacklessWalk.ChainFalls` | hide_processes_system_call/patch/kernel/fork.c:2808-2813 | on the way down no group is met twice, so only the first one is top's |
| `SubreaperMarks.PruneList` | hide_processes_system_call/patch/kernel/fork.c:2794-2813 | a pruning walk over a sibling list marks the list, keeps marks closed downwards outside the groups still open, and marks nothing that is not below top |
| `SubreaperMarks.PrunedWalkMarksAllBelow` | hide_processes_system_call/patch/kernel/fork.c:2786-2816 | a walk that descends only into unmarked groups marks exactly the groups below top, if marks were closed downwards, and leaves them closed |
| `ForkInvariant.ForkKeepsWellFormed` | hide_processes_system_call/patch/kernel/fork.c:2278-2325 | a successful fork keeps the lists consistent, the tree single-rooted, the sharing within groups, every counter and the inheritance of has_child_subreaper |
| `ForkInvariant.LinkKeepsFormed` | hide_processes_system_call/patch/kernel/fork.c:2299-2320 | linking a task as a thread or as a new group keeps all list memberships, parents and leaders consistent and free of repetitions |
| `ForkInvariant.ParentInTable` | hide_processes_system_call/patch/kernel/fork.c:1889-1896 | because CLONE_PARENT is refused to unkillable groups, the real parent of a new group is a linked task |
| `ForkInvariant.SharesKept` | hide_processes_system_call/patch/kernel/fork.c:2194-2200 | all threads of a group share leader, tgid, real parent, signal, sighand and mm after a fork |
| `ForkInvariant.SignalsKept` | hide_processes_system_call/patch/kernel/fork.c:1558-1575 | two groups never share a signal struct |
| `ForkInvariant.ObjectCountsKept` | hide_processes_system_call/patch/kernel/fork.c:1396-1432 | nr_threads of a signal struct, count of a sighand struct and mm_users stay the number of tasks that use them |
| `ForkInvariant.TotalsKept` | hide_processes_system_call/patch/kernel/fork.c:2311-2323 | nr_threads and the per-CPU process_counts stay the number of tasks and of thread groups |
| `ForkInvariant.ReapersKept` | hide_processes_system_call/patch/kernel/fork.c:2298-2305 | a child group of a marked group, or of one that declared itself a subreaper, is marked |
| `ForkRuns.ForkOrderRanks` | hide_processes_system_call/patch/kernel/fork.c:2242-2253 | fork order shows that the parent relation has no cycle, so every walk ends |
| `ForkRuns.MarksAfterWalk` | hide_processes_system_call/patch/kernel/fork.c:2786-2816 | a subreaper that marks its descendants by the pruned walk leaves marks inherited |
| `ForkRuns.RunKeepsWellFormed` | hide_processes_system_call/patch/kernel/fork.c:1851-2345 | every run of forks and subreaper declarations from a well-formed table ends in one |
| `ForkRuns.BootWellFormed` | hide_processes_system_call/patch/kernel/fork.c:2293-2296 | the table with only an unkillable init is well formed, so there is something to start from |
| `ForkRuns.NewProcess` | hide_processes_system_call/patch/kernel/fork.c:2242-2309 | a new process is the last child of current, or with CLONE_PARENT of current's own real parent, leads itself alone, is last in the task list, and no other list, parent or leader has changed |
| `ForkRuns.NewThread` | hide_processes_system_call/patch/kernel/fork.c:2312-2320 | a new thread is last in the thread list of current's group, has its leader, tgid, signal struct and real parent, is in no children list, and no mark has changed |
| `ForkRuns.NewMarks` | hide_processes_system_call/patch/kernel/fork.c:2293-2305 | a new process is unkillable if it is the reaper of its namespace, and has has_child_subreaper exactly if its real parent's group has it or is a subreaper |
| `ForkRuns.NewObjects` | hide_processes_system_call/patch/kernel/fork.c:1396-1532 | the new task has current's handlers and mm with CLONE_SIGHAND and CLONE_VM, the new ones without, and no mm if current has none |
| `ForkRuns.NewSubreaper` | hide_processes_system_call/patch/kernel/fork.c:2786-2816 | a process that becomes a subreaper gets that flag, has_child_subreaper is added to exactly the groups strictly below its own, and nothing else changes |
| `ForkRuns.OneParent` | hide_processes_system_call/patch/kernel/fork.c:2242-2306 | a leader other than the root is in one children list, its real parent's, once, and its parent's group is older |
| `ForkRuns.GroupSizeIsThreadCount` | hide_processes_system_call/patch/kernel/fork.c:2313-2320 | signal->nr_threads is the length of the thread list |
| `ProcessTable.Tasks.CopySighand` | hide_processes_system_call/patch/kernel/fork.c:1509-1532 | shares and counts the handlers, or makes new ones with count 1 |
| `ProcessTable.Tasks.CopySignal` | hide_processes_system_call/patch/kernel/fork.c:1558-1573 | a thread keeps the signal struct, a process gets a new one with nr_threads 1 |
| `ProcessTable.Tasks.CopyMm` | hide_processes_system_call/patch/kernel/fork.c:1396-1434 | no mm for a kernel thread, one more user of a shared mm, or a duplicate |
| `ProcessTable.Tasks.LinkThread` | hide_processes_system_call/patch/kernel/fork.c:2312-2323 | the whole table after a thread has joined its group |
| `ProcessTable.Tasks.LinkLeader` | hide_processes_system_call/patch/kernel/fork.c:2288-2311 | the whole table after a new group has been linked, marks included |
| `ProcessTable.Tasks.CloneTask` | hide_processes_system_call/patch/kernel/fork.c:1877-1896 | refuses exactly the forbidden flags and changes nothing then; otherwise the table is the forked one and is well formed again, and a new process has current as its real parent, or with CLONE_PARENT current's, whose children list is the only old one that has grown, by it |
| `ProcessTable.Tasks.NrProcesses` | hide_processes_system_call/patch/kernel/fork.c:151-160 | the per-CPU counters add up to the number of thread groups |
| `CopyProcess.Kernel.CopyProcess` | hide_processes_system_call/patch/kernel/fork.c:1851-2403 | fails exactly if the flags are refused or somebody who has to be asked says no, with the error of the first to refuse; then every count and the list of forks in progress are as before, and its own log of acquisitions and releases, every release being of the latest reference held, has released each reference as often as it acquired it; on success each pointer of the new task is current's or new as its flag says, cloak is 0, every count has grown by what the new task owns of it, and the count of current's mm by one with CLONE_VM and not at all without |
| `CopyProcess.ReleasedOnce` | hide_processes_system_call/patch/kernel/fork.c:2343-2403 | in every history the unwinding allows, a reference has been released as often as acquired, except for those still held |
| `CopyProcess.NobodyRefuses` | hide_processes_system_call/patch/kernel/fork.c:1948-2277 | the order of the questions decides the error and never the outcome: there is no error exactly if the flags are allowed and everybody asked agrees |
| `CopyProcess.PermittedSharing` | hide_processes_system_call/patch/kernel/fork.c:1873-1886 | what the refused combinations buy: a new thread shares handlers, signal struct and mm with its creator, and whoever shares handlers shares the mm |
| `CopyProcess.PermittedFlags` | hide_processes_system_call/patch/kernel/fork.c:1868-1923 | what each flag needs: the checks refuse exactly the combinations in which one of these needs is not met |
| `CopyProcess.MadeIfAsked` | hide_processes_system_call/patch/kernel/fork.c:1396-1573 | the maker of an object is asked exactly if the new task does not have current's, for memory policy, files, fs, handlers, signal struct, mm and I/O context |
| `CopyProcess.OwnedIsOwns` | hide_processes_system_call/patch/kernel/fork.c:2343-2403 | what unwinding from the last label would drop is, kind by kind, what the task owns: one reference for each pointer it has, none to the signal struct for a thread, and one each for the callees that keep state of their own |
| `CopyProcess.MmCount` | hide_processes_system_call/patch/kernel/fork.c:1396-1434 | a successful fork adds one user to current's mm with CLONE_VM and none without |
| `CopyProcess.Kernel.DupTaskStruct` | hide_processes_system_call/patch/kernel/fork.c:856-960 | task and stack are both held or neither is |
| `CopyProcess.Kernel.CopyIo` | hide_processes_system_call/patch/kernel/fork.c:1483-1507 | one reference to the I/O context of the task is left, whether shared, new or none |
| `CopyProcess.Kernel.CopySignals` | hide_processes_system_call/patch/kernel/fork.c:2114-2122 | handlers, signal struct and mm are acquired in order and dropped in reverse on any later failure |
| `CopyProcess.Kernel.CopyPidfd` | hide_processes_system_call/patch/kernel/fork.c:2144-2277 | descriptor, file and pid reference of a pidfd are dropped again on every failure up to the last check, and the error is that of the first of these steps to refuse |
| `AddressSpace.System.DupMmap` | hide_processes_system_call/patch/kernel/fork.c:474-624 | the error is that of the first step that says no, and there is none if none does; the new list is always doubly linked, map_count is its length, and its entries are, in order, the old mappings without VM_DONTCOPY of the prefix dealt with, each with the same range, file and flags but not locked; what is charged is what its VM_ACCOUNT mappings have, with one reference for each file mapped and one policy for each entry; without an error the prefix is everything and total_vm is its page sum |
| `AddressSpace.System.CopyList` | hide_processes_system_call/patch/kernel/fork.c:514-605 | stops at the first mapping that fails, before or after it was linked depending on the failing step, with the error of that step |
| `AddressSpace.System.PrepareVma` | hide_processes_system_call/patch/kernel/fork.c:526-574 | charge, policy, file and the copy itself are all taken or all undone |
| `AddressSpace.System.Link` | hide_processes_system_call/patch/kernel/fork.c:587-596 | appending at the tail keeps the list linked in both directions |
| `AddressSpace.DoublyDistinct` | hide_processes_system_call/patch/kernel/fork.c:587-590 | no node is in such a list twice |
| `AddressSpace.InheritedTotal` | hide_processes_system_call/patch/kernel/fork.c:517-520 | the pages of the copies and of the mappings left out add up to those of the old list |
| `AddressSpace.InheritedPlaces` | hide_processes_system_call/patch/kernel/fork.c:517-556 | the inherited mappings are those without VM_DONTCOPY at increasing places of the old list, the same in every field but VM_LOCKED and VM_LOCKONFAULT, which are clear |
| `AddressSpace.ChargedExactly` | hide_processes_system_call/patch/kernel/fork.c:527-533 | each mapping with VM_ACCOUNT is charged its length in pages and no other anything; with all of them the charge is the page total |
| `AddressSpace.FilesExactly` | hide_processes_system_call/patch/kernel/fork.c:557-572 | a file has one reference for each mapping of it |
| `AddressSpace.PassesExactly` | hide_processes_system_call/patch/kernel/fork.c:514-605 | nothing fails exactly if for every mapping that is copied each step agrees that its flags make necessary |
| `Vfork.RunKeepsInv` | hide_processes_system_call/patch/kernel/fork.c:1256-1288 | every interleaving of forks, mm_release, waits, kills, exits keeps the handshake invariant |
| `Vfork.EveryCallBalances` | hide_processes_system_call/patch/kernel/fork.c:2525-2540 | nobody touches a stack frame or a task that is gone; each call, and every vfork opens one (`Vfork.ForkOpens`), signals its completion at most once, exactly once unless killed, and drops the child reference exactly once |
| `Vfork.SignalFindsParentWaiting` | hide_processes_system_call/patch/kernel/fork.c:1256-1267 | a child about to signal finds its parent still in the wait for it, not signalled yet, and is pinned itself |
| `Vfork.NoLostWakeup` | hide_processes_system_call/patch/kernel/fork.c:1269-1288 | a parent whose child has been through mm_release is not blocked, and its child has not been freed |
| `Vfork.EveryCallCanReturn` | hide_processes_system_call/patch/kernel/fork.c:1333-1334 | from every such state any task in a vfork call gets out of it by steps that need no fork, kill or exit, nested vforks included |
| `Vfork.ForkOpens` | hide_processes_system_call/patch/kernel/fork.c:2525-2540 | whoever can run can fork; with CLONE_VFORK that opens a call: the parent waits and cannot run, though it can be killed, the child's vfork_done points to it, and the child is pinned; without, the parent runs on |
| `Vfork.VforkBlocks` | hide_processes_system_call/patch/kernel/fork.c:2525-2540 | what vfork is for: in every run, if the parent runs again, the child has been through mm_release since, or the parent has been killed in its wait |
| `OomScore.SharersAgree` | hide_processes_system_call/patch/fs/proc/base.c:1070-1138 | in every interleaving whose writes do not go through a vforked thread, fixed-up groups on one mm have one oom_score_adj whenever the mutex is free, and MMF_MULTIPROCESS is set once there are two |
| `OomScore.StepKeepsInv` | hide_processes_system_call/patch/kernel/fork.c:1824-1841 | every step of fork, fix-up, exit, exec and write keeps what a writer has achieved so far |
| `OomScore.FixupJoins` | hide_processes_system_call/patch/kernel/fork.c:1836-1840 | a fixed-up child has the score of the groups it joins |
| `OomScore.SharersBefore` | hide_processes_system_call/patch/kernel/fork.c:2307 | only a fix-up makes a new pair of groups that share an mm |
| `OomScore.ThreadWriteExact` | hide_processes_system_call/patch/fs/proc/base.c:1097-1107 | a write through a task with vfork_done set keeps the agreement exactly if the other sharers already had the written value |
| `OomScore.WriteExact` | hide_processes_system_call/patch/fs/proc/base.c:1070-1138 | an uninterrupted write to any group keeps the agreement exactly if it saw vfork_done NULL or no other sharer differs from the value; to a fixed-up group only a thread can see anything else |
| `OomScore.TwoSharersReached` | hide_processes_system_call/patch/kernel/fork.c:1824-1841 | a run of forks from the boot state leads to two processes on one mm with one score |
| `OomScore.ThreadWriteBreaksAgreement` | hide_processes_system_call/patch/fs/proc/base.c:1097-1107 | from the state so reached, such a write leaves two sharers with different scores |
| `OomScore.WriteReaches` | hide_processes_system_call/patch/fs/proc/base.c:1109-1133 | however an uninterrupted write visits the processes: at its end the group written to, and unless it saw vfork_done all listed groups on its mm if that is shared, but for global init and vfork children not let go, have the value; all others are as before, and the mutex is free |
| `OomScore.WriteEnds` | hide_processes_system_call/patch/fs/proc/base.c:1070-1138 | a write that gets the mutex can always be brought to its end |
| `OomScore.ForkInheritsScore` | hide_processes_system_call/patch/kernel/fork.c:1600-1601 | a child that has been published has the score its parent had at the snapshot, and keeps it if nothing is to be fixed up; nobody else has changed |
| `ProcListing.FindGe` | hide_processes_system_call/patch/fs/proc/base.c:3420 | the first allocated pid from n on, or none if there is none |
| `ProcListing.ProcDir.NextTgid` | hide_processes_system_call/patch/fs/proc/base.c:3411-3432 | ends, drops the task at hand, and every tgid passed over led no group at some look since |
| `ProcListing.ProcDir.Offer` | hide_processes_system_call/patch/fs/proc/base.c:3468-3483 | exact: a group not permitted or hidden at the three looks is passed over; else the cursor goes to it and it is emitted, or the buffer is full; what is covered grows accordingly |
| `ProcListing.ProcDir.Readdir` | hide_processes_system_call/patch/fs/proc/base.c:3437-3488 | one call gets to the end unless the buffer is full, moves the cursor if it emits anything, keeps the listing exact and gives every task reference back |
| `ProcListing.CoveredSkip` | hide_processes_system_call/patch/fs/proc/base.c:3411-3432 | moving the cursor over groups seen absent keeps the listing exact |
| `ProcListing.ListedExactlyOnce` | hide_processes_system_call/patch/fs/proc/base.c:3461-3486 | a leader there and permitted at every look and hidden by no two successive looks is in the listing exactly once |
| `ProcListing.ShownNotHidden` | hide_processes_system_call/patch/fs/proc/base.c:3468-3475 | what a listing may show was not hidden throughout |
| `ProcListing.ShownPermitted` | hide_processes_system_call/patch/fs/proc/base.c:3468-3469 | what a listing may show was permitted at some look, so what hidepid makes invisible throughout is never shown |
| `ProcListing.VisibleYetPassedOver` | hide_processes_system_call/patch/fs/proc/base.c:3473 | a task hidden at no single moment may be passed over, because flag and cloak are read one after the other |
| `ProcListing.VisibleListed` | hide_processes_system_call/patch/fs/proc/base.c:3473 | that cannot be while the flag, or the cloak of the task, is the same at all looks |
| `ProcListing.ListAll` | hide_processes_system_call/patch/fs/proc/base.c:3437-3488 | over short calls of any sizes with a changing table, until one returns nothing: the calls end, the cursor is at the end, the two links come first, tgids strictly increase, each of them led a group at a look and was not hidden at the next ones, groups hidden throughout and groups never permitted are never emitted and groups visible throughout exactly once, and no reference is left |
| `Hiding.StepKeepsWellFormed` | hide_processes_system_call/patch/kernel/fork.c:1951-1953 | system calls, forks, exits and lookups keep the pid table and the process list consistent |
| `Hiding.RunKeepsNamed` | hide_processes_system_call/patch/fs/proc/base.c:3364-3402 | in every run, flag writes included, the tables stay consistent and a usable dentry belongs to the pid it is named after |
| `Hiding.StepKeepsCoherent` | hide_processes_system_call/patch/fs/proc/base.c:1978-1995 | no step but a write of the flag leaves a usable dentry of a hidden task behind |
| `Hiding.RunKeepsCoherent` | hide_processes_system_call/patch/kernel/hide_user_processes.c:29-54 | so does no run in which hidden_flag stays the same |
| `Hiding.ReachableIffListed` | hide_processes_system_call/patch/fs/proc/base.c:3386-3388 | in every such run a leader is reachable by its path exactly if the listing shows it |
| `Hiding.FlagWriteExact` | hide_processes_system_call/patch/fs/proc/hide.c:57-70 | in every state a run leads to, flag writes included, paths and listing agree exactly if the flag is not 1 or no cloaked leader has a live dentry, and a further write restores the agreement exactly if that holds for the value written |
| `Hiding.StaleDentry` | hide_processes_system_call/patch/fs/proc/hide.c:65 | hide with the flag off, look up, switch the flag on: reachable but not listed |
| `Hiding.StepWrites` | hide_processes_system_call/patch/kernel/hide.c:21-27 | each event changes a cloak exactly as the covering root call, with its value as an unsigned int, or the fork says |
| `Hiding.HideExactly` | hide_processes_system_call/patch/kernel/hide.c:21-27 | hide by root stores the value given, as an unsigned int, in the one task with that pid and takes its dentries away; nothing else changes |
| `Hiding.HideAndShow` | hide_processes_system_call/patch/kernel/hide.c:27-38 | after hide with 0 a process is listed and reachable whatever the flag is; after hide with 1 it is neither while the flag is 1 |
| `Hiding.BulkExactly` | hide_processes_system_call/patch/kernel/hide_user_processes.c:18-63 | task by task: exactly the leaders with that uid and, if named, that comm get 1 and lose their dentries; or exactly the leaders get 0; nobody else changes |
| `Hiding.ForkExactly` | hide_processes_system_call/patch/kernel/fork.c:1951-1953 | a child has its parent's uid and comm and is not cloaked, and a new process is listed and reachable at once |
| `Hiding.RecoverExact` | hide_processes_system_call/patch/kernel/hide_user_processes.c:56-63 | after a recover a task is not cloaked exactly if it is a leader or was not cloaked before |
| `Hiding.ThreadStaysHidden` | hide_processes_system_call/patch/kernel/hide_user_processes.c:58-62 | a thread hidden by its own id is hidden still after a recover |
| `Hiding.LastWriteWins` | hide_processes_system_call/patch/kernel/hide_user_processes.c:18-63 | the cloak of a task is what the last event covering it wrote |
| `Hiding.NoWriteNoChange` | hide_processes_system_call/patch/kernel/hide.c:21-38 | a task that no root call covers keeps its cloak |
| `Hiding.BulkIsSingleHides` | hide_processes_system_call/patch/kernel/hide_user_processes.c:26-54 | a bulk hide is the series of single hides of exactly the leaders with that uid and, if named, that exact comm |
| `HideCalls.System.Hide` | hide_processes_system_call/patch/kernel/hide.c:15-40 | new kernel state and return value for every caller, pid and argument; by root the task with that pid has the value given as its cloak, and no other task has changed |
| `HideCalls.System.HideUserProcesses` | hide_processes_system_call/patch/kernel/hide_user_processes.c:15-65 | new kernel state and return value for every caller, uid, name pointer and recover flag; by root, exactly the leaders of the uid and name are cloaked, or exactly the leaders shown |
| `HideCalls.System.HideNamed` | hide_processes_system_call/patch/kernel/hide_user_processes.c:44-53 | the loop cloaks and flushes exactly the leaders whose comm is the text in the buffer |
| `HideCalls.System.RecoverAll` | hide_processes_system_call/patch/kernel/hide_user_processes.c:58-62 | the loop clears the cloak of every leader and flushes nothing |
| `HideCalls.LongNameHidesNothing` | hide_processes_system_call/patch/kernel/hide_user_processes.c:37-39 | a name of sixteen or more characters matches no comm |
| `HideCalls.DocumentedOrderExact` | hide_processes_system_call/patch/kernel/hide_user_processes.c:37-47 | the name as copied and the name cut to fifteen characters select the same leaders exactly if it has fewer than sixteen characters or no leader of that user has the first fifteen as comm |
| `HideCalls.CopiedName` | hide_processes_system_call/patch/kernel/hide_user_processes.c:37-47 | what is in the kernel buffer selects the same tasks as the user's string |
| `CStrings.Strncmp` | hide_processes_system_call/patch/kernel/hide_user_processes.c:47 | zero exactly if both buffers hold the same text |
| `HideCalls.System.Lookup` | hide_processes_system_call/patch/fs/proc/base.c:3364-3402 | a path walk succeeds exactly if there is a usable dentry or the pid exists and is not hidden, and leaves the cache as that says |
| `HiddenList.ListReadsBack` | hide_processes_system_call/patch/fs/proc/hidden_process.c:33-39 | the text reads back as the pids of the cloaked leaders in list order |
| `HiddenList.CloakedPlaces` | hide_processes_system_call/patch/fs/proc/hidden_process.c:33-39 | the pids listed are those at increasing places of the process list whose cloak is 1, all of them |
| `CStrings.DecimalDigits` | hide_processes_system_call/patch/fs/proc/hidden_process.c:36 | a pid is printed in decimal: the last digit is the remainder by ten, the digits before it spell the quotient |
| `HiddenList.Read` | hide_processes_system_call/patch/fs/proc/hidden_process.c:21-50 | bytes copied, position and return value of one read |
| `HiddenList.ReadAll` | hide_processes_system_call/patch/fs/proc/hidden_process.c:39-50 | reading until 0 gives the list once, as it was at the first read |
| `TaskListing.TaskDir.FirstTid` | hide_processes_system_call/patch/fs/proc/base.c:3722-3763 | the thread with the remembered tid, or the one nr steps from the leader; the loop round the ring ends |
| `TaskListing.ShortcutIsWalk` | hide_processes_system_call/patch/fs/proc/base.c:3736-3741 | in every state between reads the remembered tid gives the thread that walking would give |
| `TaskListing.TaskDir.NextTid` | hide_processes_system_call/patch/fs/proc/base.c:3771-3785 | the next thread of the group, or none after the last, with the reference moved on |
| `TaskListing.TaskDir.Readdir` | hide_processes_system_call/patch/fs/proc/base.c:3788-3825 | emits the entries from the old position up to the new one and stops early only if the buffer is full |
| `TaskListing.ReadFrom` | hide_processes_system_call/patch/fs/proc/base.c:3804-3822 | reads of any sizes from any place sought give the rest of the directory, each thread once, in group order; from its start that is the two dots and then the tid of every thread |
| `TaskListing.PartIsTheDirectory` | hide_processes_system_call/patch/fs/proc/base.c:3807-3822 | entry k of the directory is the dot entries, then thread k - 2 |
| `TaskListing.WholeDirectory` | hide_processes_system_call/patch/fs/proc/base.c:3807-3822 | the whole directory is the two dots and then the tids of the group in order |
| `Pipelines.LowestFree` | shell/run_command.c:176 | the lowest descriptor not in use, which is what dup has to take |
| `Pipelines.Shell.RunIntoPipe` | shell/run_command.c:172-183 | the child of a stage reads the previous pipe, writes the new one, and holds no write end of its input |
| `Pipelines.Shell.RunStage` | shell/run_command.c:164-205 | after a stage the shell reads the new pipe, that pipe holds exactly what the stage computed, and the child reaped is the one forked |
| `Pipelines.Shell.RunLastStage` | shell/run_command.c:122-162 | the last stage writes to the shell's output and standard input is put back |
| `Pipelines.Shell.HandlePipe` | shell/run_command.c:106-207 | the remaining stages, run by recursion, append their composition to the output; of all pipes only the last stays open |
| `Pipelines.Shell.RunPipeline` | shell/run_command.c:67-73 | a command computes the composition of its stages; every descriptor that was open is as it was, standard ones included; the two saved copies and the last pipe stay open |
| `Pipelines.RunAll` | shell/run_command.c:58-82 | however many commands are run, the output has grown by what the piped ones compute, in order, no stream but input and output has changed, every descriptor that was open is as it was, and exactly two more stay open for each command and four for a piped one |
| `ShellText.Clean` | shell/utilities.c:9-43 | in place, the text becomes its cleaned form, and no character outside the old text is written |
| `ShellText.CleanedIdempotent` | shell/utilities.c:9-43 | cleaning twice is cleaning once |
| `ShellText.CleanedKeepsWords` | shell/utilities.c:9-43 | the blank-separated words before the newline are what is left |
| `ShellText.CleanedPart` | shell/utilities.c:21-40 | a part of a cleaned text cleans to what the part of the text cleans to |
| `ShellText.CopyLine` | shell/utilities.c:15-40 | the write index never overtakes the read index: what is still to be read is unchanged |
| `ShellParser.Strtok` | shell/run_command.c:43-48 | token and rest of a text in place, for any delimiter |
| `ShellParser.SplitStages` | shell/run_command.c:113-114 | the recursive splitting of handle_pipe in place |
| `ShellParser.SplitJobs` | shell/run_command.c:38-65 | the two loops of parse_command over a line in place, blank commands passed over |
| `ShellParser.CollectCleaned` | shell/run_command.c:38-48 | cleaning a line before it is split does not change what its parts clean to |
| `CommandLines.StagesAreTokens` | shell/run_command.c:113-114 | splitting and cleaning the rest at every stage is splitting once and cleaning each part |
| `CommandLines.JobsAreTokens` | shell/run_command.c:38-64 | the jobs are the ampersand-separated commands that are not blank, each as its stages |
| `CommandLines.CommandLineRoundTrip` | shell/run_command.c:38-291 | jobs, stages, arguments and redirections, spelled with any blanks and tabs, are recovered from the line exactly if in no command a tab stands before a later word or a blank before a second redirection operator |
| `Redirections.HandleRedirection` | shell/run_command.c:237-291 | the four attempts in order and the argument vector |
| `Redirections.StageRoundTrip` | shell/run_command.c:245-291 | a stage is recovered exactly if no blank stands before a second redirection operator |
| `Redirections.StageRead` | shell/run_command.c:245-266 | what is recovered in every case, with the blank in the file name |
| `Redirections.CommandRead` | shell/run_command.c:245-291 | without a tab before its last word a command gives its words, and the files as written but for a blank before a second operator |
| `Redirections.TabEndsCommand` | shell/run_command.c:245-266 | with one, whatever the redirections are, only the words before the first tab are left and no redirection; nothing at all if the tab comes first |
| `Redirections.CommandExact` | shell/run_command.c:245-291 | a command with any redirections is read as it was meant exactly if no tab stands before a later word and no blank before a second operator |
| `Redirections.TokensAreWords` | shell/run_command.c:286-291 | without tabs the argument vector is the words of the command |
| `VmaNames.DnameToVmaAddr` | hide_processes_system_call/patch/fs/proc/base.c:2071-2107 | accepts exactly two runs of digits joined by a dash, without superfluous zeros and within 64 bits |
| `VmaNames.ParseInteger` | hide_processes_system_call/patch/fs/proc/base.c:2080-2083 | digits read, their value, and overflow exactly from 2 to the 64th on |
| `VmaNames.DigitIsItsPlace` | hide_processes_system_call/patch/fs/proc/base.c:2080-2083 | a digit, in upper or lower case, stands for its place among the sixteen, and nothing else is one |
| `VmaNames.DigitInFront` | hide_processes_system_call/patch/fs/proc/base.c:2080-2083 | each digit counts its place times sixteen to the power of the number of digits after it |
| `VmaNames.NameReadsBack` | hide_processes_system_call/patch/fs/proc/base.c:2380-2384 | the name of any two addresses fits 34 bytes and reads back as them |
| `VmaNames.AcceptedIsPrinted` | hide_processes_system_call/patch/fs/proc/base.c:2071-2107 | an accepted lower-case name is the printed form of its result exactly if neither run is empty |
| `VmaNames.EmptyRunsAccepted` | hide_processes_system_call/patch/fs/proc/base.c:2080-2098 | empty runs are accepted as zero |
| `ChunkedReads.GetMmCmdline` | hide_processes_system_call/patch/fs/proc/base.c:257-342 | one read gives the bytes from its position on, exactly as many as asked for and copied before a transfer brings nothing: of the arguments and never past arg_end, or of the title if their last byte has been overwritten; and the value returned; no sum or difference wraps |
| `ChunkedReads.GetMmProctitle` | hide_processes_system_call/patch/fs/proc/base.c:220-255 | exactly the part of the first page up to its NUL from the position on that could be copied, or -EFAULT if nothing could |
| `ChunkedReads.CopyPages` | hide_processes_system_call/patch/fs/proc/base.c:312-341 | the copying loop gives exactly the bytes before a transfer that brings nothing, whatever pieces they come in; -EFAULT only if the first page was there and none of it could be copied |
| `ChunkedReads.ReadableDeliversAll` | hide_processes_system_call/patch/fs/proc/base.c:318-338 | that is all of the range if every byte is there |
| `ChunkedReads.EnvironRead` | hide_processes_system_call/patch/fs/proc/base.c:941-1002 | exactly the bytes before the first transfer that fails are delivered and the position is behind them; the value returned is their number if that is all that was wanted, and else what the failing transfer makes it; if every byte can be read that is as many as asked for, or all that are left |
| `ChunkedReads.CountIsReturned` | hide_processes_system_call/patch/fs/proc/base.c:967-996 | the number of bytes delivered is returned exactly if all that was wanted came or the first transfer reported 0 |
| `ChunkedReads.PageLostAtEndOfFile` | hide_processes_system_call/patch/fs/proc/base.c:977-991 | a page is delivered, the next is not there, and 0 is returned |
| `ChunkedReads.ReadNext` | hide_processes_system_call/patch/fs/proc/base.c:257-342 | if every byte can be read, one read gives what is shown from its position on: as many bytes as asked for, or all that are left |
| `ChunkedReads.ReadCmdline` | hide_processes_system_call/patch/fs/proc/base.c:359-375 | reads of any sizes concatenate to the argument area, or to the title written over it; a title that ends before env_end is shown whole when the environment follows the arguments directly, and is cut at arg_end otherwise |
| `ChunkedReads.ReadEnviron` | hide_processes_system_call/patch/fs/proc/base.c:962-996 | reads of any sizes concatenate to the environment area |

## Left out

- Seccomp filter references in copy_process: taken before the last exits and not put by the unwinding.
- References that proc_pid_lookup keeps on its exit for a cloaked task, and pid references taken by the hide calls: no balance is claimed.
- exit.c and exec.c: exit, exec and reparenting appear only as steps of the score, vfork, listing and hiding models; the process table model has forks and subreapers only.
- Idle tasks with pid 0, the ptrace, session and process-group lists, and the order of records under RCU.
- Weak memory ordering; a step of the score, vfork and listing models is one access or one critical section.
- Hiding.StepKeepsCoherent: each system call, path walk and directory entry offered is one step, so a hide that falls between the test of the cloak and the instantiation of the dentry in one walk is outside.
- Hiding.RunKeepsCoherent: is about runs of such whole steps, and of runs without a write of the flag.
- Hiding.ReachableIffListed: the same; with the flag written, FlagWriteExact says when it holds.
- kernel/sched/completion.c is not part of this model: a killable wait is taken to report a kill only when the completion is not done.
- kthread_stop's use of vfork_done, and the futex wake-up in mm_release.
- Rb-tree insertion, page tables, address-space locks and reverse mappings in dup_mmap: callees that succeed or fail.
- lib/kstrtox.c and lib/strncpy_from_user.c are not part of this model: what they do is stated as the contract of a short program.
- PID_MAX_LIMIT, FIRST_PROCESS_ENTRY and PAGE_SIZE are the values of kernel headers that are not part of this model.
- hidepid: has_pid_permissions is a set of permitted tasks in the listing and always allows in the path model.
- Flushing by struct pid: a task keeps its pid for its life, so de_thread's exchange of pids is not modelled.
- HiddenList.Read: requires that the list fits the 1000-byte buffer, because the source writes past the buffer otherwise; that the user's count is ignored is left as it is.
- Parsing of the text written to /proc/hide: a write is its resulting flag.
- ChunkedReads.ReadCmdline: requires that the memory does not change between reads and that each brings the same amount of the page with a title.
- The page that each read allocates and that may not be there, in cmdline and environ.
- ChunkedReads.EnvironRead: requires env_start not to be above env_end, which prctl checks in a file that is not part of this model.
- TaskListing: the group does not change between reads, as the property is claimed for an unchanged group.
- Pipelines.Shell.HandlePipe: requires non-empty stages without redirections, successful pipe and fork, and pipes without a size limit, because the other exits do not restore standard input and the shell waits for each stage before it starts the next.
- Pipelines.RunAll: needs a descriptor table without a limit, because each command leaves two to four descriptors open.
- CommandLines.CommandLineRoundTrip: no limit on the number of words, commands or characters, where the source has arrays of 100, 200 and 500.
- Redirections.HandleRedirection: sscanf is a function of the text, where the source scans into buffers of fixed size; and a text no attempt reads a command from gives no stage, where the source reads an uninitialised buffer.
- Running programs: execv, access, chdir, opening of redirected files, built-in commands, prompts and batch files.
- Simple per-process show and write handlers of base.c: they would only add easy members.
