# Network-programming servers: verified models

This project models, in Dafny, the parts of the four course projects that carry state: the
numbered-pipe shells, the chat servers' user pipes and client tables, the SOCKS4 server and
the console that talks to it.

## The systems

**Numbered pipes.** A shell gives every command an absolute index. `|N` and `!N` send a
command's output to the command N places later, also across lines; `pipe_table` holds the two
descriptors of each pending slot. `Kernel` is what the shells see of the operating system:
descriptors, the three standard streams, pipes, and children that inherit every open pipe end.
The descriptors that `pipe()` returns are an arbitrary function of the call number and the
descriptors in use, so every run of a kernel is covered; a standard stream that was closed may
be handed out again. `NumberedPipes` is `handler` as a function on values, one
command at a time; `Shell` is the same code on a mutable array; `PipeInvariant`,
`PipeTheorems` and `Progress` prove what it promises. `TypedLines` says how lines with every
operator are typed and that both `handler`s read them back; `Sessions` is a typed session from
its text to its children. The default input and output are
symbolic, so the model is also `handler` of NP_Project2/np_simple_ (same loops, with the
client's socket as default output).

**The second implementation.** `CommandTable` and `MultiShell` are the parser into absolute
rows and the executor of the multi-process server. `PlainLines` proves the parsers,
`TwoShells` that both implementations give the kernel the same history on lines of programs,
and `BuiltinLines` when they still do with built-in lines in between. `RedirectLines` is the
parser on lines with `> file`, `<n` and `>n`, and `OpenRows` what the executor leaves open on
sessions of all of these, built-in and refused lines included; `RowExamples` are runs.
`TypedPipes` goes from typed tokens to the file or FIFO that each child opens, `FifoNames` is
the names of the FIFOs, and `AppendLines` is `>> f`.

**User pipes.** `UserPipes` is the shared cell per ordered pair of clients, with every shared
test and update as a step of its own and all interleavings; `ProtocolLink` ties it to
`execute`, and `ReceiveLines` to the typed line. `Registry` and `SharedMemory` are the client
table and the matrix over logins, commands and logouts, and `RegistryLink` ties a command's step
to the executor. `Tubes`, `TubeRuns`, `UserList`, `UserOrder`, `SingleHandler` and
`SingleShell` are the single-process server: linked lists with real nodes, and `handler` with
`>n` and `<n` on top of the numbered pipes. `TubeBooks`, `TubeServer`, `TubeProgress` and
`TubeChildren` are its descriptors and its children over whole runs. `TubeTrace` reads off the commands alone
who should feed whom, `TubeFlow` keeps the descriptors of every child in step with that, and
`TubeFeeds` and `TubeViews` say what follows; `StdinLost` and `TubeExamples` are runs.

**SOCKS.** `Socks`, `Firewall` and `Relay` are the request codec, the rule file, the decision
and the relay loop; `FirewallRules` is the rule file as it is written; `Escape` is the console's HTML escaping. Bytes are numbers below 256, and
shifts and masks of disjoint bytes are written as multiplication, division and remainder.

All lemmas carry `{:induction false}`: every induction is written out.

## Where the code does not do what it seems to promise

Each is kept as the code has it, with the exact condition under which the promise holds.

- A jump of 0 or less leaves a descriptor behind the cursor: the sliding window holds over a
  run exactly when every jump is at least 1 (`WindowIffForward`). On lines whose first word is
  no built-in the two implementations agree exactly without `|0` (`SameKernelHistory`).
- `switch_command` looks for its words anywhere: a line reaches `handler` exactly when it is not
  empty, not `exit`, and has neither `printenv` nor `setenv` anywhere in it (`DroppedExactly`);
  `cat printenv.txt` runs nothing.
- A built-in line takes a row of the multi-process server's table, but no slot of `handler`. With
  `setenv` and `printenv` lines in between and jumps of at least 1 the two still agree when no
  such line comes while a pipe is pending (`BuiltinsAgree`); when one does, they part as soon as
  `handler` reaches the pending slot (`BuiltinParts`; the lines `ls |1`, `printenv PATH`, `cat`
  in `PrintenvParts`).
- `> file` in the multi-process server takes a row and opens a pipe nobody closes, and the rows of
  built-in and refused lines are passed over with their pipes: behind the position exactly the
  file-name rows of executed lines and those rows of built-in or refused lines that an executed
  jump had named have open descriptors. None are open exactly when there are neither
  (`OpenBehind`; the line `ls > f` in `LsFileLeaks`, the lines `ls |` and `who` in `WhoLeaks`).
- `>> f` in the multi-process server appends nothing: the line does what `| f` does, so the file
  name is executed as a command (`AppendIsPipe`).
- The FIFO of a user pipe is named by the two ids side by side: two pairs of clients share one
  exactly when the digits shift (`NamesIff`; from 1 to 12 and from 11 to 2 in `NamesClash`), and
  never when the senders' ids have equally many digits (`NamesApart`).
- `>& f` in the single-process server redirects the output, not the errors, unless the file is
  itself called `>&` (`SingleReads`).
- A `|0` in the multi-process server is no jump: the line prints back without its bar
  (`ParsePrintRoundTrip`).
- The `close(out)` under `finish_pre` never runs (`MultiShell.ReleaseRow`).
- Sends minus receives of a user pipe is its cell exactly for the lines that have one command
  without a numbered pipe as input, if they receive, and no numbered pipe as output, if they
  send (`GoodExactly`): otherwise the pipe stays raised after it was read, or one sent in the
  meantime is lost (`ChaseCount`), or the cell is never raised (`SendUnseen`).
- `>0` finds a free slot of the client table, so a cell to nobody is raised (`CommandEndpoints`,
  `ZeroAccepted`); raised cells join live clients exactly when none of these has had a `>0`
  accepted (`LiveEndpoints`).
- `insert_client` compares the wrong node's id: the list stays ordered exactly when nobody joins
  while user 1 is connected and an id between 1 and the last one is missing (`RunOrderedIff`);
  otherwise the id is handed out twice (`RepeatedId`).
- `delete_all_id_tube` reads an unassigned pointer exactly when the list begins with two tubes
  to delete (`Tubes.TubeList.Unlink`), and is called with a descriptor for an id (`LogoutByFd`);
  tubes from or to the id are all gone exactly when all that were pending were sent under the
  descriptor's number (`TubeServer.LogoutClean`), otherwise the next user of the id inherits them
  (`ReusedIdInherits`: from the start, `ls >2`, user 2 leaves, somebody else comes).
- A refused `>n` or `<n` leaves half a pipe when a numbered pipe was waiting (`RefusedWindow`),
  and the next command closes descriptor 0: over whole runs standard input stays open exactly
  when no command follows such a refusal (`StdinStaysIff`). Twice in a run, it costs a pending
  user pipe its read end (`TubeLosesReadEnd`, `ReceiverReadsNothing`).
- A child that reads a user pipe holds that pipe's write end and never sees end-of-file
  (`ReceiverNeverExits`). A child never exits exactly when it has a `<n`, or its slot had been
  named when an earlier child that never exits was forked (`WhoExits`). So the server can wait
  for ever: user 1 types `ls >2`, user 2 `cat <1 | cat` (`WaitNeverReturns`).
- The single-process server's numbered pipes are shared by all users: `ls |1` of user 1 feeds
  the next command of whoever types it (`PipeBetweenUsers`). Users are isolated exactly when
  neither stream of any command goes to the slot of another user's command without `<n` (`IsolatedIff`).
- A 4A request equals a plain one for the resolved address unless that is 0.0.0.x with x not 0
  (`SameAsPlain`, `SameDecision`).
- Escaping loses carriage returns, and texts that already contain a reference (`DecodeIff`).

## Model

| member | source | states |
|---|---|---|
| Kernel.SomeSound | NP_Project1/src/shell.c:116-118 | kernels that hand out two distinct unused descriptors exist, so the theorems about every such kernel are not empty |
| PipeInvariant.StepOk | NP_Project1/src/shell.c:73-179 | one command with jumps of at least 1 keeps the window, the descriptor ledger, the record of who feeds whom and the set of ends every child holds |
| PipeInvariant.RunOk | NP_Project1/src/shell.c:73-179 | so does every stream of such commands |
| PipeTheorems.Dataflow | NP_Project1/src/shell.c:73-179 | command k reads the default input exactly when no earlier command named its slot, and otherwise one pipe whose stdout and stderr writers are exactly the earlier commands whose last operator on that stream jumps k - j; its own streams go to the screen or to a file exactly when its last operator on them says so |
| PipeTheorems.WindowAndLedger | NP_Project1/src/shell.c:82-87 | before every command the slots behind the cursor are empty and the others empty or two distinct open descriptors; every end is closed at most once and only while open, the standard streams never; opened minus closed is twice the number of pending slots |
| PipeTheorems.BackwardBreaksWindow | NP_Project1/src/shell.c:111-130 | with standard input open, a command with a jump of 0 or less leaves an open write end behind the cursor |
| PipeTheorems.WindowIffForward | NP_Project1/src/shell.c:73-179 | over a whole run the window holds before every command exactly when every jump is at least 1 |
| PipeTheorems.JumpZeroExample | NP_Project1/src/shell.c:113-119 | the concrete input `ls \|0` that breaks the window |
| PipeTheorems.RunAppend | NP_Project1/src/shell.c:28-36 | where lines end makes no difference: running two streams in turn is running their concatenation |
| Progress.WriteHoldersAreEarlier | NP_Project1/src/shell.c:82-87 | counting inherited copies, every holder of the write end behind child k's input is a child before k, and the shell is not one |
| Progress.ExitsWithinRounds | NP_Project1/src/shell.c:149-178 | whoever has exited already, child k exits within k + 1 rounds |
| Progress.WaitReturns | NP_Project1/src/shell.c:172-172 | every `waitpid` of every run returns |
| Progress.NoDeadlock | NP_Project1/src/shell.c:149-178 | while some child runs, a running child not after it can exit |
| Progress.SelfHeldNeverExits | NP_Project1/src/shell.c:82-87 | why the write end is closed before the fork: a child that inherits the write end of its own input never ends |
| Shell.Shell.constructor | NP_Project1/src/shell.c:3-4 | the zeroed table and cursor are the start state |
| Shell.Shell.ApplyOp | NP_Project1/src/shell.c:111-145 | one pass of the operator loop opens or reuses the slot and redirects the streams as specified |
| Shell.Shell.RunCommand | NP_Project1/src/shell.c:75-178 | one pass of the outer loop is one step of the machine on the command at the head of the tokens |
| Shell.Shell.Handler | NP_Project1/src/shell.c:67-180 | a line on the mutable table is the run of its parsed commands |
| Shell.Shell.Session | NP_Project1/src/shell.c:25-65 | a whole session, with built-in lines skipped and `exit` ending it, is one run, and keeps the invariant when all jumps are at least 1 |
| Sessions.DroppedExactly | NP_Project1/src/shell.c:35-64 | a line adds nothing to a session exactly when it is empty or has `printenv` or `setenv` anywhere in it, adds all that `handler` reads from it otherwise, and `exit` ends the session |
| Sessions.SessionReads | NP_Project1/src/shell.c:25-71 | for typed lines in any spacing, mixed with dropped ones, the commands of the session are exactly those that were said, with nothing from `exit` on |
| Sessions.SessionChildren | NP_Project1/src/shell.c:149-178 | such a session forks one child for every command said, in order, with exactly its words, and waits for it exactly when it has no operator or writes to a file |
| Text.ScanDecimal | NP_Project1/src/shell.c:115-115 | scanning a printed number with `%d` or `atoi` gives the number back |
| Text.ScanPrinted | NP_Project1/src/shell.c:115-115 | so for every integer, negative ones too, whatever non-digits follow |
| Text.ScanSome | NP_Project1/src/shell.c:115-115 | a number is found exactly when a digit stands in front, perhaps behind one sign |
| Text.TokenizeWeave | NP_Project1/src/shell.c:71-71 | whatever delimiters stand around and between some words, repeated `strtok` yields exactly those words in order |
| Text.EveryLineWeaves | NP_Project1/src/shell.c:71-71 | every line is made of its tokens and delimiters in that way, so the tokens are all its maximal runs |
| PlainLines.HandlerReads | NP_Project1/src/shell.c:100-146 | `handler` reads a printed line back as exactly its commands and jumps |
| TypedLines.ShellReads | NP_Project1/src/shell.c:100-146 | every typed line with `\|`, `\|N`, `!`, `!N`, `> f` and `>& f` is read back as its commands and operators |
| TypedLines.SingleReads | NP_Project2/np_single_proc_/src/shell.c:222-330 | every typed line with these and `>n` and `<n` is read back; `>& f` is read as `> f` unless the file is called `>&` |
| PlainLines.TableReads | NP_Project2/np_multi_proc_/src/CommandTable.c:94-144 | `set_Command_Table` stores a printed line command by command from the current position, and counts its rows |
| PlainLines.ParsePrintRoundTrip | NP_Project2/np_multi_proc_/src/CommandTable.c:94-144 | printing the stored rows and jump distances gives the line back, with a bare bar as a jump of 1 and the bar of a jump of 0 left out; rows outside the line's range, descriptors and position are unchanged |
| MultiShell.MultiShell.constructor | NP_Project2/np_multi_proc_/src/CommandTable.c:21-64 | the initialised table: no rows, no jumps, every slot at the standard descriptors |
| MultiShell.MultiShell.SetCommandTable | NP_Project2/np_multi_proc_/src/CommandTable.c:72-145 | the in-place parser, with `>`, `>>`, `>n` and `<n`, is the specified one |
| MultiShell.MultiShell.FinishPre | NP_Project2/np_multi_proc_/src/shell.c:518-522 | the loop finds out whether all jumps up to this row are zero |
| MultiShell.MultiShell.ReleaseRow | NP_Project2/np_multi_proc_/src/shell.c:513-535 | the input is closed, the row's jump cleared, and the output never closed: that branch is dead |
| MultiShell.MultiShell.ExecuteRow | NP_Project2/np_multi_proc_/src/shell.c:416-537 | one pass of the loop takes the input, makes the output, forks and releases as specified, matrix cells included |
| MultiShell.MultiShell.ExecutePipeline | NP_Project2/np_multi_proc_/src/shell.c:409-540 | the rows of a line in order |
| MultiShell.MultiShell.Execute | NP_Project2/np_multi_proc_/src/shell.c:264-356 | built-in lines and refused user pipes leave everything unchanged, other lines run |
| MultiShell.MultiShell.RunLine | NP_Project2/np_multi_proc_/src/shell.c:100-102 | one turn of `launch`: parse, execute, move on by the number of rows |
| TypedPipes.LinePorts | NP_Project2/np_multi_proc_/src/shell.c:298-537 | a typed line with `<n`, `>t` and `> f` anywhere is executed exactly when its first word is no server command, n is known and has sent, and t is known and has nothing pending; otherwise no child and no cell changes. Executed, its commands become children in order, the first reads the pipe from n to the client, the last writes the file or else the pipe from the client to t, and only it may be waited for |
| TypedPipes.SamePipe | NP_Project2/np_multi_proc_/src/shell.c:468-480 | the last child of an accepted `>r` of s writes the very pipe that the first child of an accepted `<n` of another client reads exactly when both mean the same pair or the names of the two files agree |
| TypedPipes.RowsAlike | NP_Project2/np_multi_proc_/src/shell.c:416-537 | the flags of a line change no words, inherited ends or streams of its children but the first input, the last output and the last wait |
| FifoNames.NamesIff | NP_Project2/np_multi_proc_/src/shell.c:357-375 | two pairs have the same FIFO exactly when they are equal or the digits of one sender go on into the receiver |
| FifoNames.NamesApart | NP_Project2/np_multi_proc_/src/shell.c:357-375 | never for different pairs whose senders have equally many digits |
| FifoNames.NamesClash | NP_Project2/np_multi_proc_/src/shell.c:357-375 | the concrete pairs (1, 12) and (11, 2) |
| AppendLines.AppendIsPipe | NP_Project2/np_multi_proc_/src/CommandTable.c:111-120 | a line with `>> f` has exactly the effect of the line with `\| f` |
| TwoShells.LineAgrees | NP_Project2/np_multi_proc_/src/shell.c:409-540 | one line of commands and jumps of at least 1 keeps the two machines in the same kernel state with agreeing tables |
| TwoShells.SameKernelHistory | NP_Project2/np_multi_proc_/src/shell.c:409-540 | on all sequences of such lines whose first word is no built-in both implementations leave the same open descriptors, the same ends closed in the same order and the same children with the same streams and inherited ends, exactly when no jump is 0 |
| BuiltinLines.CommonIsSkipped | NP_Project1/src/shell.c:40-65 | a `setenv` or `printenv` line never reaches `handler`, however it is spaced |
| BuiltinLines.BuiltinsAgree | NP_Project2/np_multi_proc_/src/shell.c:264-296 | with `setenv` and `printenv` lines among lines with jumps of at least 1, both implementations have the same kernel history when each built-in line comes while no pipe is pending, although the cursors drift apart |
| BuiltinLines.BuiltinParts | NP_Project2/np_multi_proc_/src/shell.c:100-102 | when slot k is pending at a built-in line and `handler` reaches it, child k reads the pipe there and not in the table |
| RowExamples.PrintenvParts | NP_Project2/np_multi_proc_/src/shell.c:264-296 | the concrete lines `ls \|1`, `printenv PATH`, `cat`: `cat` reads the pipe in one shell only |
| RedirectLines.TableReadsFile | NP_Project2/np_multi_proc_/src/CommandTable.c:111-120 | a line with `> file` is stored like the line without it, with the redirection flag, a jump of 1 on the last command and the name in a row of its own |
| OpenRows.OpenBehind | NP_Project2/np_multi_proc_/src/shell.c:255-351 | after every session of lines of commands, bars, jumps of at least 1, optional `> file` and user pipes, with built-in and refused lines: behind the position exactly the file-name rows of executed lines and the rows of built-in or refused lines that an executed jump had named are open, each with both ends of its pipe; none exactly when there are neither |
| RowExamples.LsFileParsed | NP_Project2/np_multi_proc_/src/CommandTable.c:111-120 | the tokens `ls`, `>`, `f` give the flag, two rows, a jump of 1 on the first and the name in the second |
| RowExamples.LsFileLeaks | NP_Project2/np_multi_proc_/src/shell.c:440-443 | after `ls > f` as first line the pipe of row 1 is open at the end of every session, whatever lines follow, built-in or refused ones too |
| RowExamples.WhoLeaks | NP_Project2/np_multi_proc_/src/shell.c:264-298 | after the lines `ls \|` and `who` the pipe of row 1, which `who` took, is open at the end of every session |
| OpenRows.HandlerLeaksNothing | NP_Project1/src/shell.c:73-179 | in `handler`, over every stream with jumps of at least 1 and any redirections, no descriptor of a slot behind the cursor is open |
| UserPipes.OnlyOwnCells | NP_Project2/np_multi_proc_/src/shell.c:434-452 | a step of p raises only cells from p and lowers only cells to p |
| UserPipes.NeverOverwritten | NP_Project2/np_multi_proc_/src/shell.c:300-351 | in every interleaving of any lines a raise finds the cell clear, a lowering finds it raised, and raises minus lowers is the cell |
| ReceiveLines.TableReadsReceive | NP_Project2/np_multi_proc_/src/CommandTable.c:130-135 | `<n` behind the first command sets the sender and the flag, and the rows are as without it |
| ReceiveLines.UsualShapeIsGood | NP_Project2/np_multi_proc_/src/shell.c:428-443 | a typed line that receives on a first command without numbered input, with plain bars inside, has numbered input on all its other commands and so meets the condition of the next row |
| UserPipes.SendsMinusReceives | NP_Project2/np_multi_proc_/src/shell.c:300-351 | when receiving lines have exactly one command without numbered input and sending lines no numbered output, pipes opened for `>t` minus pipes opened for `<f` is the cell whenever the receiver is between lines, and an accepted pipe is not lost before it is cleared |
| UserPipes.ChaseCount | NP_Project2/np_multi_proc_/src/shell.c:434-437 | for every receiving line, sending or not, there is an interleaving after which that equation holds exactly when the first condition does |
| UserPipes.SendUnseen | NP_Project2/np_multi_proc_/src/shell.c:441-452 | every line that sends behind a numbered output has a run in which it is accepted, its child opens the pipe, and the cell stays clear |
| UserPipes.GoodExactly | NP_Project2/np_multi_proc_/src/shell.c:298-354 | among plain sends of others a line keeps the equation in every interleaving exactly when it meets both conditions |
| ProtocolLink.ExecuteIsProtocol | NP_Project2/np_multi_proc_/src/shell.c:298-354 | run alone, the steps of the protocol leave the matrix exactly as `execute` does, for every parsed line and registry answer |
| Registry.ById | NP_Project2/np_multi_proc_/src/client.c:60-71 | the last slot with the id, or none has it |
| Registry.Available | NP_Project2/np_multi_proc_/src/client.c:36-46 | the first slot without a descriptor, or all have one |
| Registry.LookupById | NP_Project2/np_multi_proc_/src/client.c:60-71 | a lookup by a nonzero id finds exactly the live slot of that index; id 0 is found whenever some slot is free |
| Registry.NextInv | NP_Project2/np_multi_proc_/src/client.c:4-34 | logins, commands and logouts keep ids equal to slot indexes, free slots zero, process ids distinct and every raised cell from a live client to a live client or to 0 |
| Registry.LogoutExactly | NP_Project2/np_multi_proc_/src/socket.c:192-227 | a logout frees exactly its slot and clears exactly the cells from and to its id |
| Registry.LoginStartsClean | NP_Project2/np_multi_proc_/src/client.c:10-34 | a login writes id, process and descriptor into the least free slot, changes nothing else, and no pending pipe touches its id |
| Registry.CommandExactly | NP_Project2/np_multi_proc_/src/shell.c:300-351 | a command is refused, and then changes nothing, unless its sender is found and has sent and its receiver is found and has nothing pending; accepted, it clears exactly the cell it receives from, raises exactly the cell it sends to and leaves all others |
| RegistryLink.CommandIsLine | NP_Project2/np_multi_proc_/src/shell.c:298-452 | on a typed one-command line the executor changes the matrix exactly as the registry's step, when it knows the ids that the registry has |
| Registry.CommandEndpoints | NP_Project2/np_multi_proc_/src/shell.c:324-351 | a command keeps all raised cells between live clients exactly when it is not an accepted send to 0 |
| Registry.ZeroAccepted | NP_Project2/np_multi_proc_/src/client.c:60-71 | a send to 0 is accepted exactly while a slot is free and the cell is clear |
| Registry.LiveEndpoints | NP_Project2/np_multi_proc_/src/socket.c:192-227 | after every run from the empty server lookups are exact, and every raised cell joins two live clients exactly when no client still logged in has had a send to 0 accepted |
| SharedMemory.SharedMemory.GetClientById | NP_Project2/np_multi_proc_/src/client.c:60-71 | the loop computes the lookup |
| SharedMemory.SharedMemory.GetClientByPid | NP_Project2/np_multi_proc_/src/client.c:73-84 | the loop computes the lookup by process |
| SharedMemory.SharedMemory.GetAvailableClient | NP_Project2/np_multi_proc_/src/client.c:36-46 | the loop finds the first free slot |
| SharedMemory.SharedMemory.InitClient | NP_Project2/np_multi_proc_/src/client.c:4-34 | the record is written to that slot and nothing else changes |
| SharedMemory.SharedMemory.ResetClient | NP_Project2/np_multi_proc_/src/socket.c:192-227 | the row and column loops and the cleared record are the specified logout |
| SharedMemory.SharedMemory.Execute | NP_Project2/np_multi_proc_/src/shell.c:300-351 | the checks and the two cell updates of a one-command line on the matrix |
| Tubes.TubeList.Push | NP_Project2/np_single_proc_/src/tube.c:14-18 | the node is linked in front |
| Tubes.TubeList.Find | NP_Project2/np_single_proc_/src/shell.c:264-264 | the search yields the first tube of the pair, or there is none |
| Tubes.TubeList.Unlink | NP_Project2/np_single_proc_/src/tube.c:20-69 | the pointer loop reads an unassigned `prev` exactly when the list begins with two hits; otherwise exactly the hit tubes go, each with both ends closed once and its node freed once, and the others keep their order |
| Tubes.TubeList.DeleteAllIdTube | NP_Project2/np_single_proc_/src/tube.c:20-43 | the same for all tubes of a sender |
| Tubes.TubeList.DeleteIdTube | NP_Project2/np_single_proc_/src/tube.c:45-69 | with unique pairs there is no unassigned read and only the pair's tube goes |
| TubeRuns.WithoutPairIsOne | NP_Project2/np_single_proc_/src/tube.c:45-69 | with unique pairs the deletion takes out one tube between the unchanged rest and closes its two ends |
| SingleHandler.LineRefinesMap | NP_Project2/np_single_proc_/src/shell.c:181-360 | every line of every user, refused or not, changes the list as its accepted sends and its receives change a map from (sender, receiver) to a pipe |
| TubeRuns.LogoutByFd | NP_Project2/np_single_proc_/src/server.c:112-112 | deleting by descriptor leaves the right tubes exactly when descriptor and id are equal or no pending tube's sender has either number |
| TubeServer.ServerRefinesMap | NP_Project2/np_single_proc_/src/tube.c:5-69 | over every run of all users, refused commands included, pairs are unique and the list is the map from (sender, receiver) to a pipe that the accepted sends, the receives and the logouts give |
| TubeServer.LogoutClean | NP_Project2/np_single_proc_/src/server.c:105-115 | after every run and a logout no tube goes from or to the id exactly when every pair from or to it that was pending was sent under the descriptor's number |
| TubeExamples.ReusedIdInherits | NP_Project2/np_single_proc_/src/server.c:105-115 | from the empty server: two users connect, user 1 types `ls >2`, user 2 leaves, and the next connection gets the id 2 with the tube waiting for it |
| UserList.LeastFreeId | NP_Project2/np_single_proc_/src/client.c:72-83 | on every ordered list the allocator returns the least positive free id, at most the length plus one |
| UserList.UserList.GetAvailableId | NP_Project2/np_single_proc_/src/client.c:72-83 | the loop computes it on the nodes |
| UserList.UserList.InsertClient | NP_Project2/np_single_proc_/src/client.c:15-35 | the code as written links exactly the new node into the list at the specified place |
| UserList.UserList.DeleteClient | NP_Project2/np_single_proc_/src/client.c:37-60 | the first user of the descriptor goes, only its node is freed, the others keep their order |
| UserOrder.InsertAddsOne | NP_Project2/np_single_proc_/src/client.c:15-35 | an insertion as written adds exactly the user with the allocated id and the new descriptor |
| UserOrder.InsertOrderedIff | NP_Project2/np_single_proc_/src/client.c:32-34 | an insertion keeps the order exactly when the list is empty, does not start at 1, or is 1 to n |
| UserOrder.RepeatedId | NP_Project2/np_single_proc_/src/client.c:32-34 | after an insertion that breaks the order the allocator returns the same id again |
| UserOrder.GapExample | NP_Project2/np_single_proc_/src/client.c:32-34 | ids 1, 2, 4 become 1, 2, 4, 3, and the next id is 3 |
| UserOrder.InsertIntendedOrdered | NP_Project2/np_single_proc_/src/client.c:32-34 | with the comparison on the next node the list stays ordered and gains exactly the user with the least free id |
| UserOrder.IntendedRunOrdered | NP_Project2/np_single_proc_/src/client.c:15-60 | with it, every run of connects and disconnects keeps the ids strictly increasing |
| UserOrder.RunOrderedIff | NP_Project2/np_single_proc_/src/client.c:15-60 | as written, a run keeps the ids strictly increasing throughout exactly when nobody joins while user 1 is there and an id between 1 and the last is missing |
| SingleHandler.LineKeepsUnique | NP_Project2/np_single_proc_/src/shell.c:255-352 | no line of any user, wherever it stops, makes two tubes of one pair |
| SingleHandler.RefusedWindow | NP_Project2/np_single_proc_/src/shell.c:266-317 | with standard input open, a refused command leaves the window intact exactly when no numbered pipe waited for it; otherwise the slot keeps its read end alone |
| TubeServer.StdinStaysIff | NP_Project2/np_single_proc_/src/shell.c:204-209 | over every run from the empty server descriptor 0 is never closed exactly when no command follows one that was refused while a numbered pipe waited for it |
| TubeBooks.DeletedBooks | NP_Project2/np_single_proc_/src/tube.c:20-69 | deleting tubes by pair or by sender closes both ends of those that go and leaves every other tube and every pending numbered pipe with its own open descriptors |
| TubeServer.TubesStayOpen | NP_Project2/np_single_proc_/src/shell.c:181-360 | after every run without a command behind such a refusal every listed tube has its own two open descriptors, no pipe-table entry shares one, pairs are unique and the standard streams are open; after any other run this fails, for certain in its last part |
| StdinLost.Typed | NP_Project2/np_single_proc_/src/shell.c:225-240 | the commands of the next row are what `handler` reads from the typed lines |
| StdinLost.TubeLosesReadEnd | NP_Project2/np_single_proc_/src/shell.c:204-209 | the concrete run, on a kernel with lowest free descriptors, in which two refusals close the read end of a listed tube |
| StdinLost.ReceiverReadsNothing | NP_Project2/np_single_proc_/src/shell.c:319-319 | after it `<1` is accepted and its child has no input, so it can exit without having read the tube |
| TubeFeeds.WhoFeedsWhom | NP_Project2/np_single_proc_/src/shell.c:181-360 | over every such run of all users child k reads the server's input exactly when it has no `<n` and no earlier command named its slot, child j's output feeds child k exactly when j writes the tube that k took, or k took none, j came earlier and the last redirection of its output jumps to k's slot, which no refused `\|0` renewed, and so with its standard error, which enters no tube |
| TubeFeeds.IsolatedIff | NP_Project2/np_single_proc_/src/shell.c:7-9 | the table is shared: users are isolated from each other's numbered pipes exactly when every command whose output or error stream goes to another's slot, which has no `<n`, is of the same user |
| TubeFeeds.TubeReader | NP_Project2/np_single_proc_/src/shell.c:298-323 | a child with `<n` reads exactly from the last child before it that user n forked with its output in a tube to the reader, and from nobody when the tube's maker was refused or wrote elsewhere in the end |
| TubeViews.RanIff | NP_Project2/np_single_proc_/src/shell.c:255-330 | a command is forked exactly when each of its `>n` finds a user n and no pending tube to n, earlier ones of the command counted, and each `<n` a user n and a pending tube from n |
| TubeViews.TraceOfEvents | NP_Project2/np_single_proc_/src/shell.c:255-352 | which commands are accepted, and with it who aims at whom, depends on the events alone and not on the kernel |
| TubeExamples.PipeBetweenUsers | NP_Project2/np_single_proc_/src/shell.c:7-9 | the concrete run in which `cat` of user 2 reads `ls \|1` of user 1 |
| TubeFeeds.WhoExits | NP_Project2/np_single_proc_/src/shell.c:319-353 | over every such run child k exits within k + 1 rounds unless its command has `<n` or its slot had been named when an earlier stuck child was forked; the stuck never exit, so this says which waits return |
| TubeExamples.TypedReceive | NP_Project2/np_single_proc_/src/shell.c:225-255 | the second line of the next row is what `handler` reads from `cat <1 \| cat` |
| TubeExamples.WaitNeverReturns | NP_Project2/np_single_proc_/src/shell.c:353-357 | the concrete run, on every kernel, in which the server waits for a child that never exits |
| TubeProgress.ReceiverNeverExits | NP_Project2/np_single_proc_/src/shell.c:319-337 | a child that reads a user pipe inherits its write end and never sees end-of-file |
| TubeExamples.ErrorsIntoPipe | NP_Project2/np_single_proc_/src/shell.c:245-252 | the concrete run of the typed lines `ls !1` and `cat`: `cat` reads the output and the errors of `ls` |
| TubeChildren.ServerForks | NP_Project2/np_single_proc_/src/shell.c:332-358 | over every run there is one child for every command up to the refusals, in order, with exactly its words, awaited exactly when it has no operator or writes to a file |
| SingleShell.SingleShell.ConnectClient | NP_Project2/np_single_proc_/src/server.c:88-103 | a connection inserts one user and changes nothing else |
| SingleShell.SingleShell.FreeResource | NP_Project2/np_single_proc_/src/server.c:105-115 | a disconnection removes the user and, by the descriptor, tubes; the unassigned read exactly as in the list |
| SingleShell.SingleShell.SendPipe | NP_Project2/np_single_proc_/src/shell.c:257-288 | a send is refused exactly when the peer is unknown or the pair has a tube, and otherwise pushes one new tube |
| SingleShell.SingleShell.ReceivePipe | NP_Project2/np_single_proc_/src/shell.c:298-323 | a receive is refused exactly when the peer or the tube is missing, and otherwise takes the tube's read end |
| SingleShell.SingleShell.RunCommand | NP_Project2/np_single_proc_/src/shell.c:193-358 | one pass of the outer loop, with early return on a refusal, is one step |
| SingleShell.SingleShell.Handler | NP_Project2/np_single_proc_/src/shell.c:181-360 | a user's line on the mutable tables and lists is the specified run |
| Socks.BuildRequest | NP_Project4/Console.cpp:33-62 | the array filled index by index is the 4A layout followed by zeros, for any user id and domain that fit |
| Socks.InBoundsIff | NP_Project4/sock_server.cpp:188-191 | the two scans of a 4A request stay inside the buffer exactly when it holds two NULs behind the header |
| Socks.BuildLayout | NP_Project4/Console.cpp:43-62 | the built request byte by byte |
| Socks.RoundTrip | NP_Project4/sock_server.cpp:181-191 | a built request takes the 4A branch, is scanned in bounds, and yields the same port, user id and domain, whatever follows it |
| Socks.ParseBuilt | NP_Project4/sock_server.cpp:178-225 | the resolver is asked for exactly the client's domain and port, and the target is its answer with that port |
| Socks.RoundTripOnTheWire | NP_Project4/sock_server.cpp:74-78 | the same in the server's zeroed buffer of 4096 bytes |
| Socks.ReadDomain | NP_Project4/sock_server.cpp:188-191 | the two loops find the bytes between the two NULs |
| Socks.ParseRequest | NP_Project4/sock_server.cpp:178-225 | the in-place parser rewrites bytes 4 to 7 and sets the target as specified, or fails with the resolver |
| Socks.PackUnpack | NP_Project4/sock_server.cpp:206-209 | packing the four unpacked bytes of a word gives the word |
| Socks.UnpackPack | NP_Project4/sock_server.cpp:223-223 | unpacking a packed word gives the four bytes |
| Socks.OneAddress | NP_Project4/sock_server.cpp:203-223 | for every request and resolver the bytes the firewall checks are those of the word that is connected to, and nothing else of the request changes |
| Socks.SameAsPlain | NP_Project4/sock_server.cpp:178-225 | a plain request for the resolved address has the same target and header, and is read as plain exactly when the address is not 0.0.0.x with x not 0 |
| Firewall.RunFireWall | NP_Project4/sock_server.cpp:328-392 | the loop over the rules returns the first decisive verdict |
| FirewallRules.RuleReads | NP_Project4/sock_server.cpp:338-340 | a written rule is split into its verb, class and address, and the address into its four fields |
| FirewallRules.FileAdmits | NP_Project4/sock_server.cpp:328-392 | on a written rule file a request is accepted exactly when some rule is not of class b for CONNECT or c for BIND and its numbers are the first bytes of the address |
| FirewallRules.ClientGets | NP_Project4/sock_server.cpp:69-176 | under a written rule file: other versions and unresolved names are dropped; CONNECT gets 0x5A and the relay exactly when the destination connects and a rule admits it, 0x5B otherwise; BIND goes on exactly when a rule admits it; other commands go on without a destination |
| Firewall.RuleIsBlock | NP_Project4/sock_server.cpp:343-382 | a well-formed rule accepts exactly when it is of the request's class and the 32-bit address div 256^k is the number it spells |
| Firewall.AcceptIff | NP_Project4/sock_server.cpp:328-392 | on well-formed rules the firewall accepts exactly when some rule covers the request |
| Firewall.MoreRules | NP_Project4/sock_server.cpp:336-385 | more rules never turn accept into reject, and the answer depends only on the set of rules |
| Firewall.SameDecision | NP_Project4/sock_server.cpp:69-176 | a 4A request gets the same decision, reply and destination as a plain one for the resolved address, outside 0.0.0.x |
| Firewall.RelayedWasAccepted | NP_Project4/sock_server.cpp:110-149 | a relayed request was accepted for exactly the address that was connected to, and the reply is the granted code with that address and the port connected to |
| Firewall.DecisionIff | NP_Project4/sock_server.cpp:80-171 | another version is dropped; CONNECT is relayed exactly when the destination connects and a rule covers it and refused otherwise; BIND is served exactly when a rule covers it and dropped without reply otherwise |
| Relay.DoTransfer | NP_Project4/sock_server.cpp:394-465 | the bytes written to each socket are exactly the bytes read from the other before the first end-of-file, in order |
| Relay.DeliveredIs | NP_Project4/sock_server.cpp:416-461 | by the answers of `select`: each side gets all that the other sent before the first pass with an end-of-file, and what it sent in that pass unless the end was read first, the lower descriptor being read first |
| Relay.CutAtFirstEnd | NP_Project4/sock_server.cpp:432-456 | what counts is the longest prefix of the reads without an end-of-file |
| Relay.NothingAfterEnd | NP_Project4/sock_server.cpp:432-456 | after an end-of-file on either side nothing is delivered in either direction |
| Escape.NetworkEntity | NP_Project4/Console.cpp:224-231 | the seven passes in place are one simultaneous replacement |
| Escape.Fusion | NP_Project4/Console.cpp:224-231 | the same as a lemma on texts |
| Escape.EachCharacter | NP_Project4/Console.cpp:226-227 | each of the seven characters becomes its own reference, every other stays, and texts are escaped character by character |
| Escape.EscapedOnce | NP_Project4/Console.cpp:224-231 | the result has none of the seven characters and escaping it again changes nothing |
| Escape.DecodeIff | NP_Project4/Console.cpp:226-227 | decoding recovers the text exactly when it has no carriage return and contains none of the references already |

## Left out

- Sockets, `accept`, `getaddrinfo`, `select`, signals and the Boost callbacks: readiness, read sizes, resolver answers and accepted clients are arbitrary inputs.
- `exec`, program output, environment variables and `PATH`: children are abstract readers and writers. Progress assumes that a child exits at end-of-file and that pipes have unbounded capacity.
- A failing `fork`: every fork is taken to succeed. Descriptors of files opened by `>` are not in the ledger, which is about pipes.
- C memory limits: argument counts and lengths, buffer sizes of a line, overflow of scanned numbers. The bounds of `pipe_table`, `pipetable` and the 4096-byte request are modelled.
- A `|N` without a number: `sscanf` leaves a variable unset, so the handlers require a number.
- The default user pipe of a client to itself: a line without `<n` clears it. The counting theorems are about two different clients.
- A whole login is one step; races inside `init_client`, and a logout between another client's check and update, are not modelled.
- The message buffer, `SIGUSR1`, FIFO files and blocking opens, `who`, `tell`, `yell`, name changes, HTML pages and logs.
- `close` calls on the flags of the matrix in `reset_client`: only the matrix and the record are modelled.
- NP_Project3: the same escaping and connection code without SOCKS.
- BuiltinLines.BuiltinsAgree: about the built-in lines that both shells have; `who`, `tell`, `yell` and `name` are programs to the first one.
- TubeFeeds.WhoFeedsWhom: runs in which a command follows a stranding are outside; there descriptor 0 is closed and a tube can lose an end.
- TypedLines.ShellReads: a redirection without a file name, and tokens such as `>>` that the first shell takes for `>`, are modelled but are not among the typed lines; numbers are typed without a sign.
- TubeServer.TubesStayOpen: runs end where a deletion would read an unassigned pointer. Once standard input is lost, a pending tube may or may not lose a descriptor; one run in which it does is given.
- Firewall.AcceptIff: rules with a star before a number make the code throw; such rules are modelled but outside this statement.
