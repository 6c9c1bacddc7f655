# The drain protocol of a drone's recordings, verified

A logger on a drone keeps writing numbered point clouds into a directory named after the session's start time, and four metadata files when it stops. A server child on the drone decides which file may leave next. A transmission thread on the ground pulls the files, stores them and has them removed, until the server holds nothing. This project models that system and proves what it is for. A finished metadata file is, at any moment of any run, on one side or the other and unchanged, whatever the logger, the connection, delayed commands and restarts of the client do. So is a finished point cloud, but for one condition: it is gone from the server while the client's copy of it is incomplete, because the client is writing over it or was killed while it did. Whether such a point cloud is lost for good, in every continuation, is decided exactly as well: it is if and only if the copy was left incomplete by a kill and no thread has the file in hand again.

All this is about runs with one transmission thread at a time. The client's main loop does not ensure that by itself; `Lifecycle.GuardHoldsIff` says of which of its runs it is true.

The project has four layers.

1. **The protocol** (`Protocol.dfy`) is a step system. Its actors are the logger, the server child, the transmission thread, the connection, which can be lost at any moment, and the commands of dead connections, which may still be executed, at any later time and any number of times. The scan of the root, the scan of the oldest directory, the probe of the process table and the reading of the file are four separate steps, with steps of all other actors in between. Writing a file, a point cloud or metadata, is a sequence of steps as well, on both sides: the client opens its copy, which empties it, writes it in parts of any size and closes it, and may be killed in between. `Safety.dfy` and `SendOrder.dfy` hold the invariants of what the client has begun to store; `Writes.dfy` says what of it is complete on its disk; `Guarantees.dfy` states what both mean for every run; `Losses.dfy` has the exact condition for a file's being lost for good and the steps by which it is, `Stalls.dfy` the condition under which the transfer comes to a standstill for good; `Moves.dfy` says which moves each actor has in a reachable state, `Stopping.dfy` by what a thread ends and how soon after a stop, and `EmptyRace.dfy` adds a run that shows a race. `Scenes.dfy` holds runs that these start from, and `Histories.dfy` the proof that the history carried along in a state influences nothing.
2. **The programs** in their own form: the handlers and the command loop of the server (`ServerLib.dfy`, `MetaPaths.dfy`, `ServerChildren.dfy`, `Sessions.dfy`), the transmission loop of the client (`Drain.dfy`), the logger (`Recorder.dfy`), `MakePath` (`Paths.dfy`) and the client's main loop with its threads (`Lifecycle.dfy`). The transmission loop and the logger carry the state of the protocol with them, and what they do is proved to be steps of it; `EndToEnd.dfy` puts a drain behind an arbitrary run.
3. **The byte stream** (`Streams.dfy`, `Frames.dfy`, `Cuts.dfy`): one buffer and cursor shared by a text reader and a binary reader, over a stream in arbitrary chunks that may end anywhere.
4. **Names and lines** (`Text.dfy`, `Timestamps.dfy`, `Calendar.dfy`, `Wire.dfy`): what is printed and what is scanned, and the order of names and of times.

`Exchanges.dfy` ties the last three together: a command printed by the client crosses a stream in any chunks, is read and handled by the server on its tree and answered in bytes that again arrive in any chunks, and what the client reads is exactly the reply that the protocol gives to it. The transmission loop runs over such a connection.

What the proofs found, where the code does not do what it seems meant to do:

- A point cloud can be lost for good. It is stored and its removal sent, the connection is lost, the next thread is sent the same file, `fopen` with "wb" empties the copy, and the client is killed before it has written it; the late removal is executed before the kill, or after it, or when the file is in hand once more and the connection is lost again (`Losses.LostIff`, `Losses.LostAfterStepIff`; one run for each: `Losses.ACloudIsLost`, `Losses.ACloudIsLostLater`, `Losses.ACloudIsLostInHand`). Metadata cannot be lost that way (`Guarantees.NothingIsLostIff`).
- The transfer can come to a standstill for good. When a thread ends, by a stop, a lost connection or a kill, after the last point cloud of the oldest closed session has been removed and before its REMOVE_DIR is sent, the next thread is told EMPTY and fails, since its `transmission_dir` has no value; and so does every later one. That directory stays, and no point cloud of any session is sent or removed any more (`Stalls.StandstillIff`, `Stalls.StuckForEver`, `Stalls.ALossStopsTheDrain`).
- `EMPTY` can be sent for a directory that has a point cloud: when the logger begins one between the scan and the probe (`Guarantees.EmptyIsTrueIff`, `EmptyRace.EmptyIsSentForACloud`). No file is lost by it.
- A drain fails if a directory has no point cloud or lacks a metadata file, and it fails at the oldest such directory (`Drain.TransmissionThread.Run`).
- Two transmission threads can be alive, if the main loop starts one before the previous one has set `status` (`Lifecycle.AtMostOneThreadIff`, `Lifecycle.TwoThreads`).
- A text line that contains a byte 0 or 0xFF is not read whole, and what is skipped behind a 0 depends on how the stream was cut (`Streams.LineIsReadIff`, `Streams.ZeroMakesChunksMatter`).
- A file whose frame lacks only its last newline is stored if the connection was closed in order, and not if it broke; and a frame cut within its end mark by an orderly close makes the thread end with -1, so that it is not resumed, where any other cut gives -2 (`Frames.ReceiveReply`, `Frames.JudgeBody`).
- The logger copies a reference file exactly if and only if the file has no byte 0 (`Recorder.CopiedIsExactIff`).

## Model

| member | source | states |
|---|---|---|
| `Guarantees.NothingIsLostIff` | app/client/client_lib.c:59-165 | Conservation, in every state of every run, across losses, restarts, re-sent files and delayed removals: each metadata file that the logger ever finished is on the server or held by the client, with identical content; each point cloud is, if and only if it is not both gone from the server and torn, that is being written over an earlier copy just then, or left incomplete by a kill in such a moment |
| `Guarantees.NothingIsLost` | app/client/client_lib.c:59-165 | As long as the client was never killed in the middle of writing a point cloud, every finished file is on one side or the other, unchanged, whenever no point cloud is being written |
| `Guarantees.WriterHasTheFile` | app/common/compression_lib.c:76-100 | While a point cloud is being written, the thread has all its bytes in hand, and they are the finished ones: only a kill can cost it |
| `Losses.LateRemovalOpensWindow` | app/server/server_lib.c:355-376 | If a point cloud that the thread has in hand is gone from the server, then a removal sent on an earlier connection was executed during this one, while the thread had the file in hand |
| `Losses.KilledInWindow` | app/common/compression_lib.c:61-74 | If the client is killed while it writes a point cloud that is gone from the server, that file is at no later moment of any run on either side |
| `Losses.LostIff` | app/common/compression_lib.c:61-74 | A finished point cloud will never again be on either side, however the run goes on, if and only if it is gone from the server, its last copy was left incomplete by a kill, and no thread has it in hand |
| `Losses.LostAfterStepIff` | app/client/client_lib.c:70-104 | Exactly these steps lose a point cloud: a kill while the thread has it in hand, it is gone from the server and the copy is incomplete; its late removal, when a kill has left the copy incomplete and no thread has it in hand; the loss of the connection while a thread has it in hand again, it is gone and the copy was left incomplete |
| `Losses.ACloudIsLost` | app/common/compression_lib.c:61-74 | A run in which the removal is executed while the client writes over its copy, and then it is killed |
| `Losses.ACloudIsLostLater` | app/common/compression_lib.c:61-74 | A run in which the client is killed first, and the removal executed when the server has the only copy |
| `Losses.ACloudIsLostInHand` | app/client/client_lib.c:443-471 | A run in which the file is sent once more after the kill, removed, and the connection lost before it is stored |
| `Stalls.StuckForEver` | app/client/client_lib.c:107-126 | From a standstill on, in every continuation: the drained directory stays on the server, no further point cloud of any session is sent, and none disappears from the server |
| `Stalls.StandstillIff` | app/client/client_lib.c:107-126 | When a thread has ended with only the directory of the oldest session left to be removed, some continuation removes it if and only if its removal was sent before; and if not, nothing is sent or removed in any continuation |
| `Stalls.ALossStopsTheDrain` | app/client/client_lib.c:443-471 | A run, with all that a transfer needs recorded, that one lost connection brings to a standstill |
| `Histories.HistoryIsNotRead` | app/client/client_lib.c:59-128 | Two runs whose last states differ in nothing but the history that the proofs carry can go on with the same steps, and then differ in nothing else again: the history decides nothing |
| `Writes.WritesAlways` | app/common/compression_lib.c:61-74 | In every state of every run the client has the directories and files that it began to store and no others, each is complete but for those torn, a torn one is a proper prefix, and a directory with a torn metadata file stays on the server |
| `Guarantees.RecordIsKept` | data_generation/voxl-logger.c:75-100 | The record that conservation speaks about only grows: a finished file is never forgotten or altered in it, and nothing is added to a session that is over |
| `Guarantees.RemovedDirIsHeld` | app/server/server_lib.c:398-417 | Whenever a directory disappears from the server it is not the logger's, has no point cloud left, and the client holds all four metadata files of the session and exactly those of its point clouds that are not torn |
| `Guarantees.RemovedCloudIsHeld` | app/server/server_lib.c:355-376 | Whenever a point cloud disappears from the server it is not being written there, is the lowest left, and the client holds it unchanged if and only if its copy is not torn just then; it never disappears together with its directory |
| `Guarantees.SentFileIsFinished` | app/server/server_lib.c:116-153 | The file that SendNext reads is never the one being written, with scan, probe and reading as separate steps between steps of the logger: its content is final in all later states |
| `Guarantees.SentMetaIsFinished` | app/client/client_lib.c:307-376 | What answers a metadata request is the finished file of a session that is over, never one that is being written |
| `Guarantees.FinalCopyIsComplete` | app/client/client_lib.c:117-126 | A local directory without "-active" has exactly the files that the logger recorded in that session, all four metadata files unchanged, and the point clouds unchanged but for those torn; the session is over and gone from the server |
| `Guarantees.OpenDirIsYoungest` | app/server/server_lib.c:53-70 | At most one directory is open, it exists, and none is younger |
| `Guarantees.OldestIsStable` | app/server/server_lib.c:280-321 | The oldest directory changes from one existing directory to another only through its own REMOVE_DIR, and then to a younger one |
| `Guarantees.CloudsFormInterval` | app/server/server_lib.c:214-252 | In every reachable state the numbers left in a directory are exactly those from the first to the last that a scan finds, so the count is last - first + 1 |
| `Guarantees.StaleRequestFails` | app/client/client_lib.c:313-336 | When the last session sent is not the one reported empty, its directory is gone and the metadata request fails before anything is stored or removed |
| `Guarantees.EmptyIsTrueIff` | app/server/server_lib.c:116-168 | EMPTY is true of the directory it names if and only if the logger began no point cloud there between the scan and the probe |
| `Guarantees.ProbeDecides` | app/server/server_lib.c:116-168 | With scans, probe and reading as separate steps between those of all other actors: a point cloud is chosen if and only if the scan found two, or one where the directory is not the only one or no logger is alive at the probe; WAIT and EMPTY likewise, exactly; the chosen one is the least that the scan found |
| `Guarantees.ScanAndReadAnswer` | app/server/server_lib.c:133-153 | NO_TR if and only if the root scan finds no directory; what is sent is the chosen point cloud, or an error when it is gone |
| `EmptyRace.EmptyIsSentForACloud` | app/server/server_lib.c:130-168 | A run in which EMPTY is sent for a directory with a finished point cloud |
| `SendOrder.SentInOrder` | app/client/client_lib.c:97-103 | Over every run point clouds are sent session by session from the oldest on, numbered 0, 1, 2, ... without a gap, and one is sent twice only after a reconnect |
| `Guarantees.RemovedIsLastSent` | app/server/server_lib.c:355-376 | In every run, whatever command is executed and however late: the point cloud that disappears from the server is the one that was sent last |
| `Guarantees.PendingIff` | app/server/server.c:36-75 | A command is pending if and only if it was on its way when a connection was lost or the client killed; it stays pending, and may be executed at any later time |
| `Safety.InvAlways` | app/client/client_lib.c:35-133 | The invariant that the guarantees follow from holds in every state of every run |
| `Safety.LoggerStepGood` | data_generation/voxl-logger.c:75-100 | Every step of the logger keeps the disk well-formed and moves no finished file away |
| `Safety.RemoveFileSafe` | app/server/server_lib.c:355-376 | Executing a REMOVE_FILE that the client sent once, now or at any later time, deletes nothing but what the client has begun to store |
| `Safety.RemoveDirSafe` | app/server/server_lib.c:398-417 | Executing a REMOVE_DIR that the client sent once, now or at any later time, deletes nothing but what the client has begun to store |
| `Safety.ScanSeesInterval` | app/server/server_lib.c:214-252 | What a scan of a directory finds determines how much of it has been removed and begun |
| `Safety.CopyIsWhole` | app/client/client_lib.c:106-126 | When a directory may be removed from the server, what the client has begun to store of it equals what the logger recorded |
| `Stopping.StoppedThreadEnds` | app/client/client_lib.c:63-128 | After the user has stopped the transmission, a thread that keeps its connection reads at most 6 times more and takes, with its server child, at most 54 steps, the writing of a file counted as one, whatever else happens in between |
| `Stopping.ThreadIsNeverStuck` | app/client/client_lib.c:443-471 | In every reachable state a thread that has not ended, or its server child, can take a step other than giving up with an error, if and only if SendNext has not just lost the directory that it found; and then it answers with an error |
| `Stopping.ThreadEndsIff` | app/client/client_lib.c:59-132 | A thread ends with a given status exactly by these: a kill; the loss of its connection; with 0 by NO_TR, and by WAIT or an acknowledgement once it has been stopped; with -1 by an error, by EMPTY before any point cloud, and by metadata for which it has no directory. In particular WAIT does not end a running thread |
| `Stopping.WaitGoesOn` | app/client/client_lib.c:63-68 | After WAIT a running thread asks for the next file again, and nothing else has changed |
| `Stopping.StoppedByUser` | app/client/client.c:113-118 | A thread that has been told to stop has been told so by the user, since it was started |
| `Moves.RecordingMoves` | data_generation/voxl-logger.c:75-92 | In every reachable state a recording logger can begin, write and finish its file exactly as its own state says: no removal, however late, takes a file or the directory away from it |
| `Moves.ClosingMoves` | data_generation/voxl-logger_lib.c:74-118 | The same while it writes the four metadata files |
| `Moves.StartingMoves` | data_generation/voxl-logger.c:61-75 | A logger starts exactly when there is none, with a time later than those of all sessions |
| `Moves.ThreadMoves` | app/client/client_lib.c:443-482 | Exactly when a thread may start, a connection be lost and a command fail; a stop and a kill are possible in every state |
| `Moves.StoringMoves` | app/common/compression_lib.c:61-74 | A file that is being written reaches the disk in parts of any size, and can be closed exactly when it is whole |
| `Lifecycle.AtMostOneThreadIff` | app/client/client.c:65-141 | At most one transmission thread is alive at any time of a run if and only if the main loop never starts one while an earlier one has not yet set its status |
| `Lifecycle.GuardHoldsIff` | app/client/client.c:65-141 | Every thread of a run is started when no other is alive, as the protocol assumes, if and only if the run never has two: this is when the guarantees apply |
| `Lifecycle.PromptThreads` | app/client/client_lib.c:409-440 | When threads set their status before the main loop looks at it, at most one is alive, each is started as the protocol assumes, none is alive when one has failed, and none outlives the program |
| `Lifecycle.FailureIsFinal` | app/client/client.c:79-128 | After a thread has failed no other is started |
| `Lifecycle.TwoThreads` | app/client/client.c:105-111 | A run of eight steps after which two threads are alive |
| `Lifecycle.RunningIff` | app/client/client.c:105-118 | `running` is set if and only if a thread has been started and since then neither was 4 pressed while status was 1 nor has the program begun to leave |
| `Lifecycle.LeavesIff` | app/client/client.c:120-141 | The program leaves exactly when 5 has been pressed or a thread has failed, at the end of that round; when the server answers with an error; and when it cannot connect |
| `Lifecycle.ReconnectsIff` | app/client/client.c:72-104 | The main loop connects again exactly when one of its own commands gets no answer, and leaves the thread alone |
| `Lifecycle.RoundsGoOn` | app/client/client.c:70-139 | A round asks for the status, resumes a lost thread, reads a key and checks for failure, in this order |
| `Lifecycle.ExitsIff` | app/client/client_lib.c:409-440 | The program exits at once if no thread is at work and none has been told to run, and else only when the last one has ended |
| `Lifecycle.AnswersMayIff` | app/client/client_lib.c:378-407 | Where the main loop waits for an answer it may also get none, and an error where it has sent a command |
| `Lifecycle.ThreadsMayIff` | app/client/client_lib.c:473-482 | A thread that runs may end with 0, -1 or -2 at any time until the program exits, and with nothing else |
| `Lifecycle.StatusIsSet` | app/client/client_lib.c:473-482 | The status is 1 from when a thread runs on, then what the last one ended with; threads come by a start and go by their end only |
| `Drain.TransmissionThread.Run` | app/client/client_lib.c:59-132 | Over a connection in any chunks, with no logger and no loss, and with a stop by the user in any round or none. Not stopped, the loop ends with status 0 if and only if every directory has a point cloud and all metadata; then the server is empty, the client has everything under its final names, after exactly files + directories + 1 requests for the next file; otherwise it ends with -1 at the oldest directory that has not, older ones moved, younger ones untouched. Stopped, it asks for no file after the round of the stop, and what has left the server by then is with the client. All it does is a continuation of the protocol's run |
| `Drain.TransmissionThread.FinishDir` | app/client/client_lib.c:107-126 | An EMPTY reply: the four metadata requests are sent first, then the removal of the directory, at a time when all four files are on the client's disk, and the local directory is renamed last; or the thread fails and nothing is removed |
| `Drain.TransmissionThread.ReceiveCloud` | app/client/client_lib.c:70-104 | A SENDING reply: one command is sent, the removal of that point cloud, at a time when it is on the client's disk unchanged; and it is acknowledged |
| `Drain.TransmissionThread.AskNext` | app/client/client_lib.c:63-69 | SEND_NEXT to a server without a logger: the end if and only if it holds nothing, else the lowest point cloud of the oldest directory with its content, or that directory's being empty |
| `Drain.TransmissionThread.RequestAllRemainingFiles` | app/client/client_lib.c:307-376 | Succeeds if and only if all four files are found under the last session sent and there is a local directory; then exactly these are added, and no point cloud changes |
| `Drain.TransmissionThread.RequestFile` | app/client/client_lib.c:167-194 | One metadata file is stored if and only if it is found and there is a local directory |
| `Drain.EmptyClientGetsTree` | app/client/client_lib.c:59-132 | A client that starts with nothing ends with exactly the tree that the server had |
| `EndToEnd.NotYetFinal` | app/client/client_lib.c:117-126 | In every reachable state no directory on the server has a finished local copy, so that renaming never meets an existing directory |
| `EndToEnd.DrainAfterRun` | app/client/client_lib.c:59-132 | A drain after any run with any losses, restarts and late commands continues that run; unless stopped it ends well if and only if all directories can be moved; when it leaves the server empty the client has every metadata file that was ever finished, and every point cloud but those that it was killed while writing and was never sent again |
| `EndToEnd.ResumeAfterRun` | app/client/client.c:79-111 | The same for a thread that the main loop starts in any reachable state in which it may: all that the drain asks for holds there |
| `Recorder.LoggerProcess.Record` | data_generation/voxl-logger.c:61-104 | The logger writes point clouds 0, 1, 2, ... as far as the reference goes and until the signal, then the metadata; all of it is steps of the protocol, and the directory can be transferred if and only if it wrote a point cloud and found all metadata |
| `Recorder.LoggerProcess.CopyOtherFiles` | data_generation/voxl-logger_lib.c:74-118 | The four metadata files are written in order up to the first that is missing; it returns 0 if and only if none is |
| `Recorder.LoggerProcess.CopyFile` | data_generation/voxl-logger_lib.c:50-72 | The file is opened, written line by line and closed as steps of the protocol; what it then contains is the specified copy, and a missing reference changes nothing |
| `Recorder.CopiedIsExactIff` | data_generation/voxl-logger_lib.c:63-66 | The copy is exact if and only if the file contains no byte 0 |
| `Recorder.NulCostsItsLine` | data_generation/voxl-logger_lib.c:63-66 | A byte 0 costs the rest of its line, the newline included, or of the 510 bytes that fit the buffer, and nothing else |
| `ServerLib.FindFirstDir` | app/server/server_lib.c:280-321 | Over any order of entries: the number of entries that are not hidden, and those with the least and greatest decoded time |
| `ServerLib.FindNextFile` | app/server/server_lib.c:214-252 | Over any order of entries, whatever their names: the number of entries looked at, and the least and greatest number, a name without a number yielding what the variable held |
| `ServerLib.RootScanFindsOldest` | app/server/server_lib.c:254-278 | The scan of the data directory finds the oldest session of the tree |
| `ServerLib.OldestHasLeastName` | app/server/server_lib.c:258-264 | Choosing the least decoded time is choosing the lexicographically least name |
| `ServerLib.RootScanCounts` | app/server/server_lib.c:280-321 | The scan counts each session once: no two names have the same time |
| `ServerLib.TofScanCounts` | app/server/server_lib.c:214-252 | The scan counts each point cloud once, whatever hidden entries and data.csv stand between |
| `ServerLib.TofEntries` | app/server/server_lib.c:225-247 | The entries that the scan looks at are the point clouds' names, one for each |
| `ServerLib.EntriesIff` | app/server/server_lib.c:225-227 | The scans leave out exactly what begins with a dot, and data.csv among the point clouds |
| `ServerChildren.ServerChild.FindLidarDataInfo` | app/server/server_lib.c:254-278 | The oldest session, the number of sessions, and which log directory has its point clouds |
| `ServerChildren.ServerChild.SendNext` | app/server/server_lib.c:102-171 | The right answer, as `ServerChildren.RightAnswer` states it by cases, whatever the order in which readdir yields the entries |
| `ServerChildren.AnswerIsUnique` | app/server/server_lib.c:136-168 | The answer to SEND_NEXT is determined by the tree and by whether a logger is alive |
| `ServerChildren.AnswerIsRightIff` | app/server/server_lib.c:130-168 | The answer to SEND_NEXT by cases, in terms of the tree and the logger alone: of the oldest directory the lowest point cloud, with the greatest and the count, if there are two, or one where the directory is not the only one or no logger is alive; else WAIT if it is the only one and a logger is alive, else EMPTY; and no other answer is right |
| `ServerChildren.AnswerIsProtocolRun` | app/server/server_lib.c:116-168 | The answer of an uninterrupted SendNext is the reply that the protocol's separate steps lead to when nothing comes between |
| `ServerChildren.ServerChild.RemoveFile` | app/server/server_lib.c:355-376 | Deletes exactly the named point cloud, or fails and changes nothing; the entries on disk follow |
| `ServerChildren.ServerChild.RemoveDir` | app/server/server_lib.c:398-417 | Deletes exactly the named directory, or fails and changes nothing; the entries on disk follow |
| `ServerChildren.ServerChild.SendFile` | app/server/server_lib.c:378-396 | For any path: the file that the listings of the data directory and of the point clouds lead to. For each metadata path that the client prints, also with the wrong log number, this is the protocol's reply, and for the path of a point cloud that point cloud |
| `Sessions.ServerHandler` | app/server/server.c:40-75 | The i-th reply answers the i-th command, there is exactly one for each command before CLOSE and none after, and the tree goes through the states that the commands lead to |
| `Sessions.HandleLine` | app/server/server.c:47-74 | Every command line except CLOSE gets exactly one reply, and the tree changes as that reply says |
| `Sessions.StateIsTold` | app/server/server_lib.c:34-100 | From the answer to STATUS the client reads 1 if a logger is alive and 0 if not; the answers to START and STOP tell whether there was one; and neither these nor that to an unknown command is taken for an error |
| `Sessions.ErrorsAreTold` | app/server/server_lib.c:355-417 | For any names, numbers and paths: a removal succeeds if and only if there is what it names, and then removes that and no more; a request for a file succeeds if and only if there is one; the reply is an error exactly when not; every other command leaves the tree alone |
| `MetaPaths.LookupIsResolve` | app/server/server_lib.c:384-386 | The path the client prints for a metadata file finds that file and no other; with the wrong log number the two info.json trade places and no data.csv is found |
| `MetaPaths.CloudLookup` | app/server/server_lib.c:385-389 | The path of a point cloud finds that point cloud, if and only if it is there under this log number |
| `MetaPaths.PathsInFull` | app/client/client_lib.c:307-362 | The four paths that the client prints, in full, for either log number |
| `Exchanges.AnswerComesAcross` | app/server/server_lib.c:173-195 | Whatever the server replies to a command of the thread is the protocol's reply, fits the client's buffers and is taken by the client for that reply, with all its fields and content |
| `Exchanges.AnyLineIsTaken` | app/client/client_lib.c:63-128 | Whatever line answers SEND_NEXT: an error ends the thread, NO_T the transmission, and a line that matches no test is taken like WAIT |
| `Exchanges.Channel.Exchange` | app/client/client_lib.c:443-471 | A command and its reply, through printing, a stream in any chunks, the line reader, dispatch, handling, another stream in any chunks and parsing: the client learns what the protocol says, the tree changes accordingly, and nothing is left unread on either side |
| `Exchanges.Channel.SendCommand` | app/server/server.c:42-47 | The server reads exactly the line that the client sent, in any chunks, and nothing behind it |
| `Exchanges.Channel.Session` | app/client/client_lib.c:59-128 | Lockstep over any number of commands: the n-th reply read answers the n-th command, and nothing is left unread between exchanges |
| `Exchanges.CommandFits` | app/client/client_lib.c:100-120 | No command of the thread is cut off by the client's buffers |
| `Streams.Connection.GetChar` | app/common/common_lib.c:17-28 | The text reader over the array buffer and cursor does what the specification on the unread bytes says, a 0 making it read on |
| `Streams.Connection.ReadLineInto` | app/common/common_lib.c:39-53 | Return value, stored characters, final 0 and cursor of the line reader, for all streams |
| `Streams.Connection.BinaryGetChar` | app/client/client_lib.c:19-33 | The binary reader yields the next unread byte, whatever it is, in any chunking; at the end it fails if and only if the connection is broken |
| `Streams.LineIsRead` | app/common/common_lib.c:39-53 | Chunking independence: a line of text is read whole and nothing behind it is touched |
| `Streams.LineIsReadIff` | app/common/common_lib.c:39-53 | A line is read whole in every chunking if and only if it contains neither 0 nor 0xFF |
| `Streams.ZeroMakesChunksMatter` | app/common/common_lib.c:19-25 | The same bytes in other chunks are read differently behind a 0 |
| `Streams.CutLineIsRead` | app/common/common_lib.c:39-53 | A line cut short is returned as if it were whole when the stream ended, and as an error when it broke |
| `Frames.ReceiveReply` | app/client/client_lib.c:135-165 | From any stream that starts with a reply's frame or ends within it, in any chunks: from a whole frame the line and exactly the file are received and the cursor left behind it; from a part, the outcome with its exact exit code, which is a file if and only if only the last newline is missing and the stream ended in order |
| `Frames.ReceiveBody` | app/client/client_lib.c:135-165 | The same behind a header that has been read, also one that was cut short so that the sizes have no value, with the exact exit code of each cut |
| `Frames.ReceiveAndDecompress` | app/client/client_lib.c:135-165 | Bytes read after the end of the stream never reach the decompressor: the outcome is an exit; otherwise it depends on the payload and the next line alone |
| `Frames.ReadPayload` | app/client/client_lib.c:144-147 | Exactly the next rec_len bytes, whatever their values, and the cursor behind them |
| `Frames.JudgeBody` | app/server/server_lib.c:187-193 | The verdict on a whole body and, for each length, on the part of that length, with its exit code |
| `Frames.AcceptedIff` | app/client/client_lib.c:149-158 | A file is accepted exactly if its bytes decompress and a line follows that begins with END |
| `Frames.AwaitsFileIff` | app/client/client_lib.c:70-183 | Whatever line has been read, whole or cut: the client goes on to read a file exactly if it begins with SENDING, or with SENDING REQUESTED when a file was requested |
| `Cuts.CloudLossIsACut` | app/client/client_lib.c:135-165 | The statuses with which the step system lets a thread end that awaits the body of a point cloud are those that the cut of a frame can give, and no others |
| `Cuts.MetaLossIsACut` | app/client/client_lib.c:167-194 | The same for the reply to a metadata request |
| `Frames.SendingAnnounces` | app/server/server_lib.c:146 | The header in front of a point cloud is printable, fits the buffers and announces both sizes |
| `Frames.RequestedAnnounces` | app/server/server_lib.c:387 | So does the header in front of a requested file |
| `Wire.CommandRoundTrip` | app/server/server.c:47-71 | Every command the client prints reaches exactly its handler, with the same arguments |
| `Wire.WhichHandler` | app/server/server.c:47-73 | Every line, whatever it is: STATUS, STOP, SEND_NEXT and CLOSE are recognised by their whole text, four others by their first word, and all else, the empty line included, is not a command |
| `Wire.FieldsRoundTrip` | app/server/server_lib.c:363 | Scanning any printed list of words and numbers gives it back |
| `Wire.NextAnswerRoundTrip` | app/client/client_lib.c:63-108 | The client's tests tell all replies to SEND_NEXT apart |
| `Wire.CutAnswers` | app/client/client_lib.c:63-128 | Of an answer that is cut short, "NO_T" still ends the loop and any shorter part, like any part of the other words, matches none of its tests |
| `Wire.StatusRoundTrip` | app/client/client.c:76 | The number in the answer to STATUS is read back |
| `Wire.SendingRoundTrip` | app/client/client_lib.c:72 | All seven fields of a SENDING line are read back |
| `Wire.EmptyRoundTrip` | app/client/client_lib.c:108 | The directory named in an EMPTY line is read back |
| `Wire.RequestedRoundTrip` | app/client/client_lib.c:183 | Both sizes of a SENDING REQUESTED line are read back |
| `Wire.AcknowledgementIsNoError` | app/client/client_lib.c:462 | No acknowledgement is taken for an error |
| `Wire.CloudPathInjective` | app/server/server_lib.c:147 | Different sessions, log numbers or file numbers have different paths |
| `Wire.SameFileSentAndRemoved` | app/server/server_lib.c:355-376 | The removal that the client prints from an announcement names the path that was sent, and no other |
| `Wire.ExtractsNumber` | app/server/server_lib.c:348-353 | ExtractFileNumber inverts the naming of point clouds |
| `Wire.ExtractIff` | app/server/server_lib.c:348-353 | Of any name: the number behind the first underscore, if something stands before that, and none otherwise |
| `Text.ScanIntPrinted` | app/server/server_lib.c:352 | %d reads back what %d printed, for all integers, up to what follows |
| `Text.ScanWordPrinted` | app/client/client_lib.c:108 | %s reads back a word, up to what follows |
| `Text.ScanIntIff` | app/server/server_lib.c:352 | %d, of any text: blanks, a sign or none, digits as far as they go; exactly such texts give a number, and this one |
| `Text.ScanWordIff` | app/client/client_lib.c:108 | %s, of any text: blanks and then a word as far as it goes |
| `Timestamps.TimeGrows` | app/server/server_lib.c:323-331 | The decoded time is strictly monotone, through leap years |
| `Timestamps.MonthsInClosedForm` | app/server/server_lib.c:323-331 | The days before each month of each year, by a formula without a table of months |
| `Timestamps.StampIff` | app/server/server_lib.c:323-331 | Exactly which names are dates, by that formula |
| `Timestamps.NoTimeIff` | app/server/server_lib.c:323-331 | -1 is decoded from exactly the names that are no dates |
| `Calendar.NameOfDate` | app/client/client_lib.c:484-495 | The name that START prints for a date is decoded by the server to the time of that date |
| `Calendar.EverySecondHasItsName` | app/server/server_lib.c:323-331 | Each second from the Epoch to the end of the year 9999 is the decoded time of exactly one name |
| `Timestamps.TimeOrderIsNameOrder` | app/server/server_lib.c:323-331 | For all valid names, comparing decoded times is comparing names character by character, and different names have different times |
| `Timestamps.NamesCompare` | app/server/server_lib.c:258-259 | Comparing names is comparing dates |
| `Paths.MakePath` | app/client/client_lib.c:216-242 | mkdir -p: mkdir is called on exactly the ancestors, from root to leaf; it returns 0 if and only if each exists or can be created, a regular file in the place of the last one being taken for a directory; it stops at the first that cannot, and no call fails for want of a parent; both indices stay together and within the buffer |
| `Paths.AncestorsAre` | data_generation/voxl-logger_lib.c:22-48 | The paths that mkdir is called on are exactly the prefixes that end a component, each once and shorter ones first |

## Left out

Modelling choices:

- There is one transmission thread at a time. The client's main loop can start two; `Lifecycle.GuardHoldsIff` says exactly in which of its runs it does not, and `Lifecycle.PromptThreads` that it does not when threads set `status` in time.
- START timestamps are strictly increasing, there is one control client and at most one logger; two STARTs at the same time are not modelled.
- Each scan, the loop of readdir over a directory, is one step. A scan that overlaps the logger's creating a file may miss that file and see a later one in the code; that point clouds are sent in order and that the lowest left is sent rely on it not happening.
- The client is killed, or not, at any point of its writing; what was written by then is a prefix of the file.
- The logger creates its directory in one step, though its process may be alive for any time before that; a directory found half created makes the server answer with an error, which may happen at any command in the protocol.
- `tcp_send` sends everything or fails. In the step system a connection is lost between steps, with either of the two codes that a cut can give; which cut gives which is in `Frames.dfy`.
- `FindNextTr` has no return statement on success (app/server/server_lib.c:197-212); it is taken to return 0.
- `transmission_dir` and `t->tr` have no value before their first assignment; using them then is taken to end the thread with an error.
- `char` is signed, `int` and `long` are unbounded; where lines must fit a buffer, numbers are assumed to have 64 bits.
- zlib (RFC 1950) is a pair of functions with the law that decompressing with the recorded original length inverts compressing.
- `mktime` is the formula of section 4.16 of the POSIX.1-2017 Base Definitions, in UTC; session names are valid and of fixed width.
- readdir yields each entry once; hidden entries and data.csv may stand anywhere, and the directory of the point clouds holds nothing else but them.
- The client's main loop and its threads are a step system and not a loop, because what matters is how they interleave.
- `rmrf` and `rename` are one step each.
- A thread whose connection cannot be opened ends with -1 before its first request; in the step system it has not been started.
- A line is lost whole or not at all in the step system. In the code an acknowledgement, or an ERROR of which fewer than five characters have arrived, is taken for a whole line when the connection is closed in order (`Frames.CutReply`).
- Paths below the data directory are taken literally: no `.`, `..` or doubled `/`.

Weaker than the code:

- Streams.Connection.ReadLineInto: a line that is received is assumed to fit the buffer of BUFSIZ + 1 characters it is read into, beyond which the code writes; for every line that the two programs print to each other this is proved (`Exchanges.AnswerComesAcross`, `Exchanges.CommandFits`).
- Frames.ReceiveAndDecompress: the same of the line behind the payload.
- Exchanges.Channel.Session: the orders are given in advance; the loop that chooses them from the replies is Drain.TransmissionThread.Run.
- Drain.TransmissionThread.Run: it starts with no finished local copy of a directory that is still on the server, which EndToEnd.NotYetFinal proves of every reachable state; no connection is lost during the loop; runs with losses are covered by the step system and its guarantees.
- Sessions.HandleLine: the replies to START, STOP and STATUS are modelled, their effect on the process is a step of the logger; commands whose arguments cannot be scanned get an unspecified line and are taken to change nothing.
- ServerChildren.ServerChild.SendNext: nothing comes between its scans, its probe and its reading here; with other actors in between it is four steps of the step system.
- Recorder.LoggerProcess.Record: the disk of the session is changed by the logger alone here; interleaving with the server is in the step system.

Not modelled:

- Several transmission threads, and several server children, over the same files.
- Sockets, fork, accept, signals as such, pgrep and the shell scripts: a logger is alive or not.
- A logger that is killed in the middle of a file, a full disk, and a directory that is only partly deleted.
- A server child whose client vanishes without CLOSE reads empty lines and answers each with "Not valid command", until sending to the closed socket ends it by SIGPIPE or `error_handler` (app/server/server.c:72, 100-104); the model's session ends where the client's commands do.
- PrintLog, ncurses, key handling and delays; a key press is an event that may come at any time.
- pthread_create failing.
- The contents of the reference data.
