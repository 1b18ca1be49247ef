# Verified model of orange-ftpd

orange-ftpd is a single-threaded-per-connection FTP daemon on top of asio, with a benchmark
client. This project models one session of the daemon, the two engines that move file bytes,
the text formats both ends print and parse, and the client, and proves what they guarantee
together. `dafny verify dfyconfig.toml` checks everything.

## Structure

Every asio handler runs to completion before the next one starts, so a session is a state
machine whose steps are its handlers. What a handler gets from outside (bytes, error codes,
counts returned by `sendfile` and `splice`, the time, the outcome of opening a socket, the
contents of the file system) comes with the event or with the configuration. An event that
cannot happen in a state leaves it unchanged, so every sequence of events is a run, and a
theorem about all sequences is a theorem about all runs.

| file | contents |
|---|---|
| `Text.dfy`, `Division.dfy` | lines, words, delimiter-separated fields, decimal numbers; bounds on quotients |
| `Paths.dfy` | the names in a path, and what a path means in a directory |
| `Requests.dfy`, `Replies.dfy` | requests and replies: printers and parsers of both ends |
| `Commands.dfy` | what each command does to the session's fields, and its reply |
| `SendFile.dfy`, `RecvFile.dfy` | the sending engine with its rate limiter, the receiving engine |
| `Engine.dfy` | the session's state and its step function, handler by handler |
| `FtpSession.dfy` | the session as an object; each method is proved to take the step of `Engine` |
| `SessionInvariants.dfy` | the invariant of every reachable state, handler by handler |
| `SessionEffects.dfy` | what each handler, and each step, changes and leaves alone |
| `SessionRuns.dfy` | idle timer, reply queue and reference counts over whole runs |
| `SessionIdle.dfy` | from when the idle deadline is counted |
| `SessionFailures.dfy`, `SessionEndings.dfy` | what failed writes, the end of file and read errors do to the life of a session |
| `SessionCrashes.dfy` | runs in which no handler misses its data connection |
| `SessionTransfers.dfy` | 227, 150 and 226 over whole runs |
| `SessionSends.dfy`, `SessionReceives.dfy` | contents and rate of every RETR, contents of every STOR |
| `SessionHandlers.dfy` | which handlers wait for which operations |
| `SessionReplies.dfy`, `SessionCommands.dfy` | what the replies tell about the session; what every command does in a run |
| `SessionAnswers.dfy` | which transfer commands can be answered; what a refused one does to another transfer |
| `Sequential.dfy` | refinement of a one-command-at-a-time server; the login over whole runs |
| `Script.dfy`, `ScriptRuns.dfy` | a session that is sent the benchmark client's five requests |
| `Client.dfy`, `Download.dfy` | the client, and client and session over two FIFO connections: what a finished download is |
| `Delivery.dfy` | exactly when a download can finish, and when its progress bar can be trusted |
| `Witnesses.dfy` | runs in which the code falls short |

The state of a session is a value (`Engine.State`), so that invariants and runs can be stated
by functions and lemmas. The code itself is imperative: `FtpSession.Session`,
`SendFile.SendFileOp` and `RecvFile.FileReceiver` are classes with the source's fields and
methods, and each method's postcondition equates the object's new view with the step function
applied to its old one (`FtpSession.Session.Handle` covers all events).

Completion tokens are arbitrary functions in the source. In the model a token may write any
further messages when it runs (the event `Reenters`), and these may carry tokens that write
again; only tokens that capture an operation, as that of a 150 does, are not among them
(`Engine.Callable`). The invariants of queue, timer and reference counts are proved for all
such runs. The daemon's own tokens write nothing; theorems about what the daemon's replies say
are stated for runs of its own tokens (`SessionTransfers.OwnTokens`).

## Findings

The proofs turned up places where the code does less than one would expect. The model follows
the code; the lemmas state exactly when it happens, and `Witnesses.dfy` constructs runs in
which it does.

* A failed control write empties the reply queue without restarting the idle timer
  (session/context.cc:56-61). The timer runs again afterwards if and only if an operation was
  alive when the write failed (`SessionFailures.WriteErrorRestartsIff`); otherwise the session
  stays open without an idle deadline until its peer sends a line or closes
  (`SessionFailures.StalledUntilPeerActs`, `Witnesses.SomeSessionStalls`).
* After an end of file with live operations a wait on the idle timer keeps the session alive
  (session/session.cc:109-115). The control socket is closed by then, so when the last
  operation completes, its 226 cannot get out and the session is never destroyed
  (`SessionFailures.LateCompletionLeaksSession`, `Witnesses.SomeSessionLeaks`). For every such
  state `SessionEndings.KeptAliveEndsIff` says whether the session can still be destroyed. With
  operations alive it can if and only if one of them is held by something other than the data
  write of a listing, which ends with a 226 whatever happens (op/list_op.cc:92-101), and no
  rate-limited download is left without a data connection. Without any it can if and only if
  its last reply had already left.
* A read error other than end of file arms no such wait: operations alive at that moment lose
  their session (`Witnesses.SomeOperationIsOrphaned`). Throughout a run the session outlives
  its operations if and only if no read error comes while an operation is alive
  (`SessionFailures.SessionOutlivesIff`).
* A PASV whose bind fails leaves the acceptor open without listening
  (op/passive_mode_op.cc:34-38), until the acceptor is set again
  (`SessionFailures.UnboundIff`). A transfer command that finds it so and has its file is never
  answered, and this is the only such case (`SessionAnswers.AnswerableIff`,
  `Witnesses.SomeTransferIsSilent`).
* The destructor of a transfer operation closes whatever data socket the session has
  (op/send_file_op.cc:53-56), also that of another transfer: a transfer command refused during a
  download cuts the download off (`SessionAnswers.RefusalSparesDataIff`,
  `SessionAnswers.RefusalCutsDownload`, `Witnesses.SomeDownloadIsCut`). If that download is
  rate-limited, its timer then works on the closed socket, which throws. On every run whose
  transfers come one at a time no handler misses its data connection
  (`SessionCrashes.DataNeverMissing`).
* The client multiplies the received size by 100 in `off64_t`. Its progress values are
  percentages in every run if and only if the file's size times 100 fits
  (`Delivery.ProgressHonestIff`).
* Splitting and rejoining a reply loses a trailing delimiter: `join_string` undoes
  `split_string` if and only if the text is empty or does not end in the delimiter
  (`Text.JoinSplit`). Replies end in CRLF, so `build_resp` is not affected.

## Assumptions

* `active_op_num` starts at 0 (it is declared at session/context.h:102 and not set by the
  constructor) and does not wrap around.
* Files do not change during a transfer, and their sizes fit into `size_t`.
* `sendfile` and `splice` move at most the requested count, exactly the bytes they report, in
  order; the inner splice from the pipe returns 1..n (a negative return is not checked for in
  the source).
* A data socket that is readable with nothing available has been closed by its peer.
* A timer does not complete before its expiry. A failed control write is final, and nothing is
  sent on a control socket after it is closed.
* Signed overflow, which C++ leaves undefined, wraps around in two's complement.
* Nothing in the daemon catches an exception that leaves a handler, so a run ends there. The
  model has these places (`Engine.Crashes`, and the results `thrown` and `crashed` of the methods
  of `FtpSession.Session`): the size of a directory and a directory that cannot be created
  (`Commands.Throws`); an aborted accept that asks a closed acceptor for its endpoint
  (op/basic_op.h:33); `native_non_blocking` and `available` on a data socket that is closed or
  gone (op/send_file_op.cc:95-98, op/recv_file_op.cc:92-97); the first wait of a transfer whose
  data socket has been cleared (op/send_file_op.cc:85, op/recv_file_op.cc:82, op/list_op.cc:96).
* `remote_endpoint` in a log message of `do_write_message` (session/context.cc:46) throws when the
  peer has been disconnected before the last reply completes; such runs are left out.
* Nothing is claimed about the code after an operation has lost its session.
* In `Download`, only the client connects to the session's acceptor, the connections are FIFO,
  the session's address is a dotted one, and neither the configured welcome text nor the file
  name hides a CRLF (`Download.Fits`).
* Paths name nodes of an abstract map; what the file system makes of `..` and of links is data
  of that map (`Dir(canonical)`).

## Model

| member | source | states |
|---|---|---|
| Text.LineEnd | session/session.cc:103 | async_read_until reports the end of the first CRLF, and 0 exactly when there is none |
| Text.LinesAppend | session/session.cc:101-129 | cutting a byte stream into command lines does not depend on how it arrived in chunks |
| Text.FoldsLetters | op/auth_op.cc:28 | folding exchanges the 26 letters of the two alphabets, place by place, and no other character changes |
| Text.ExtractTokens | session/session.cc:162-166 | the extraction loop yields the whitespace-separated words of the line |
| Text.TokensIff | session/session.cc:162-166 | a list of words is what the loop extracts if and only if the text is these words with white space (codes 9 to 13 and 32) between and around them |
| Text.SplitString | client/benchmark.cc:95-103 | the getline loop yields the fields; a trailing delimiter starts no further field |
| Text.JoinString | client/benchmark.cc:105-116 | the loop joins all fields with one delimiter between two of them |
| Text.JoinSplit | client/benchmark.cc:95-116 | joining the split of a text gives it back if and only if it is empty or does not end in the delimiter |
| Text.SplitJoin | client/benchmark.cc:95-116 | splitting undoes joining for fields free of the delimiter whose last one is not empty |
| Text.ParseOfToString | client/benchmark.cc:376 | std::stoi/std::stol read a printed number back whatever non-digit follows, and throw exactly when it is out of range |
| Requests.BuildRequest | session/session.cc:138-155 | the in-place case folding and the body loop yield the upper-cased first word and the other words joined by single spaces; no request for a blank line |
| Requests.RequestRoundTrip | client/benchmark.cc:364-368 | the server recovers the upper-cased command and the whitespace-normalised body of a printed request if and only if the command is a single word |
| Requests.ParsedIsNormal | session/session.cc:138-169 | a parsed request survives printing and parsing unchanged, is one line, and holds no CR or LF |
| Requests.PrintIsOneLine | client/benchmark.cc:364-368 | a printed request is exactly one line unless a CRLF is hidden in its body |
| Replies.ReplaceAll | session/code.cc:26 | every dot becomes a comma and nothing else changes |
| Replies.PasvResponse | session/code.cc:24-39 | the 227 reply holds the address with commas for dots, the port's high byte and its low byte |
| Replies.ReplyRoundTrip | client/benchmark.cc:370-379 | build_resp of a printed reply returns exactly its code and its text with CRLF, inner and repeated spaces included |
| Replies.PasvRoundTrip | client/benchmark.cc:457-478 | for every dotted address and 16-bit port the client's two parsing stages return both from the server's 227 reply |
| Replies.ParseOfTuple | client/benchmark.cc:463-476 | the six numbers are found by the leftmost search whatever stands around the tuple, as long as no parenthesis opens before it |
| Commands.TargetIff | session/context.cc:26-32 | the target of a path is the one text that it stands for in the current directory: an absolute path itself; otherwise the text starts with the directory, ends with the path, has exactly their names, and one separator where the directory lacks it |
| Paths.ResolvesOnce | session/context.cc:26-32 | no two texts satisfy this |
| Commands.RespondKeepsLogin | op/auth_op.cc:20-53 | one command keeps: logged in implies a user name, and the anonymous flag exactly for the nine letters of "anonymous" in any case; logging in is final and the identity fixed |
| Commands.FoldedNameIff | op/auth_op.cc:27-29 | the folded name is "anonymous" if and only if the name has nine letters and each is that letter of the word, in lower or in upper case |
| Commands.RefusalChangesNothing | session/session.cc:178-200 | a command other than a transfer that is answered with a code of 500 or more has changed nothing, but for a forgotten password and a given-up listening socket; refused transfers are the subject of SessionAnswers.RefusalSparesDataIff |
| Commands.PropertyIgnoresCase | op/property_op.cc:21-49 | TYPE and OPTS do not depend on the case of their argument |
| SendFile.LeftIsExact | op/send_file_op.cc:99 | the unsigned difference of size and offset never wraps |
| SendFile.DealKeeps | op/send_file_op.cc:90-126 | one event keeps: the bytes sent are the first offset bytes of the file, sends are spaced by the limiter; it completes only with the whole file |
| SendFile.DealProgress | op/send_file_op.cc:108-125 | a positive sendfile leaves strictly less to send, and the transfer completes exactly when nothing is left |
| SendFile.DealEndsIff | op/send_file_op.cc:90-126 | an event gives up exactly on an error, completes exactly at the end of the file, and under a limit asks exactly otherwise for a timer a tenth of a second later |
| SendFile.DealSends | op/send_file_op.cc:86-99 | an event sends exactly what the socket takes, up to what is left and up to 1024 L / 10 bytes under a limit of L KiB |
| SendFile.RateBound | op/send_file_op.cc:83-125 | with limit L at most 1024 L bytes, less the rounding of the slices, are sent in any half-open second |
| SendFile.RateLowerBound | op/send_file_op.cc:83-125 | the limit from below: with events that come within d of being due and a socket that takes what it is given, k times 1024 L / 10 bytes, or all that is left, are sent within k (0.1 s + d), and each event asks for the next one 0.1 s later |
| SendFile.SendFileOp.CallSendfile | op/send_file_op.cc:99 | sendfile moves at most the requested bytes, in order, from the offset on, and advances it |
| SendFile.SendFileOp.DealEvent | op/send_file_op.cc:90-126 | the new fields are those of the specified event, it is dropped exactly on an error, and it leaves at most one continuation: a wait, a timer a tenth of a second later, or a completion |
| RecvFile.FlushKeeps | op/recv_file_op.cc:123-127 | the inner loop empties the pipe into the file byte for byte, whatever counts splice returns, and keeps the progress values honest |
| RecvFile.DrainKeeps | op/recv_file_op.cc:105-128 | file ++ pipe ++ unread is unchanged by an event, the file only grows, the pipe is empty again and the client's offset is the file's length |
| RecvFile.ReceivedIsStored | client/benchmark.cc:173-215 | over every run the file and the unread bytes are together what arrived; a receiver that finishes has stored all of it |
| RecvFile.DrainEnds | op/recv_file_op.cc:105-129 | one event makes as many calls as it can: it ends at the first that would block, fails or finds the socket empty, unexpectedly exactly if that one fails, and leaves exactly the bytes the calls did not take |
| RecvFile.DealEndsIff | op/recv_file_op.cc:87-130 | an event finishes exactly when nothing is available, ends unexpectedly exactly when a splice fails before one would block or the socket is empty, and waits again otherwise |
| RecvFile.RunEndsIff | client/benchmark.cc:136-215 | on every run a receiver waits until its peer has closed or a splice has failed, and has finished exactly if the first came first |
| RecvFile.EndsWhenPeerCloses | client/benchmark.cc:136-215 | without a failed splice no receiver ends before its peer has closed |
| RecvFile.PercentFacts | client/benchmark.cc:505-509 | as long as the size times 100 fits into off64_t, size * 100 / total is monotone, between 0 and 100, and 100 only at total |
| RecvFile.PercentIff | client/benchmark.cc:505-509 | all offsets of a file give percentages if and only if its size times 100 fits into off64_t |
| RecvFile.FileReceiver.SplicePipe | client/benchmark.cc:205-211 | one splice moves bytes from the pipe to the file, adds them to the offset and reports the percentage |
| RecvFile.FileReceiver.FlushPipe | client/benchmark.cc:202-212 | the inner loop's effect on pipe, file, offset and progress |
| RecvFile.FileReceiver.DealEvent | client/benchmark.cc:173-215 | the new fields and the status are those of the specified event: finished exactly on an empty socket, unexpected exactly when a splice fails first |
| RecvFile.FileReceiver.Resume | client/benchmark.cc:136-159 | each call of the operator ends in exactly one new wait or one completion, true exactly when the peer has closed |
| FtpSession.Session.constructor | session/session.cc:67-71 | a session starts with the welcome reply being written and nothing else |
| FtpSession.Session.ExistsPendingOperator | session/context.cc:71-76 | true exactly when an operation is alive or a reply is queued |
| FtpSession.Session.UpdateIdleTimer | session/session.cc:47-49 | every pending wait is cancelled and the deadline is max_idle_timeout from now |
| FtpSession.Session.IdleHandled | session/session.cc:87-99 | re-arms, closes or does nothing, as expiry and stop flag say |
| FtpSession.Session.CloseSession | session/session.cc:131-136 | stops the session, which closes its control socket, and cancels its waits |
| FtpSession.Session.WriteMessage | session/context.cc:34-40 | the reply is queued behind the others, and its write starts exactly when the queue was empty |
| FtpSession.Session.DoWriteMessage | session/context.cc:42-54 | writes the front reply, or settles the idle timer on an empty queue |
| FtpSession.Session.MessageWritten | session/context.cc:62-68 | the front token runs before the pop, whatever messages it writes meanwhile; it dies with the pop, and the next write starts; crashes exactly when the token is to wait on a data socket that has been cleared |
| FtpSession.Session.RunCompletionToken | session/context.cc:62-65 | the call of a token: its operation's first wait, then every message it writes joins the queue |
| FtpSession.Session.MessageFailed | session/context.cc:56-61 | the queue is emptied and its tokens die one by one |
| FtpSession.Session.BannerWritten | session/session.cc:74-83 | deadline, first read and first wait, or nothing on an error |
| FtpSession.Session.ConstructOp | op/basic_op.cc:11-13 | a new operation, counted |
| FtpSession.Session.DestroyOp | op/basic_op.cc:15-25 | a transfer closes the data socket; the operation is uncounted and the idle timer settled |
| FtpSession.Session.Validate | op/auth_op.cc:20-39 | logs in when there is a user, with the anonymous flag for "anonymous" in any case; otherwise one 503 and no password |
| FtpSession.Session.AuthOperation | op/auth_op.cc:41-53 | USER, PASS and anything else before the login: fields and the one reply |
| FtpSession.Session.PropertyOperation | op/property_op.cc:21-49 | TYPE and OPTS: transfer type and the one reply |
| FtpSession.Session.PassiveModeOperation | op/passive_mode_op.cc:19-45 | the acceptor is closed, reopened and bound; 227 exactly when it listens |
| FtpSession.Session.GetTargetPath | session/context.cc:26-32 | the text the path stands for in the current directory (Paths.Resolves) |
| FtpSession.Session.ChangeWorkingDirOperation | op/change_working_dir_op.cc:18-30 | the current path changes to the canonical directory, or not at all |
| FtpSession.Session.EnterDir | op/cd_to_parent.cc:17-25 | CDUP shares this step with CWD: the current path becomes the canonical name of a directory, and stays for anything else |
| FtpSession.Session.CreateDirOperation | op/create_dir_op.cc:24-45 | the directory is created exactly when writing is enabled, a name is given, nothing has it and it can be created; where create_directory throws, nothing has changed and nothing is answered |
| FtpSession.Session.FetchConnection | op/basic_op.h:25-46 | 503 without an acceptor; otherwise one accept that holds the operation |
| FtpSession.Session.TransferOperation | op/send_file_op.cc:23-81 | the file is opened or refused with one reply; only an opened one waits for a connection; throws exactly for a RETR of a directory |
| FtpSession.Session.AcceptHandled | op/basic_op.h:29-45 | the acceptor closes, the data socket is handed over and the 150 is queued with the operation in its token; an aborted accept changes nothing but the reference, and throws exactly when the acceptor is closed |
| FtpSession.Session.SendHandled | op/send_file_op.cc:90-126 | the operation's transfer moves on and goes on waiting, completes with 226, or is dropped; throws exactly when the wait succeeded but there is no open data socket |
| FtpSession.Session.ReceiveHandled | op/recv_file_op.cc:87-130 | the operation's receiver moves on and goes on waiting, completes with 226, or is dropped; throws exactly when the wait succeeded but there is no open data socket |
| FtpSession.Session.ListHandled | op/list_op.cc:92-101 | 226 whatever the outcome of the data write |
| FtpSession.Session.DispatchTask | session/session.cc:178-200 | which operation runs, or which reply refuses the command; the results say which, and whether the file-system library throws |
| FtpSession.Session.HandleRead | session/session.cc:157-176 | the line leaves the buffer and is executed; a blank or refused one restarts the idle timer if nothing is pending; says when executing it throws |
| FtpSession.Session.LineRead | session/session.cc:101-128 | a read with a line cancels the deadline and handles the line |
| FtpSession.Session.EofRead | session/session.cc:106-115 | the session closes; with live operations a wait keeps it alive |
| FtpSession.Session.Handle | session/session.cc:67-200 | for every event that can be offered the object takes exactly the step of the session model, or throws exactly where the model says so |
| SessionEffects.TransferEffect | op/basic_op.h:25-46 | a transfer command either opens its file and adds one accept, leaving the data socket alone, or writes exactly one reply and is gone, closing the data socket |
| SessionEffects.StepEffect | session/session.cc:67-200 | of every step: only a line brings in an operation, no reference is duplicated, only a line changes other properties than the acceptor, histories only grow, and a data connection that is not open carries nothing |
| SessionEffects.AcceptedEffect | op/basic_op.h:29-45 | the accept handler passes its reference on to the token of the 150 |
| SessionInvariants.ReenteredDone | session/context.cc:55-68 | a completed write preserves queue, wire, references and timer whatever further messages its token writes before the pop |
| SessionInvariants.WriteFailedDone | session/context.cc:56-61 | so does a failed one, with the queue dropped and every token released |
| SessionInvariants.LineDone | session/session.cc:124-128 | so does a command line |
| SessionInvariants.EofDone | session/session.cc:106-115 | so does the end of file |
| SessionInvariants.IdleDone | session/session.cc:87-99 | so does the idle handler |
| SessionInvariants.AcceptedDone | op/basic_op.h:29-45 | so does an accepted data connection |
| SessionInvariants.SendDone | op/send_file_op.cc:90-126 | so does an event of a SendFileOp |
| SessionRuns.StepKeepsInv | session/session.cc:67-200 | every event preserves the whole invariant |
| SessionRuns.IdleDeadlineIsExact | session/session.cc:87-99 | on every run, while the session is open, the idle deadline is finite if and only if no operation is alive, the queue is empty and the session is not stalled by a write error; it is max_idle_timeout after the last restart and one wait is outstanding |
| SessionRuns.IdleCloseIsSafe | session/session.cc:91-97 | an idle close interrupts no operation, loses no reply, and comes no earlier than max_idle_timeout after the last restart |
| SessionIdle.DeadlineIsCounted | op/basic_op.cc:15-25 | on every run, while the session is open, a deadline is counted from the step that left the session at rest, or from the last line, max_idle_timeout seconds on, and nothing else moves it |
| SessionIdle.FirstDeadline | session/session.cc:74-83 | the first one is counted from the delivery of the welcome reply |
| SessionIdle.IdleClosesIff | session/session.cc:87-99 | the idle handler closes an open session if and only if its deadline stands and has come; otherwise exactly one wait is outstanding again |
| SessionFailures.WriteErrorRestartsIff | session/context.cc:56-61 | after a failed write that leaves nothing pending the deadline is finite if and only if an operation was alive |
| SessionFailures.WriteErrorReleasesIff | session/context.cc:56-61 | likewise for the wait that keeps a closed session alive: released if and only if an operation was alive |
| SessionFailures.StalledIff | session/context.cc:56-61 | a session is stalled if and only if the last line or failed write of its run was a failed write with no operation alive |
| SessionFailures.StalledUntilPeerActs | session/session.cc:87-99 | a stalled session stays open without a deadline until its peer sends a line or closes |
| SessionRuns.KeepAliveIsExact | session/session.cc:109-115 | the wait that keeps a closed session alive is released if and only if no operation is alive, the queue is empty and the last reply was not lost |
| SessionEndings.KeptAliveEndsIff | session/session.cc:109-115 | for every state in which the keep-alive wait is pending, the session can still be destroyed if and only if: without operations, its last reply has already left; with operations, one is held by something other than the data write of a listing, and no rate-limited download is stuck without a data connection |
| SessionFailures.LateCompletionLeaksSession | session/session.cc:106-115 | a transfer that completes after the end of file as the last operation leaves the session undestroyed for ever |
| SessionFailures.SessionOutlivesIff | session/session.cc:101-122 | throughout a run the session outlives its operations if and only if no read error of the run comes while an operation is alive |
| SessionCrashes.DataNeverMissing | op/send_file_op.cc:83-98 | on every run whose transfer commands come one at a time no data handler and no token finds its data connection closed or gone |
| SessionFailures.ReadErrorOrphansOperations | session/session.cc:118-121 | a read error leaves the operations alive and nothing that holds the session |
| SessionRuns.QueueIsFaithful | session/context.cc:34-69 | on every run, whatever messages tokens write when they run: one write is outstanding exactly when replies are queued and it carries the front one; delivered and queued replies are all replies in order until a write fails; the calls of tokens are those of exactly the delivered replies, once and in order |
| SessionRuns.WireIsPrefix | session/context.cc:42-69 | on every run the control wire carries a prefix of the welcome line and the replies written |
| SessionRuns.RefsStep | op/basic_op.h:26-46 | handlers hand operations on and never share them; only a command brings in a new one |
| SessionRuns.AccountingIsExact | op/basic_op.cc:11-25 | between handlers active_op_num is the number of live operations, and these are the ones referred to, each exactly once, by a queued token or a waiting handler |
| SessionTransfers.AnswerCode | op/passive_mode_op.cc:19-45 | commands that answer at once never write 150 or 226, and leave a listening acceptor only with a 227 |
| SessionTransfers.OwnStartFirst | op/send_file_op.cc:64-80 | on every run, whatever writes a 226, other than a token that is not the daemon's, is an event of a data handler, and the 150 of that very operation has been delivered before |
| SessionTransfers.OnlyAcceptAnnounces | op/basic_op.h:29-45 | a 150 is only ever written by an accept |
| SessionTransfers.CompletionsFollowStarts | op/send_file_op.cc:64-80 | on every run there are never more 226 replies written than 150 replies delivered |
| SessionTransfers.TransfersAreBracketed | op/basic_op.h:26-46 | on every run with serial transfers: #226 <= #150 <= #227 |
| SessionTransfers.BracketedThroughout | op/list_op.cc:92-108 | and the same in every prefix of the replies |
| SessionSends.SendsAreExactAndBounded | op/send_file_op.cc:83-126 | in every run every SendFileOp has sent exactly the first offset bytes of its file, and at most L KiB in any second |
| SessionSends.CompletesWithLastByte | op/send_file_op.cc:108-125 | in every run an event of a SendFileOp writes its 226 if and only if it has just sent the last byte |
| SessionSends.CompletesOnce | op/send_file_op.cc:64-67 | after its 226 an operation is gone for good and no handler of it is left |
| SessionSends.SendGoesOn | op/send_file_op.cc:90-126 | in every run an event of a SendFileOp sends what the socket takes up to its portion; the operation is given up for an error only and waits otherwise until its last byte, for the socket or under a limit for a tenth of a second |
| SessionReceives.ReceivesThroughout | op/recv_file_op.cc:87-130 | on every run, for every upload, file and unread bytes are exactly what has arrived, in order |
| SessionReceives.UploadIsComplete | op/recv_file_op.cc:97-103 | in every run an event of a RecvFileOp writes its 226 if and only if the peer has closed and nothing is unread, and then all that has arrived is in the file |
| SessionReceives.ReceiveGoesOn | op/recv_file_op.cc:87-130 | in every run a RecvFileOp is given up only for an error of its wait or a splice that fails before one would block, completes exactly when its peer has closed, and waits to read again otherwise |
| SessionHandlers.HandlersFit | op/send_file_op.cc:83-88 | on every run every handler waits for a live operation of its kind: downloads to write or for the limiter, uploads to read, listings for their write |
| SessionHandlers.DeliveryStarts | op/recv_file_op.cc:73-85 | the delivery of a 150 starts exactly the first wait of its operation's kind |
| SessionReplies.RepliesTellState | session/code.cc:54-65 | on every run of the daemon's tokens: the current directory is the one the last 250 names, or the home directory; the transfer type is that of the last reply to TYPE; the session is logged in exactly if a 230 was written; and the nodes are the configured ones and the directories the 257s of MKD name |
| SessionCommands.PwdTells | op/print_working_dir_op.cc:17-19 | PWD names the directory of the last 250 |
| SessionCommands.CwdMoves | op/change_working_dir_op.cc:18-30 | CWD and CDUP: for a directory a 250 that names it, where the session then is; for anything else a 550, and the session stays where it was |
| SessionCommands.PwdAfterCwd | op/print_working_dir_op.cc:17-19 | after a 250, and until the next one, PWD names the directory of that reply |
| SessionCommands.MkdirMakes | op/create_dir_op.cc:24-45 | MKD: if writing is enabled, a name is given and nothing has it, a 257 names the new directory and later commands find it there, or the library throws; otherwise a 550, and nothing changes |
| SessionCommands.SizeTells | op/size_op.cc:19-26 | SIZE: a 213 with the length of the file the path stands for, and a 550 for anything else |
| SessionCommands.TypeSets | op/property_op.cc:21-41 | TYPE: I, L8 and L 8 select binary and A and A N ASCII, in any case, with a 200; anything else is refused with a 500 |
| SessionCommands.OptsTells | op/property_op.cc:42-48 | OPTS: UTF8 ON in any case is answered with 200, anything else with 501 |
| SessionCommands.StatTells | op/stat_op.cc:29-41 | STAT shows the type of the last reply to TYPE and the user of the login |
| SessionCommands.PasvListens | op/passive_mode_op.cc:19-45 | PASV: a 227 exactly if the session listens afterwards, and the client reads from it the endpoint listened on; otherwise a 550 |
| SessionCommands.PlainTells | op/ack_op.cc:15-18 | NOOP, SYST and AUTH are answered with 200, 215 and 530 and change nothing the replies tell |
| SessionCommands.RejectTells | session/session.cc:185-197 | once logged in, USER is answered with 530, PASS with 230 and a word that names no operation with 500, and nothing changes |
| SessionCommands.LoginAnswers | op/auth_op.cc:41-53 | before the login USER is answered with 331, PASS with 230 if the last USER had a name and otherwise with 503, everything else with 530 |
| SessionCommands.RetrOpens | op/send_file_op.cc:23-46 | RETR opens the file its argument stands for, to send its content from the start; the library throws at a directory; everything else is refused with a 550 |
| SessionCommands.StorOpens | op/recv_file_op.cc:20-47 | STOR opens what its argument stands for if that may be written, to receive from the start, and refuses everything else with a 553 |
| SessionCommands.AnonymousSparesFiles | op/recv_file_op.cc:29-34 | on every run, a STOR onto anything that is there is refused with a 553 if the login was that of "anonymous", in any case |
| SessionCommands.ListOpens | op/list_op.cc:103-108 | LIST waits for its connection, or is answered with a 503 without an acceptor |
| SessionAnswers.AnswerableIff | op/basic_op.h:25-46 | a transfer command that has its file can be answered if and only if the acceptor is not open without listening |
| SessionAnswers.FailedBindUnbinds | op/passive_mode_op.cc:19-45 | one PASV leaves the acceptor open without listening if and only if its bind fails, and then answers 550 |
| SessionFailures.UnboundIff | op/passive_mode_op.cc:19-45 | on every run the acceptor is open without listening if and only if the last step that set it was a PASV whose bind failed |
| SessionAnswers.RefusalSparesDataIff | op/send_file_op.cc:48-57 | a refused transfer command leaves the data socket alone if and only if none is open, and closes it otherwise |
| SessionAnswers.RefusalCutsDownload | op/send_file_op.cc:48-57 | after it no download sends another byte until a new data connection is accepted |
| Sequential.RefinesSequentialServer | session/session.cc:101-200 | on every run without transfers, for every chunking and interleaving, the wire is a prefix of the welcome line and the replies of a one-command-at-a-time server for the received lines, one for each line that is not blank |
| Sequential.QuiescentIsComplete | session/context.cc:34-69 | once no line is left and no write outstanding, an unbroken wire carries exactly all of these replies |
| Sequential.LoginIsFinal | op/auth_op.cc:20-53 | on every run the session is logged in if and only if a PASS came after a USER with a name, as the user named before the first such PASS; before that only AuthOp executes; it is anonymous exactly if that is enabled and the name is "anonymous" in any case; and from then on it stays logged in as the same user |
| Script.PrintedLines | client/benchmark.cc:399-517 | each request of the client is one line, and how the server reads it |
| Script.ServesScript | session/session.cc:178-200 | the reference server's fields and replies after the first k requests of the client |
| Script.PrintedLine | session/code.cc:50-52 | a printed reply is one line and the client reads its code back |
| ScriptRuns.ScriptThroughout | op/send_file_op.cc:59-126 | on every run fed with the client's requests there is no transfer before the RETR and only that one afterwards; the data connection carries what its operation sent, and a 226 means all of it |
| ScriptRuns.ScriptReplies | session/session.cc:178-200 | the replies on such a run: the four expected ones, then well-formed ones |
| ScriptRuns.ScriptData | op/send_file_op.cc:99-125 | the data connection carries a prefix of the file, and after a 226 the whole file |
| Client.ReplyStage | client/benchmark.cc:399-533 | the stage the pipeline is in fits the number and the codes of the replies it has read |
| Client.ReplySent | client/benchmark.cc:320-327 | what the client has sent are its first requests, in order |
| Client.ReadableEndsIff | client/benchmark.cc:136-215 | a readable event ends the reception exactly when the peer has closed, fails the pipeline exactly when a splice fails first, and traps exactly when bytes arrive for a file announced as empty |
| Download.DownloadIsComplete | client/benchmark.cc:392-536 | if the client's pipeline ends in true, its file name stands for a file in the server's home directory (Paths.Resolves) and the client's file is the whole of it, for every chunking and interleaving |
| Delivery.DownloadCanComplete | client/benchmark.cc:392-536 | for every file the server can open, whose size fits std::stol, with a port to listen on, there is a run in which the pipeline ends in true, whatever the rate limit |
| Delivery.DownloadSucceedsIff | client/benchmark.cc:392-536 | some run ends in true if and only if the name stands for a file in the home directory that can be opened and whose size fits std::stol, and there is a port to listen on |
| Download.DownloadIsPrefix | client/benchmark.cc:173-215 | at every moment the client's file is a beginning of the file the name stands for |
| Download.ProgressIsHonest | client/benchmark.cc:505-509 | if the size times 100 fits into off64_t, the bar's values are monotone and between 0 and 100, and 100 is among them exactly when the whole file is stored and not empty |
| Delivery.StageCrashesIff | client/benchmark.cc:439-447 | some run crashes a stage of the client if and only if the name stands for a file whose size does not fit into std::stol; no other parser throws and no division is by zero |
| Delivery.ProgressHonestIff | client/benchmark.cc:505-509 | for a deliverable file every run gives the bar percentages only, if and only if the size times 100 fits into off64_t |
| Witnesses.SomeSessionStalls | session/context.cc:56-61 | a run after which the session is open, stalled and without a deadline |
| Witnesses.SomeSessionLeaks | session/session.cc:106-115 | for every deliverable file and no rate limit, a run after which the session is never destroyed |
| Witnesses.SomeTransferIsSilent | op/passive_mode_op.cc:34-38 | a run in which a RETR is never answered |
| Witnesses.SomeDownloadIsCut | op/send_file_op.cc:53-56 | a run in which a refused RETR closes the data socket of another |
| Witnesses.SomeOperationIsOrphaned | session/session.cc:118-121 | a run in which an operation outlives its session |
| Download.ConnectsToSession | client/benchmark.cc:457-483 | the address and port the client is about to connect to are the session's own, and it listens there |

## Left out

* `active_op_num` is an unbounded integer: its 32-bit wrap-around is not modelled.
* `Session` and `SessionContext` are one object, and the request slot of the context is a parameter of the operations instead of a field.
* The operations live in the session object as identities, kinds and transfer states; the `SendFileOp` and `FileReceiver` classes are proved separately against the same step functions.
* FtpSession.Session.DoWriteMessage: the exception that the log message's `remote_endpoint` throws for a disconnected peer is not modelled.
* FtpSession.Session.ListHandled: the listing is whatever bytes the data write moved; `list_file` formatting is not modelled.
* FtpSession.Session.GetTargetPath: paths are texts and are not normalised; canonical paths are data of the abstract file map, and the canonical name of a new directory is its path.
* SessionTransfers.CompletionsFollowStarts: stated for runs of the daemon's own tokens, since any other token could write a 226 itself; so are the theorems about the client's script.
* SessionTransfers.TransfersAreBracketed: assumes that no two transfer commands wait for connections at the same time.
* Files and bytes stored by STOR are not visible to later commands of the same session.
* The failure to create the pipe of a RecvFileOp, which replies 553 and goes on.
* `bad_send_net` after setting a socket option: the error code looked at there is never set.
* Characters stand for bytes; `toupper`, `tolower` and `isspace` are those of the "C" locale.
* Transfers that share a data socket: which of them receives or sends the bytes is not told apart.
* Undelivered writes at the end of file, and the order in which objects are released after `close`, other than those of sessions and operations.
* The client's timeouts and errors are one absorbing failure; argument parsing, the dummy mode, drawing of the progress bar and the thread pool are not modelled.
* The daemon's listener, its worker threads, configuration, logging, plugin registry and client counter.
