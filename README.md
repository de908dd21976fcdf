# winusb-installer, modelled in Dafny

winusb-installer installs the WinUSB driver for USB devices from an
unprivileged program. It works as two processes:

- The **orchestrator** (`Server`) runs unprivileged. It creates a named pipe and
  launches a copy of the program elevated through the shell's `runas` verb. It
  then sends the worker an installation request, waits for the start handshake,
  and watches the installation under a heartbeat deadline and an overall
  timeout. Finally it tells the worker to exit.
- The **worker** (`Client`) runs elevated. It connects to the pipe with a
  bounded retry. It answers each request with `InstallStarted`, then the
  heartbeats and per-device results of the libwdi installation, then
  `InstallDone`.

This project models the control logic of both processes in Dafny and proves what
it promises.

Every call into Windows, libwdi, tokio or the codec is an input to the model:

- **Time** is an integer millisecond clock.
- **A channel** is an in-order sequence of receive outcomes: a message, a broken
  stream, or the end of the stream.
  - On the orchestrator side, each outcome carries the clock reading from which
    it is available.
  - A sending half is a `Link`. It accepts a number of messages, then fails every
    send with a fixed error.
- **The installer thread** of the worker is the queue that `install_sync` fills.
  How long each queue wait takes is given as a number of 1 s timeouts.

Modules, one per source file or concern:

| file | module | models |
|---|---|---|
| common.dfy | `Common` | `Option`, `Result`, the I/O error values, decimal formatting |
| winusb.dfy | `WinUsb` | `src/winusb.rs`: `Device`, `InstallConfig`, `has_winusb`, candidate selection, `LogReceiver::get` |
| runas.dfy | `RunAs` | `src/runas.rs`: argument quoting, the parameter string, `se_err_string`, the classification in `spawn`, the `Command` builder and the `Child` handle |
| ipc.dfy | `Ipc` | `src/ipc.rs`: channel ends, `Protocol::server`, `Server::connect`, the `client_connect` retry loop |
| session.dfy | `Session` | `src/lib.rs`: the message types, `Progress`, `pipe_name`, `init` |
| server.dfy | `Orchestrator` | `src/lib.rs`: `Server`, `wait_for_start`, `wait_installation`, `install`, `spawn_client`, `drop`, `visible_devices` |
| client.dfy | `Worker` | `src/lib.rs`: `Client`, `install_sync`, `Client::install`, `serve` |

Each loop of the source is a method with a `while` or `for` loop, proved equal
to a recursive specification function. The properties are proved about those
functions:

- `WaitForStart` is proved against `Handshaking`.
- `WaitInstallation` is proved against `Installation`.
- `InstallCycle` is proved against `Transmit(CycleScript(..))`.
- `Client.Serve` is proved against `Serving`.
- `QuoteParam` is proved against `Quoted`.
- `ClientConnect` states its outcome directly.

`Server` and `Client` are classes whose methods update their fields. The
process handle `Child` is a class whose `open`, `exited` and `terminating`
flags are changed by `Kill` and `Release`.

## Notes on the code's behaviour

These behaviours of the code are easy to get wrong:

- **Exit is not always sent.** `install` does not send `Exit` after a lost
  heartbeat, a broken stream, an unexpected message or an elapsed handshake: the
  `?` returns first. Exit is sent only after a successful wait or the 6 min
  timeout (`SessionSends`).
- **Only two messages reset the heartbeat deadline.** These are `Heatbeat` and
  `InstallStarted`. Device results and errors do not reset it.
- **The installed count is not returned.** `install` returns `Ok(())` on
  success. The count is only logged.
- **Killing does not close the handle.** `kill` never closes the process handle.
  Only `Drop` does (`RunAs.Child.Kill`, `RunAs.Child.Release`).
- **A kill is only a request.** `TerminateProcess` starts the termination. The
  process counts as exited only once a wait sees its handle signalled
  (`Child.exited`); a kill that terminated it only records the request
  (`Child.terminating`).

## Model

| member | source | states |
|---|---|---|
| WinUsb.DeviceEqualityIsFieldwise | src/winusb.rs:21-34 | two devices are equal exactly when all eleven fields are equal (the derived `PartialEq`) |
| WinUsb.Lowercase | src/winusb.rs:146 | same length; no upper-case ASCII letter is left; each one becomes its lower-case counterpart (32 code points on); every other character is kept |
| WinUsb.LowercaseIdempotent | src/winusb.rs:146 | lower-casing an already lower-cased name changes nothing |
| WinUsb.HasWinUsb | src/winusb.rs:143-147 | false without a driver; true exactly when the driver name equals "winusb" ignoring case |
| WinUsb.Candidates | src/winusb.rs:59-68 | a device is a candidate exactly when it is in the list and the filter accepts it; never longer than the list |
| WinUsb.CandidatesConcat | src/winusb.rs:59-62 | filtering commutes with concatenation, so candidates keep the list order |
| WinUsb.CandidatesAll | src/lib.rs:142-146 | the accept-everything filter of `visible_devices` keeps the whole list, in order |
| WinUsb.CandidatesCount | src/winusb.rs:59-62 | the number of candidates is the number of accepted list positions |
| WinUsb.IsInstallNeeded | src/winusb.rs:70-72 | true exactly when some list entry is accepted by the filter |
| WinUsb.InstallIter | src/winusb.rs:81-85 | one (device, result) pair per candidate, in candidate order, the k-th result being the k-th installation's |
| WinUsb.LossyText | src/winusb.rs:123 | one character per byte read |
| WinUsb.LogGet | src/winusb.rs:120-126 | Ok(None) exactly for a read of 0 bytes; for n > 0 the text of the first n buffer bytes; a read failure becomes an Other error carrying its text |
| Common.NatToString | src/runas.rs:225 | the decimal text of a number: non-empty, digits only, no leading zero, and read back as digits it denotes the number |
| RunAs.EscapeLength | src/runas.rs:74-86 | escaping adds exactly one character per backslash and per quote |
| RunAs.EscapeConcat | src/runas.rs:77-83 | escaping is character by character (commutes with concatenation) |
| RunAs.ParseQuotedEscaped | src/runas.rs:74-86 | undoing the escapes reads an escaped body back up to its closing quote, leaving what follows |
| RunAs.UnquoteQuoted | src/runas.rs:74-86 | stripping the quotes and undoing the escapes of a quoted argument gives it back |
| RunAs.Command.QuoteParam | src/runas.rs:74-86 | the character loop yields the argument quoted, two characters longer than s plus one per backslash and per quote, and unquoting it gives s back |
| RunAs.Encode | src/runas.rs:91-99 | an empty argument becomes `""`; one without space, tab or quote is kept verbatim; any other is quoted |
| RunAs.EncodeAll | src/runas.rs:90-100 | one encoding per argument, in order |
| RunAs.EncodedToken | src/runas.rs:91-99 | every encoded argument followed by a space or the end reads back as that argument |
| RunAs.QuotedToken | src/runas.rs:98 | a quoted argument reads back as that argument, whatever follows |
| RunAs.BareToken | src/runas.rs:95-96 | a verbatim argument reads back as itself up to the next space |
| RunAs.ParseArgsJoin | src/runas.rs:88-104 | the space-joined encodings of a non-empty argument list split back into that list |
| RunAs.ParamsRoundTrip | src/runas.rs:88-104 | reading the parameter string back gives the argument list, in order, for every list |
| RunAs.Command.Params | src/runas.rs:88-104 | the parameter string of the command reads back as its argument list |
| RunAs.SeErrString | src/runas.rs:212-227 | codes outside the eleven SE_ERR codes get "Unexpected SE_ERR_* code: " and the number; the eleven get messages that do not start that way |
| RunAs.SeErrStringDistinct | src/runas.rs:212-224 | the eleven codes have pairwise different messages |
| RunAs.SpawnResult | src/runas.rs:129-154 | in this order: an API failure gives "ShellExecuteExW failed", hInstApp (as u32) in 0..=31 gives its SE_ERR message, an invalid handle gives "No process was spawned", otherwise the process handle |
| RunAs.SpawnNeverReportsDllNotFound | src/runas.rs:138 | SE_ERR_DLLNOTFOUND (32) is outside the 0..=31 range, so spawn never reports its message and treats it as success |
| RunAs.Command.constructor | src/runas.rs:35-42 | the executable, no arguments, hidden, no working directory |
| RunAs.Command.Hide | src/runas.rs:45-48 | sets only the hide flag |
| RunAs.Command.Args | src/runas.rs:51-60 | replaces the whole argument list |
| RunAs.Command.Arg | src/runas.rs:63-66 | appends one argument at the end |
| RunAs.Command.CurrentDir | src/runas.rs:69-72 | sets the working directory |
| RunAs.Command.Spawn | src/runas.rs:107-155 | fails exactly as SpawnResult says; on success a fresh open, running Child with the reported handle, the executable, the parameter string and the hide flag |
| RunAs.Child.constructor | src/runas.rs:150-154 | an open handle to a process not yet seen exited and not asked to terminate |
| RunAs.Child.TryWaitRaw | src/runas.rs:170-179 | WAIT_TIMEOUT gives Ok(None), WAIT_OBJECT_0 gives Ok(Some(())), any other status an "error code n" error |
| RunAs.Child.Kill | src/runas.rs:188-201 | Ok without terminating when the zero-timeout wait says exited, else Ok exactly when termination succeeds; a process already seen exited always gives Ok; the process counts as exited only when the wait saw it signalled, while a successful termination only records the request; the handle stays open |
| RunAs.Child.Release | src/runas.rs:204-210 | closes the handle, which must be open (exactly once) |
| Ipc.ProtocolServer | src/ipc.rs:40-43 | a pipe server on the given name exactly when creation succeeds, else its error |
| Ipc.Connect | src/ipc.rs:22-25 | accepting the client yields one server-end channel on the same pipe, else the accept error |
| Ipc.ClientConnect | src/ipc.rs:97-110 | a 50 ms sleep before every attempt, at most timeout / 50 attempts; retries only on ERROR_PIPE_BUSY; a client-end channel on the first successful open; any other error at once; the elapsed error exactly when every attempt was busy and the next sleep would pass the timeout |
| Session.PipeName | src/lib.rs:61-64 | the pipe namespace prefix exactly once, followed by the id unchanged (the id must not start with `\\.`) |
| Session.DefaultPipeIdIsValid | src/lib.rs:105 | the default id is accepted and names `\\.\pipe\winusb-driver-installer` |
| Session.Init | src/lib.rs:76-81 | worker mode with the first argument exactly when there is one, orchestrator mode otherwise |
| Orchestrator.Until | src/lib.rs:277 | the arrivals a wait under a timeout sees are at most those given (UntilFacts states the rest) |
| Orchestrator.UntilFacts | src/lib.rs:277 | a prefix of the arrivals, all available by the deadline, and the next one (if any) after it |
| Orchestrator.StartDecision | src/lib.rs:166-173 | Heatbeat, Error and a stream end keep waiting; InstallStarted succeeds; DeviceInstall and InstallDone give "Unexpected message"; a receive error propagates |
| Orchestrator.Handshaking | src/lib.rs:164-176 | ends at the first deciding arrival, all before it skipped; undecided only when every arrival was skipped; the clock never goes back and covers every arrival taken |
| Orchestrator.WaitForStart | src/lib.rs:164-176 | the receive loop computes Handshaking |
| Orchestrator.HandshakeOf | src/lib.rs:277 | the handshake under its 30 s timeout takes no more arrivals than there are |
| Orchestrator.HandshakeWithinTimeout | src/lib.rs:277 | the handshake acts only on arrivals within 30 s of the request; when undecided, all of them were skipped and the next comes after the timeout |
| Orchestrator.Receive | src/lib.rs:195-209 | every receive consumes exactly one arrival |
| Orchestrator.Poll | src/lib.rs:186-193 | an iteration either consumes an arrival or only lets 100 ms pass before the heartbeat deadline |
| Orchestrator.WaitInstallation | src/lib.rs:178-213 | the loop computes Installation |
| Orchestrator.CountOk | src/lib.rs:203-205 | never more successes than device results |
| Orchestrator.ReceiveShape | src/lib.rs:195-208 | a receive moves the clock to the arrival, resets the deadline only on Heatbeat or InstallStarted, reports each DeviceInstall, counts each Ok result, and ends exactly on InstallDone (with the count) or a broken stream |
| Orchestrator.ReceiveFacts | src/lib.rs:195-209 | receiving keeps the wait's state consistent with the arrivals taken, and ends it only as ReceiveShape says |
| Orchestrator.PollFacts | src/lib.rs:185-210 | one iteration keeps the state consistent, or ends the wait by a final receive or a missed heartbeat |
| Orchestrator.PollLost | src/lib.rs:187-189 | past the heartbeat deadline the wait ends with the TimedOut error |
| Orchestrator.PollReceive | src/lib.rs:190-209 | an iteration with an arrival available keeps the state consistent or ends the wait on it |
| Orchestrator.PollIdle | src/lib.rs:190-192 | a timed-out receive keeps the state consistent |
| Orchestrator.WatchingFacts | src/lib.rs:185-210 | a whole wait from a consistent state ends consistently, by a final receive or a missed heartbeat |
| Orchestrator.InstallationFacts | src/lib.rs:178-213 | one progress event per DeviceInstall taken, in order; Ok(n) only on InstallDone with n the number of Ok results (at most the events); errors only from a broken stream or a missed heartbeat; only Heatbeat and InstallStarted move the deadline |
| Orchestrator.SilenceIsDetected | src/lib.rs:186-192 | a worker that sends nothing more is declared lost within one receive timeout after the heartbeat deadline |
| Orchestrator.SpawnClientResult | src/lib.rs:148-162 | succeeds exactly when killing the previous worker, finding the executable and the launch all succeed, with the launched handle |
| Orchestrator.Observation | src/lib.rs:277-286 | the two waits of a session observe the handshake under 30 s and then the installation under 6 min from its end |
| Orchestrator.InstallSession | src/lib.rs:227-230 | an empty list gives Ok with no effect at all: no pipe, no worker, no message |
| Orchestrator.AfterStartFacts | src/lib.rs:278-297 | after the acknowledgement: Started, then the wait's progress, then at most the Exit attempt, which is the last effect |
| Orchestrator.ConversationFacts | src/lib.rs:277-308 | Started and the progress exactly when acknowledged; Exit attempted exactly when acknowledged and the wait succeeded or elapsed; Ok exactly when acknowledged, in time and successful; elapsed error on either timeout |
| Orchestrator.RequestInstallFacts | src/lib.rs:274-308 | the Install request precedes the conversation; a refused request ends the session with the link error |
| Orchestrator.RequestsFacts | src/lib.rs:244-274 | Logging (when there is a window) precedes Install, and a refused send ends the session |
| Orchestrator.LoggedRequestsFacts | src/lib.rs:244-245 | the Logging message goes first when there is a window to relay logs to |
| Orchestrator.EarlySession | src/lib.rs:227-240 | a session that stops before the connection sends and reports nothing, and succeeds only for an empty list |
| Orchestrator.ConnectedSession | src/lib.rs:240-274 | a connected session ends as its channel part does |
| Orchestrator.SessionSends | src/lib.rs:244-297 | the messages sent are a prefix of Logging (with a window), Install, Exit; nothing follows a failed send; Exit is attempted exactly when the request went out, was acknowledged, and the wait then succeeded or elapsed |
| Orchestrator.ConnectedSends | src/lib.rs:244-297 | SessionSends for a connected session |
| Orchestrator.DeliveredSends | src/lib.rs:274-297 | SessionSends once the messages before the request went out |
| Orchestrator.UndeliveredSends | src/lib.rs:244-245 | a refused Logging or Install ends the session before Exit |
| Orchestrator.SessionReports | src/lib.rs:278-285 | Progress::Started is reported exactly when the request went out and was acknowledged, followed by the wait's device results in order |
| Orchestrator.SessionResult | src/lib.rs:227-308 | Ok exactly for an empty list or an acknowledged wait that succeeded in time; the elapsed error when the handshake or the installation timed out, whether or not Exit went out |
| Orchestrator.ExitFailureIgnored | src/lib.rs:290-297 | whether Exit is delivered never changes the session's result |
| Orchestrator.Server.constructor | src/lib.rs:107-114 | no pipe id, no client executable, hidden child window, no child |
| Orchestrator.Server.SetPipeId | src/lib.rs:117-120 | sets the pipe id |
| Orchestrator.Server.ShowChildWindow | src/lib.rs:130-133 | sets the window flag |
| Orchestrator.Server.ClientExecutable | src/lib.rs:136-139 | sets the executable |
| Orchestrator.Server.GetPipeName | src/lib.rs:122-127 | the pipe for the set id, or for "winusb-driver-installer" when none was set |
| Orchestrator.Server.SpawnClient | src/lib.rs:148-162 | the previous worker is killed and its handle released; the result is SpawnClientResult; a new worker gets the pipe name as its single argument and a hidden window unless asked otherwise |
| Orchestrator.Server.Install | src/lib.rs:221-309 | the whole session is InstallSession of the spawn outcome and what the waits observe; the pipe is created and accepted through ProtocolServer and Connect on the server's pipe name; an empty list returns Ok whatever the pipe id; the child is untouched for an empty list and replaced by the new worker otherwise |
| Orchestrator.Server.Converse | src/lib.rs:243-274 | the channel part of the session: the optional Logging message, then the request |
| Orchestrator.Server.Request | src/lib.rs:274-308 | the request, then the conversation |
| Orchestrator.Server.Exchange | src/lib.rs:277-308 | the handshake under 30 s, Started, the installation under 6 min, the Exit attempt |
| Orchestrator.Server.Drop | src/lib.rs:312-319 | kills the worker ignoring a failure (as Kill says), releases its handle, and leaves no child |
| Orchestrator.VisibleDevices | src/lib.rs:142-146 | every listed device, or the listing error as an Other error |
| Worker.SyncQueue | src/lib.rs:338-357 | a single Error when listing fails; otherwise one DeviceInstall per candidate in list order, a device being selected exactly when it is listed and equals a requested one |
| Worker.InstallSync | src/lib.rs:338-357 | the loop queues SyncQueue |
| Worker.Transmit | src/lib.rs:375-377 | the sends that go out are never more than the script, and all of it exactly when nothing failed |
| Worker.TransmitFacts | src/lib.rs:375-377 | a prefix of the script goes out; the first refused send decides the fault: a heartbeat panics (unwrap), a forwarded message returns the link error |
| Worker.TransmitConcat | src/lib.rs:374-381 | sending two scripts in a row is sending the first, then the second if the first went out entirely |
| Worker.Waits | src/lib.rs:374-381 | every round of the cycle starts with a heartbeat |
| Worker.WaitsForward | src/lib.rs:374-381 | from any point, the remaining queued messages are forwarded in order |
| Worker.BeatBeforeEachWait | src/lib.rs:374-381 | every forwarded message directly follows a heartbeat |
| Worker.CycleForwardsQueue | src/lib.rs:374-381 | a complete cycle forwards exactly the queue, in order |
| Worker.CycleDelivery | src/lib.rs:374-381 | what goes out forwards a prefix of the queue, all of it when no send failed; a fault means the link refused the next send |
| Worker.InstallCycle | src/lib.rs:374-381 | the heartbeat-and-forward loop computes Transmit of the cycle's script |
| Worker.BeatRefused | src/lib.rs:375 | a refused heartbeat ends the cycle with a panic |
| Worker.BeatSent | src/lib.rs:375-376 | a heartbeat that goes out is followed by the wait's outcome |
| Worker.QueueClosed | src/lib.rs:378 | a closed queue ends the cycle with nothing more sent |
| Worker.ForwardRefused | src/lib.rs:377 | a refused forward ends the cycle with the link error |
| Worker.ForwardSent | src/lib.rs:377 | a forwarded message is followed by the next round |
| Worker.ServeFacts | src/lib.rs:393-408 | the sends are a prefix of the plan; Ok exactly on Exit with every planned send out; still listening exactly when the messages ran out with every send out; a panic only on a refused heartbeat |
| Worker.SkipStep | src/lib.rs:394-399 | a stream end, or a Logging message whose setup succeeds, is passed over |
| Worker.HaltStep | src/lib.rs:397-399 | Exit, a receive error or a failed log setup ends the loop with nothing more sent |
| Worker.InstallStep | src/lib.rs:400-405 | an Install is answered, then the loop goes on with the next message, unless a send failed |
| Worker.RequestStep | src/lib.rs:400-405 | InstallStep after the sends already made |
| Worker.AnswerStep | src/lib.rs:400-405 | the answer is InstallStarted, the cycle, InstallDone, stopping at the first refused send with its fault |
| Worker.OneRequest | src/lib.rs:390-411 | over a link that accepts everything, Install then Exit is answered by InstallStarted, the cycle forwarding exactly what install_sync queued, InstallDone, and ends with Ok |
| Worker.ExitAnswersNothing | src/lib.rs:398 | Exit ends the loop with Ok and sends nothing |
| Worker.Client.constructor | src/lib.rs:322-327 | the given pipe name and a 10 s connection timeout |
| Worker.Client.SetConnectionTimeout | src/lib.rs:333-336 | sets the connection timeout |
| Worker.Client.Serve | src/lib.rs:390-411 | a connection failure is returned with nothing sent; once connected on the client end of the pipe, the dispatch loop computes Serving |
| Worker.Client.Answered | src/lib.rs:400-405 | the handling of one Install computes Transmit of its answer |

## Left out

- Wire framing and the bincode codec are not modelled. A channel is an in-order sequence of receive outcomes, and no byte format is invented.
- Creating and opening the named pipe are OS calls. Their outcomes are inputs (`Env.created`, `Env.accepted`, `WorkerEnv.open`).
- The Windows calls are not modelled: `ShellExecuteExW`, `WaitForSingleObject`, `TerminateProcess`, `CloseHandle` and `EnumWindows`. Only the decisions taken on their results are modelled.
- libwdi is foreign code. Creating the device list, installing a driver, reading the logger and setting up the logger are inputs: `listing`, `install`, `LogGet`'s read, `logSetup`.
- The log-relay task is not modelled: its 400 ms delay, its 100 ms polling and its oneshot cancellation. Only one poll (`LogGet`) and the Logging message are modelled, because the task runs beside the session and does not affect what the session sends or returns.
- Threads and timers are not modelled: `spawn_blocking`, the mpsc queue and tokio's timers. The clock is an integer. The orchestrator's waits see arrivals through `Until`. The worker's waits are counts of 1 s timeouts (`Job.delay`), so the worker has no clock.
- Worker.Client.Serve: the join of the installer thread (`installer.await?`) is taken to succeed. The queue sends in `install_sync` (`unwrap`) are taken to succeed.
- Worker.Client.Serve: after the orchestrator's stream ends, the source keeps polling forever. The model ends with `Listening` once the given messages are used up.
- WinUsb.Lowercase: only the ASCII letters A to Z are lower-cased, whereas `to_lowercase` maps every Unicode upper-case character.
- WinUsb.HasWinUsb: lower-casing is restricted to ASCII letters, whereas the source lower-cases Unicode.
- WinUsb.LossyText: restricted to ASCII. Each byte of 0x80 or above becomes one replacement character, whereas `from_utf8_lossy` decodes multi-byte UTF-8 sequences. Its contract states only the length.
- Orchestrator.Describe: the "Unexpected message" error carries only the variant name, not the full Debug text of the message.
- The logging calls are not modelled. This includes the installed/total line at the end of `install`, which is the only use of the installed count there.
- `InstallConfig` is carried in the request but does not influence the modelled results. Installation outcomes are inputs.
- `Child::try_wait` (a `Duration` to `u32` conversion) and `Child::wait` (an infinite wait) are not modelled. They sit outside the launcher's decision logic and are not used by the rest of the program.
- `Client::pipe_name` is a plain getter, modelled as the `pipeName` field.
- `LogReceiver::new`, `window` and `client_setup` are not modelled: the first two are the window lookup, the last the libwdi logger registration. They are inputs (`Env.logWindow`, `WorkerEnv.logSetup`).
- src/main.rs is not part of this model.
