/** The unprivileged orchestrator (`Server` in src/lib.rs): it creates the
    pipe, launches the elevated worker, drives the start handshake and watches
    the installation under a heartbeat deadline and an overall timeout.

    Time is a millisecond clock. What the worker sends is a sequence of
    arrivals, each available from some clock reading. A receive issued at
    clock `now` takes the next arrival once it is available; when the receive
    has its own 100 ms timeout and nothing is available by `now + 100`, it
    times out and the clock moves on by 100 ms. A tokio timeout around a wait
    hides every arrival that is not available by its deadline. Once the
    sequence is exhausted the worker stays silent. */
module Orchestrator {
  import opened Common
  import opened WinUsb
  import opened Session
  import opened Ipc
  import RunAs

  const HANDSHAKE_TIMEOUT_MS: nat := 30_000
  const INSTALL_TIMEOUT_MS: nat := 6 * 60 * 1000
  const HEARTBEAT_TIMEOUT_MS: nat := 5_000
  const RECV_TIMEOUT_MS: nat := 100

  const HEARTBEAT_LOST: IoError := Custom(TimedOut, "No heatbeat from client")

  function Max(a: int, b: int): int {
    if a < b then b else a
  }

  /** The arrivals a wait under a tokio timeout sees: the longest prefix
      that is available by the deadline. */
  function Until<M>(incoming: seq<Arrival<M>>, deadline: int): (r: seq<Arrival<M>>)
    ensures |r| <= |incoming|
  {
    if incoming == [] || incoming[0].at > deadline then []
    else [incoming[0]] + Until(incoming[1..], deadline)
  }

  /** `Until` keeps a prefix of the arrivals, all available by the
      deadline, and stops only at the end or at one that is not. */
  lemma {:induction false} UntilFacts<M>(incoming: seq<Arrival<M>>, deadline: int)
    ensures var r := Until(incoming, deadline);
      && r <= incoming
      && (forall k :: 0 <= k < |r| ==> r[k].at <= deadline)
      && (|r| < |incoming| ==> incoming[|r|].at > deadline)
  {
    if incoming != [] && incoming[0].at <= deadline {
      UntilFacts(incoming[1..], deadline);
      var r := Until(incoming[1..], deadline);
      assert forall k :: 1 <= k < |r| + 1 ==> ([incoming[0]] + r)[k] == r[k - 1];
    }
  }

  // ---------------------------------------------------------------------
  // The start handshake (wait_for_start)

  /** The Debug text of a message, as far as the error message shows it. */
  function Describe(m: ClientMsg): string {
    match m
    case DeviceInstall(_, _) => "DeviceInstall(..)"
    case Error(_) => "Error(..)"
    case InstallStarted => "InstallStarted"
    case InstallDone => "InstallDone"
    case Heartbeat => "Heatbeat"
  }

  function Unexpected(m: ClientMsg): IoError {
    Custom(Other, "Unexpected message: " + Describe(m))
  }

  /** What the handshake makes of one receive outcome; None: keep waiting. */
  function StartDecision(item: Recv<ClientMsg>): (d: Option<Result<(), IoError>>)
    ensures d.None? <==> item.Closed? || item == Msg(Heartbeat) || (item.Msg? && item.msg.Error?)
    ensures d == Some(Ok(())) <==> item == Msg(InstallStarted)
    ensures item.Broken? ==> d == Some(Err(item.error))
    ensures item.Msg? && (item.msg.DeviceInstall? || item.msg.InstallDone?) ==> d == Some(Err(Unexpected(item.msg)))
  {
    match item
    case Closed => None
    case Broken(e) => Some(Err(e))
    case Msg(m) =>
      match m
      case Heartbeat => None
      case Error(_) => None
      case InstallStarted => Some(Ok(()))
      case DeviceInstall(_, _) => Some(Err(Unexpected(m)))
      case InstallDone => Some(Err(Unexpected(m)))
  }

  /** How the handshake ended (None: still waiting when the arrivals ran
      out), how many arrivals it consumed, and the clock when it returned. */
  datatype Handshake = Handshake(decision: Option<Result<(), IoError>>, used: nat, finish: int)

  /** The handshake from clock `now`: the first arrival that decides it
      decides it; everything before it is skipped. */
  function Handshaking(now: int, incoming: seq<Arrival<ClientMsg>>): (h: Handshake)
    ensures h.used <= |incoming|
    ensures now <= h.finish
    ensures forall k :: 0 <= k < h.used - 1 ==> StartDecision(incoming[k].item).None?
    ensures h.decision.Some? ==> h.used > 0 && h.decision == StartDecision(incoming[h.used - 1].item)
    ensures h.decision.None? ==> h.used == |incoming| && forall k :: 0 <= k < |incoming| ==> StartDecision(incoming[k].item).None?
    ensures forall k :: 0 <= k < h.used ==> incoming[k].at <= h.finish
    decreases |incoming|
  {
    if incoming == [] then Handshake(None, 0, now)
    else
      var now' := Max(now, incoming[0].at);
      var d := StartDecision(incoming[0].item);
      if d.Some? then Handshake(d, 1, now')
      else
        var h := Handshaking(now', incoming[1..]);
        Handshake(h.decision, h.used + 1, h.finish)
  }

  /** `wait_for_start`: receive until the worker acknowledges the request. */
  method WaitForStart(start: int, incoming: seq<Arrival<ClientMsg>>) returns (h: Handshake)
    ensures h == Handshaking(start, incoming)
  {
    var now := start;
    var i := 0;
    while i < |incoming|
      invariant i <= |incoming|
      invariant Handshaking(start, incoming) ==
        var rest := Handshaking(now, incoming[i..]); Handshake(rest.decision, rest.used + i, rest.finish)
    {
      assert incoming[i..][1..] == incoming[i + 1..];
      now := Max(now, incoming[i].at);
      var d := StartDecision(incoming[i].item);
      i := i + 1;
      if d.Some? {
        return Handshake(d, i, now);
      }
    }
    h := Handshake(None, i, now);
  }

  // ---------------------------------------------------------------------
  // The heartbeat-watched installation (wait_installation)

  /** The loop state of `wait_installation`: the clock, the time of the last
      heartbeat, the number of successful devices, the progress reported so
      far, and the number of arrivals consumed. */
  datatype Watch = Watch(now: int, lastBeat: int, installed: nat, progress: seq<Progress>, used: nat)

  /** How the wait ended, and its final state. */
  datatype Tally = Tally(result: Result<nat, IoError>, watch: Watch)

  datatype Step = Continue(next: Watch) | Finish(tally: Tally)

  /** How one received arrival changes the watch. */
  function Receive(a: Arrival<ClientMsg>, w: Watch): (s: Step)
    ensures s.Continue? ==> s.next.used == w.used + 1
    ensures s.Finish? ==> s.tally.watch.used == w.used + 1
  {
    var now := Max(w.now, a.at);
    var w' := w.(now := now, used := w.used + 1);
    match a.item
    case Closed => Continue(w')
    case Broken(e) => Finish(Tally(Err(e), w'))
    case Msg(m) =>
      match m
      case Heartbeat => Continue(w'.(lastBeat := now))
      case InstallStarted => Continue(w'.(lastBeat := now))
      case InstallDone => Finish(Tally(Ok(w.installed), w'))
      case Error(_) => Continue(w')
      case DeviceInstall(d, r) =>
        Continue(w'.(installed := if r.Ok? then w.installed + 1 else w.installed,
                     progress := w.progress + [DeviceDone(d, r)]))
  }

  /** One iteration of the loop: the heartbeat check, then a receive with a
      100 ms timeout. */
  function Poll(hb: nat, incoming: seq<Arrival<ClientMsg>>, w: Watch): (s: Step)
    requires w.used <= |incoming|
    ensures s.Continue? ==> s.next.used <= |incoming|
    ensures s.Continue? ==>
      || w.used < s.next.used
      || (s.next == w.(now := w.now + RECV_TIMEOUT_MS) && w.now - w.lastBeat <= hb)
  {
    if w.now - w.lastBeat > hb then Finish(Tally(Err(HEARTBEAT_LOST), w))
    else if w.used < |incoming| && incoming[w.used].at <= w.now + RECV_TIMEOUT_MS then
      Receive(incoming[w.used], w)
    else Continue(w.(now := w.now + RECV_TIMEOUT_MS))
  }

  function Watching(hb: nat, incoming: seq<Arrival<ClientMsg>>, w: Watch): Tally
    requires w.used <= |incoming|
    decreases |incoming| - w.used, w.lastBeat + hb - w.now
  {
    match Poll(hb, incoming, w)
    case Finish(t) => t
    case Continue(next) => Watching(hb, incoming, next)
  }

  /** The whole wait, started at clock `start`. */
  function Installation(start: int, hb: nat, incoming: seq<Arrival<ClientMsg>>): Tally {
    Watching(hb, incoming, Watch(start, start, 0, [], 0))
  }

  /** `wait_installation`: count successful devices and report each device
      result until InstallDone, failing when no heartbeat came for longer
      than `hb`. */
  method WaitInstallation(start: int, hb: nat, incoming: seq<Arrival<ClientMsg>>) returns (t: Tally)
    ensures t == Installation(start, hb, incoming)
  {
    var now, lastBeat, installed, progress, i := start, start, 0, [], 0;
    while true
      invariant i <= |incoming|
      invariant Watching(hb, incoming, Watch(now, lastBeat, installed, progress, i)) == Installation(start, hb, incoming)
      decreases |incoming| - i, lastBeat + hb - now
    {
      if now - lastBeat > hb {
        return Tally(Err(HEARTBEAT_LOST), Watch(now, lastBeat, installed, progress, i));
      }
      if !(i < |incoming| && incoming[i].at <= now + RECV_TIMEOUT_MS) {
        // the 100 ms receive timed out
        now := now + RECV_TIMEOUT_MS;
        continue;
      }
      var a := incoming[i];
      now := Max(now, a.at);
      i := i + 1;
      match a.item {
        case Closed =>
        case Broken(e) =>
          return Tally(Err(e), Watch(now, lastBeat, installed, progress, i));
        case Msg(m) =>
          match m {
            case Heartbeat =>
              lastBeat := now;
            case InstallStarted =>
              lastBeat := now;
            case InstallDone =>
              return Tally(Ok(installed), Watch(now, lastBeat, installed, progress, i));
            case Error(_) =>
            case DeviceInstall(d, r) =>
              if r.Ok? {
                installed := installed + 1;
              }
              progress := progress + [DeviceDone(d, r)];
          }
      }
    }
  }

  // ---------------------------------------------------------------------
  // Reference definitions for the wait

  /** The progress event an arrival carries, if any. */
  function ReportOf(item: Recv<ClientMsg>): seq<Progress> {
    if item.Msg? && item.msg.DeviceInstall? then [DeviceDone(item.msg.device, item.msg.result)] else []
  }

  /** One progress event per DeviceInstall among the arrivals, in order. */
  function DeviceReports(items: seq<Arrival<ClientMsg>>): seq<Progress> {
    if items == [] then [] else DeviceReports(items[..|items| - 1]) + ReportOf(items[|items| - 1].item)
  }

  /** The number of successful device results among the events. */
  function CountOk(p: seq<Progress>): (n: nat)
    ensures n <= |p|
  {
    if p == [] then 0
    else CountOk(p[..|p| - 1]) + (if p[|p| - 1].DeviceDone? && p[|p| - 1].result.Ok? then 1 else 0)
  }

  predicate IsBeat(item: Recv<ClientMsg>) {
    item == Msg(Heartbeat) || item == Msg(InstallStarted)
  }

  predicate Ends(item: Recv<ClientMsg>) {
    item.Broken? || item == Msg(InstallDone)
  }

  /** What every state the wait goes through satisfies. */
  ghost predicate Consistent(start: int, hb: nat, incoming: seq<Arrival<ClientMsg>>, w: Watch) {
    && w.used <= |incoming|
    && w.progress == DeviceReports(incoming[..w.used])
    && w.installed == CountOk(w.progress)
    && w.now - w.lastBeat <= hb + RECV_TIMEOUT_MS
    && ((forall k :: 0 <= k < w.used ==> !IsBeat(incoming[k].item)) ==> w.lastBeat == start)
  }

  lemma PrefixStep(items: seq<Arrival<ClientMsg>>, k: nat)
    requires k < |items|
    ensures items[..k + 1][..k] == items[..k] && items[..k + 1][k] == items[k]
    ensures DeviceReports(items[..k + 1]) == DeviceReports(items[..k]) + ReportOf(items[k].item)
  {
    assert items[..k + 1][..k] == items[..k];
  }

  /** One successful device result in the events of an arrival. */
  function OkIn(item: Recv<ClientMsg>): nat {
    if item.Msg? && item.msg.DeviceInstall? && item.msg.result.Ok? then 1 else 0
  }

  /** What receiving one arrival does to the watch, message by message. */
  lemma ReceiveShape(a: Arrival<ClientMsg>, w: Watch)
    ensures var s := Receive(a, w);
      var n := if s.Continue? then s.next else s.tally.watch;
      && n.now == Max(w.now, a.at)
      && n.used == w.used + 1
      && n.lastBeat == (if IsBeat(a.item) then n.now else w.lastBeat)
      && n.progress == w.progress + ReportOf(a.item)
      && n.installed == w.installed + OkIn(a.item)
      && (s.Finish? <==> Ends(a.item))
      && (s.Finish? ==>
           match s.tally.result
           case Ok(c) => a.item == Msg(InstallDone) && c == n.installed
           case Err(e) => a.item == Broken(e))
  {
  }

  lemma CountOkStep(p: seq<Progress>, q: seq<Progress>, item: Recv<ClientMsg>)
    requires q == ReportOf(item)
    ensures CountOk(p + q) == CountOk(p) + OkIn(item)
  {
    if q != [] {
      assert (p + q)[..|p + q| - 1] == p;
    } else {
      assert p + q == p;
    }
  }

  /** Receiving one arrival keeps the state consistent; it ends the wait
      exactly on InstallDone, with the count, or on a broken stream. */
  lemma ReceiveFacts(start: int, hb: nat, incoming: seq<Arrival<ClientMsg>>, w: Watch)
    requires Consistent(start, hb, incoming, w)
    requires w.used < |incoming| && w.now - w.lastBeat <= hb && incoming[w.used].at <= w.now + RECV_TIMEOUT_MS
    ensures match Receive(incoming[w.used], w)
      case Continue(n) => Consistent(start, hb, incoming, n) && !Ends(incoming[w.used].item)
      case Finish(t) => Consistent(start, hb, incoming, t.watch) && Closing(incoming, w.used, t)
  {
    var a := incoming[w.used];
    var s := Receive(a, w);
    var n := if s.Continue? then s.next else s.tally.watch;
    ReceiveShape(a, w);
    assert Consistent(start, hb, incoming, n) by {
      PrefixStep(incoming, w.used);
      CountOkStep(w.progress, ReportOf(a.item), a.item);
      if forall k :: 0 <= k < n.used ==> !IsBeat(incoming[k].item) {
        assert !IsBeat(a.item);
      }
    }
  }

  /** How a final receive ends the wait: on the arrival at `k`, an
      InstallDone with the count or a broken stream with its error. */
  ghost predicate Closing(incoming: seq<Arrival<ClientMsg>>, k: nat, t: Tally) {
    && t.watch.used == k + 1 <= |incoming|
    && Ends(incoming[k].item)
    && match t.result
       case Ok(n) => incoming[k].item == Msg(InstallDone) && n == t.watch.installed
       case Err(e) => incoming[k].item == Broken(e)
  }

  /** No arrival before position `n` ended the wait. */
  ghost predicate Pending(incoming: seq<Arrival<ClientMsg>>, n: nat) {
    forall k :: 0 <= k < n && k < |incoming| ==> !Ends(incoming[k].item)
  }

  /** How a whole wait ends: by a final receive after pending arrivals only,
      or by a missed heartbeat. */
  ghost predicate Outcome(hb: nat, incoming: seq<Arrival<ClientMsg>>, t: Tally) {
    || (t.watch.used > 0 && Pending(incoming, t.watch.used - 1) && Closing(incoming, t.watch.used - 1, t))
    || (t.result == Err(HEARTBEAT_LOST) && hb < t.watch.now - t.watch.lastBeat && Pending(incoming, t.watch.used))
  }

  /** One iteration from a consistent state: it continues in a consistent
      state with nothing ended yet, or it ends the wait as Outcome says. */
  lemma PollFacts(start: int, hb: nat, incoming: seq<Arrival<ClientMsg>>, w: Watch)
    requires Consistent(start, hb, incoming, w) && Pending(incoming, w.used)
    ensures match Poll(hb, incoming, w)
      case Continue(n) => Consistent(start, hb, incoming, n) && Pending(incoming, n.used)
      case Finish(t) => Consistent(start, hb, incoming, t.watch) && Outcome(hb, incoming, t)
  {
    if w.now - w.lastBeat > hb {
      PollLost(start, hb, incoming, w);
    } else if w.used < |incoming| && incoming[w.used].at <= w.now + RECV_TIMEOUT_MS {
      PollReceive(start, hb, incoming, w);
    } else {
      PollIdle(start, hb, incoming, w);
    }
  }

  /** An iteration past the heartbeat deadline ends the wait. */
  lemma PollLost(start: int, hb: nat, incoming: seq<Arrival<ClientMsg>>, w: Watch)
    requires Consistent(start, hb, incoming, w) && Pending(incoming, w.used)
    requires w.now - w.lastBeat > hb
    ensures match Poll(hb, incoming, w)
      case Continue(n) => Consistent(start, hb, incoming, n) && Pending(incoming, n.used)
      case Finish(t) => Consistent(start, hb, incoming, t.watch) && Outcome(hb, incoming, t)
  {
    assert Poll(hb, incoming, w) == Finish(Tally(Err(HEARTBEAT_LOST), w));
  }

  /** An iteration that receives an arrival. */
  lemma PollReceive(start: int, hb: nat, incoming: seq<Arrival<ClientMsg>>, w: Watch)
    requires Consistent(start, hb, incoming, w) && Pending(incoming, w.used)
    requires w.now - w.lastBeat <= hb && w.used < |incoming| && incoming[w.used].at <= w.now + RECV_TIMEOUT_MS
    ensures match Poll(hb, incoming, w)
      case Continue(n) => Consistent(start, hb, incoming, n) && Pending(incoming, n.used)
      case Finish(t) => Consistent(start, hb, incoming, t.watch) && Outcome(hb, incoming, t)
  {
    assert Poll(hb, incoming, w) == Receive(incoming[w.used], w);
    ReceiveFacts(start, hb, incoming, w);
  }

  /** An iteration whose receive times out keeps the state consistent. */
  lemma PollIdle(start: int, hb: nat, incoming: seq<Arrival<ClientMsg>>, w: Watch)
    requires Consistent(start, hb, incoming, w) && Pending(incoming, w.used)
    requires w.now - w.lastBeat <= hb && !(w.used < |incoming| && incoming[w.used].at <= w.now + RECV_TIMEOUT_MS)
    ensures match Poll(hb, incoming, w)
      case Continue(n) => Consistent(start, hb, incoming, n) && Pending(incoming, n.used)
      case Finish(t) => Consistent(start, hb, incoming, t.watch) && Outcome(hb, incoming, t)
  {
    assert Poll(hb, incoming, w) == Continue(w.(now := w.now + RECV_TIMEOUT_MS));
  }

  /** Summary of a whole wait from a consistent state. */
  lemma {:induction false} WatchingFacts(start: int, hb: nat, incoming: seq<Arrival<ClientMsg>>, w: Watch)
    requires Consistent(start, hb, incoming, w) && Pending(incoming, w.used)
    ensures Consistent(start, hb, incoming, Watching(hb, incoming, w).watch)
    ensures Outcome(hb, incoming, Watching(hb, incoming, w))
    decreases |incoming| - w.used, w.lastBeat + hb - w.now
  {
    PollFacts(start, hb, incoming, w);
    match Poll(hb, incoming, w)
    case Finish(t) =>
    case Continue(n) =>
      WatchingFacts(start, hb, incoming, n);
  }

  /** What `wait_installation` promises, for every sequence of arrivals:
      - every DeviceInstall consumed is reported once, in arrival order;
      - the count it returns is the number of successful ones among them,
        after an InstallDone, and nothing ended the wait before it;
      - a missed heartbeat is detected more than `hb` but at most one
        receive timeout (100 ms) more after the last heartbeat;
      - without any Heartbeat or InstallStarted, the deadline runs from the
        start: DeviceInstall and Error do not reset it. */
  lemma InstallationFacts(start: int, hb: nat, incoming: seq<Arrival<ClientMsg>>)
    ensures var t := Installation(start, hb, incoming);
      && t.watch.used <= |incoming|
      && t.watch.progress == DeviceReports(incoming[..t.watch.used])
      && t.watch.now - t.watch.lastBeat <= hb + RECV_TIMEOUT_MS
      && ((forall k :: 0 <= k < t.watch.used ==> !IsBeat(incoming[k].item)) ==> t.watch.lastBeat == start)
      && (forall k :: 0 <= k < t.watch.used - 1 ==> !Ends(incoming[k].item))
      && match t.result
         case Ok(n) =>
           t.watch.used > 0 && incoming[t.watch.used - 1].item == Msg(InstallDone)
           && n == CountOk(t.watch.progress) && n <= |t.watch.progress|
         case Err(e) =>
           || (t.watch.used > 0 && incoming[t.watch.used - 1].item == Broken(e))
           || (e == HEARTBEAT_LOST && hb < t.watch.now - t.watch.lastBeat)
  {
    var w := Watch(start, start, 0, [], 0);
    assert incoming[..0] == [];
    WatchingFacts(start, hb, incoming, w);
  }

  /** A worker that sends nothing more is declared lost, within one receive
      timeout after the heartbeat deadline. */
  lemma {:induction false} SilenceIsDetected(hb: nat, incoming: seq<Arrival<ClientMsg>>, w: Watch)
    requires w.used == |incoming|
    requires w.now - w.lastBeat <= hb + RECV_TIMEOUT_MS
    ensures var t := Watching(hb, incoming, w);
      t.result == Err(HEARTBEAT_LOST) && t.watch.used == w.used && t.watch.lastBeat == w.lastBeat
      && hb < t.watch.now - t.watch.lastBeat <= hb + RECV_TIMEOUT_MS
    decreases w.lastBeat + hb - w.now
  {
    if w.now - w.lastBeat <= hb {
      SilenceIsDetected(hb, incoming, w.(now := w.now + RECV_TIMEOUT_MS));
    }
  }

  // ---------------------------------------------------------------------
  // The whole installation session (install)

  /** Everything outside the orchestrator that one `install` call meets. */
  datatype Env = Env(
    created: Result<(), IoError>,            // creating the first-instance pipe
    killStatus: nat,                         // zero-timeout wait on a previous worker
    killTerminated: bool,                    // TerminateProcess on a previous worker
    currentExe: Result<string, IoError>,     // env::current_exe
    shell: RunAs.ShellReport,                // what ShellExecuteExW reported
    accepted: Result<(), IoError>,           // the worker connecting to the pipe
    logWindow: Option<int>,                  // a window of this process, for log relay
    link: Link,                              // how many messages the worker accepts
    requestAt: int,                          // clock when the handshake starts
    incoming: seq<Arrival<ClientMsg>>)       // what the worker sends

  /** What `spawn_client` yields: kill a previous worker (failing if that
      fails), find the executable, then launch. */
  function SpawnClientResult(hadChild: bool, clientExecutable: Option<string>, env: Env): (r: Result<int, IoError>)
    ensures r.Ok? <==>
      && (hadChild ==> env.killStatus == RunAs.WAIT_OBJECT_0 || env.killTerminated)
      && (clientExecutable.None? ==> env.currentExe.Ok?)
      && RunAs.SpawnResult(env.shell).Ok?
    ensures r.Ok? ==> r == RunAs.SpawnResult(env.shell)
  {
    if hadChild && !(env.killStatus == RunAs.WAIT_OBJECT_0 || env.killTerminated) then
      Err(Custom(Other, RunAs.TERMINATE_FAILED))
    else if clientExecutable.None? && env.currentExe.Err? then Err(env.currentExe.error)
    else RunAs.SpawnResult(env.shell)
  }

  /** What the orchestrator does that the caller or the worker can observe. */
  datatype Effect =
    | CreatedPipe
    | SpawnedWorker
    | AcceptedWorker
    | Sent(msg: ServerMsg)
    | SendFailed(msg: ServerMsg)
    | Reported(progress: Progress)

  datatype Report = Report(result: Result<(), IoError>, effects: seq<Effect>)

  function AsEffects(p: seq<Progress>): (e: seq<Effect>)
    ensures |e| == |p| && forall i :: 0 <= i < |p| ==> e[i] == Reported(p[i])
  {
    seq(|p|, i requires 0 <= i < |p| => Reported(p[i]))
  }

  function Attempt(link: Link, k: nat, m: ServerMsg): Effect {
    if link.Delivers(k) then Sent(m) else SendFailed(m)
  }

  /** The handshake as the session sees it, through its 30 s timeout. */
  function HandshakeOf(env: Env): (h: Handshake)
    ensures h.used <= |env.incoming|
  {
    Handshaking(env.requestAt, Until(env.incoming, env.requestAt + HANDSHAKE_TIMEOUT_MS))
  }

  /** The handshake only ever acts on arrivals available within 30 s of the
      request; when it did not decide, every such arrival was skipped and
      the next one, if any, comes after the timeout. */
  lemma HandshakeWithinTimeout(env: Env)
    ensures var h := HandshakeOf(env);
      var deadline := env.requestAt + HANDSHAKE_TIMEOUT_MS;
      && (forall k :: 0 <= k < h.used ==> env.incoming[k].at <= deadline)
      && (h.decision.None? ==>
            && (forall k :: 0 <= k < h.used ==> StartDecision(env.incoming[k].item).None?)
            && (h.used < |env.incoming| ==> env.incoming[h.used].at > deadline))
  {
    var deadline := env.requestAt + HANDSHAKE_TIMEOUT_MS;
    var r := Until(env.incoming, deadline);
    UntilFacts(env.incoming, deadline);
    assert forall k :: 0 <= k < |r| ==> r[k] == env.incoming[k];
  }

  /** The arrivals after the handshake that the installation wait sees
      through its 6 min timeout, which runs from the end of the handshake. */
  function WatchedArrivals(env: Env): seq<Arrival<ClientMsg>> {
    var h := HandshakeOf(env);
    Until(env.incoming[h.used..], h.finish + INSTALL_TIMEOUT_MS)
  }

  /** What the two waits of a session observe: how the handshake ended, how
      the installation wait ended, and the deadline of the latter. */
  datatype Observed = Observed(handshake: Handshake, tally: Tally, deadline: int)

  function Observe(env: Env): Observed {
    var h := HandshakeOf(env);
    Observed(h, Installation(h.finish, HEARTBEAT_TIMEOUT_MS, WatchedArrivals(env)), h.finish + INSTALL_TIMEOUT_MS)
  }

  lemma Observation(env: Env, h: Handshake, t: Tally)
    requires h == Handshaking(env.requestAt, Until(env.incoming, env.requestAt + HANDSHAKE_TIMEOUT_MS))
    requires t == Installation(h.finish, HEARTBEAT_TIMEOUT_MS, Until(env.incoming[h.used..], h.finish + INSTALL_TIMEOUT_MS))
    ensures Observe(env) == Observed(h, t, h.finish + INSTALL_TIMEOUT_MS)
  {
  }

  /** `install`, given the outcome of `spawn_client` and what its waits
      observe (`Observe(env)`). */
  function InstallSession(config: InstallConfig, devices: seq<Device>, spawned: Result<int, IoError>, env: Env, o: Observed)
    : (r: Report)
    ensures |devices| == 0 ==> r == Report(Ok(()), [])
  {
    if |devices| == 0 then Report(Ok(()), [])
    else if env.created.Err? then Report(Err(env.created.error), [])
    else if spawned.Err? then Report(Err(spawned.error), [CreatedPipe])
    else if env.accepted.Err? then Report(Err(env.accepted.error), [CreatedPipe, SpawnedWorker])
    else
      var q := Requests(config, devices, env.logWindow, env.link, o);
      Report(q.result, [CreatedPipe, SpawnedWorker, AcceptedWorker] + q.effects)
  }

  /** Over the connected channel: the optional Logging message, then the
      request and the rest of the conversation. */
  function Requests(config: InstallConfig, devices: seq<Device>, logWindow: Option<int>, link: Link, o: Observed): Report {
    match logWindow
    case Some(w) =>
      if !link.Delivers(0) then Report(Err(link.failure), [SendFailed(Logging(w))])
      else
        var q := RequestInstall(config, devices, link, 1, o);
        Report(q.result, [Sent(Logging(w))] + q.effects)
    case None => RequestInstall(config, devices, link, 0, o)
  }

  /** The request, as message number `sends`, then the conversation. */
  function RequestInstall(config: InstallConfig, devices: seq<Device>, link: Link, sends: nat, o: Observed): Report {
    var request := Session.Install(config, devices);
    if !link.Delivers(sends) then Report(Err(link.failure), [SendFailed(request)])
    else
      var c := Conversation(o, link, sends + 1);
      Report(c.result, [Sent(request)] + c.effects)
  }

  /** The handshake under its 30 s timeout, then the installation under its
      6 min timeout, then Exit as message number `sends`. */
  function Conversation(o: Observed, link: Link, sends: nat): Report {
    match o.handshake.decision
    case None => Report(Err(ELAPSED), [])
    case Some(d) =>
      if d.Err? then Report(Err(d.error), [])
      else
        var t := o.tally;
        var exit := [Attempt(link, sends, Exit)];
        if t.watch.now > o.deadline then Report(Err(ELAPSED), AfterStart(t.watch.progress, exit))
        else if t.result.Err? then Report(Err(t.result.error), AfterStart(t.watch.progress, []))
        else Report(Ok(()), AfterStart(t.watch.progress, exit))
  }

  /** The effects after an acknowledgement: Started, the progress of the
      wait, and the Exit attempt when there is one. */
  function AfterStart(progress: seq<Progress>, exit: seq<Effect>): seq<Effect> {
    [Reported(Started)] + AsEffects(progress) + exit
  }

  // ---------------------------------------------------------------------
  // What a session promises

  /** The messages among the effects, in order, delivered or not. */
  function Sends(e: seq<Effect>): seq<ServerMsg> {
    if e == [] then []
    else Sends(e[..|e| - 1]) + (if e[|e| - 1].Sent? || e[|e| - 1].SendFailed? then [e[|e| - 1].msg] else [])
  }

  /** The progress events among the effects, in order. */
  function Reports(e: seq<Effect>): seq<Progress> {
    if e == [] then [] else Reports(e[..|e| - 1]) + (if e[|e| - 1].Reported? then [e[|e| - 1].progress] else [])
  }

  /** No effect is a failed send. */
  predicate NoFailure(e: seq<Effect>) {
    forall x :: x in e ==> !x.SendFailed?
  }

  /** Nothing happens after a failed send. */
  predicate FailedLast(e: seq<Effect>) {
    e == [] || NoFailure(e[..|e| - 1])
  }

  lemma FailedLastConcat(a: seq<Effect>, b: seq<Effect>)
    requires NoFailure(a) && FailedLast(b)
    ensures FailedLast(a + b)
  {
    if b == [] {
      assert a + b == a;
      if a != [] {
        assert a[..|a| - 1] <= a;
      }
    } else {
      assert (a + b)[..|a + b| - 1] == a + b[..|b| - 1];
    }
  }

  lemma {:induction false} SendsConcat(a: seq<Effect>, b: seq<Effect>)
    ensures Sends(a + b) == Sends(a) + Sends(b)
    ensures Reports(a + b) == Reports(a) + Reports(b)
    decreases |b|
  {
    if b == [] {
      assert a + b == a;
    } else {
      assert (a + b)[..|a + b| - 1] == a + b[..|b| - 1];
      SendsConcat(a, b[..|b| - 1]);
    }
  }

  lemma SendsSingle(x: Effect)
    ensures Sends([x]) == (if x.Sent? || x.SendFailed? then [x.msg] else [])
    ensures Reports([x]) == (if x.Reported? then [x.progress] else [])
  {
    assert [x][..0] == [];
  }

  /** Prepending one effect that is not a failed send. */
  lemma Prepend(x: Effect, e: seq<Effect>)
    requires !x.SendFailed? && FailedLast(e)
    ensures Sends([x] + e) == Sends([x]) + Sends(e)
    ensures Reports([x] + e) == Reports([x]) + Reports(e)
    ensures FailedLast([x] + e)
  {
    SendsConcat([x], e);
    FailedLastConcat([x], e);
  }

  lemma {:induction false} AsEffectsProjections(p: seq<Progress>)
    ensures Sends(AsEffects(p)) == [] && Reports(AsEffects(p)) == p
    ensures NoFailure(AsEffects(p))
  {
    if p != [] {
      var e := AsEffects(p);
      assert e[..|e| - 1] == AsEffects(p[..|p| - 1]);
      AsEffectsProjections(p[..|p| - 1]);
      assert p[..|p| - 1] + [p[|p| - 1]] == p;
    }
  }

  /** Whether the session's request went out: the list is not empty, the
      pipe, the worker and the connection came up, and the Logging message,
      if any, and the request were delivered. */
  predicate Requested(devices: seq<Device>, spawned: Result<int, IoError>, env: Env) {
    Connected(devices, spawned, env) && env.link.Delivers(LoggingSends(env))
  }

  function LoggingSends(env: Env): nat {
    if env.logWindow.Some? then 1 else 0
  }

  /** Whether the worker acknowledged the request within 30 s. */
  predicate Acknowledged(o: Observed) {
    o.handshake.decision.Some? && o.handshake.decision.value.Ok?
  }

  /** Whether the installation wait ran into its 6 min timeout. */
  predicate Late(o: Observed) {
    o.tally.watch.now > o.deadline
  }

  /** Everything the orchestrator may send in one session, in order:
      Logging when a window exists for the log relay, Install, Exit. */
  function Script(config: InstallConfig, devices: seq<Device>, logWindow: Option<int>): seq<ServerMsg> {
    LoggingScript(logWindow) + [Session.Install(config, devices), Exit]
  }

  lemma AfterStartFacts(progress: seq<Progress>, exit: seq<Effect>)
    requires |exit| <= 1
    ensures Sends(AfterStart(progress, exit)) == Sends(exit)
    ensures Reports(AfterStart(progress, exit)) == [Started] + progress + Reports(exit)
    ensures FailedLast(AfterStart(progress, exit))
  {
    var p := AsEffects(progress);
    var head := [Reported(Started)] + p;
    assert Sends(head) == [] && Reports(head) == [Started] + progress && NoFailure(head) by {
      AsEffectsProjections(progress);
      SendsSingle(Reported(Started));
      SendsConcat([Reported(Started)], p);
      assert forall x :: x in head ==> x == Reported(Started) || x in p;
    }
    SendsConcat(head, exit);
    FailedLastConcat(head, exit);
  }

  /** The effects of the handshake and the watched installation: Started
      exactly after an acknowledgement, then the progress of the wait, then
      Exit on success or on the overall timeout. */
  lemma ConversationFacts(o: Observed, link: Link, sends: nat)
    ensures var c := Conversation(o, link, sends);
      && Sends(c.effects) == (if Acknowledged(o) && (Late(o) || o.tally.result.Ok?) then [Exit] else [])
      && Reports(c.effects) == (if Acknowledged(o) then [Started] + o.tally.watch.progress else [])
      && FailedLast(c.effects)
      && (c.result.Ok? <==> Acknowledged(o) && !Late(o) && o.tally.result.Ok?)
      && (o.handshake.decision.None? ==> c.result == Err(ELAPSED))
      && (Acknowledged(o) && Late(o) ==> c.result == Err(ELAPSED))
  {
    if Acknowledged(o) {
      var exit := Attempt(link, sends, Exit);
      SendsSingle(exit);
      if Late(o) || o.tally.result.Ok? {
        AfterStartFacts(o.tally.watch.progress, [exit]);
      } else {
        AfterStartFacts(o.tally.watch.progress, []);
        assert o.tally.watch.progress + [] == o.tally.watch.progress;
      }
    }
  }

  /** The request and what follows it, stopping at a failed send. */
  lemma RequestInstallFacts(config: InstallConfig, devices: seq<Device>, link: Link, k: nat, o: Observed)
    ensures var r := RequestInstall(config, devices, link, k, o);
      var c := Conversation(o, link, k + 1);
      && FailedLast(r.effects)
      && (link.Delivers(k) ==>
            r.result == c.result && Sends(r.effects) == [Session.Install(config, devices)] + Sends(c.effects)
            && Reports(r.effects) == Reports(c.effects))
      && (!link.Delivers(k) ==>
            r.result == Err(link.failure) && Sends(r.effects) == [Session.Install(config, devices)] && Reports(r.effects) == [])
  {
    var request := Session.Install(config, devices);
    if link.Delivers(k) {
      var c := Conversation(o, link, k + 1);
      assert FailedLast(c.effects) by {
        ConversationFacts(o, link, k + 1);
      }
      SendsSingle(Sent(request));
      Prepend(Sent(request), c.effects);
    } else {
      SendsSingle(SendFailed(request));
    }
  }

  /** The messages before the request: Logging when there is a window. */
  function LoggingScript(logWindow: Option<int>): seq<ServerMsg> {
    if logWindow.Some? then [Logging(logWindow.value)] else []
  }

  /** The effects after the connection: the Logging message, the request,
      then the conversation, stopping at a failed send. */
  lemma RequestsFacts(config: InstallConfig, devices: seq<Device>, logWindow: Option<int>, link: Link, o: Observed)
    ensures var q := Requests(config, devices, logWindow, link, o);
      var k := if logWindow.Some? then 1 else 0;
      var c := Conversation(o, link, k + 1);
      var sent := LoggingScript(logWindow) + [Session.Install(config, devices)];
      && FailedLast(q.effects)
      && (link.Delivers(k) ==>
            q.result == c.result && Sends(q.effects) == sent + Sends(c.effects) && Reports(q.effects) == Reports(c.effects))
      && (!link.Delivers(k) ==>
            q.result == Err(link.failure) && Sends(q.effects) <= sent && Reports(q.effects) == [])
  {
    match logWindow
    case Some(w) =>
      LoggedRequestsFacts(config, devices, w, link, o);
    case None =>
      RequestInstallFacts(config, devices, link, 0, o);
      assert [] + [Session.Install(config, devices)] == [Session.Install(config, devices)];
  }

  /** RequestsFacts when there is a window for the log relay. */
  lemma LoggedRequestsFacts(config: InstallConfig, devices: seq<Device>, w: int, link: Link, o: Observed)
    ensures var q := Requests(config, devices, Some(w), link, o);
      var c := Conversation(o, link, 2);
      var sent := [Logging(w), Session.Install(config, devices)];
      && FailedLast(q.effects)
      && (link.Delivers(1) ==>
            q.result == c.result && Sends(q.effects) == sent + Sends(c.effects) && Reports(q.effects) == Reports(c.effects))
      && (!link.Delivers(1) ==>
            q.result == Err(link.failure) && Sends(q.effects) <= sent && Reports(q.effects) == [])
  {
    if link.Delivers(0) {
      var r := RequestInstall(config, devices, link, 1, o);
      RequestInstallFacts(config, devices, link, 1, o);
      SendsSingle(Sent(Logging(w)));
      Prepend(Sent(Logging(w)), r.effects);
      if link.Delivers(1) {
        var c := Conversation(o, link, 2);
        assert [Logging(w)] + ([Session.Install(config, devices)] + Sends(c.effects))
          == [Logging(w), Session.Install(config, devices)] + Sends(c.effects);
      }
    } else {
      SendsSingle(SendFailed(Logging(w)));
    }
  }

  /** Whether the pipe, the worker and the connection came up for a list
      that is not empty. */
  predicate Connected(devices: seq<Device>, spawned: Result<int, IoError>, env: Env) {
    |devices| > 0 && env.created.Ok? && spawned.Ok? && env.accepted.Ok?
  }

  /** A session that stops before the connection sends and reports nothing. */
  lemma EarlySession(config: InstallConfig, devices: seq<Device>, spawned: Result<int, IoError>, env: Env, o: Observed)
    requires !Connected(devices, spawned, env)
    ensures var r := InstallSession(config, devices, spawned, env, o);
      && Sends(r.effects) == [] && Reports(r.effects) == [] && FailedLast(r.effects)
      && (r.result.Ok? <==> |devices| == 0)
  {
    SetupFacts();
  }

  /** A connected session: the setup effects, then those of the channel. */
  lemma ConnectedSession(config: InstallConfig, devices: seq<Device>, spawned: Result<int, IoError>, env: Env, o: Observed)
    requires Connected(devices, spawned, env)
    ensures var r := InstallSession(config, devices, spawned, env, o);
      var q := Requests(config, devices, env.logWindow, env.link, o);
      && r.result == q.result
      && Sends(r.effects) == Sends(q.effects) && Reports(r.effects) == Reports(q.effects)
      && FailedLast(r.effects) == FailedLast(q.effects)
  {
    var setup := [CreatedPipe, SpawnedWorker, AcceptedWorker];
    var q := Requests(config, devices, env.logWindow, env.link, o);
    SetupFacts();
    SendsConcat(setup, q.effects);
    RequestsFacts(config, devices, env.logWindow, env.link, o);
    FailedLastConcat(setup, q.effects);
  }

  /** The messages `install` sends are, in order, a prefix of Logging (when
      there is a window to relay logs to), Install with the given list, and
      Exit; nothing happens after a failed send; and Exit is attempted
      exactly when the request went out, the worker acknowledged it, and the
      wait then succeeded or ran into its timeout: never after a lost
      heartbeat, a broken stream or a failed handshake. */
  lemma SessionSends(config: InstallConfig, devices: seq<Device>, spawned: Result<int, IoError>, env: Env, o: Observed)
    ensures var r := InstallSession(config, devices, spawned, env, o);
      && Sends(r.effects) <= Script(config, devices, env.logWindow)
      && FailedLast(r.effects)
      && (Exit in Sends(r.effects) <==>
            Requested(devices, spawned, env) && Acknowledged(o) && (Late(o) || o.tally.result.Ok?))
  {
    if Connected(devices, spawned, env) {
      ConnectedSends(config, devices, spawned, env, o);
    } else {
      EarlySession(config, devices, spawned, env, o);
    }
  }

  lemma ConnectedSends(config: InstallConfig, devices: seq<Device>, spawned: Result<int, IoError>, env: Env, o: Observed)
    requires Connected(devices, spawned, env)
    ensures var r := InstallSession(config, devices, spawned, env, o);
      && Sends(r.effects) <= Script(config, devices, env.logWindow)
      && FailedLast(r.effects)
      && (Exit in Sends(r.effects) <==>
            Requested(devices, spawned, env) && Acknowledged(o) && (Late(o) || o.tally.result.Ok?))
  {
    ConnectedSession(config, devices, spawned, env, o);
    RequestsFacts(config, devices, env.logWindow, env.link, o);
    if env.link.Delivers(LoggingSends(env)) {
      DeliveredSends(config, devices, env.logWindow, env.link, o);
    } else {
      UndeliveredSends(config, devices, env.logWindow, env.link, o);
    }
  }

  lemma DeliveredSends(config: InstallConfig, devices: seq<Device>, logWindow: Option<int>, link: Link, o: Observed)
    requires link.Delivers(if logWindow.Some? then 1 else 0)
    ensures var q := Requests(config, devices, logWindow, link, o);
      && Sends(q.effects) <= Script(config, devices, logWindow)
      && (Exit in Sends(q.effects) <==> Acknowledged(o) && (Late(o) || o.tally.result.Ok?))
  {
    var k := if logWindow.Some? then 1 else 0;
    var sent := LoggingScript(logWindow) + [Session.Install(config, devices)];
    var all := Sends(Requests(config, devices, logWindow, link, o).effects);
    var tail := Sends(Conversation(o, link, k + 1).effects);
    assert all == sent + tail by {
      RequestsFacts(config, devices, logWindow, link, o);
    }
    assert tail == (if Acknowledged(o) && (Late(o) || o.tally.result.Ok?) then [Exit] else []) by {
      ConversationFacts(o, link, k + 1);
    }
    ScriptSplit(config, devices, logWindow);
    TailMembers(sent, tail, Exit);
  }

  /** The script is the messages before the wait, then Exit. */
  lemma ScriptSplit(config: InstallConfig, devices: seq<Device>, logWindow: Option<int>)
    ensures Script(config, devices, logWindow) == LoggingScript(logWindow) + [Session.Install(config, devices)] + [Exit]
    ensures !(Exit in LoggingScript(logWindow) + [Session.Install(config, devices)])
  {
    Snoc(LoggingScript(logWindow), Session.Install(config, devices), Exit);
  }

  lemma Snoc<T>(a: seq<T>, x: T, y: T)
    ensures a + [x, y] == a + [x] + [y]
  {
  }

  /** A message absent from `sent` is in `sent + tail`, for a tail that is
      either empty or that message alone, exactly when the tail holds it. */
  lemma TailMembers<T>(sent: seq<T>, tail: seq<T>, x: T)
    requires !(x in sent) && (tail == [] || tail == [x])
    ensures sent + tail <= sent + [x]
    ensures x in sent + tail <==> tail == [x]
  {
    if tail == [] {
      assert sent + tail == sent;
    }
  }

  lemma UndeliveredSends(config: InstallConfig, devices: seq<Device>, logWindow: Option<int>, link: Link, o: Observed)
    requires !link.Delivers(if logWindow.Some? then 1 else 0)
    ensures var q := Requests(config, devices, logWindow, link, o);
      && Sends(q.effects) <= Script(config, devices, logWindow)
      && !(Exit in Sends(q.effects))
  {
    RequestsFacts(config, devices, logWindow, link, o);
    var sent := LoggingScript(logWindow) + [Session.Install(config, devices)];
    PrefixMembers(Sends(Requests(config, devices, logWindow, link, o).effects), sent, [Exit]);
    ScriptSplit(config, devices, logWindow);
  }

  lemma PrefixMembers<T>(a: seq<T>, b: seq<T>, c: seq<T>)
    requires a <= b
    ensures a <= b + c
    ensures forall x :: x in a ==> x in b
  {
    assert forall i :: 0 <= i < |a| ==> a[i] == b[i];
  }

  /** `install` reports Progress::Started exactly when the request went out
      and the worker acknowledged it, and then the progress of the wait. */
  lemma SessionReports(config: InstallConfig, devices: seq<Device>, spawned: Result<int, IoError>, env: Env, o: Observed)
    ensures var r := InstallSession(config, devices, spawned, env, o);
      Reports(r.effects) == (if Requested(devices, spawned, env) && Acknowledged(o) then [Started] + o.tally.watch.progress else [])
  {
    if Connected(devices, spawned, env) {
      ConnectedSession(config, devices, spawned, env, o);
      RequestsFacts(config, devices, env.logWindow, env.link, o);
      if env.link.Delivers(LoggingSends(env)) {
        ConversationFacts(o, env.link, LoggingSends(env) + 1);
      }
    } else {
      EarlySession(config, devices, spawned, env, o);
    }
  }

  /** `install` succeeds exactly for an empty list or a wait that succeeded
      in time; an elapsed handshake or installation gives the timeout error,
      whether or not Exit could be sent. */
  lemma SessionResult(config: InstallConfig, devices: seq<Device>, spawned: Result<int, IoError>, env: Env, o: Observed)
    ensures var r := InstallSession(config, devices, spawned, env, o);
      var acked := Requested(devices, spawned, env) && Acknowledged(o);
      && (r.result.Ok? <==> |devices| == 0 || (acked && !Late(o) && o.tally.result.Ok?))
      && (Requested(devices, spawned, env) && o.handshake.decision.None? ==> r.result == Err(ELAPSED))
      && (acked && Late(o) ==> r.result == Err(ELAPSED))
  {
    if Connected(devices, spawned, env) {
      ConnectedSession(config, devices, spawned, env, o);
      RequestsFacts(config, devices, env.logWindow, env.link, o);
      if env.link.Delivers(LoggingSends(env)) {
        ConversationFacts(o, env.link, LoggingSends(env) + 1);
      }
    } else {
      EarlySession(config, devices, spawned, env, o);
    }
  }

  /** The first effects of a session carry no message and no report. */
  lemma SetupFacts()
    ensures Sends([CreatedPipe, SpawnedWorker, AcceptedWorker]) == [] && Reports([CreatedPipe, SpawnedWorker, AcceptedWorker]) == []
    ensures Sends([CreatedPipe, SpawnedWorker]) == [] && Reports([CreatedPipe, SpawnedWorker]) == []
    ensures Sends([CreatedPipe]) == [] && Reports([CreatedPipe]) == []
    ensures NoFailure([CreatedPipe, SpawnedWorker, AcceptedWorker])
  {
    Silent([CreatedPipe, SpawnedWorker, AcceptedWorker]);
    Silent([CreatedPipe, SpawnedWorker]);
    Silent([CreatedPipe]);
  }

  /** Effects that neither send nor report project to nothing. */
  lemma {:induction false} Silent(e: seq<Effect>)
    requires forall x :: x in e ==> x.CreatedPipe? || x.SpawnedWorker? || x.AcceptedWorker?
    ensures Sends(e) == [] && Reports(e) == []
  {
    if e != [] {
      assert forall x :: x in e[..|e| - 1] ==> x in e;
      assert e[|e| - 1] in e;
      Silent(e[..|e| - 1]);
    }
  }

  /** The outcome of sending Exit never changes the result of a session. */
  lemma ExitFailureIgnored(config: InstallConfig, devices: seq<Device>, spawned: Result<int, IoError>, env: Env, o: Observed, link: Link)
    requires link.Delivers(LoggingSends(env)) == env.link.Delivers(LoggingSends(env))
    requires link.Delivers(0) == env.link.Delivers(0)
    requires link.failure == env.link.failure
    ensures InstallSession(config, devices, spawned, env, o).result == InstallSession(config, devices, spawned, env.(link := link), o).result
  {
    var k := LoggingSends(env);
    assert Conversation(o, link, k + 1).result == Conversation(o, env.link, k + 1).result;
  }

  // ---------------------------------------------------------------------
  // The orchestrator object

  class Server {
    var pipeId: Option<string>
    var clientExecutable: Option<string>
    var showChildWindow: bool
    var child: RunAs.Child?

    constructor ()
      ensures pipeId.None? && clientExecutable.None? && !showChildWindow && child == null
    {
      pipeId := None;
      clientExecutable := None;
      showChildWindow := false;
      child := null;
    }

    method SetPipeId(id: string)
      modifies this`pipeId
      ensures pipeId == Some(id)
    {
      pipeId := Some(id);
    }

    method ShowChildWindow(show: bool)
      modifies this`showChildWindow
      ensures showChildWindow == show
    {
      showChildWindow := show;
    }

    method ClientExecutable(exe: string)
      modifies this`clientExecutable
      ensures clientExecutable == Some(exe)
    {
      clientExecutable := Some(exe);
    }

    /** The pipe id in use: the one set, else the default. */
    function PipeId(): string
      reads this`pipeId
    {
      pipeId.GetOr(DEFAULT_PIPE_ID)
    }

    /** The pipe for this server: the prefix followed by the configured id,
      or by "winusb-driver-installer" when none was set. */
    function GetPipeName(): (name: string)
      reads this`pipeId
      requires ValidPipeId(PipeId())
      ensures pipeId.None? ==> name == PIPE_PREFIX + DEFAULT_PIPE_ID
      ensures pipeId.Some? ==> name == PIPE_PREFIX + pipeId.value
    {
      PipeName(PipeId())
    }

    /** `spawn_client`: kill and release the previous worker if there is one,
      then launch the executable elevated with the pipe name as its only
      argument. */
    method SpawnClient(env: Env) returns (r: Result<RunAs.Child, IoError>)
      requires ValidPipeId(PipeId())
      requires child != null ==> child.open && (child.exited ==> env.killStatus == RunAs.WAIT_OBJECT_0)
      modifies this`child, child
      ensures child == null
      ensures old(child) != null ==> !old(child).open
      ensures r.Ok? <==> SpawnClientResult(old(child) != null, clientExecutable, env).Ok?
      ensures r.Err? ==> r.error == SpawnClientResult(old(child) != null, clientExecutable, env).error
      ensures r.Ok? ==> fresh(r.value) && r.value.open && !r.value.exited && r.value.handle == env.shell.hProcess
      ensures r.Ok? ==> RunAs.ParseParams(r.value.params) == Some([GetPipeName()]) && r.value.hidden == !showChildWindow
    {
      if child != null {
        var c := child;
        child := null;
        var killed := c.Kill(env.killStatus, env.killTerminated);
        c.Release();
        if killed.Err? {
          return Err(killed.error);
        }
      }
      var exe: string;
      match clientExecutable {
        case Some(e) =>
          exe := e;
        case None =>
          if env.currentExe.Err? {
            return Err(env.currentExe.error);
          }
          exe := env.currentExe.value;
      }
      var command := new RunAs.Command(exe);
      command.Arg(GetPipeName());
      command.Hide(!showChildWindow);
      assert command.args == [GetPipeName()];
      assert RunAs.ParseParams(command.Params()) == Some([GetPipeName()]);
      r := command.Spawn(env.shell);
      assert r.Ok? ==> r.value.params == command.Params();
    }

    /** `install`: the whole session for a list of devices. */
    method Install(config: InstallConfig, devices: seq<Device>, env: Env) returns (report: Report)
      requires |devices| > 0 ==> ValidPipeId(PipeId())
      requires child != null ==> child.open && (child.exited ==> env.killStatus == RunAs.WAIT_OBJECT_0)
      modifies this`child, child
      ensures report == InstallSession(config, devices, SpawnClientResult(old(child) != null, clientExecutable, env), env, Observe(env))
      ensures |devices| == 0 || env.created.Err? ==> child == old(child) && (child != null ==> child.open)
      ensures |devices| > 0 && env.created.Ok? ==>
        && (old(child) != null ==> !old(child).open)
        && (child != null <==> SpawnClientResult(old(child) != null, clientExecutable, env).Ok?)
        && (child != null ==> fresh(child) && child.open && RunAs.ParseParams(child.params) == Some([GetPipeName()]))
    {
      if |devices| == 0 {
        return Report(Ok(()), []);
      }
      var server := ProtocolServer<ServerMsg, ClientMsg>(GetPipeName(), env.created);
      if server.Err? {
        return Report(Err(server.error), []);
      }
      ghost var expected := SpawnClientResult(child != null, clientExecutable, env);
      var spawned := SpawnClient(env);
      if spawned.Err? {
        return Report(Err(spawned.error), [CreatedPipe]);
      }
      child := spawned.value;
      var channel := Connect(server.value, env.accepted);
      if channel.Err? {
        return Report(Err(channel.error), [CreatedPipe, SpawnedWorker]);
      }
      assert channel.value == Channel(GetPipeName(), ServerEnd);
      var q := Converse(config, devices, env);
      report := Report(q.result, [CreatedPipe, SpawnedWorker, AcceptedWorker] + q.effects);
      assert expected.Ok?;
    }

    /** The part of `install` over the connected channel: the optional
      Logging message and the request, then the conversation. */
    static method Converse(config: InstallConfig, devices: seq<Device>, env: Env) returns (report: Report)
      ensures report == Requests(config, devices, env.logWindow, env.link, Observe(env))
    {
      var sent: seq<Effect> := [];
      var sends := 0;
      if env.logWindow.Some? {
        var logging := Logging(env.logWindow.value);
        if !env.link.Delivers(sends) {
          return Report(Err(env.link.failure), [SendFailed(logging)]);
        }
        sent := [Sent(logging)];
        sends := sends + 1;
      }
      var q := Request(config, devices, env, sends);
      report := Report(q.result, sent + q.effects);
    }

    /** The request, as message number `sends`, then the conversation. */
    static method Request(config: InstallConfig, devices: seq<Device>, env: Env, sends: nat) returns (report: Report)
      ensures report == RequestInstall(config, devices, env.link, sends, Observe(env))
    {
      var request := Session.Install(config, devices);
      if !env.link.Delivers(sends) {
        return Report(Err(env.link.failure), [SendFailed(request)]);
      }
      var c := Exchange(env, sends + 1);
      report := Report(c.result, [Sent(request)] + c.effects);
    }

    /** The handshake under its 30 s timeout, then the watched installation
      under its 6 min timeout, then Exit as message number `sends`. */
    static method Exchange(env: Env, sends: nat) returns (report: Report)
      ensures report == Conversation(Observe(env), env.link, sends)
    {
      var h := WaitForStart(env.requestAt, Until(env.incoming, env.requestAt + HANDSHAKE_TIMEOUT_MS));
      if h.decision.None? {
        return Report(Err(ELAPSED), []);
      }
      if h.decision.value.Err? {
        return Report(Err(h.decision.value.error), []);
      }
      var deadline := h.finish + INSTALL_TIMEOUT_MS;
      var t := WaitInstallation(h.finish, HEARTBEAT_TIMEOUT_MS, Until(env.incoming[h.used..], deadline));
      Observation(env, h, t);
      var exit := Attempt(env.link, sends, Exit);
      if t.watch.now > deadline {
        return Report(Err(ELAPSED), AfterStart(t.watch.progress, [exit]));
      }
      if t.result.Err? {
        return Report(Err(t.result.error), AfterStart(t.watch.progress, []));
      }
      report := Report(Ok(()), AfterStart(t.watch.progress, [exit]));
    }

    /** `Drop`: kill the worker, ignoring a failure, and release its handle. */
    method Drop(killStatus: nat, terminated: bool)
      requires child != null ==> child.open && (child.exited ==> killStatus == RunAs.WAIT_OBJECT_0)
      modifies this`child, child
      ensures child == null
      ensures old(child) != null ==> !old(child).open
      ensures old(child) != null ==>
        && (old(child).exited <==> old(child.exited) || killStatus == RunAs.WAIT_OBJECT_0)
        && (old(child).terminating <==> old(child.terminating) || (killStatus != RunAs.WAIT_OBJECT_0 && terminated))
    {
      if child != null {
        var c := child;
        child := null;
        var _ := c.Kill(killStatus, terminated);
        c.Release();
      }
    }
  }

  /** `visible_devices`: every device of the listing, or the listing error. */
  function VisibleDevices(listing: Result<seq<Device>, string>): (r: Result<seq<Device>, IoError>)
    ensures listing.Ok? ==> r == Ok(listing.value)
    ensures listing.Err? ==> r == Err(Custom(Other, listing.error))
  {
    match listing
    case Ok(list) =>
      CandidatesAll(list);
      Ok(Candidates(list, _ => true))
    case Err(e) => Err(Custom(Other, e))
  }
}
