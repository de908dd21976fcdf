/** The elevated worker (`Client` in src/lib.rs): it connects to the
    orchestrator's pipe, answers each installation request with
    InstallStarted, the heartbeats and device results of the installation,
    then InstallDone, and stops on Exit.

    The blocking installer thread and its queue are not run: the queue is
    the sequence `install_sync` fills, and how long the installer takes is
    the number of 1 s queue waits that time out before each queued message
    (and before the queue closes). Sends go through a `Link`, which accepts
    a number of messages and then fails every send. */
module Worker {
  import opened Common
  import opened WinUsb
  import opened Session
  import opened Ipc

  const CONNECTION_TIMEOUT_MS: nat := 10_000

  // ---------------------------------------------------------------------
  // install_sync

  /** The device filter of `install_sync`: a device is selected exactly when
      it equals one of the requested devices. */
  function Selector(requested: seq<Device>): Device -> bool {
    d => d in requested
  }

  /** The messages `install_sync` queues, given what creating the libwdi
      device list reported (an error already rendered to text) and what the
      k-th driver installation reports. */
  function SyncQueue(requested: seq<Device>, listing: Result<seq<Device>, string>, install: nat -> WdiResult)
    : (q: seq<ClientMsg>)
    ensures listing.Err? ==> q == [Error(listing.error)]
    ensures listing.Ok? ==>
      var c := Candidates(listing.value, Selector(requested));
      && |q| == |c| == AcceptedCount(listing.value, Selector(requested))
      && (forall i :: 0 <= i < |q| ==> q[i] == DeviceInstall(c[i], install(i)))
      && (forall d :: d in c <==> d in listing.value && d in requested)
  {
    match listing
    case Err(e) => [Error(e)]
    case Ok(list) =>
      var pairs := InstallIter(list, Selector(requested), install);
      CandidatesCount(list, Selector(requested));
      seq(|pairs|, i requires 0 <= i < |pairs| => DeviceInstall(pairs[i].0, pairs[i].1))
  }

  /** `install_sync`: one Error when the list cannot be created, otherwise
      one DeviceInstall per candidate, in iteration order. */
  method InstallSync(requested: seq<Device>, listing: Result<seq<Device>, string>, install: nat -> WdiResult)
    returns (queue: seq<ClientMsg>)
    ensures queue == SyncQueue(requested, listing, install)
  {
    match listing {
      case Err(e) =>
        queue := [Error(e)];
      case Ok(list) =>
        var pairs := InstallIter(list, Selector(requested), install);
        queue := [];
        for i := 0 to |pairs|
          invariant |queue| == i
          invariant forall p :: 0 <= p < i ==> queue[p] == DeviceInstall(pairs[p].0, pairs[p].1)
        {
          var (dev, result) := pairs[i];
          queue := queue + [DeviceInstall(dev, result)];
        }
    }
  }

  // ---------------------------------------------------------------------
  // Sending over the channel

  /** One send of the worker: a heartbeat, whose failure panics (`unwrap`),
      or a reply, whose failure is returned (`?`). */
  datatype Send = Beat | Reply(msg: ClientMsg)

  /** How a sequence of sends can stop early. */
  datatype Fault = Failed(error: IoError) | Panicked

  /** The sends that went out, and the fault that stopped the rest (None:
      all went out). */
  datatype Delivery = Delivery(fault: Option<Fault>, sent: seq<Send>)

  /** The sends of `script` in order, the first of them as message number
      `k` of the channel, up to the first one the link refuses. */
  function Transmit(script: seq<Send>, link: Link, k: nat): (r: Delivery)
    ensures |r.sent| <= |script|
    ensures r.fault.None? <==> |r.sent| == |script|
    decreases |script|
  {
    if script == [] then Delivery(None, [])
    else if !link.Delivers(k) then Delivery(Some(if script[0].Beat? then Panicked else Failed(link.failure)), [])
    else
      var r := Transmit(script[1..], link, k + 1);
      Delivery(r.fault, [script[0]] + r.sent)
  }

  /** What goes out is a prefix of the script, every send of it accepted
      (the link accepts an initial run of message numbers); the first send
      refused, if any, decides the fault: a heartbeat panics, any other
      send returns the link's error. */
  lemma {:induction false} TransmitFacts(script: seq<Send>, link: Link, k: nat)
    ensures var r := Transmit(script, link, k);
      && r.sent == script[..|r.sent|]
      && (r.fault.None? ==> r.sent == script)
      && (r.sent != [] ==> link.Delivers(k + |r.sent| - 1))
      && (r.fault.Some? ==>
            && !link.Delivers(k + |r.sent|)
            && r.fault.value == (if script[|r.sent|].Beat? then Panicked else Failed(link.failure)))
    decreases |script|
  {
    if script != [] && link.Delivers(k) {
      TransmitFacts(script[1..], link, k + 1);
      var r := Transmit(script[1..], link, k + 1);
      assert [script[0]] + script[1..][..|r.sent|] == script[..|r.sent| + 1];
    }
  }

  /** Sending one more send in front. */
  lemma TransmitCons(x: Send, w: seq<Send>, link: Link, k: nat)
    ensures Transmit([x] + w, link, k) ==
      if link.Delivers(k) then Extend([x], Transmit(w, link, k + 1))
      else Delivery(Some(if x.Beat? then Panicked else Failed(link.failure)), [])
  {
    assert ([x] + w)[1..] == w;
  }

  lemma ExtendTwice(a: seq<Send>, b: seq<Send>, r: Delivery)
    ensures Extend(a, Extend(b, r)) == Extend(a + b, r)
  {
    assert a + (b + r.sent) == a + b + r.sent;
  }

  function Extend(prefix: seq<Send>, r: Delivery): Delivery {
    Delivery(r.fault, prefix + r.sent)
  }

  /** Sending `a + b` is sending `a` and then, if all of `a` went out,
      sending `b`. */
  lemma {:induction false} TransmitConcat(a: seq<Send>, b: seq<Send>, link: Link, k: nat)
    ensures Transmit(a + b, link, k) ==
      var r := Transmit(a, link, k);
      if r.fault.None? then Extend(a, Transmit(b, link, k + |a|)) else r
    decreases |a|
  {
    if a == [] {
      assert a + b == b;
    } else {
      assert (a + b)[0] == a[0];
      assert (a + b)[1..] == a[1..] + b;
      TransmitConcat(a[1..], b, link, k + 1);
      if link.Delivers(k) && Transmit(a[1..], link, k + 1).fault.None? {
        assert [a[0]] + (a[1..] + Transmit(b, link, k + 1 + |a[1..]|).sent)
          == a + Transmit(b, link, k + |a|).sent;
      }
    }
  }

  lemma TransmitSingle(x: Send, link: Link, k: nat)
    ensures Transmit([x], link, k) ==
      if link.Delivers(k) then Delivery(None, [x])
      else Delivery(Some(if x.Beat? then Panicked else Failed(link.failure)), [])
  {
    assert [x][1..] == [];
  }

  // ---------------------------------------------------------------------
  // Client::install: the heartbeat and forwarding cycle

  /** What the cycle sends from the point where the i-th queue event is
      awaited and `waited` waits for it have already timed out: a heartbeat
      before every wait, the queued message when it arrives, and nothing
      once the queue is closed. `delay(i)` is the number of 1 s waits that
      time out before the i-th queued message (i < |queue|) or before the
      queue closes (i == |queue|). */
  function Waits(queue: seq<ClientMsg>, delay: nat -> nat, i: nat, waited: nat): (s: seq<Send>)
    requires i <= |queue| && waited <= delay(i)
    ensures |s| > 0 && s[0] == Beat
    decreases |queue| - i, delay(i) - waited
  {
    [Beat] + (if waited < delay(i) then Waits(queue, delay, i, waited + 1)
              else if i < |queue| then [Reply(queue[i])] + Waits(queue, delay, i + 1, 0)
              else [])
  }

  /** What follows the heartbeat of `Waits`. */
  function After(queue: seq<ClientMsg>, delay: nat -> nat, i: nat, waited: nat): seq<Send>
    requires i <= |queue| && waited <= delay(i)
  {
    if waited < delay(i) then Waits(queue, delay, i, waited + 1)
    else if i < |queue| then [Reply(queue[i])] + Waits(queue, delay, i + 1, 0)
    else []
  }

  /** Everything the cycle sends for a queue, if every send goes out. */
  function CycleScript(queue: seq<ClientMsg>, delay: nat -> nat): seq<Send> {
    Waits(queue, delay, 0, 0)
  }

  /** The messages of the replies, in order: what the cycle forwards. */
  function Forwarded(s: seq<Send>): seq<ClientMsg> {
    if s == [] then []
    else Forwarded(s[..|s| - 1]) + (if s[|s| - 1].Reply? then [s[|s| - 1].msg] else [])
  }

  lemma {:induction false} ForwardedConcat(a: seq<Send>, b: seq<Send>)
    ensures Forwarded(a + b) == Forwarded(a) + Forwarded(b)
    decreases |b|
  {
    if b == [] {
      assert a + b == a;
    } else {
      assert (a + b)[..|a + b| - 1] == a + b[..|b| - 1];
      ForwardedConcat(a, b[..|b| - 1]);
    }
  }

  lemma ForwardedSingle(x: Send)
    ensures Forwarded([x]) == (if x.Reply? then [x.msg] else [])
  {
    assert [x][..0] == [];
  }

  /** A prefix of the sends forwards a prefix of the messages. */
  lemma ForwardedPrefix(a: seq<Send>, b: seq<Send>)
    requires a <= b
    ensures Forwarded(a) <= Forwarded(b)
  {
    assert b == a + b[|a|..];
    ForwardedConcat(a, b[|a|..]);
  }

  /** From any point of the cycle, the remaining queued messages are
      forwarded, each exactly once and in queue order. */
  lemma {:induction false} WaitsForward(queue: seq<ClientMsg>, delay: nat -> nat, i: nat, waited: nat)
    requires i <= |queue| && waited <= delay(i)
    ensures Forwarded(Waits(queue, delay, i, waited)) == queue[i..]
    decreases |queue| - i, delay(i) - waited
  {
    var s := Waits(queue, delay, i, waited);
    ForwardedSingle(Beat);
    if waited < delay(i) {
      var t := Waits(queue, delay, i, waited + 1);
      assert s == [Beat] + t;
      WaitsForward(queue, delay, i, waited + 1);
      ForwardedConcat([Beat], t);
    } else if i < |queue| {
      var t := Waits(queue, delay, i + 1, 0);
      assert s == [Beat] + ([Reply(queue[i])] + t);
      WaitsForward(queue, delay, i + 1, 0);
      ForwardedSingle(Reply(queue[i]));
      ForwardedConcat([Reply(queue[i])], t);
      ForwardedConcat([Beat], [Reply(queue[i])] + t);
      assert queue[i..] == [queue[i]] + queue[i + 1..];
    } else {
      assert s == [Beat];
    }
  }

  /** A heartbeat precedes every wait: the cycle starts and ends with a
      heartbeat, and every forwarded message directly follows one. */
  /** Every reply directly follows a heartbeat. */
  predicate BeatLed(s: seq<Send>) {
    forall p :: 0 < p < |s| && s[p].Reply? ==> s[p - 1] == Beat
  }

  lemma {:induction false} BeatBeforeEachWait(queue: seq<ClientMsg>, delay: nat -> nat, i: nat, waited: nat)
    requires i <= |queue| && waited <= delay(i)
    ensures BeatLed(Waits(queue, delay, i, waited))
    decreases |queue| - i, delay(i) - waited
  {
    var s := Waits(queue, delay, i, waited);
    if waited < delay(i) {
      var t := Waits(queue, delay, i, waited + 1);
      assert s == [Beat] + t;
      BeatBeforeEachWait(queue, delay, i, waited + 1);
      assert BeatLed(t);
      forall p | 0 < p < |s| && s[p].Reply?
        ensures s[p - 1] == Beat
      {
        if p == 1 {
          assert s[0] == Beat;
        } else {
          assert s[p] == t[p - 1];
          assert t[p - 1].Reply?;
          assert t[p - 2] == Beat;
          assert s[p - 1] == t[p - 2];
        }
      }
    } else if i < |queue| {
      var t := Waits(queue, delay, i + 1, 0);
      assert s == [Beat] + ([Reply(queue[i])] + t);
      BeatBeforeEachWait(queue, delay, i + 1, 0);
      assert BeatLed(t);
      forall p | 0 < p < |s| && s[p].Reply?
        ensures s[p - 1] == Beat
      {
        if p == 1 {
          assert s[0] == Beat;
        } else if p == 2 {
          assert false;
        } else {
          assert s[p] == t[p - 2];
          assert t[p - 2].Reply?;
          assert t[p - 3] == Beat;
          assert s[p - 1] == t[p - 3];
        }
      }
    }
  }

  /** The whole queue is forwarded by a complete cycle. */
  lemma CycleForwardsQueue(queue: seq<ClientMsg>, delay: nat -> nat)
    ensures Forwarded(CycleScript(queue, delay)) == queue
  {
    WaitsForward(queue, delay, 0, 0);
  }

  /** What the cycle delivers: the queued messages in order, all of them
      exactly when no send failed; a failed heartbeat panics and a failed
      forward returns the link's error. */
  lemma CycleDelivery(queue: seq<ClientMsg>, delay: nat -> nat, link: Link, k: nat)
    ensures var r := Transmit(CycleScript(queue, delay), link, k);
      && Forwarded(r.sent) <= queue
      && (r.fault.None? ==> Forwarded(r.sent) == queue)
      && (r.fault.Some? ==> !link.Delivers(k + |r.sent|))
  {
    var s := CycleScript(queue, delay);
    CycleForwardsQueue(queue, delay);
    TransmitFacts(s, link, k);
    ForwardedPrefix(Transmit(s, link, k).sent, s);
  }

  /** `Client::install`: send a heartbeat, wait up to 1 s for the next
      queued message and forward it, until the queue is closed. */
  method InstallCycle(queue: seq<ClientMsg>, delay: nat -> nat, link: Link, k: nat) returns (r: Delivery)
    ensures r == Transmit(CycleScript(queue, delay), link, k)
  {
    var i, waited := 0, 0;
    var sent: seq<Send> := [];
    while true
      invariant i <= |queue| && waited <= delay(i)
      invariant Transmit(CycleScript(queue, delay), link, k) ==
        Extend(sent, Transmit(Waits(queue, delay, i, waited), link, k + |sent|))
      decreases |queue| - i, delay(i) - waited
    {
      if !link.Delivers(k + |sent|) {
        BeatRefused(queue, delay, i, waited, link, k, sent);
        return Delivery(Some(Panicked), sent);
      }
      BeatSent(queue, delay, i, waited, link, k, sent);
      sent := sent + [Beat];
      if waited < delay(i) {
        // the 1 s wait timed out: send the next heartbeat
        waited := waited + 1;
        continue;
      }
      if i == |queue| {
        // the queue is closed: the installer is done
        QueueClosed(queue, delay, i, waited, link, k, sent);
        return Delivery(None, sent);
      }
      if !link.Delivers(k + |sent|) {
        ForwardRefused(queue, delay, i, waited, link, k, sent);
        return Delivery(Some(Failed(link.failure)), sent);
      }
      ForwardSent(queue, delay, i, waited, link, k, sent);
      sent := sent + [Reply(queue[i])];
      i, waited := i + 1, 0;
    }
  }

  // The steps of the cycle, each stated on the delivery still to come
  // after the sends already made.

  lemma BeatRefused(queue: seq<ClientMsg>, delay: nat -> nat, i: nat, waited: nat, link: Link, k: nat, sent: seq<Send>)
    requires i <= |queue| && waited <= delay(i) && !link.Delivers(k + |sent|)
    ensures Extend(sent, Transmit(Waits(queue, delay, i, waited), link, k + |sent|)) == Delivery(Some(Panicked), sent)
  {
    assert Waits(queue, delay, i, waited) == [Beat] + After(queue, delay, i, waited);
    TransmitCons(Beat, After(queue, delay, i, waited), link, k + |sent|);
    assert sent + [] == sent;
  }

  lemma BeatSent(queue: seq<ClientMsg>, delay: nat -> nat, i: nat, waited: nat, link: Link, k: nat, sent: seq<Send>)
    requires i <= |queue| && waited <= delay(i) && link.Delivers(k + |sent|)
    ensures Extend(sent, Transmit(Waits(queue, delay, i, waited), link, k + |sent|))
      == Extend(sent + [Beat], Transmit(After(queue, delay, i, waited), link, k + |sent + [Beat]|))
  {
    assert Waits(queue, delay, i, waited) == [Beat] + After(queue, delay, i, waited);
    TransmitCons(Beat, After(queue, delay, i, waited), link, k + |sent|);
    ExtendTwice(sent, [Beat], Transmit(After(queue, delay, i, waited), link, k + |sent| + 1));
  }

  lemma QueueClosed(queue: seq<ClientMsg>, delay: nat -> nat, i: nat, waited: nat, link: Link, k: nat, sent: seq<Send>)
    requires i == |queue| && waited == delay(i)
    ensures Extend(sent, Transmit(After(queue, delay, i, waited), link, k + |sent|)) == Delivery(None, sent)
  {
    assert sent + [] == sent;
  }

  lemma ForwardRefused(queue: seq<ClientMsg>, delay: nat -> nat, i: nat, waited: nat, link: Link, k: nat, sent: seq<Send>)
    requires i < |queue| && waited == delay(i) && !link.Delivers(k + |sent|)
    ensures Extend(sent, Transmit(After(queue, delay, i, waited), link, k + |sent|)) == Delivery(Some(Failed(link.failure)), sent)
  {
    TransmitCons(Reply(queue[i]), Waits(queue, delay, i + 1, 0), link, k + |sent|);
    assert sent + [] == sent;
  }

  lemma ForwardSent(queue: seq<ClientMsg>, delay: nat -> nat, i: nat, waited: nat, link: Link, k: nat, sent: seq<Send>)
    requires i < |queue| && waited == delay(i) && link.Delivers(k + |sent|)
    ensures Extend(sent, Transmit(After(queue, delay, i, waited), link, k + |sent|))
      == Extend(sent + [Reply(queue[i])], Transmit(Waits(queue, delay, i + 1, 0), link, k + |sent + [Reply(queue[i])]|))
  {
    var next := Waits(queue, delay, i + 1, 0);
    TransmitCons(Reply(queue[i]), next, link, k + |sent|);
    ExtendTwice(sent, [Reply(queue[i])], Transmit(next, link, k + |sent| + 1));
  }

  // ---------------------------------------------------------------------
  // Client::serve

  /** What the installer meets for one request: the outcome of creating the
      libwdi device list, what the k-th driver installation reports, and
      how many 1 s waits time out before each queue event. */
  datatype Job = Job(listing: Result<seq<Device>, string>, install: nat -> WdiResult, delay: nat -> nat)

  /** Everything outside the worker: the outcomes of the connection
      attempts, of `LogReceiver::client_setup` for a window, the j-th
      installation request's job, and the link to the orchestrator. */
  datatype WorkerEnv = WorkerEnv(
    open: nat -> OpenOutcome,
    logSetup: int -> Result<(), IoError>,
    jobs: nat -> Job,
    link: Link)

  /** The sends answering one installation request. */
  function Answer(devices: seq<Device>, job: Job): seq<Send> {
    var queue := SyncQueue(devices, job.listing, job.install);
    [Reply(InstallStarted)] + CycleScript(queue, job.delay) + [Reply(InstallDone)]
  }

  /** Why the dispatch loop stops when no send fails: Exit, an error, or
      none yet (the messages ran out and it is still receiving). */
  datatype Stop = OnExit | OnError(error: IoError) | StillReceiving

  /** The sends of the dispatch loop, if all of them go out, and why it
      stops; `j` installation requests were answered before. */
  datatype Plan = Plan(script: seq<Send>, stop: Stop)

  function Planned(incoming: seq<Recv<ServerMsg>>, env: WorkerEnv, j: nat): Plan
    decreases |incoming|
  {
    if incoming == [] then Plan([], StillReceiving)
    else
      match incoming[0]
      case Closed => Planned(incoming[1..], env, j)
      case Broken(e) => Plan([], OnError(e))
      case Msg(m) =>
        match m
        case Exit => Plan([], OnExit)
        case Logging(w) =>
          if env.logSetup(w).Err? then Plan([], OnError(env.logSetup(w).error))
          else Planned(incoming[1..], env, j)
        case Install(_, devices) =>
          var p := Planned(incoming[1..], env, j + 1);
          Plan(Answer(devices, env.jobs(j)) + p.script, p.stop)
  }

  /** How `serve` ends: Ok on Exit, a fault, or still in its loop. */
  datatype ServeEnd = Exited | Faulted(fault: Fault) | Listening

  datatype ServeReport = ServeReport(end: ServeEnd, sent: seq<Send>)

  /** The dispatch loop over `incoming`, its first send numbered `k`: the
      planned sends go out up to the first one the link refuses. */
  function Serving(incoming: seq<Recv<ServerMsg>>, env: WorkerEnv, j: nat, k: nat): ServeReport {
    var p := Planned(incoming, env, j);
    var t := Transmit(p.script, env.link, k);
    match t.fault
    case Some(f) => ServeReport(Faulted(f), t.sent)
    case None =>
      match p.stop
      case OnExit => ServeReport(Exited, t.sent)
      case OnError(e) => ServeReport(Faulted(Failed(e)), t.sent)
      case StillReceiving => ServeReport(Listening, t.sent)
  }

  /** What `serve` sends is a prefix of its plan; it returns Ok exactly
      when the plan stops at Exit and every planned send went out, and it
      is still receiving exactly when the messages ran out and every
      planned send went out; it panics only on a refused heartbeat. */
  lemma ServeFacts(incoming: seq<Recv<ServerMsg>>, env: WorkerEnv, j: nat, k: nat)
    ensures var p := Planned(incoming, env, j);
      var r := Serving(incoming, env, j, k);
      && r.sent == p.script[..|r.sent|]
      && (r.end == Exited <==> p.stop == OnExit && r.sent == p.script)
      && (r.end == Listening <==> p.stop == StillReceiving && r.sent == p.script)
      && (r.end == Faulted(Panicked) ==> |r.sent| < |p.script| && p.script[|r.sent|] == Beat)
  {
    var p := Planned(incoming, env, j);
    TransmitFacts(p.script, env.link, k);
  }

  function ExtendReport(prefix: seq<Send>, r: ServeReport): ServeReport {
    ServeReport(r.end, prefix + r.sent)
  }

  /** A closed stream, or a Logging message whose setup succeeds, is
      passed over. */
  lemma SkipStep(incoming: seq<Recv<ServerMsg>>, env: WorkerEnv, j: nat, k: nat)
    requires incoming != []
    requires incoming[0].Closed? ||
      (incoming[0].Msg? && incoming[0].msg.Logging? && env.logSetup(incoming[0].msg.window).Ok?)
    ensures Serving(incoming, env, j, k) == Serving(incoming[1..], env, j, k)
  {
  }

  /** What ends the loop without a send: Exit, a broken stream, a failed
      log setup. */
  function Halt(item: Recv<ServerMsg>, env: WorkerEnv): Option<ServeEnd> {
    match item
    case Closed => None
    case Broken(e) => Some(Faulted(Failed(e)))
    case Msg(m) =>
      match m
      case Exit => Some(Exited)
      case Logging(w) => if env.logSetup(w).Err? then Some(Faulted(Failed(env.logSetup(w).error))) else None
      case Install(_, _) => None
  }

  lemma HaltStep(incoming: seq<Recv<ServerMsg>>, env: WorkerEnv, j: nat, sent: seq<Send>, end: ServeEnd)
    requires incoming != [] && Halt(incoming[0], env) == Some(end)
    ensures ExtendReport(sent, Serving(incoming, env, j, |sent|)) == ServeReport(end, sent)
  {
    assert Serving(incoming, env, j, |sent|) == ServeReport(end, []);
    assert sent + [] == sent;
  }

  /** The loop step for an installation request, after the sends already
      made. */
  lemma RequestStep(incoming: seq<Recv<ServerMsg>>, env: WorkerEnv, j: nat, sent: seq<Send>, config: InstallConfig, devices: seq<Device>)
    requires incoming != [] && incoming[0] == Msg(Install(config, devices))
    ensures var a := Answer(devices, env.jobs(j));
      var t := Transmit(a, env.link, |sent|);
      ExtendReport(sent, Serving(incoming, env, j, |sent|)) ==
        if t.fault.None? then ExtendReport(sent + t.sent, Serving(incoming[1..], env, j + 1, |sent + t.sent|))
        else ServeReport(Faulted(t.fault.value), sent + t.sent)
  {
    var a := Answer(devices, env.jobs(j));
    InstallStep(incoming, env, j, |sent|, config, devices);
    TransmitFacts(a, env.link, |sent|);
    var rest := Serving(incoming[1..], env, j + 1, |sent| + |a|);
    assert sent + (a + rest.sent) == sent + a + rest.sent;
  }

  /** One installation request in the dispatch loop: its answer goes out,
      then the loop goes on with the next message. */
  lemma InstallStep(incoming: seq<Recv<ServerMsg>>, env: WorkerEnv, j: nat, k: nat, config: InstallConfig, devices: seq<Device>)
    requires incoming != [] && incoming[0] == Msg(Install(config, devices))
    ensures var a := Answer(devices, env.jobs(j));
      var t := Transmit(a, env.link, k);
      Serving(incoming, env, j, k) ==
        if t.fault.None? then ExtendReport(a, Serving(incoming[1..], env, j + 1, k + |a|))
        else ServeReport(Faulted(t.fault.value), t.sent)
  {
    var a := Answer(devices, env.jobs(j));
    var p := Planned(incoming[1..], env, j + 1);
    TransmitConcat(a, p.script, env.link, k);
  }

  /** The answer to one request, send by send: InstallStarted, the cycle,
      InstallDone. */
  lemma AnswerStep(devices: seq<Device>, job: Job, link: Link, k: nat)
    ensures var queue := SyncQueue(devices, job.listing, job.install);
      var c := Transmit(CycleScript(queue, job.delay), link, k + 1);
      Transmit(Answer(devices, job), link, k) ==
        if !link.Delivers(k) then Delivery(Some(Failed(link.failure)), [])
        else if c.fault.Some? then Delivery(c.fault, [Reply(InstallStarted)] + c.sent)
        else if !link.Delivers(k + 1 + |c.sent|) then Delivery(Some(Failed(link.failure)), [Reply(InstallStarted)] + c.sent)
        else Delivery(None, Answer(devices, job))
  {
    var queue := SyncQueue(devices, job.listing, job.install);
    var cycle := CycleScript(queue, job.delay);
    TransmitConcat([Reply(InstallStarted)] + cycle, [Reply(InstallDone)], link, k);
    TransmitConcat([Reply(InstallStarted)], cycle, link, k);
    TransmitSingle(Reply(InstallStarted), link, k);
    TransmitSingle(Reply(InstallDone), link, k + 1 + |cycle|);
    TransmitFacts(cycle, link, k + 1);
  }

  /** A worker that is told to exit right after one request, over a link
      that accepts everything, answers with InstallStarted, the cycle that
      forwards exactly what `install_sync` queued, then InstallDone, and
      returns Ok. */
  lemma OneRequest(config: InstallConfig, devices: seq<Device>, env: WorkerEnv)
    requires env.link.capacity.None?
    ensures var r := Serving([Msg(Install(config, devices)), Msg(Exit)], env, 0, 0);
      var job := env.jobs(0);
      var queue := SyncQueue(devices, job.listing, job.install);
      && r.end == Exited
      && r.sent == [Reply(InstallStarted)] + CycleScript(queue, job.delay) + [Reply(InstallDone)]
      && Forwarded(CycleScript(queue, job.delay)) == queue
  {
    var incoming := [Msg(Install(config, devices)), Msg(Exit)];
    var job := env.jobs(0);
    var queue := SyncQueue(devices, job.listing, job.install);
    var a := Answer(devices, job);
    assert incoming[1..] == [Msg(Exit)];
    assert Planned(incoming, env, 0) == Plan(a + [], OnExit);
    assert a + [] == a;
    TransmitFacts(a, env.link, 0);
    CycleForwardsQueue(queue, job.delay);
  }

  /** An Exit answers nothing and ends the loop with Ok. */
  lemma ExitAnswersNothing(incoming: seq<Recv<ServerMsg>>, env: WorkerEnv, j: nat, k: nat)
    requires incoming != [] && incoming[0] == Msg(Exit)
    ensures Serving(incoming, env, j, k) == ServeReport(Exited, [])
  {
  }

  // ---------------------------------------------------------------------
  // The Client object

  class Client {
    const pipeName: string
    var connectionTimeout: nat

    /** `Client::new`: the pipe name from the command line and a 10 s
        connection timeout. */
    constructor(pipeName: string)
      ensures this.pipeName == pipeName && connectionTimeout == CONNECTION_TIMEOUT_MS
    {
      this.pipeName := pipeName;
      connectionTimeout := CONNECTION_TIMEOUT_MS;
    }

    method SetConnectionTimeout(timeout: nat)
      modifies this`connectionTimeout
      ensures connectionTimeout == timeout
    {
      connectionTimeout := timeout;
    }

    /** `serve`: connect within the connection timeout, then dispatch each
        message of the orchestrator: Exit ends with Ok, Logging sets up the
        log relay, Install is answered; a closed stream is polled again and
        an error ends the loop. */
    method Serve(env: WorkerEnv, incoming: seq<Recv<ServerMsg>>)
      returns (connection: Result<Channel<ServerMsg, ClientMsg>, IoError>, report: ServeReport)
      ensures connection.Ok? ==> connection.value == Channel(pipeName, ClientEnd)
      ensures connection.Err? ==> report == ServeReport(Faulted(Failed(connection.error)), [])
      ensures connection.Ok? ==> report == Serving(incoming, env, 0, 0)
    {
      var attempts;
      connection, attempts := ClientConnect(pipeName, connectionTimeout, env.open);
      if connection.Err? {
        return connection, ServeReport(Faulted(Failed(connection.error)), []);
      }
      var i, j := 0, 0;
      var sent: seq<Send> := [];
      while i < |incoming|
        invariant i <= |incoming|
        invariant Serving(incoming, env, 0, 0) == ExtendReport(sent, Serving(incoming[i..], env, j, |sent|))
        decreases |incoming| - i
      {
        var rest := incoming[i..];
        assert rest[1..] == incoming[i + 1..];
        var item := incoming[i];
        i := i + 1;
        match item {
          case Closed =>
            SkipStep(rest, env, j, |sent|);
          case Broken(e) =>
            HaltStep(rest, env, j, sent, Faulted(Failed(e)));
            return connection, ServeReport(Faulted(Failed(e)), sent);
          case Msg(m) =>
            match m {
              case Exit =>
                HaltStep(rest, env, j, sent, Exited);
                return connection, ServeReport(Exited, sent);
              case Logging(w) =>
                var setup := env.logSetup(w);
                if setup.Err? {
                  HaltStep(rest, env, j, sent, Faulted(Failed(setup.error)));
                  return connection, ServeReport(Faulted(Failed(setup.error)), sent);
                }
                SkipStep(rest, env, j, |sent|);
              case Install(config, devices) =>
                var r := Answered(devices, env.jobs(j), env.link, |sent|);
                RequestStep(rest, env, j, sent, config, devices);
                if r.fault.Some? {
                  return connection, ServeReport(Faulted(r.fault.value), sent + r.sent);
                }
                sent := sent + r.sent;
                j := j + 1;
            }
        }
      }
      report := ServeReport(Listening, sent);
    }

    /** The handling of one Install request: InstallStarted, the install
        cycle over what `install_sync` queued, InstallDone. */
    static method Answered(devices: seq<Device>, job: Job, link: Link, k: nat) returns (r: Delivery)
      ensures r == Transmit(Answer(devices, job), link, k)
    {
      AnswerStep(devices, job, link, k);
      if !link.Delivers(k) {
        return Delivery(Some(Failed(link.failure)), []);
      }
      var queue := InstallSync(devices, job.listing, job.install);
      var c := InstallCycle(queue, job.delay, link, k + 1);
      TransmitFacts(CycleScript(queue, job.delay), link, k + 1);
      if c.fault.Some? {
        return Delivery(c.fault, [Reply(InstallStarted)] + c.sent);
      }
      if !link.Delivers(k + 1 + |c.sent|) {
        return Delivery(Some(Failed(link.failure)), [Reply(InstallStarted)] + c.sent);
      }
      r := Delivery(None, [Reply(InstallStarted)] + c.sent + [Reply(InstallDone)]);
    }
  }
}
