/** The installation protocol shared by both processes (src/lib.rs): the two
    message vocabularies, the progress events, the pipe naming rule and the
    choice of role from the process arguments. */
module Session {
  import opened WinUsb

  /** Messages the orchestrator sends to the worker. */
  datatype ServerMsg =
    | Install(config: InstallConfig, devices: seq<Device>)
    | Logging(window: int)
    | Exit

  /** Messages the worker sends to the orchestrator (`Heatbeat` in the
      source). */
  datatype ClientMsg =
    | DeviceInstall(device: Device, result: WdiResult)
    | Error(text: string)
    | InstallStarted
    | InstallDone
    | Heartbeat

  /** Events the orchestrator reports to its caller. */
  datatype Progress = Started | DeviceDone(device: Device, result: WdiResult)

  const PIPE_PREFIX: string := @"\\.\pipe\"
  const DEFAULT_PIPE_ID: string := "winusb-driver-installer"

  /** `pipe_name` asserts that the id does not already start with `\\.`. */
  predicate ValidPipeId(id: string) {
    !(@"\\." <= id)
  }

  /** The named-pipe path for a session id: the namespace prefix, exactly
      once, followed by the id unchanged. */
  function PipeName(id: string): (name: string)
    requires ValidPipeId(id)
    ensures PIPE_PREFIX <= name && name[|PIPE_PREFIX|..] == id
    ensures !(PIPE_PREFIX + PIPE_PREFIX <= name)
  {
    var name := PIPE_PREFIX + id;
    assert name[|PIPE_PREFIX|..] == id;
    name
  }

  lemma DefaultPipeIdIsValid()
    ensures ValidPipeId(DEFAULT_PIPE_ID)
    ensures PipeName(DEFAULT_PIPE_ID) == @"\\.\pipe\winusb-driver-installer"
  {
    assert DEFAULT_PIPE_ID[0] == 'w';
  }

  /** The role a process takes: the worker is started with the pipe name as
      its one argument; without an argument the process is the orchestrator. */
  datatype Mode = ServerMode | ClientMode(pipeName: string)

  /** `init`, given the process arguments (the program path first). */
  function Init(args: seq<string>): (m: Mode)
    ensures m.ClientMode? <==> |args| >= 2
    ensures m.ClientMode? ==> m.pipeName == args[1]
  {
    if |args| >= 2 then ClientMode(args[1]) else ServerMode
  }
}
