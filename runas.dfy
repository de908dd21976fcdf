/** The elevated launcher (src/runas.rs): command-line building, the
    classification of what `ShellExecuteExW` reported, and the process handle
    of the spawned worker. The Windows calls themselves are inputs: their
    results arrive as parameters. */
module RunAs {
  import opened Common

  // ---------------------------------------------------------------------
  // Quoting of one argument

  /** How one character is written inside a quoted argument. */
  function EscapeChar(c: char): string {
    if c == '\\' then ['\\', '\\'] else if c == '"' then ['\\', '"'] else [c]
  }

  /** The body of a quoted argument: backslashes and quotes escaped, every
      other character copied. */
  function Escape(s: string): string {
    if s == [] then [] else EscapeChar(s[0]) + Escape(s[1..])
  }

  /** Escaping adds one character per backslash and per quote. */
  lemma {:induction false} EscapeLength(s: string)
    ensures |Escape(s)| == |s| + multiset(s)['\\'] + multiset(s)['"']
  {
    if s != [] {
      assert s == [s[0]] + s[1..];
      EscapeLength(s[1..]);
    }
  }

  lemma {:induction false} EscapeConcat(a: string, b: string)
    ensures Escape(a + b) == Escape(a) + Escape(b)
  {
    if a == [] {
      assert a + b == b;
    } else {
      assert (a + b)[0] == a[0];
      assert (a + b)[1..] == a[1..] + b;
      EscapeConcat(a[1..], b);
    }
  }

  /** The argument wrapped in quotes with its body escaped. */
  function Quoted(s: string): string {
    ['"'] + Escape(s) + ['"']
  }

  /** Reads the rest of a quoted argument up to its closing quote, undoing
      the escapes `\\` and `\"`; yields the argument and what follows the
      closing quote. */
  function ParseQuoted(s: string): (r: Option<(string, string)>)
    ensures r.Some? ==> |r.value.1| < |s|
  {
    if s == [] then None
    else if s[0] == '"' then Some(([], s[1..]))
    else if s[0] == '\\' then
      if |s| >= 2 && (s[1] == '\\' || s[1] == '"') then
        match ParseQuoted(s[2..])
        case None => None
        case Some(p) => Some(([s[1]] + p.0, p.1))
      else None
    else
      match ParseQuoted(s[1..])
      case None => None
      case Some(p) => Some(([s[0]] + p.0, p.1))
  }

  /** Undoing the quoting: strip the outer quotes and the escapes. */
  function Unquote(p: string): Option<string> {
    if p != [] && p[0] == '"' then
      match ParseQuoted(p[1..])
      case Some(r) => if r.1 == [] then Some(r.0) else None
      case None => None
    else None
  }

  /** One escaped character in front of the rest of a quoted argument is
      read back as that character. */
  lemma ParseQuotedChar(c: char, t: string)
    ensures ParseQuoted(EscapeChar(c) + t) ==
      match ParseQuoted(t)
      case None => None
      case Some(p) => Some(([c] + p.0, p.1))
  {
    var s := EscapeChar(c) + t;
    if c == '\\' || c == '"' {
      assert s[0] == '\\' && s[1] == c && s[2..] == t;
    } else {
      assert s[0] == c && s[1..] == t;
    }
  }

  lemma {:induction false} ParseQuotedEscaped(x: string, rest: string)
    ensures ParseQuoted(Escape(x) + ['"'] + rest) == Some((x, rest))
  {
    if x == [] {
      assert Escape(x) + ['"'] + rest == ['"'] + rest;
    } else {
      var t := Escape(x[1..]) + ['"'] + rest;
      ParseQuotedEscaped(x[1..], rest);
      assert Escape(x) + ['"'] + rest == EscapeChar(x[0]) + t;
      ParseQuotedChar(x[0], t);
      assert [x[0]] + x[1..] == x;
    }
  }

  lemma UnquoteQuoted(s: string)
    ensures Unquote(Quoted(s)) == Some(s)
  {
    ParseQuotedEscaped(s, []);
    assert Quoted(s)[1..] == Escape(s) + ['"'] + [];
  }

  // ---------------------------------------------------------------------
  // The parameter string

  /** An argument that `params` passes through unquoted: no space, tab or
      quote (backslashes, newlines and other characters are allowed). */
  predicate Plain(s: string) {
    forall i :: 0 <= i < |s| ==> s[i] != ' ' && s[i] != '\t' && s[i] != '"'
  }

  /** The command-line form of one argument. */
  function Encode(arg: string): (r: string)
    ensures arg == [] ==> r == ['"', '"']
    ensures arg != [] && Plain(arg) ==> r == arg
    ensures !Plain(arg) ==> r == Quoted(arg)
  {
    if arg == [] then ['"', '"']
    else if Plain(arg) then arg
    else Quoted(arg)
  }

  function EncodeAll(args: seq<string>): (r: seq<string>)
    ensures |r| == |args|
    ensures forall i :: 0 <= i < |args| ==> r[i] == Encode(args[i])
  {
    seq(|args|, i requires 0 <= i < |args| => Encode(args[i]))
  }

  /** `join(" ")`. */
  function Join(parts: seq<string>): string {
    if parts == [] then []
    else if |parts| == 1 then parts[0]
    else parts[0] + [' '] + Join(parts[1..])
  }

  /** Reads an unquoted argument: everything up to the next space. */
  function ParseBare(s: string): (r: (string, string))
    ensures |r.1| <= |s|
  {
    if s == [] || s[0] == ' ' then ([], s)
    else
      var p := ParseBare(s[1..]);
      ([s[0]] + p.0, p.1)
  }

  function ParseToken(s: string): (r: Option<(string, string)>)
    ensures r.Some? ==> |r.value.1| <= |s|
  {
    if s != [] && s[0] == '"' then ParseQuoted(s[1..]) else Some(ParseBare(s))
  }

  /** Splits a parameter string into arguments: tokens separated by single
      spaces, each either quoted (with `\\` and `\"` escapes) or bare. */
  function ParseArgs(s: string): (r: Option<seq<string>>)
    decreases |s|
  {
    match ParseToken(s)
    case None => None
    case Some(t) =>
      if t.1 == [] then Some([t.0])
      else if t.1[0] == ' ' then
        match ParseArgs(t.1[1..])
        case None => None
        case Some(more) => Some([t.0] + more)
      else None
  }

  /** The independent reading of a parameter string. */
  function ParseParams(s: string): Option<seq<string>> {
    if s == [] then Some([]) else ParseArgs(s)
  }

  lemma {:induction false} ParseBarePlain(x: string, rest: string)
    requires forall i :: 0 <= i < |x| ==> x[i] != ' '
    requires rest == [] || rest[0] == ' '
    ensures ParseBare(x + rest) == (x, rest)
  {
    if x == [] {
      assert x + rest == rest;
    } else {
      assert (x + rest)[1..] == x[1..] + rest;
      ParseBarePlain(x[1..], rest);
      assert [x[0]] + x[1..] == x;
    }
  }

  lemma EncodedToken(arg: string, rest: string)
    requires rest == [] || rest[0] == ' '
    ensures ParseToken(Encode(arg) + rest) == Some((arg, rest))
  {
    if arg == [] {
      QuotedToken(arg, rest);
    } else if Plain(arg) {
      BareToken(arg, rest);
    } else {
      QuotedToken(arg, rest);
    }
  }

  lemma QuotedToken(arg: string, rest: string)
    ensures ParseToken(Quoted(arg) + rest) == Some((arg, rest))
  {
    var s := Quoted(arg) + rest;
    assert s[0] == '"' && s[1..] == Escape(arg) + ['"'] + rest;
    ParseQuotedEscaped(arg, rest);
  }

  lemma BareToken(arg: string, rest: string)
    requires arg != [] && Plain(arg)
    requires rest == [] || rest[0] == ' '
    ensures ParseToken(arg + rest) == Some((arg, rest))
  {
    assert (arg + rest)[0] == arg[0] && arg[0] != '"';
    ParseBarePlain(arg, rest);
  }

  lemma {:induction false} ParseArgsJoin(args: seq<string>)
    requires args != []
    ensures ParseArgs(Join(EncodeAll(args))) == Some(args)
  {
    var e := EncodeAll(args);
    if |args| == 1 {
      EncodedToken(args[0], []);
      assert Join(e) == Encode(args[0]) + [];
      assert args == [args[0]];
    } else {
      var tail := Join(EncodeAll(args[1..]));
      assert e[1..] == EncodeAll(args[1..]);
      assert Join(e) == Encode(args[0]) + ([' '] + tail);
      EncodedToken(args[0], [' '] + tail);
      assert ([' '] + tail)[1..] == tail;
      ParseArgsJoin(args[1..]);
      assert [args[0]] + args[1..] == args;
    }
  }

  /** Parsing the joined encodings gives the arguments back, in order. */
  lemma ParamsRoundTrip(args: seq<string>)
    ensures ParseParams(Join(EncodeAll(args))) == Some(args)
  {
    if args != [] {
      ParseArgsJoin(args);
    }
  }

  // ---------------------------------------------------------------------
  // ShellExecuteExW outcome classification

  const SE_ERR_FNF: nat := 2
  const SE_ERR_PNF: nat := 3
  const SE_ERR_ACCESSDENIED: nat := 5
  const SE_ERR_OOM: nat := 8
  const SE_ERR_SHARE: nat := 26
  const SE_ERR_ASSOCINCOMPLETE: nat := 27
  const SE_ERR_DDETIMEOUT: nat := 28
  const SE_ERR_DDEFAIL: nat := 29
  const SE_ERR_DDEBUSY: nat := 30
  const SE_ERR_NOASSOC: nat := 31
  const SE_ERR_DLLNOTFOUND: nat := 32

  const SE_ERR_CODES: set<nat> := {
    SE_ERR_FNF, SE_ERR_PNF, SE_ERR_ACCESSDENIED, SE_ERR_OOM, SE_ERR_SHARE, SE_ERR_ASSOCINCOMPLETE,
    SE_ERR_DDETIMEOUT, SE_ERR_DDEFAIL, SE_ERR_DDEBUSY, SE_ERR_NOASSOC, SE_ERR_DLLNOTFOUND}

  const UNEXPECTED_SE_ERR: string := "Unexpected SE_ERR_* code: "

  /** The message for a ShellExecute error code. */
  function SeErrString(err: nat): (msg: string)
    ensures err !in SE_ERR_CODES ==> msg == UNEXPECTED_SE_ERR + NatToString(err)
    ensures |msg| > 0
    ensures err in SE_ERR_CODES ==> msg[0] != UNEXPECTED_SE_ERR[0]
  {
    if err == SE_ERR_FNF then "File not found."
    else if err == SE_ERR_PNF then "Path not found."
    else if err == SE_ERR_ACCESSDENIED then "Access denied."
    else if err == SE_ERR_OOM then "Out of memory."
    else if err == SE_ERR_DLLNOTFOUND then "Dynamic-link library not found."
    else if err == SE_ERR_SHARE then "Cannot share an open file."
    else if err == SE_ERR_ASSOCINCOMPLETE then "File association information not complete."
    else if err == SE_ERR_DDETIMEOUT then "DDE operation timed out."
    else if err == SE_ERR_DDEFAIL then "DDE operation failed."
    else if err == SE_ERR_DDEBUSY then "DDE operation is busy."
    else if err == SE_ERR_NOASSOC then "File association not available."
    else UNEXPECTED_SE_ERR + NatToString(err)
  }

  /** Each of the eleven codes has its own message. */
  lemma SeErrStringDistinct(a: nat, b: nat)
    requires a in SE_ERR_CODES && b in SE_ERR_CODES && a != b
    ensures SeErrString(a) != SeErrString(b)
  {
  }

  /** What `ShellExecuteExW` reported: its return value, `hInstApp` (an
      isize) and `hProcess`. */
  datatype ShellReport = ShellReport(succeeded: bool, hInstApp: int, hProcess: int)

  /** `as u32`: two's-complement truncation to 32 bits. */
  function AsU32(x: int): nat {
    x % 0x1_0000_0000
  }

  /** `HANDLE::is_invalid`: null or INVALID_HANDLE_VALUE. */
  predicate IsInvalidHandle(h: int) {
    h == 0 || h == -1
  }

  const SHELL_EXECUTE_FAILED: string := "ShellExecuteExW failed"
  const NO_PROCESS: string := "No process was spawned"

  /** The outcome `spawn` derives from the report: the process handle, or
      the error, checked in the order API failure, then an `hInstApp` of
      0..=31 read as an SE_ERR code, then an invalid process handle. */
  function SpawnResult(report: ShellReport): (r: Result<int, IoError>)
    ensures r.Ok? <==> report.succeeded && AsU32(report.hInstApp) > 31 && !IsInvalidHandle(report.hProcess)
    ensures r.Ok? ==> r.value == report.hProcess
    ensures !report.succeeded ==> r == Err(Custom(Other, SHELL_EXECUTE_FAILED))
    ensures report.succeeded && AsU32(report.hInstApp) <= 31 ==> r == Err(Custom(Other, SeErrString(AsU32(report.hInstApp))))
    ensures report.succeeded && AsU32(report.hInstApp) > 31 && IsInvalidHandle(report.hProcess) ==> r == Err(Custom(Other, NO_PROCESS))
  {
    if !report.succeeded then Err(Custom(Other, SHELL_EXECUTE_FAILED))
    else
      var code := AsU32(report.hInstApp);
      if code <= 31 then Err(Custom(Other, SeErrString(code)))
      else if IsInvalidHandle(report.hProcess) then Err(Custom(Other, NO_PROCESS))
      else Ok(report.hProcess)
  }

  /** SE_ERR_DLLNOTFOUND is 32, outside the 0..=31 range `spawn` reads as an
      error code: its message is never produced, and an `hInstApp` of 32
      with a valid process handle is a success. */
  lemma SpawnNeverReportsDllNotFound(report: ShellReport)
    ensures SpawnResult(report) != Err(Custom(Other, SeErrString(SE_ERR_DLLNOTFOUND)))
    ensures report.succeeded && report.hInstApp == SE_ERR_DLLNOTFOUND && !IsInvalidHandle(report.hProcess) ==>
      SpawnResult(report).Ok?
  {
    var dll := SeErrString(SE_ERR_DLLNOTFOUND);
    assert dll[0] == 'D';
    if report.succeeded && AsU32(report.hInstApp) <= 31 {
      var code := AsU32(report.hInstApp);
      if code !in SE_ERR_CODES {
        assert SeErrString(code)[0] == 'U';
      }
    }
  }

  // ---------------------------------------------------------------------
  // The command builder

  /** Builder for one elevated launch. */
  class Command {
    var executable: string
    var args: seq<string>
    var hidden: bool
    var cwd: Option<string>

    constructor (exe: string)
      ensures executable == exe && args == [] && hidden && cwd == None
    {
      executable := exe;
      args := [];
      hidden := true;
      cwd := None;
    }

    /** Whether the worker's window is hidden (SW_HIDE) or shown. */
    method Hide(h: bool)
      modifies this`hidden
      ensures hidden == h
    {
      hidden := h;
    }

    /** Replaces the whole argument list. */
    method Args(args: seq<string>)
      modifies this`args
      ensures this.args == args
    {
      this.args := args;
    }

    /** Appends one argument. */
    method Arg(arg: string)
      modifies this`args
      ensures args == old(args) + [arg]
    {
      args := args + [arg];
    }

    method CurrentDir(dir: string)
      modifies this`cwd
      ensures cwd == Some(dir)
    {
      cwd := Some(dir);
    }

    /** Quotes one argument, character by character. */
    static method QuoteParam(s: string) returns (param: string)
      ensures param == Quoted(s)
      ensures |param| == |s| + 2 + multiset(s)['\\'] + multiset(s)['"']
      ensures Unquote(param) == Some(s)
    {
      param := ['"'];
      for i := 0 to |s|
        invariant param == ['"'] + Escape(s[..i])
      {
        var c := s[i];
        if c == '\\' {
          param := param + ['\\', '\\'];
        } else if c == '"' {
          param := param + ['\\', '"'];
        } else {
          param := param + [c];
        }
        assert Escape([c]) == EscapeChar(c);
        EscapeConcat(s[..i], [c]);
        assert s[..i + 1] == s[..i] + [c];
      }
      param := param + ['"'];
      assert s[..|s|] == s;
      EscapeLength(s);
      UnquoteQuoted(s);
    }

    /** The parameter string handed to ShellExecuteExW: reading it back
      yields exactly the argument list. */
    function Params(): (p: string)
      reads this
      ensures ParseParams(p) == Some(args)
    {
      ParamsRoundTrip(args);
      Join(EncodeAll(args))
    }

    /** Launches the command elevated, given what the shell reported. */
    method Spawn(report: ShellReport) returns (r: Result<Child, IoError>)
      ensures r.Ok? <==> SpawnResult(report).Ok?
      ensures r.Err? ==> r.error == SpawnResult(report).error
      ensures r.Ok? ==> fresh(r.value) && r.value.open && !r.value.exited
      ensures r.Ok? ==> r.value.handle == report.hProcess && r.value.executable == executable
      ensures r.Ok? ==> r.value.params == Params() && r.value.hidden == hidden
    {
      var params := Params();
      match SpawnResult(report)
      case Err(e) =>
        r := Err(e);
      case Ok(h) =>
        var child := new Child(h, executable, params, hidden);
        r := Ok(child);
    }
  }

  // ---------------------------------------------------------------------
  // The spawned process

  const WAIT_OBJECT_0: nat := 0
  const WAIT_TIMEOUT: nat := 0x102

  const TERMINATE_FAILED: string := "Could not terminate process"

  /** Owner of the worker's process handle. `exited` says that a wait on the
      handle has seen the process signalled (it stays signalled from then
      on); `terminating` says that TerminateProcess accepted a request to end
      it, which takes effect asynchronously. */
  class Child {
    const handle: int
    const executable: string
    const params: string
    const hidden: bool
    var open: bool
    var exited: bool
    var terminating: bool

    constructor (handle: int, executable: string, params: string, hidden: bool)
      ensures this.handle == handle && this.executable == executable
      ensures this.params == params && this.hidden == hidden
      ensures open && !exited && !terminating
    {
      this.handle := handle;
      this.executable := executable;
      this.params := params;
      this.hidden := hidden;
      open := true;
      exited := false;
      terminating := false;
    }

    /** Reads what `WaitForSingleObject` returned. */
    function TryWaitRaw(status: nat): (r: Result<Option<()>, IoError>)
      ensures r == Ok(None) <==> status == WAIT_TIMEOUT
      ensures r == Ok(Some(())) <==> status == WAIT_OBJECT_0
      ensures r.Err? ==> r.error == Custom(Other, "error code " + NatToString(status))
    {
      if status == WAIT_TIMEOUT then Ok(None)
      else if status == WAIT_OBJECT_0 then Ok(Some(()))
      else Err(Custom(Other, "error code " + NatToString(status)))
    }

    /** Terminates the process unless a zero-timeout wait (reporting
      `status`) shows it already exited; `terminated` is what
      TerminateProcess reports. A process seen exited stays signalled, so
      `status` is WAIT_OBJECT_0 once `exited` holds; after a termination
      request alone the wait may still time out. The handle stays open. */
    method Kill(status: nat, terminated: bool) returns (r: Result<(), IoError>)
      requires open
      requires exited ==> status == WAIT_OBJECT_0
      modifies this`exited, this`terminating
      ensures open
      ensures old(exited) ==> r.Ok?
      ensures r.Ok? <==> status == WAIT_OBJECT_0 || terminated
      ensures r.Err? ==> r.error == Custom(Other, TERMINATE_FAILED)
      ensures exited <==> old(exited) || status == WAIT_OBJECT_0
      ensures terminating <==> old(terminating) || (status != WAIT_OBJECT_0 && terminated)
    {
      if TryWaitRaw(status) == Ok(Some(())) {
        exited := true;
        return Ok(());
      }
      if terminated {
        terminating := true;
        r := Ok(());
      } else {
        r := Err(Custom(Other, TERMINATE_FAILED));
      }
    }

    /** `Drop`: closes the handle, exactly once. */
    method Release()
      requires open
      modifies this`open
      ensures !open
    {
      open := false;
    }
  }
}
