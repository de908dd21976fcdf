/** Device records and candidate selection of the libwdi wrapper
    (src/winusb.rs). The libwdi device list is an abstract sequence of device
    records; every libwdi call is an input to the model. */
module WinUsb {
  import opened Common

  newtype u8 = x: int | 0 <= x < 0x100
  newtype u16 = x: int | 0 <= x < 0x1_0000
  newtype NonZeroU8 = x: int | 1 <= x < 0x100 witness 1
  newtype NonZeroU64 = x: int | 1 <= x < 0x1_0000_0000_0000_0000 witness 1

  /** Owned description of one USB device, as libwdi reports it. */
  datatype Device = Device(
    vid: u16,
    pid: u16,
    isComposite: bool,
    mi: Option<NonZeroU8>,
    driverVersion: Option<NonZeroU64>,
    desc: string,
    driver: Option<string>,
    deviceId: Option<string>,
    hardwareId: Option<string>,
    compatibleId: Option<string>,
    upperFilter: Option<string>)

  /** What the generated driver package is built from. */
  datatype InstallConfig = InstallConfig(vendor: string, driverPath: string, infName: string)

  /** Outcome of one libwdi driver installation, with the error already
      rendered to text. */
  type WdiResult = Result<(), string>

  /** The derived `PartialEq`: two devices are equal exactly when all eleven
      fields are. */
  lemma DeviceEqualityIsFieldwise(a: Device, b: Device)
    ensures a == b <==>
      && a.vid == b.vid && a.pid == b.pid && a.isComposite == b.isComposite
      && a.mi == b.mi && a.driverVersion == b.driverVersion && a.desc == b.desc
      && a.driver == b.driver && a.deviceId == b.deviceId && a.hardwareId == b.hardwareId
      && a.compatibleId == b.compatibleId && a.upperFilter == b.upperFilter
  {
  }

  // ---------------------------------------------------------------------
  // has_winusb

  /** Lower-casing of one character, restricted to ASCII letters. */
  function AsciiLower(c: char): char {
    if 'A' <= c <= 'Z' then (c - 'A' + 'a') else c
  }

  /** ASCII lower-casing: no upper-case letter is left, each one becomes
      its lower-case counterpart, and every other character is kept. */
  function Lowercase(s: string): (r: string)
    ensures |r| == |s|
    ensures forall i :: 0 <= i < |r| ==> !('A' <= r[i] <= 'Z')
    ensures forall i :: 0 <= i < |s| && 'A' <= s[i] <= 'Z' ==> r[i] as int == s[i] as int + 32
    ensures forall i :: 0 <= i < |s| && !('A' <= s[i] <= 'Z') ==> r[i] == s[i]
  {
    seq(|s|, i requires 0 <= i < |s| => AsciiLower(s[i]))
  }

  /** Lower-casing twice is lower-casing once. */
  lemma LowercaseIdempotent(s: string)
    ensures Lowercase(Lowercase(s)) == Lowercase(s)
  {
    var r := Lowercase(s);
    assert forall i :: 0 <= i < |r| ==> Lowercase(r)[i] == r[i];
  }

  /** Case-insensitive equality, stated position by position. */
  predicate EqualIgnoringCase(a: string, b: string) {
    |a| == |b| && forall i :: 0 <= i < |a| ==> AsciiLower(a[i]) == AsciiLower(b[i])
  }

  /** Whether the device is already bound to the WinUSB driver. */
  function HasWinUsb(d: Device): (b: bool)
    ensures d.driver.None? ==> !b
    ensures b <==> d.driver.Some? && EqualIgnoringCase(d.driver.value, "winusb")
  {
    d.driver.Some? && Lowercase(d.driver.value) == "winusb"
  }

  // ---------------------------------------------------------------------
  // Candidate selection

  /** The devices of the list that the filter accepts, in list order
      (`candidates_ref` followed by the conversion of `candidates`). */
  function Candidates(list: seq<Device>, accept: Device -> bool): (r: seq<Device>)
    ensures |r| <= |list|
    ensures forall d :: d in r <==> d in list && accept(d)
  {
    if list == [] then []
    else (if accept(list[0]) then [list[0]] else []) + Candidates(list[1..], accept)
  }

  /** Filtering commutes with concatenation: together with the one-element
      case this pins the order of the candidates down to the list order. */
  lemma {:induction false} CandidatesConcat(a: seq<Device>, b: seq<Device>, accept: Device -> bool)
    ensures Candidates(a + b, accept) == Candidates(a, accept) + Candidates(b, accept)
  {
    if a == [] {
      assert a + b == b;
    } else {
      assert (a + b)[0] == a[0];
      assert (a + b)[1..] == a[1..] + b;
      CandidatesConcat(a[1..], b, accept);
    }
  }

  /** A filter that accepts everything keeps the list as it is. */
  lemma {:induction false} CandidatesAll(list: seq<Device>)
    ensures Candidates(list, _ => true) == list
  {
    if list != [] {
      CandidatesAll(list[1..]);
    }
  }

  /** The number of list positions the filter accepts. */
  function AcceptedCount(list: seq<Device>, accept: Device -> bool): nat {
    if list == [] then 0 else (if accept(list[0]) then 1 else 0) + AcceptedCount(list[1..], accept)
  }

  lemma {:induction false} CandidatesCount(list: seq<Device>, accept: Device -> bool)
    ensures |Candidates(list, accept)| == AcceptedCount(list, accept)
  {
    if list != [] {
      CandidatesCount(list[1..], accept);
    }
  }

  /** Whether any device of the list is a candidate. */
  function IsInstallNeeded(list: seq<Device>, accept: Device -> bool): (b: bool)
    ensures b <==> exists i :: 0 <= i < |list| && accept(list[i])
  {
    var c := Candidates(list, accept);
    if |c| > 0 then
      assert c[0] in c;
      true
    else
      assert forall i :: 0 <= i < |list| && accept(list[i]) ==> list[i] in c;
      false
  }

  /** One (device, installation result) pair per candidate, in candidate
      order; `install(k)` is what libwdi reports for the k-th installation. */
  function InstallIter(list: seq<Device>, accept: Device -> bool, install: nat -> WdiResult): (r: seq<(Device, WdiResult)>)
    ensures |r| == |Candidates(list, accept)|
    ensures forall i :: 0 <= i < |r| ==> r[i] == (Candidates(list, accept)[i], install(i))
  {
    var c := Candidates(list, accept);
    seq(|c|, i requires 0 <= i < |c| => (c[i], install(i)))
  }

  // ---------------------------------------------------------------------
  // LogReceiver::get

  const LOG_BUFFER_SIZE: nat := 8192

  /** `String::from_utf8_lossy`, restricted to ASCII: every byte below 0x80 is
      its character, every other byte the replacement character. */
  function LossyText(bytes: seq<u8>): (s: string)
    ensures |s| == |bytes|
  {
    seq(|bytes|, i requires 0 <= i < |bytes| => if bytes[i] < 0x80 then bytes[i] as int as char else '�')
  }

  /** One poll of the log receiver, given what `read_logger` reported and the
      buffer it filled: nothing pending, some text, or a read failure. */
  function LogGet(read: Result<nat, string>, buf: seq<u8>): (r: Result<Option<string>, IoError>)
    requires |buf| == LOG_BUFFER_SIZE
    requires read.Ok? ==> read.value <= |buf|
    ensures r.Err? <==> read.Err?
    ensures read.Err? ==> r.error == Custom(Other, read.error)
    ensures r == Ok(None) <==> read == Ok(0)
    ensures r.Ok? && r.value.Some? ==>
      read.Ok? && 0 < read.value && r.value.value == LossyText(buf[..read.value]) && |r.value.value| == read.value
  {
    match read
    case Ok(n) => if n == 0 then Ok(None) else Ok(Some(LossyText(buf[..n])))
    case Err(e) => Err(Custom(Other, e))
  }
}
