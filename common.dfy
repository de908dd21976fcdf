/** Shared vocabulary: Rust's Option and Result, and the io::Error values the
    installer produces. */
module Common {

  datatype Option<T> = None | Some(value: T) {
    function GetOr(default: T): T {
      if Some? then value else default
    }
  }

  datatype Result<T, E> = Ok(value: T) | Err(error: E)

  /** The io::ErrorKind values that occur in the installer. */
  datatype ErrorKind = Other | TimedOut | NotFound

  /** An io::Error: a raw OS error code, a bare kind (what `ErrorKind::into()`
      builds), or a kind with a message (what `io::Error::new` builds). */
  datatype IoError = Os(code: int) | Simple(kind: ErrorKind) | Custom(kind: ErrorKind, message: string)

  /** tokio's `Elapsed` converted into an io::Error: a bare TimedOut kind. */
  const ELAPSED: IoError := Simple(TimedOut)

  function DigitChar(d: nat): (c: char)
    requires d < 10
    ensures '0' <= c <= '9' && c as int - '0' as int == d
  {
    ('0' as int + d) as char
  }

  /** The number a string of decimal digits denotes, read left to right. */
  function DigitsValue(s: string): int {
    if s == [] then 0 else DigitsValue(s[..|s| - 1]) * 10 + (s[|s| - 1] as int - '0' as int)
  }

  /** Decimal rendering of a number, as `format!("{}", n)` prints it: the
      digits of `n`, without leading zeros. */
  function NatToString(n: nat): (s: string)
    ensures |s| > 0
    ensures forall i :: 0 <= i < |s| ==> '0' <= s[i] <= '9'
    ensures DigitsValue(s) == n
    ensures |s| == 1 || s[0] != '0'
  {
    if n < 10 then [DigitChar(n)]
    else
      var p := NatToString(n / 10);
      var s := p + [DigitChar(n % 10)];
      assert s[..|s| - 1] == p;
      s
  }
}
