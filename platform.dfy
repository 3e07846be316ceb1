/** The pieces of the .NET runtime and of the Android platform that the
    renderer relies on, stated with the semantics those platforms give them. */
module Platform {

  datatype Option<+T> = None | Some(value: T)

  /** A value or a thrown exception's message. */
  datatype Result<+T> = Success(value: T) | Failure(message: string)

  /** A C# `int`. */
  type Int32 = x: int | -0x8000_0000 <= x < 0x8000_0000

  /** The result of an unchecked C# `int` operation whose exact value is `x`:
      two's-complement wrap-around modulo 2^32. */
  function Wrap32(x: int): (r: Int32)
    ensures (x - r) % 0x1_0000_0000 == 0
    ensures -0x8000_0000 <= x < 0x8000_0000 ==> r == x
  {
    var shifted := x + 0x8000_0000;
    var m := shifted % 0x1_0000_0000;
    assert shifted == (shifted / 0x1_0000_0000) * 0x1_0000_0000 + m;
    assert x - (m - 0x8000_0000) == (shifted / 0x1_0000_0000) * 0x1_0000_0000;
    m - 0x8000_0000
  }

  /** `char.IsWhiteSpace` of .NET: the Unicode space, line and paragraph
      separators, plus U+0009..U+000D and U+0085. */
  predicate IsWhiteSpace(c: char) {
    var u := c as int;
    || (0x09 <= u <= 0x0D)
    || u == 0x20 || u == 0x85 || u == 0xA0 || u == 0x1680
    || (0x2000 <= u <= 0x200A)
    || u == 0x2028 || u == 0x2029 || u == 0x202F || u == 0x205F || u == 0x3000
  }

  /** True when every character of `t` is white space (so also when `t` is empty). */
  function AllWhiteSpace(t: string): (r: bool)
    ensures r <==> forall i :: 0 <= i < |t| ==> IsWhiteSpace(t[i])
  {
    if t == [] then true
    else if !IsWhiteSpace(t[0]) then false
    else
      var rest := AllWhiteSpace(t[1..]);
      assert forall i :: 1 <= i < |t| ==> t[i] == t[1..][i - 1];
      rest
  }

  /** `string.IsNullOrWhiteSpace` of .NET; `None` stands for a null string. */
  function IsNullOrWhiteSpace(s: Option<string>): (r: bool)
    ensures r <==> s.None? || forall i :: 0 <= i < |s.value| ==> IsWhiteSpace(s.value[i])
    ensures s == Some("") ==> r
  {
    match s
    case None => true
    case Some(t) => AllWhiteSpace(t)
  }

  /** The number a string of decimal digits spells, most significant first. */
  function DecimalValue(t: string): nat
    requires forall i :: 0 <= i < |t| ==> '0' <= t[i] <= '9'
  {
    if t == [] then 0
    else DecimalValue(t[..|t| - 1]) * 10 + (t[|t| - 1] as int - '0' as int)
  }

  /** The decimal digits of `n`, most significant first. */
  function Digits(n: nat): (r: string)
    ensures |r| > 0
    ensures forall i :: 0 <= i < |r| ==> '0' <= r[i] <= '9'
    ensures n < 10 <==> |r| == 1
    ensures DecimalValue(r) == n
    // no leading zeros
    ensures r[0] == '0' ==> n == 0
  {
    var d := ['0' + (n % 10) as char];
    if n < 10 then
      assert d[..0] == [];
      d
    else
      var r := Digits(n / 10) + d;
      assert r[..|r| - 1] == Digits(n / 10);
      r
  }

  /** `Int32.ToString()` in the invariant culture: an optional minus sign and the decimal digits. */
  function IntText(n: Int32): (r: string)
    ensures |r| > 0
    ensures n >= 0 ==> r == Digits(n)
    ensures n < 0 ==> r == "-" + Digits(-(n as int))
  {
    if n < 0 then "-" + Digits(-(n as int)) else Digits(n)
  }

  /** The named members of Android's `MediaError` enumeration (the framework's
      MEDIA_ERROR_* codes). */
  function MediaErrorName(code: Int32): Option<string> {
    if code == 1 then Some("Unknown")
    else if code == 100 then Some("ServerDied")
    else if code == 200 then Some("NotValidForProgressivePlayback")
    else if code == -110 then Some("TimedOut")
    else if code == -1004 then Some("Io")
    else if code == -1007 then Some("Malformed")
    else if code == -1010 then Some("Unsupported")
    else None
  }

  /** `MediaError.ToString()`: the member's name, or the decimal value of a
      code that names no member. */
  function MediaErrorText(code: Int32): (r: string)
    ensures |r| > 0
    ensures MediaErrorName(code).Some? ==> r == MediaErrorName(code).value
    ensures MediaErrorName(code).None? ==> r == IntText(code)
  {
    match MediaErrorName(code)
    case Some(name) => name
    case None => IntText(code)
  }

  /** `MediaInfo.BufferingStart` (MEDIA_INFO_BUFFERING_START). */
  const BUFFERING_START: Int32 := 701

  /** A parsed `Android.Net.Uri`; only its text matters to the renderer. */
  datatype Uri = Uri(text: string)

  /** `Android.Net.Uri.Parse`: any function of the text, which may throw a
      Java exception (a `Failure` carrying its message). */
  type UriParser = string -> Result<Uri>

  /** The requested orientation of an activity (`ScreenOrientation`). */
  datatype ScreenOrientation = Unspecified | Portrait | Landscape

  /** The `SystemUiFlags` bits the renderer writes; `SystemUiFlags.Visible` is
      the empty set. */
  datatype SystemUiFlag = LayoutStable | LayoutFullscreen | Fullscreen | ImmersiveSticky

  /** The host activity as far as the renderer touches it: its requested
      orientation and its window's decor-view system-UI visibility. */
  datatype Activity = Activity(requestedOrientation: ScreenOrientation, systemUiVisibility: set<SystemUiFlag>)
}
