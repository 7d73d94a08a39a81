/** The listen setting (src/config.cpp): parsing MTDD_LISTEN, printing the target it denotes, and why one undoes the
    other. */
module ListenTarget {
  import opened Common
  import opened Decimal

  const LONG_MAX: int := 0x7FFF_FFFF_FFFF_FFFF
  const LONG_MIN: int := -0x8000_0000_0000_0000

  const INT_MIN: int := -0x8000_0000

  const UNIX_PREFIX := "unix:"
  const DEFAULT_PATH := "/run/mtdd/grpc.sock"

  datatype Mode = Unix | Tcp

  /** The fields of ServerConfig that the listen setting decides. */
  datatype Listen = Listen(mode: Mode, path: string, address: string, port: int)

  // ----- strtol in base 10 -----

  predicate IsSpace(c: char) {
    c == ' ' || '\t' <= c <= '\r'
  }

  function SkipSpaces(s: string, i: nat): (j: nat)
    requires i <= |s|
    ensures i <= j <= |s|
    decreases |s| - i
  {
    if i < |s| && IsSpace(s[i]) then SkipSpaces(s, i + 1) else i
  }

  function SkipDigits(s: string, i: nat): (j: nat)
    requires i <= |s|
    ensures i <= j <= |s| && AllDigits(s[i..j])
    ensures j < |s| ==> !IsDigit(s[j])
    decreases |s| - i
  {
    if i < |s| && IsDigit(s[i]) then SkipDigits(s, i + 1) else i
  }

  function ToLong(v: int): int {
    if v > LONG_MAX then LONG_MAX else if v < LONG_MIN then LONG_MIN else v
  }

  /** The value strtol returns and the index its end pointer points to. */
  datatype Number = Number(value: int, end: nat)

  function Strtol(s: string): (r: Number)
    ensures r.end <= |s|
  {
    var i := SkipSpaces(s, 0);
    var j := if i < |s| && (s[i] == '-' || s[i] == '+') then i + 1 else i;
    var k := SkipDigits(s, j);
    if k == j then Number(0, 0)
    else Number(ToLong(if s[i] == '-' then -(Value(s[j..k]) as int) else Value(s[j..k])), k)
  }

  /** The conversion of a long to a 32-bit int. */
  function ToInt(v: int): (r: int)
    ensures INT_MIN <= r <= INT_MAX
    ensures r > 0 <==> 0 < v % 0x1_0000_0000 <= INT_MAX
  {
    (v + 0x8000_0000) % 0x1_0000_0000 - 0x8000_0000
  }

  function ParsePositiveInt(name: string, s: string, default: int): Result<int, string> {
    if s == "" then Ok(default)
    else
      var n := Strtol(s);
      if n.end == 0 || n.end < |s| || n.value <= 0 then Err(name + " must be a positive integer") else Ok(ToInt(n.value))
  }

  // ----- Unix paths -----

  function WithoutSlashes(path: string): (r: string)
    ensures r == "" || r[0] != '/'
  {
    if path != "" && path[0] == '/' then WithoutSlashes(path[1..]) else path
  }

  /** One slash in place of all leading ones; other paths are refused. */
  function Normalized(path: string): Result<string, string> {
    if path == "" then Err("MTDD_LISTEN unix path must not be empty")
    else if path[0] != '/' then Err("MTDD_LISTEN unix path must be absolute")
    else Ok("/" + WithoutSlashes(path))
  }

  lemma {:induction false} SlashesGone(path: string)
    requires path != "" && path[0] == '/' && (|path| < 2 || path[1] != '/')
    ensures "/" + WithoutSlashes(path) == path
  {
    assert WithoutSlashes(path) == WithoutSlashes(path[1..]) == path[1..];
  }

  method NormalizeUnixPath(path: string) returns (r: Result<string, string>)
    ensures r == Normalized(path)
    ensures r.Ok? ==> Normalized(r.value) == r
  {
    if path == "" {
      return Err("MTDD_LISTEN unix path must not be empty");
    }
    var rest := path;
    while |rest| >= 2 && rest[0] == '/' && rest[1] == '/'
      invariant rest != "" && rest[0] == path[0]
      invariant WithoutSlashes(rest) == WithoutSlashes(path)
      decreases |rest|
    {
      rest := rest[1..];
    }
    if rest[0] != '/' {
      return Err("MTDD_LISTEN unix path must be absolute");
    }
    SlashesGone(rest);
    r := Ok(rest);
  }

  // ----- The setting -----

  function LastColon(s: string): (r: Option<nat>)
    ensures r.Some? ==> r.value < |s| && s[r.value] == ':' && ':' !in s[r.value + 1..]
    ensures r.None? ==> ':' !in s
  {
    if s == "" then None
    else if s[|s| - 1] == ':' then Some(|s| - 1)
    else
      var rest := LastColon(s[..|s| - 1]);
      assert s == s[..|s| - 1] + [s[|s| - 1]];
      assert rest.Some? ==> s[rest.value + 1..] == s[..|s| - 1][rest.value + 1..] + [s[|s| - 1]];
      rest
  }

  predicate IsUnix(s: string) {
    UNIX_PREFIX <= s
  }

  const PORT_NAME := "MTDD_LISTEN port"

  /** The configuration after a listen setting (`None` for an unset variable), or the message of the exception. */
  function Parsed(value: Option<string>, config: Listen): Result<Listen, string> {
    if value.None? || value.value == "" then Ok(config.(mode := Unix, path := DEFAULT_PATH))
    else if IsUnix(value.value) then
      match Normalized(value.value[|UNIX_PREFIX|..])
      case Ok(path) => Ok(config.(mode := Unix, path := path))
      case Err(error) => Err(error)
    else
      match LastColon(value.value)
      case None => Err("MTDD_LISTEN must be unix:/path or host:port")
      case Some(colon) =>
        match ParsePositiveInt(PORT_NAME, value.value[colon + 1..], config.port)
        case Ok(port) => Ok(config.(mode := Tcp, address := value.value[..colon], port := port))
        case Err(error) => Err(error)
  }

  class ServerConfig {
    var mode: Mode
    var path: string
    var address: string
    var port: int

    function View(): Listen
      reads this
    {
      Listen(mode, path, address, port)
    }

    constructor ()
      ensures View() == Listen(Unix, DEFAULT_PATH, "127.0.0.1", 50051)
    {
      mode, path, address, port := Unix, DEFAULT_PATH, "127.0.0.1", 50051;
    }
  }

  /** A setting that is refused may leave the mode and the address changed, but never the path or the port. */
  method ParseListen(value: Option<string>, config: ServerConfig) returns (error: Option<string>)
    modifies config
    ensures match Parsed(value, old(config.View()))
            case Ok(listen) => error.None? && config.View() == listen
            case Err(message) => error == Some(message) && config.path == old(config.path) && config.port == old(config.port)
  {
    if value.None? || value.value == "" {
      config.mode := Unix;
      config.path := DEFAULT_PATH;
      return None;
    }
    var listen := value.value;
    if UNIX_PREFIX <= listen {
      config.mode := Unix;
      var path := NormalizeUnixPath(listen[|UNIX_PREFIX|..]);
      if path.Err? {
        return Some(path.error);
      }
      config.path := path.value;
      return None;
    }
    var colon := LastColon(listen);
    if colon.None? {
      return Some("MTDD_LISTEN must be unix:/path or host:port");
    }
    config.mode := Tcp;
    config.address := listen[..colon.value];
    var port := ParsePositiveInt(PORT_NAME, listen[colon.value + 1..], config.port);
    if port.Err? {
      return Some(port.error);
    }
    config.port := port.value;
    return None;
  }

  function FormatInt(n: int): string {
    if n < 0 then "-" + ToString(-n) else ToString(n)
  }

  function FormatListenTarget(config: Listen): string {
    if config.mode == Unix then UNIX_PREFIX + config.path else config.address + ":" + FormatInt(config.port)
  }

  // ----- Printing and parsing numbers -----

  lemma {:induction false} SkipsAllDigits(s: string, i: nat)
    requires i <= |s| && AllDigits(s[i..])
    ensures SkipDigits(s, i) == |s|
    decreases |s| - i
  {
    if i < |s| {
      assert s[i] == s[i..][0];
      assert s[i + 1..] == s[i..][1..];
      SkipsAllDigits(s, i + 1);
    }
  }

  lemma StrtolPrinted(n: int)
    requires LONG_MIN <= n <= LONG_MAX
    ensures Strtol(FormatInt(n)) == Number(n, |FormatInt(n)|)
  {
    var s := FormatInt(n);
    var digits := ToString(if n < 0 then -n else n);
    var j := if n < 0 then 1 else 0;
    PrintParse(if n < 0 then -n else n);
    assert s[j..] == digits;
    SkipsAllDigits(s, j);
    assert IsDigit(digits[0]);
    assert s[j..|s|] == digits;
    hide ToString, Value;
  }

  /** A printed int is read back exactly when it is positive. */
  lemma PortRoundTrip(n: int, default: int)
    requires INT_MIN <= n <= INT_MAX
    ensures ParsePositiveInt(PORT_NAME, FormatInt(n), default) ==
              if n > 0 then Ok(n) else Err(PORT_NAME + " must be a positive integer")
  {
    StrtolPrinted(n);
    assert FormatInt(n) != "";
    ToIntSame(n);
    hide Strtol, FormatInt, ToInt;
  }

  lemma ToIntSame(n: int)
    requires INT_MIN <= n <= INT_MAX
    ensures ToInt(n) == n
  {
  }

  // ----- Which port texts are accepted -----

  /** The characters that C calls space. */
  predicate AllBlank(s: string) {
    forall i :: 0 <= i < |s| ==> s[i] in {' ', '\t', '\n', '\U{0B}', '\U{0C}', '\r'}
  }

  /** Spaces, perhaps a sign, and at least one digit. */
  predicate Numeral(blanks: string, sign: string, digits: string) {
    AllBlank(blanks) && sign in {"", "+", "-"} && digits != "" && AllDigits(digits)
  }

  predicate PositiveNumeral(s: string, blanks: string, sign: string, digits: string) {
    Numeral(blanks, sign, digits) && s == blanks + sign + digits && sign != "-" && Value(digits) > 0
  }

  lemma {:induction false} SkipsBlanks(blanks: string, rest: string, i: nat)
    requires AllBlank(blanks) && i <= |blanks| && (rest == "" || !IsSpace(rest[0]))
    ensures SkipSpaces(blanks + rest, i) == |blanks|
    decreases |blanks| - i
  {
    if i < |blanks| {
      SkipsBlanks(blanks, rest, i + 1);
    }
  }

  lemma {:induction false} BlanksSkipped(s: string, i: nat)
    requires i <= |s|
    ensures AllBlank(s[i..SkipSpaces(s, i)])
    ensures SkipSpaces(s, i) < |s| ==> !IsSpace(s[SkipSpaces(s, i)])
    decreases |s| - i
  {
    if i < |s| && IsSpace(s[i]) {
      BlanksSkipped(s, i + 1);
      var j := SkipSpaces(s, i + 1);
      assert s[i..j] == [s[i]] + s[i + 1..j];
    }
  }

  lemma NumeralParts(blanks: string, sign: string, digits: string)
    requires Numeral(blanks, sign, digits)
    ensures var text, i, j := blanks + sign + digits, |blanks|, |blanks| + |sign|;
            && SkipSpaces(text, 0) == i < |text| && SkipDigits(text, j) == |text| && text[j..|text|] == digits
            && (sign == "" ==> IsDigit(text[i])) && (sign != "" ==> text[i] == sign[0])
  {
    var text, rest, j := blanks + sign + digits, sign + digits, |blanks| + |sign|;
    assert text == blanks + rest;
    assert IsDigit(digits[0]);
    assert rest[0] == (if sign == "" then digits[0] else sign[0]);
    SkipsBlanks(blanks, rest, 0);
    assert text[|blanks|] == rest[0];
    assert text[j..] == digits && text[j..|text|] == digits;
    SkipsAllDigits(text, j);
    hide SkipSpaces, SkipDigits;
  }

  /** What a long holds of a number: values beyond 64 bits saturate. */
  function Saturated(negative: bool, v: nat): int {
    if negative then if v > 0x8000_0000_0000_0000 then -0x8000_0000_0000_0000 else -(v as int)
    else if v > 0x7FFF_FFFF_FFFF_FFFF then 0x7FFF_FFFF_FFFF_FFFF else v
  }

  /** A numeral is read to its end. */
  lemma ReadsNumeral(blanks: string, sign: string, digits: string)
    requires Numeral(blanks, sign, digits)
    ensures Strtol(blanks + sign + digits) == Number(Saturated(sign == "-", Value(digits)), |blanks + sign + digits|)
  {
    NumeralParts(blanks, sign, digits);
    hide SkipSpaces, SkipDigits, AllDigits, Value, Numeral;
  }

  lemma NumeralRead(s: string) returns (blanks: string, sign: string, digits: string)
    requires Strtol(s).end == |s| > 0
    ensures Numeral(blanks, sign, digits) && s == blanks + sign + digits
  {
    BlanksSkipped(s, 0);
    var i := SkipSpaces(s, 0);
    var j := if i < |s| && (s[i] == '-' || s[i] == '+') then i + 1 else i;
    blanks, sign, digits := s[..i], s[i..j], s[j..];
    assert SkipDigits(s, j) == |s|;
    hide Value, SkipDigits, SkipSpaces;
    assert s[0..i] == blanks;
    assert s[j..|s|] == digits;
    assert j == i + 1 ==> sign == [s[i]];
    assert s == blanks + sign + digits;
  }

  /** A non-empty port text is accepted exactly when it is a positive numeral. */
  lemma AcceptsIff(s: string, default: int)
    ensures s == "" ==> ParsePositiveInt(PORT_NAME, s, default) == Ok(default)
    ensures s != "" ==>
              (ParsePositiveInt(PORT_NAME, s, default).Ok? <==>
                exists blanks, sign, digits :: PositiveNumeral(s, blanks, sign, digits))
    ensures ParsePositiveInt(PORT_NAME, s, default).Err? ==>
              ParsePositiveInt(PORT_NAME, s, default).error == "MTDD_LISTEN port must be a positive integer"
  {
    hide Strtol, PositiveNumeral, ToInt;
    if s != "" && ParsePositiveInt(PORT_NAME, s, default).Ok? {
      var blanks, sign, digits := PositiveRead(s);
    }
    forall blanks, sign, digits | PositiveNumeral(s, blanks, sign, digits)
      ensures Strtol(s).end == |s| && Strtol(s).value > 0
    {
      ReadsPositive(s, blanks, sign, digits);
    }
  }

  lemma ReadsPositive(s: string, blanks: string, sign: string, digits: string)
    requires PositiveNumeral(s, blanks, sign, digits)
    ensures Strtol(s).end == |s| && Strtol(s).value > 0
  {
    hide Strtol, AllBlank, AllDigits, Value, Saturated;
    ReadsNumeral(blanks, sign, digits);
    SaturatedSign(false, Value(digits));
  }

  lemma PositiveRead(s: string) returns (blanks: string, sign: string, digits: string)
    requires Strtol(s).end == |s| > 0 && Strtol(s).value > 0
    ensures PositiveNumeral(s, blanks, sign, digits)
  {
    hide Strtol, AllBlank, AllDigits, Value, Saturated;
    blanks, sign, digits := NumeralRead(s);
    ReadsNumeral(blanks, sign, digits);
    SaturatedSign(sign == "-", Value(digits));
  }

  lemma SaturatedSign(negative: bool, v: nat)
    ensures Saturated(negative, v) > 0 <==> !negative && v > 0
  {
  }

  /** `r` is the 32-bit int that a positive long is stored as: its low bits, and itself if it fits. */
  predicate StoredAs(v: int, r: int) {
    -0x8000_0000 <= r <= 0x7FFF_FFFF && (v - r) % 0x1_0000_0000 == 0 && (0 <= v <= 0x7FFF_FFFF ==> r == v)
  }

  lemma KeepsLowBits(v: int)
    ensures StoredAs(v, ToInt(v))
  {
    var q := (v + 0x8000_0000) / 0x1_0000_0000;
    assert v - ToInt(v) == 0x1_0000_0000 * q;
  }

  /** What is stored for an accepted port: its value, cut to 64 bits by saturation and to 32 by dropping high bits. */
  lemma PortValue(s: string, blanks: string, sign: string, digits: string, default: int)
    requires PositiveNumeral(s, blanks, sign, digits)
    ensures var r := ParsePositiveInt(PORT_NAME, s, default);
            r.Ok? && StoredAs(if Value(digits) > 0x7FFF_FFFF_FFFF_FFFF then 0x7FFF_FFFF_FFFF_FFFF else Value(digits), r.value)
  {
    var v := Saturated(false, Value(digits));
    hide Strtol, AllBlank, AllDigits, Value, ToInt, StoredAs;
    ReadsNumeral(blanks, sign, digits);
    assert s != "" && Strtol(s) == Number(v, |s|) && v > 0;
    KeepsLowBits(v);
  }

  // ----- The forms of a setting -----

  /** A unix setting keeps what follows its leading slashes. */
  lemma {:induction false} UnixForm(slashes: string, rest: string, config: Listen)
    requires slashes != "" && (forall i :: 0 <= i < |slashes| ==> slashes[i] == '/') && (rest == "" || rest[0] != '/')
    ensures Parsed(Some("unix:" + slashes + rest), config) == Ok(config.(mode := Unix, path := "/" + rest))
  {
    var value := "unix:" + slashes + rest;
    assert value[|UNIX_PREFIX|..] == slashes + rest;
    assert (slashes + rest)[0] == '/';
    SlashesDropped(slashes, rest);
  }

  lemma {:induction false} SlashesDropped(slashes: string, rest: string)
    requires (forall i :: 0 <= i < |slashes| ==> slashes[i] == '/') && (rest == "" || rest[0] != '/')
    ensures WithoutSlashes(slashes + rest) == rest
  {
    if slashes == "" {
      assert slashes + rest == rest;
    } else {
      SlashesDropped(slashes[1..], rest);
      assert (slashes + rest)[1..] == slashes[1..] + rest;
    }
  }

  /** Without a setting, and without an absolute path or a port. */
  lemma OtherForms(s: string, config: Listen)
    ensures Parsed(None, config) == Parsed(Some(""), config) == Ok(config.(mode := Unix, path := "/run/mtdd/grpc.sock"))
    ensures Parsed(Some("unix:"), config) == Err("MTDD_LISTEN unix path must not be empty")
    ensures s != "" && s[0] != '/' ==> Parsed(Some("unix:" + s), config) == Err("MTDD_LISTEN unix path must be absolute")
    ensures s != "" && ':' !in s ==> Parsed(Some(s), config) == Err("MTDD_LISTEN must be unix:/path or host:port")
  {
    assert ("unix:" + s)[|UNIX_PREFIX|..] == s;
    assert "unix:"[|UNIX_PREFIX|..] == "";
    ColonNeeded(s);
    hide LastColon;
  }

  lemma ColonNeeded(s: string)
    ensures IsUnix(s) ==> ':' in s
    ensures LastColon(s).Some? ==> ':' in s
  {
    if IsUnix(s) {
      assert s[4] == ':';
    }
  }

  /** A TCP setting is split at its last colon. */
  lemma TcpForm(address: string, port: string, config: Listen)
    requires ':' !in port && !("unix:" <= address + ":" + port)
    ensures Parsed(Some(address + ":" + port), config)
         == match ParsePositiveInt(PORT_NAME, port, config.port)
            case Ok(n) => Ok(config.(mode := Tcp, address := address, port := n))
            case Err(error) => Err(error)
  {
    var value := address + ":" + port;
    LastColonAt(address, port);
    assert value[|address| + 1..] == port && value[..|address|] == address;
    hide LastColon, ParsePositiveInt;
  }

  // ----- The last colon -----

  lemma {:induction false} LastColonAt(a: string, b: string)
    requires ':' !in b
    ensures LastColon(a + ":" + b) == Some(|a|)
  {
    var s := a + ":" + b;
    if b != "" {
      LastColonAt(a, b[..|b| - 1]);
      assert s[..|s| - 1] == a + ":" + b[..|b| - 1];
      assert b[|b| - 1] in b;
    }
  }

  lemma FormatIntNoColon(n: int)
    ensures ':' !in FormatInt(n)
  {
    var digits := ToString(if n < 0 then -n else n);
    assert AllDigits(digits);
  }

  /** A target printed from an address that came before a colon of a non-unix setting is not a unix one. */
  lemma StaysTcp(s: string, colon: nat, rest: string)
    requires !IsUnix(s) && colon < |s| && s[colon] == ':'
    ensures !IsUnix(s[..colon] + ":" + rest)
  {
    var t := s[..colon] + ":" + rest;
    if colon < |UNIX_PREFIX| - 1 {
      assert t[colon] == ':' && UNIX_PREFIX[colon] != ':';
    } else {
      assert t[..|UNIX_PREFIX|] == s[..|UNIX_PREFIX|];
    }
  }

  // ----- The round trip -----

  /** What a listen target denotes: the path, or the address and the port. */
  predicate SameTarget(a: Listen, b: Listen) {
    a.mode == b.mode && if a.mode == Unix then a.path == b.path else a.address == b.address && a.port == b.port
  }

  ghost predicate RoundTrips(config: Listen, other: Listen) {
    var again := Parsed(Some(FormatListenTarget(config)), other);
    again.Ok? && SameTarget(again.value, config)
  }

  /** The port text of a TCP setting: what follows the last colon. */
  function PortText(s: string): string {
    var colon := LastColon(s);
    if colon.None? then "" else s[colon.value + 1..]
  }

  /** The port a setting asks for fits the 32-bit int it is stored in, up to a multiple of 2^32. */
  predicate PortFits(value: Option<string>) {
    value.None? || IsUnix(value.value) || PortText(value.value) == "" ||
    0 < Strtol(PortText(value.value)).value % 0x1_0000_0000 <= INT_MAX
  }

  lemma UnixRoundTrips(config: Listen, other: Listen)
    requires config.mode == Unix && Normalized(config.path) == Ok(config.path)
    ensures RoundTrips(config, other)
  {
    assert FormatListenTarget(config)[|UNIX_PREFIX|..] == config.path;
  }

  lemma NormalizedTwice(path: string)
    requires Normalized(path).Ok?
    ensures Normalized(Normalized(path).value) == Normalized(path)
  {
    SlashesGone(Normalized(path).value);
  }

  lemma TcpRoundTripsIff(s: string, colon: nat, port: int, config: Listen, other: Listen)
    requires !IsUnix(s) && colon < |s| && s[colon] == ':' && INT_MIN <= port <= INT_MAX
    requires config.mode == Tcp && config.address == s[..colon] && config.port == port
    ensures RoundTrips(config, other) <==> port > 0
  {
    var text := FormatInt(port);
    var t := s[..colon] + ":" + text;
    assert t == FormatListenTarget(config);
    FormatIntNoColon(port);
    LastColonAt(s[..colon], text);
    StaysTcp(s, colon, text);
    PortRoundTrip(port, other.port);
    assert t[colon + 1..] == text && t[..colon] == s[..colon];
    hide LastColon, ParsePositiveInt, FormatInt, FormatListenTarget, IsUnix;
  }

  lemma PortStored(text: string, default: int)
    requires 0 < default <= INT_MAX && ParsePositiveInt(PORT_NAME, text, default).Ok?
    ensures INT_MIN <= ParsePositiveInt(PORT_NAME, text, default).value <= INT_MAX
    ensures ParsePositiveInt(PORT_NAME, text, default).value > 0 <==>
              text == "" || 0 < Strtol(text).value % 0x1_0000_0000 <= INT_MAX
  {
    hide Strtol;
  }

  /** The round trip: for every setting that is accepted, parsing the printed target gives the same target back, whatever
      configuration it is parsed into, exactly when the port fits the int it is stored in. */
  lemma ListenRoundTripIff(value: Option<string>, before: Listen, other: Listen)
    requires Parsed(value, before).Ok? && 0 < before.port <= INT_MAX
    ensures RoundTrips(Parsed(value, before).value, other) <==> PortFits(value)
  {
    var config := Parsed(value, before).value;
    if value.None? || value.value == "" {
      assert Normalized(DEFAULT_PATH) == Ok(DEFAULT_PATH) by { SlashesGone(DEFAULT_PATH); }
      UnixRoundTrips(config, other);
    } else if IsUnix(value.value) {
      NormalizedTwice(value.value[|UNIX_PREFIX|..]);
      UnixRoundTrips(config, other);
    } else {
      hide RoundTrips, LastColon, ParsePositiveInt, Strtol, Normalized;
      var s := value.value;
      PortStored(PortText(s), before.port);
      TcpRoundTripsIff(s, LastColon(s).value, config.port, config, other);
    }
  }

  lemma MultipleWraps(k: nat)
    ensures ToInt(k * 0x1_0000_0000) == 0
  {
  }

  /** Settings that are accepted and do not come back: a port that is a multiple of 2^32 is stored as 0. */
  lemma WrappedPort(k: nat, before: Listen, other: Listen)
    requires 0 < k && k * 0x1_0000_0000 <= LONG_MAX && 0 < before.port <= INT_MAX
    ensures var config := Parsed(Some("localhost:" + FormatInt(k * 0x1_0000_0000)), before);
            config.Ok? && config.value.port == 0 && !RoundTrips(config.value, other)
  {
    var n: int := k * 0x1_0000_0000;
    var text := FormatInt(n);
    var s := "localhost:" + text;
    assert s == "localhost" + ":" + text && s[10..] == text && s[0] == 'l';
    FormatIntNoColon(n);
    LastColonAt("localhost", text);
    StrtolPrinted(n);
    MultipleWraps(k);
    hide LastColon, Strtol, RoundTrips, FormatInt, ToInt;
    ListenRoundTripIff(Some(s), before, other);
  }
}
