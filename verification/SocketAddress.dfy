/** Connection strings and socket addresses (`io/socket_address.cpp`).

    `inet_ntop` and `inet_pton` are parameters: a pair of inverse text forms. A string is
    a sequence of chars that may hold NULs; where the source goes through a C string, only
    what is before the first NUL counts. */
module SocketAddress {
  import opened IpcTypes

  type Port = p: int | 0 <= p < 0x1_0000

  type V4 = h: nat | h < 0x1_0000_0000
  type V6 = h: nat | h < 0x1_0000_0000_0000_0000_0000_0000_0000_0000

  /** `sunPath` is the part of `sun_path` that `addr_len_` covers. */
  datatype Address =
    | Inet4(host: V4, port: Port)
    | Inet6(host6: V6, port: Port)
    | Wildcard(port: Port)
    | Unix(sunPath: string)

  datatype ParseResult = Success(address: Address) | Failure(error: int)

  /** The platform's text forms of host addresses. */
  datatype Inet = Inet(
    ntop4: V4 -> string, pton4: string -> Option<V4>, ntop6: V6 -> string, pton6: string -> Option<V6>)

  const NUL: char := '\0'
  const SUN_PATH_SIZE: nat := 108
  const ULLONG_MAX: nat := 0xFFFF_FFFF_FFFF_FFFF

  // ---- Strings.

  /** The position of the first `c` from `i` on. */
  function FindFirst(s: string, c: char, i: nat): (r: Option<nat>)
    requires i <= |s|
    ensures r.Some? ==> i <= r.value < |s| && s[r.value] == c && forall k :: i <= k < r.value ==> s[k] != c
    ensures r.None? ==> forall k :: i <= k < |s| ==> s[k] != c
    decreases |s| - i
  {
    if i == |s| then None else if s[i] == c then Some(i) else FindFirst(s, c, i + 1)
  }

  function FindLast(s: string, c: char): (r: Option<nat>)
    ensures r.Some? ==> r.value < |s| && s[r.value] == c && forall k :: r.value < k < |s| ==> s[k] != c
    ensures r.None? ==> forall k :: 0 <= k < |s| ==> s[k] != c
  {
    if s == [] then None
    else if s[|s| - 1] == c then Some(|s| - 1)
    else FindLast(s[..|s| - 1], c)
  }

  function CStr(s: string): string {
    match FindFirst(s, NUL, 0)
    case None => s
    case Some(n) => s[..n]
  }

  // ---- `strtoull` with base 0.

  predicate IsSpace(c: char) {
    c == ' ' || '\t' <= c <= '\r'
  }

  function DigitOf(c: char): nat {
    if '0' <= c <= '9' then (c - '0') as nat
    else if 'a' <= c <= 'z' then (c - 'a') as nat + 10
    else if 'A' <= c <= 'Z' then (c - 'A') as nat + 10
    else 36
  }

  function SkipSpace(s: string, i: nat): (j: nat)
    requires i <= |s|
    ensures i <= j <= |s|
    decreases |s| - i
  {
    if i < |s| && IsSpace(s[i]) then SkipSpace(s, i + 1) else i
  }

  function DigitsEnd(s: string, i: nat, base: nat): (j: nat)
    requires i <= |s|
    ensures i <= j <= |s|
    decreases |s| - i
  {
    if i < |s| && DigitOf(s[i]) < base then DigitsEnd(s, i + 1, base) else i
  }

  function ValueOf(s: string, base: nat): nat {
    if s == [] then 0 else ValueOf(s[..|s| - 1], base) * base + DigitOf(s[|s| - 1])
  }

  /** The value and where the scan ended; a number too large is clamped, a minus sign
      negates in 64-bit arithmetic, and without any digit nothing is consumed. */
  function Strtoull(s: string): (nat, nat) {
    var start := SkipSpace(s, 0);
    var signed := start < |s| && (s[start] == '-' || s[start] == '+');
    var i := if signed then start + 1 else start;
    var hex := i + 2 < |s| && s[i] == '0' && (s[i + 1] == 'x' || s[i + 1] == 'X') && DigitOf(s[i + 2]) < 16;
    var base := if hex then 16 else if i < |s| && s[i] == '0' then 8 else 10;
    var first := if hex then i + 2 else i;
    var end := DigitsEnd(s, first, base);
    var value := ValueOf(s[first..end], base);
    if end == first then (0, 0)
    else if value > ULLONG_MAX then (ULLONG_MAX, end)
    else if signed && s[start] == '-' then (if value == 0 then 0 else ULLONG_MAX + 1 - value, end)
    else (value, end)
  }

  function ParsePort(part: string): Option<Port> {
    var text := CStr(part);
    var (value, end) := Strtoull(text);
    if end != |text| || value > 0xFFFF then None else Some(value)
  }

  // ---- Parsing.

  datatype Family = FamilyInet4 | FamilyInet6

  datatype HostAndPort = HostAndPort(family: Family, host: string, portPart: string)

  /** The bracket and colon classification; `None` where the source reports an error. */
  function ExtractParts(str: string): Option<HostAndPort> {
    if str != [] && str[0] == '[' then
      match FindLast(str, ']')
      case None => None
      case Some(end) =>
        if |str| <= end + 1 then Some(HostAndPort(FamilyInet6, str[1..end], []))
        else if str[end + 1] != ':' then None
        else Some(HostAndPort(FamilyInet6, str[1..end], str[end + 2..]))
    else
      match FindFirst(str, ':', 0)
      case None => Some(HostAndPort(FamilyInet4, str, []))
      case Some(colon) =>
        if FindFirst(str, ':', colon + 1).Some? then Some(HostAndPort(FamilyInet6, str, []))
        else Some(HostAndPort(FamilyInet4, str[..colon], str[colon + 1..]))
  }

  /** `extractFamilyHostAndPort`. */
  function ExtractFamilyHostAndPort(str: string, portHint: Port): Option<(Family, string, Port)> {
    match ExtractParts(str)
    case None => None
    case Some(parts) =>
      if parts.portPart == [] then Some((parts.family, parts.host, portHint))
      else
        match ParsePort(parts.portPart)
        case None => None
        case Some(port) => Some((parts.family, parts.host, port))
  }

  predicate Prefixed(s: string, prefix: string) {
    prefix <= s
  }

  function TryParseAsUnixDomain(s: string): Option<ParseResult> {
    if !Prefixed(s, "unix:") then None
    else
      var path := s[5..];
      if |path| + 1 > SUN_PATH_SIZE then Some(Failure(INVALID))
      else Some(Success(Unix(PathBytes(path))))
  }

  /** `strncpy` fills up with NULs. */
  function Nuls(n: nat): (s: string)
    ensures |s| == n && forall i :: 0 <= i < n ==> s[i] == NUL
  {
    if n == 0 then [] else [NUL] + Nuls(n - 1)
  }

  /** The bytes a path name leaves in the address. */
  function PathBytes(path: string): string {
    CStr(path) + Nuls(|path| + 1 - |CStr(path)|)
  }

  function TryParseAsAbstractUnixDomain(s: string): Option<ParseResult> {
    if !Prefixed(s, "unix-abstract:") then None
    else
      var path := s[14..];
      if |path| + 1 > SUN_PATH_SIZE - 1 then Some(Failure(INVALID))
      else Some(Success(Unix([NUL] + path)))
  }

  /** A host and a port that have been told apart. */
  function HostToAddress(inet: Inet, family: Family, host: string, port: Port): ParseResult {
    if host == "*" then Success(Wildcard(port))
    else if family.FamilyInet6? then
      match inet.pton6(CStr(host))
      case None => Failure(INVALID)
      case Some(h) => Success(Inet6(h, port))
    else
      match inet.pton4(CStr(host))
      case None => Failure(INVALID)
      case Some(h) => Success(Inet4(h, port))
  }

  function TryParseAsTcpAddress(inet: Inet, s: string, portHint: Port): Option<ParseResult> {
    if !Prefixed(s, "tcp://") then None
    else
      match ExtractFamilyHostAndPort(s[6..], portHint)
      case None => Some(Failure(INVALID))
      case Some((family, host, port)) => Some(HostToAddress(inet, family, host, port))
  }

  function Parse(inet: Inet, s: string, portHint: Port): ParseResult {
    match TryParseAsUnixDomain(s)
    case Some(result) => result
    case None =>
      match TryParseAsAbstractUnixDomain(s)
      case Some(result) => result
      case None =>
        match TryParseAsTcpAddress(inet, s, portHint)
        case Some(result) => result
        case None => Failure(INVALID)
  }

  // ---- Printing.

  function Digit(n: nat): char
    requires n < 10
  {
    '0' + n as char
  }

  function Decimal(n: nat): (s: string)
    ensures s != []
  {
    if n < 10 then [Digit(n)] else Decimal(n / 10) + [Digit(n % 10)]
  }

  function ToString(inet: Inet, a: Address): string {
    match a
    case Wildcard(port) => "*:" + Decimal(port)
    case Inet4(host, port) => inet.ntop4(host) + ":" + Decimal(port)
    case Inet6(host, port) => "[" + inet.ntop6(host) + "]:" + Decimal(port)
    case Unix(path) =>
      if path == [] then "unix:"
      else if path[0] == NUL then "unix-abstract:" + path[1..]
      else "unix:" + path
  }

  // ---- Print and parse.

  predicate HasNone(s: string, c: char) {
    forall k :: 0 <= k < |s| ==> s[k] != c
  }

  predicate TwoColons(s: string) {
    exists i, j :: 0 <= i < j < |s| && s[i] == ':' && s[j] == ':'
  }

  /** What is known of the platform's text forms: they are inverse, and made of digits,
      dots and, for IPv6, letters and at least two colons. */
  ghost predicate Inverse(inet: Inet) {
    && (forall h: V4 :: inet.pton4(inet.ntop4(h)) == Some(h) && PlainText(inet.ntop4(h)) && HasNone(inet.ntop4(h), ':'))
    && (forall h: V6 :: inet.pton6(inet.ntop6(h)) == Some(h) && PlainText(inet.ntop6(h)) && TwoColons(inet.ntop6(h)))
  }

  predicate PlainText(s: string) {
    s != [] && s != "*" && HasNone(s, NUL) && HasNone(s, '[') && HasNone(s, ']')
  }

  lemma CStrOf(s: string)
    requires HasNone(s, NUL)
    ensures CStr(s) == s
  {
  }

  predicate AllDigits(s: string) {
    forall k :: 0 <= k < |s| ==> '0' <= s[k] <= '9'
  }

  lemma {:induction false} DecimalDigits(n: nat)
    ensures AllDigits(Decimal(n)) && ValueOf(Decimal(n), 10) == n
    ensures n > 0 ==> Decimal(n)[0] != '0'
  {
    if n < 10 {
      assert [Digit(n)][..0] == [];
      assert ValueOf([Digit(n)], 10) == ValueOf([Digit(n)][..0], 10) * 10 + DigitOf(Digit(n));
    } else {
      DecimalDigits(n / 10);
      var s := Decimal(n);
      assert s[..|s| - 1] == Decimal(n / 10);
    }
  }

  lemma {:induction false} AllDigitsEnd(s: string, i: nat)
    requires i <= |s| && AllDigits(s)
    ensures DigitsEnd(s, i, 10) == |s|
    decreases |s| - i
  {
    if i < |s| { AllDigitsEnd(s, i + 1); }
  }

  /** Base 0 reads a printed number back: it never starts with a 0 unless it is 0. */
  lemma DecimalIsRead(n: nat)
    requires n <= ULLONG_MAX
    ensures Strtoull(Decimal(n)) == (n, |Decimal(n)|)
  {
    var s := Decimal(n);
    DecimalDigits(n);
    assert SkipSpace(s, 0) == 0;
    if n == 0 {
      assert s == "0";
      assert DigitsEnd(s, 0, 8) == 1;
      assert "0"[0..1] == "0" && "0"[..0] == [];
      assert ValueOf("0", 8) == ValueOf("0"[..0], 8) * 8 + 0;
    } else {
      AllDigitsEnd(s, 0);
      assert s[0..|s|] == s;
    }
  }

  lemma PortIsRead(port: Port)
    ensures ParsePort(Decimal(port)) == Some(port)
    ensures HasNone(Decimal(port), ':') && HasNone(Decimal(port), ']') && HasNone(Decimal(port), NUL)
  {
    DecimalDigits(port);
    DecimalIsRead(port);
    CStrOf(Decimal(port));
  }

  lemma NoColonParts(host: string, rest: string)
    requires host != [] && host[0] != '[' && HasNone(host, ':') && HasNone(rest, ':')
    ensures ExtractParts(host) == Some(HostAndPort(FamilyInet4, host, []))
    ensures ExtractParts(host + ":" + rest) == Some(HostAndPort(FamilyInet4, host, rest))
  {
    var s := host + ":" + rest;
    assert s[|host|] == ':';
    assert s[..|host|] == host && s[|host| + 1..] == rest;
    assert FindFirst(s, ':', 0) == Some(|host|);
    assert FindFirst(s, ':', |host| + 1).None? by {
      assert forall k :: |host| + 1 <= k < |s| ==> s[k] == rest[k - |host| - 1];
    }
  }

  lemma BracketParts(host: string, rest: string)
    requires HasNone(rest, ']')
    ensures ExtractParts("[" + host + "]:" + rest) == Some(HostAndPort(FamilyInet6, host, rest))
  {
    var s := "[" + host + "]:" + rest;
    var end := |host| + 1;
    assert s[end] == ']' && s[end + 1] == ':';
    assert forall k :: end + 2 <= k < |s| ==> s[k] == rest[k - end - 2];
    assert FindLast(s, ']') == Some(end);
    assert s[1..end] == host && s[end + 2..] == rest;
  }

  lemma ColonsParts(host: string)
    requires host != [] && host[0] != '[' && TwoColons(host)
    ensures ExtractParts(host) == Some(HostAndPort(FamilyInet6, host, []))
  {
    var i, j :| 0 <= i < j < |host| && host[i] == ':' && host[j] == ':';
    var first := FindFirst(host, ':', 0);
    assert first.Some? && first.value <= i;
  }

  /** A connection string with this prefix is none of the other kinds. */
  lemma TcpParses(inet: Inet, text: string, portHint: Port, parts: HostAndPort)
    requires ExtractParts(text) == Some(parts)
    ensures parts.portPart == [] ==>
              Parse(inet, "tcp://" + text, portHint) == HostToAddress(inet, parts.family, parts.host, portHint)
    ensures parts.portPart != [] && ParsePort(parts.portPart).Some? ==>
              Parse(inet, "tcp://" + text, portHint) ==
              HostToAddress(inet, parts.family, parts.host, ParsePort(parts.portPart).value)
  {
    hide ExtractParts, ParsePort, CStr;
    var s := "tcp://" + text;
    assert s[6..] == text;
    assert s[0] == 't';
  }

  lemma HostIsFound(inet: Inet, a: Address)
    requires Inverse(inet) && !a.Unix?
    ensures a.Inet4? ==> HostToAddress(inet, FamilyInet4, inet.ntop4(a.host), a.port) == Success(a)
    ensures a.Inet6? ==> HostToAddress(inet, FamilyInet6, inet.ntop6(a.host6), a.port) == Success(a)
  {
    if a.Inet4? { CStrOf(inet.ntop4(a.host)); }
    if a.Inet6? { CStrOf(inet.ntop6(a.host6)); }
  }

  /** Whatever is printed for an IPv4, IPv6 or wildcard address parses back to it, for
      every port and whatever the port hint. */
  lemma PrintThenParse(inet: Inet, a: Address, portHint: Port)
    requires Inverse(inet) && !a.Unix?
    ensures Parse(inet, "tcp://" + ToString(inet, a), portHint) == Success(a)
  {
    hide Parse, ExtractParts, ParsePort, Decimal, CStr;
    PortIsRead(a.port);
    HostIsFound(inet, a);
    var port := Decimal(a.port);
    match a
    case Wildcard(_) =>
      NoColonParts("*", port);
      TcpParses(inet, "*" + ":" + port, portHint, HostAndPort(FamilyInet4, "*", port));
      assert "*:" + port == "*" + ":" + port;
    case Inet4(host, _) =>
      NoColonParts(inet.ntop4(host), port);
      TcpParses(inet, inet.ntop4(host) + ":" + port, portHint, HostAndPort(FamilyInet4, inet.ntop4(host), port));
    case Inet6(host, _) =>
      BracketParts(inet.ntop6(host), port);
      TcpParses(inet, "[" + inet.ntop6(host) + "]:" + port, portHint, HostAndPort(FamilyInet6, inet.ntop6(host), port));
  }

  /** A host without a port takes the hint; two colons tell an IPv6 address from a port. */
  lemma BareHostTakesHint(inet: Inet, h: V4, h6: V6, portHint: Port)
    requires Inverse(inet)
    ensures Parse(inet, "tcp://" + inet.ntop4(h), portHint) == Success(Inet4(h, portHint))
    ensures Parse(inet, "tcp://" + inet.ntop6(h6), portHint) == Success(Inet6(h6, portHint))
  {
    hide Parse, ExtractParts, ParsePort, CStr;
    NoColonParts(inet.ntop4(h), []);
    TcpParses(inet, inet.ntop4(h), portHint, HostAndPort(FamilyInet4, inet.ntop4(h), []));
    HostIsFound(inet, Inet4(h, portHint));
    ColonsParts(inet.ntop6(h6));
    TcpParses(inet, inet.ntop6(h6), portHint, HostAndPort(FamilyInet6, inet.ntop6(h6), []));
    HostIsFound(inet, Inet6(h6, portHint));
  }

  /** An abstract name, with whatever NULs in it, is printed as it was given. */
  lemma AbstractNamePrintsBack(inet: Inet, path: string, portHint: Port)
    ensures var s := "unix-abstract:" + path;
            match Parse(inet, s, portHint)
            case Failure(_) => |path| + 1 > SUN_PATH_SIZE - 1
            case Success(a) => |path| + 1 <= SUN_PATH_SIZE - 1 && ToString(inet, a) == s
  {
    var s := "unix-abstract:" + path;
    assert s[4] == '-';
    assert s[14..] == path;
    assert ([NUL] + path)[1..] == path;
  }

  lemma UnixParses(inet: Inet, path: string, portHint: Port)
    requires |path| + 1 <= SUN_PATH_SIZE
    ensures Parse(inet, "unix:" + path, portHint) == Success(Unix(PathBytes(path)))
  {
    hide CStr, Nuls;
    assert ("unix:" + path)[5..] == path;
  }

  lemma PathBytesAre(path: string)
    ensures |PathBytes(path)| == |path| + 1
    ensures path == [] || path[0] == NUL ==> PathBytes(path) == [NUL] + Nuls(|path|)
    ensures path != [] && path[0] != NUL ==> PathBytes(path)[0] != NUL
    ensures HasNone(path, NUL) ==> PathBytes(path) == path + [NUL]
  {
    if path == [] || path[0] == NUL { assert CStr(path) == []; }
    if HasNone(path, NUL) { assert Nuls(1) == [NUL] + Nuls(0); }
  }

  /** How an address with these bytes prints. */
  lemma UnixPrints(inet: Inet, bytes: string)
    requires bytes != []
    ensures bytes[0] == NUL ==> ToString(inet, Unix(bytes)) == "unix-abstract:" + bytes[1..]
    ensures bytes[0] != NUL ==> ToString(inet, Unix(bytes)) == "unix:" + bytes
  {
  }

  lemma PrintedDiffers(path: string, rest: string, bytes: string)
    requires |bytes| == |path| + 1
    ensures "unix-abstract:" + rest != "unix:" + path
    ensures "unix:" + bytes != "unix:" + path
    ensures "unix:" + (path + [NUL]) == "unix:" + path + [NUL]
  {
    assert ("unix-abstract:" + rest)[4] == '-' && ("unix:" + path)[4] == ':';
    assert |"unix:" + bytes| == |"unix:" + path| + 1;
  }

  /** A path name is not: the terminating NUL is printed with it, and the empty path even
      comes out as an abstract name. */
  lemma PathNeverPrintsBack(inet: Inet, path: string, portHint: Port)
    requires |path| + 1 <= SUN_PATH_SIZE
    ensures Parse(inet, "unix:" + path, portHint).Success?
    ensures var a := Parse(inet, "unix:" + path, portHint).address;
            && ToString(inet, a) != "unix:" + path
            && (path != [] && HasNone(path, NUL) ==> ToString(inet, a) == "unix:" + path + [NUL])
            && (path == [] || path[0] == NUL ==> ToString(inet, a) == "unix-abstract:" + Nuls(|path|))
  {
    hide Parse, PathBytes, Nuls, CStr, ToString;
    UnixParses(inet, path, portHint);
    PathBytesAre(path);
    var bytes := PathBytes(path);
    UnixPrints(inet, bytes);
    PrintedDiffers(path, bytes[1..], bytes);
    if path == [] || path[0] == NUL { assert bytes[1..] == Nuls(|path|); }
  }
}
