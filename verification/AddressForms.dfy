/** Which connection strings are accepted, and what they denote, said of the text alone:
    `SocketAddress.Parse` accepts exactly these (`io/socket_address.cpp`). */
module AddressForms {
  import opened IpcTypes
  import opened SocketAddress

  // ---- Numbers, as base 0 of `strtoull` takes them.

  predicate AllSpace(s: string) {
    forall k :: 0 <= k < |s| ==> IsSpace(s[k])
  }

  predicate AllBelow(s: string, base: nat) {
    forall k :: 0 <= k < |s| ==> DigitOf(s[k]) < base
  }

  /** The digits of a number: hexadecimal behind `0x`, octal from a leading 0, else decimal. */
  predicate Digits(prefix: string, digits: string) {
    && digits != [] && AllBelow(digits, BaseOf(prefix, digits))
    && (prefix == [] || prefix == "0x" || prefix == "0X")
  }

  function BaseOf(prefix: string, digits: string): nat {
    if prefix != [] then 16 else if digits != [] && digits[0] == '0' then 8 else 10
  }

  /** What a number comes to: too large is clamped, and a minus sign wraps around. */
  function Worth(sign: string, value: nat): nat {
    if value > ULLONG_MAX then ULLONG_MAX
    else if sign == "-" && value > 0 then ULLONG_MAX + 1 - value
    else value
  }

  predicate IsSign(sign: string) {
    sign == [] || sign == "+" || sign == "-"
  }

  predicate Spelled(text: string, spaces: string, sign: string, prefix: string, digits: string) {
    text == spaces + sign + prefix + digits && AllSpace(spaces) && IsSign(sign) && Digits(prefix, digits)
  }

  /** The whole text is a number, with nothing behind it. */
  ghost predicate IsNumber(text: string, value: nat) {
    exists spaces, sign, prefix, digits ::
      Spelled(text, spaces, sign, prefix, digits) && value == Worth(sign, ValueOf(digits, BaseOf(prefix, digits)))
  }

  lemma {:induction false} SpaceEnds(s: string, i: nat, n: nat)
    requires i <= n <= |s| && (forall k :: i <= k < n ==> IsSpace(s[k])) && (n < |s| ==> !IsSpace(s[n]))
    ensures SkipSpace(s, i) == n
    decreases n - i
  {
    if i < n { SpaceEnds(s, i + 1, n); }
  }

  lemma {:induction false} SpaceSkipped(s: string, i: nat)
    requires i <= |s|
    ensures var n := SkipSpace(s, i);
            (forall k :: i <= k < n ==> IsSpace(s[k])) && (n < |s| ==> !IsSpace(s[n]))
    decreases |s| - i
  {
    if i < |s| && IsSpace(s[i]) { SpaceSkipped(s, i + 1); }
  }

  lemma {:induction false} DigitsScanned(s: string, i: nat, base: nat)
    requires i <= |s|
    ensures var n := DigitsEnd(s, i, base);
            (forall k :: i <= k < n ==> DigitOf(s[k]) < base) && (n < |s| ==> DigitOf(s[n]) >= base)
    decreases |s| - i
  {
    if i < |s| && DigitOf(s[i]) < base { DigitsScanned(s, i + 1, base); }
  }

  lemma {:induction false} AllScanned(s: string, i: nat, base: nat)
    requires i <= |s| && forall k :: i <= k < |s| ==> DigitOf(s[k]) < base
    ensures DigitsEnd(s, i, base) == |s|
    decreases |s| - i
  {
    if i < |s| { AllScanned(s, i + 1, base); }
  }

  /** The parts of the scan: the sign, the prefix, and the base. */
  function SignEnd(text: string, start: nat): nat {
    if start < |text| && (text[start] == '-' || text[start] == '+') then start + 1 else start
  }

  predicate HexAt(text: string, i: nat) {
    i + 2 < |text| && text[i] == '0' && (text[i + 1] == 'x' || text[i + 1] == 'X') && DigitOf(text[i + 2]) < 16
  }

  function FirstAt(text: string, i: nat): nat {
    if HexAt(text, i) then i + 2 else i
  }

  function BaseAt(text: string, i: nat): nat {
    if HexAt(text, i) then 16 else if i < |text| && text[i] == '0' then 8 else 10
  }

  lemma ScanIs(text: string, start: nat, i: nat, first: nat, base: nat, end: nat)
    requires start == SkipSpace(text, 0) && i == SignEnd(text, start)
    requires first == FirstAt(text, i) <= |text| && base == BaseAt(text, i) && end == DigitsEnd(text, first, base)
    ensures Strtoull(text) ==
            if end == first then (0, 0) else (Worth(text[start..i], ValueOf(text[first..end], base)), end)
  {
    hide SkipSpace, DigitsEnd, ValueOf;
    if i > start { assert text[start..i] == [text[start]]; }
  }

  lemma PartsOf(text: string, spaces: string, sign: string, prefix: string, digits: string)
    requires text == spaces + sign + prefix + digits
    ensures var start, i := |spaces|, |spaces| + |sign|;
            var first := i + |prefix|;
            && text[..start] == spaces && text[start..i] == sign && text[i..first] == prefix && text[first..] == digits
            && text[start..] == sign + prefix + digits
  {
  }

  lemma SpacesOf(text: string, spaces: string, rest: string)
    requires text == spaces + rest && AllSpace(spaces) && rest != [] && !IsSpace(rest[0])
    ensures SkipSpace(text, 0) == |spaces|
  {
    assert text[|spaces|] == rest[0];
    assert forall k :: 0 <= k < |spaces| ==> text[k] == spaces[k];
    SpaceEnds(text, 0, |spaces|);
  }

  /** No sign and no digit is a space, and no digit is a sign. */
  lemma NumberBegins(sign: string, prefix: string, digits: string)
    requires IsSign(sign) && Digits(prefix, digits)
    ensures var rest := sign + prefix + digits;
            && rest != [] && !IsSpace(rest[0])
            && (sign == [] ==> rest[0] != '-' && rest[0] != '+')
  {
    assert DigitOf(digits[0]) < 16;
    var rest := sign + prefix + digits;
    assert rest[0] == if sign != [] then sign[0] else if prefix != [] then prefix[0] else digits[0];
  }

  lemma AllAre(text: string, first: nat, digits: string, base: nat)
    requires first <= |text| && text[first..] == digits && AllBelow(digits, base)
    ensures forall k :: first <= k < |text| ==> DigitOf(text[k]) < base
  {
    assert forall k :: first <= k < |text| ==> text[k] == digits[k - first];
  }

  lemma DigitsAt(text: string, i: nat, prefix: string, digits: string)
    requires i <= |text| && text[i..] == prefix + digits && Digits(prefix, digits)
    ensures FirstAt(text, i) == i + |prefix| && BaseAt(text, i) == BaseOf(prefix, digits)
    ensures DigitsEnd(text, i + |prefix|, BaseOf(prefix, digits)) == |text|
  {
    var first := i + |prefix|;
    assert text[first..] == digits;
    AllAre(text, first, digits, BaseOf(prefix, digits));
    AllScanned(text, first, BaseOf(prefix, digits));
    if prefix != [] {
      assert text[i] == (prefix + digits)[0] && text[i + 1] == (prefix + digits)[1];
      assert text[i + 2] == digits[0];
    } else {
      assert text[i] == digits[0];
      if i + 1 < |text| { assert DigitOf(text[i + 1]) < 16; }
    }
  }

  /** A number is scanned to its end, and comes to what it is worth. */
  lemma NumberIsScanned(text: string, spaces: string, sign: string, prefix: string, digits: string)
    requires Spelled(text, spaces, sign, prefix, digits)
    ensures Strtoull(text) == (Worth(sign, ValueOf(digits, BaseOf(prefix, digits))), |text|)
  {
    hide Strtoull, SkipSpace, DigitsEnd, ValueOf, Digits, FirstAt, BaseAt, BaseOf, IsSpace, AllSpace, Worth;
    PartsOf(text, spaces, sign, prefix, digits);
    NumberBegins(sign, prefix, digits);
    assert text == spaces + (sign + prefix + digits);
    SpacesOf(text, spaces, sign + prefix + digits);
    var start, i := |spaces|, |spaces| + |sign|;
    assert text[start] == (sign + prefix + digits)[0];
    assert i == SignEnd(text, start);
    assert text[i..] == prefix + digits;
    DigitsAt(text, i, prefix, digits);
    ScanIs(text, start, i, i + |prefix|, BaseOf(prefix, digits), |text|);
    assert text[i + |prefix|..|text|] == digits;
    NotEmpty(prefix, digits);
  }

  lemma NotEmpty(prefix: string, digits: string)
    requires Digits(prefix, digits)
    ensures digits != []
  {
  }

  lemma ScannedDigits(text: string, i: nat)
    requires i <= |text| && FirstAt(text, i) < |text|
    requires DigitsEnd(text, FirstAt(text, i), BaseAt(text, i)) == |text|
    ensures Digits(text[i..FirstAt(text, i)], text[FirstAt(text, i)..])
    ensures BaseOf(text[i..FirstAt(text, i)], text[FirstAt(text, i)..]) == BaseAt(text, i)
  {
    var first := FirstAt(text, i);
    DigitsScanned(text, first, BaseAt(text, i));
    var prefix, digits := text[i..first], text[first..];
    assert digits[0] == text[first];
    if HexAt(text, i) { assert prefix == [text[i], text[i + 1]]; }
  }

  lemma FourPieces(text: string, start: nat, i: nat, first: nat)
    requires start <= i <= first <= |text|
    ensures text == text[..start] + text[start..i] + text[i..first] + text[first..]
  {
  }

  lemma SpacesSkipped(text: string)
    ensures AllSpace(text[..SkipSpace(text, 0)])
  {
    SpaceSkipped(text, 0);
  }

  lemma SignScanned(text: string, start: nat)
    requires start <= |text|
    ensures start <= SignEnd(text, start) <= |text| && IsSign(text[start..SignEnd(text, start)])
  {
    if SignEnd(text, start) > start { assert text[start..start + 1] == [text[start]]; }
  }

  /** And what is scanned to its end is a number. */
  lemma ScannedIsNumber(text: string)
    requires text != [] && Strtoull(text).1 == |text|
    ensures IsNumber(text, Strtoull(text).0)
  {
    hide Strtoull, SkipSpace, DigitsEnd, ValueOf, Digits, BaseOf, IsSign, AllSpace, Worth, SignEnd;
    var start := SkipSpace(text, 0);
    SpacesSkipped(text);
    SignScanned(text, start);
    var i := SignEnd(text, start);
    var first := FirstAt(text, i);
    hide FirstAt, BaseAt;
    ScanIs(text, start, i, first, BaseAt(text, i), DigitsEnd(text, first, BaseAt(text, i)));
    ScannedDigits(text, i);
    FourPieces(text, start, i, first);
    assert Spelled(text, text[..start], text[start..i], text[i..first], text[first..]);
    assert text[first..|text|] == text[first..];
  }

  lemma NumberIff(text: string, value: nat)
    requires text != []
    ensures IsNumber(text, value) <==> Strtoull(text) == (value, |text|)
  {
    hide Strtoull;
    if IsNumber(text, value) {
      var spaces, sign, prefix, digits :|
        Spelled(text, spaces, sign, prefix, digits) && value == Worth(sign, ValueOf(digits, BaseOf(prefix, digits)));
      NumberIsScanned(text, spaces, sign, prefix, digits);
    }
    if Strtoull(text).1 == |text| { ScannedIsNumber(text); }
  }

  // ---- Hosts and ports.

  predicate Bracketed(text: string) {
    text != [] && text[0] == '['
  }

  /** How a text is a host and a port part: an IPv6 host in brackets, alone or with a colon and
      a port part behind; any other text with two colons is an IPv6 host alone, with one colon
      an IPv4 host and a port part, and with none an IPv4 host alone. */
  predicate Reads(text: string, parts: HostAndPort) {
    var host, part := parts.host, parts.portPart;
    if Bracketed(text) then
      && parts.family == FamilyInet6
      && ((text == "[" + host + "]" && part == []) || (text == "[" + host + "]:" + part && HasNone(part, ']')))
    else if TwoColons(text) then parts == HostAndPort(FamilyInet6, text, [])
    else if HasNone(text, ':') then parts == HostAndPort(FamilyInet4, text, [])
    else parts.family == FamilyInet4 && text == host + ":" + part && HasNone(host, ':') && HasNone(part, ':')
  }

  lemma BracketsRead(text: string, parts: HostAndPort)
    requires Bracketed(text)
    ensures ExtractParts(text) == Some(parts) <==> Reads(text, parts)
  {
    hide ExtractParts, Reads;
    if Reads(text, parts) { BracketsAre(text, parts); }
    if ExtractParts(text) == Some(parts) { BracketsExtracted(text, parts); }
  }

  lemma BracketsExtracted(text: string, parts: HostAndPort)
    requires Bracketed(text) && ExtractParts(text) == Some(parts)
    ensures Reads(text, parts)
  {
    var end := FindLast(text, ']').value;
    assert text == "[" + text[1..end] + "]" + text[end + 1..];
    if |text| > end + 1 { assert text[end + 1..] == ":" + text[end + 2..]; }
  }

  lemma BracketsAre(text: string, parts: HostAndPort)
    requires Bracketed(text) && Reads(text, parts)
    ensures ExtractParts(text) == Some(parts)
  {
    var end := |parts.host| + 1;
    if text == "[" + parts.host + "]" && parts.portPart == [] {
      assert text[end] == ']' && text[1..end] == parts.host;
      assert FindLast(text, ']') == Some(end);
    } else {
      BracketParts(parts.host, parts.portPart);
    }
  }

  lemma ColonsRead(text: string, parts: HostAndPort)
    requires !Bracketed(text)
    ensures ExtractParts(text) == Some(parts) <==> Reads(text, parts)
  {
    match FindFirst(text, ':', 0)
    case None =>
    case Some(colon) =>
      match FindFirst(text, ':', colon + 1)
      case Some(next) =>
        assert TwoColons(text);
      case None =>
        OneColon(text, colon);
        assert text == text[..colon] + ":" + text[colon + 1..];
        if Reads(text, parts) { ColonIsThere(text, parts.host, parts.portPart, colon); }
  }

  lemma OneColon(text: string, colon: nat)
    requires FindFirst(text, ':', 0) == Some(colon) && FindFirst(text, ':', colon + 1) == None
    ensures !TwoColons(text) && !HasNone(text, ':')
    ensures HasNone(text[..colon], ':') && HasNone(text[colon + 1..], ':')
  {
  }

  lemma ColonIsThere(text: string, host: string, part: string, colon: nat)
    requires text == host + ":" + part && HasNone(host, ':') && HasNone(part, ':')
    requires colon < |text| && text[colon] == ':'
    ensures colon == |host| && text[..colon] == host && text[colon + 1..] == part
  {
    assert forall k :: 0 <= k < |host| ==> text[k] == host[k] != ':';
    assert forall k :: |host| < k < |text| ==> text[k] == part[k - |host| - 1] != ':';
  }

  lemma PartsIff(text: string, parts: HostAndPort)
    ensures ExtractParts(text) == Some(parts) <==> Reads(text, parts)
  {
    hide ExtractParts, Reads;
    if Bracketed(text) { BracketsRead(text, parts); } else { ColonsRead(text, parts); }
  }

  /** A port part that is empty leaves the hint; any other is a number up to 65535 with nothing
      behind it, or nothing at all before a NUL. */
  ghost predicate PortIs(part: string, portHint: Port, port: Port) {
    if part == [] then port == portHint
    else if CStr(part) == [] then port == 0
    else IsNumber(CStr(part), port)
  }

  lemma PortIff(part: string, portHint: Port, port: Port)
    requires part != []
    ensures ParsePort(part) == Some(port) <==> PortIs(part, portHint, port)
  {
    hide CStr, IsNumber;
    if CStr(part) == [] {
      assert Strtoull([]) == (0, 0);
    } else {
      hide Strtoull;
      NumberIff(CStr(part), port);
    }
  }

  /** The host is the wildcard, or an address that the platform knows; it is what the address
      has, with the port. */
  predicate HostIs(inet: Inet, family: Family, host: string, port: Port, a: Address) {
    if host == "*" then a == Wildcard(port)
    else
      match family
      case FamilyInet4 => inet.pton4(CStr(host)).Some? && a == Inet4(inet.pton4(CStr(host)).value, port)
      case FamilyInet6 => inet.pton6(CStr(host)).Some? && a == Inet6(inet.pton6(CStr(host)).value, port)
  }

  // ---- Connection strings.

  ghost predicate TcpDenotes(inet: Inet, text: string, portHint: Port, a: Address) {
    exists parts, port ::
      Reads(text, parts) && PortIs(parts.portPart, portHint, port) && HostIs(inet, parts.family, parts.host, port, a)
  }

  /** The bytes of a path: as they are up to the first NUL, and NULs from there on, one more
      than the path is long. */
  predicate PathIs(path: string, bytes: string) {
    && |bytes| == |path| + 1
    && (forall k :: 0 <= k < |bytes| ==>
          bytes[k] == if k < |path| && HasNone(path[..k + 1], NUL) then path[k] else NUL)
  }

  ghost predicate Denotes(inet: Inet, s: string, portHint: Port, a: Address) {
    || (Prefixed(s, "unix:") && |s[5..]| < SUN_PATH_SIZE && a.Unix? && PathIs(s[5..], a.sunPath))
    || (Prefixed(s, "unix-abstract:") && |s[14..]| < SUN_PATH_SIZE - 1 && a == Unix([NUL] + s[14..]))
    || (Prefixed(s, "tcp://") && TcpDenotes(inet, s[6..], portHint, a))
  }

  lemma PathIff(path: string, bytes: string)
    ensures PathIs(path, bytes) <==> bytes == PathBytes(path)
  {
    var n := |CStr(path)|;
    assert CStr(path) == path[..n] && HasNone(path[..n], NUL) && (n < |path| ==> path[n] == NUL);
    forall k | 0 <= k <= |path|
      ensures PathBytes(path)[k] == if k < |path| && HasNone(path[..k + 1], NUL) then path[k] else NUL
    {
      if n <= k < |path| { assert path[..k + 1][n] == NUL; }
    }
  }

  lemma TcpIff(inet: Inet, text: string, portHint: Port, a: Address)
    ensures TcpDenotes(inet, text, portHint, a) <==>
            match ExtractFamilyHostAndPort(text, portHint)
            case None => false
            case Some((family, host, port)) => HostToAddress(inet, family, host, port) == Success(a)
  {
    hide ExtractParts, Reads, ParsePort, PortIs, CStr;
    if TcpDenotes(inet, text, portHint, a) {
      var parts, port :| Reads(text, parts) && PortIs(parts.portPart, portHint, port)
                         && HostIs(inet, parts.family, parts.host, port, a);
      PartsIff(text, parts);
      PortOrHint(parts.portPart, portHint, port);
    }
    match ExtractParts(text)
    case None =>
    case Some(parts) =>
      PartsIff(text, parts);
      if parts.portPart == [] {
        PortOrHint([], portHint, portHint);
      } else if ParsePort(parts.portPart).Some? {
        PortOrHint(parts.portPart, portHint, ParsePort(parts.portPart).value);
      }
  }

  lemma PortOrHint(part: string, portHint: Port, port: Port)
    ensures PortIs(part, portHint, port) <==> (if part == [] then port == portHint else ParsePort(part) == Some(port))
  {
    hide ParsePort;
    if part != [] { PortIff(part, portHint, port); }
  }

  /** A connection string is accepted if and only if it has one of the three forms, and then
      the address is what it denotes; any other is `EINVAL`. */
  lemma ParsesIff(inet: Inet, s: string, portHint: Port, a: Address)
    ensures Parse(inet, s, portHint) == Success(a) <==> Denotes(inet, s, portHint, a)
    ensures Parse(inet, s, portHint).Failure? ==> Parse(inet, s, portHint).error == INVALID
  {
    hide ExtractFamilyHostAndPort, CStr, TcpDenotes, PathIs, PathBytes;
    OnePrefix(s);
    if Prefixed(s, "unix:") {
      if a.Unix? { PathIff(s[5..], a.sunPath); }
    } else if Prefixed(s, "tcp://") {
      TcpIff(inet, s[6..], portHint, a);
    }
  }

  lemma OnePrefix(s: string)
    ensures Prefixed(s, "unix:") ==> !Prefixed(s, "unix-abstract:") && !Prefixed(s, "tcp://")
    ensures Prefixed(s, "unix-abstract:") ==> !Prefixed(s, "tcp://")
  {
    if Prefixed(s, "unix:") { assert s[4] == ':' && s[0] == 'u'; }
    if Prefixed(s, "unix-abstract:") { assert s[4] == '-' && s[0] == 'u'; }
    if Prefixed(s, "tcp://") { assert s[0] == 't'; }
  }
}
