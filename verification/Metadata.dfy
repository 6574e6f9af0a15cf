/** l4/metadata.go: the L4 metadata of an OPEN. Host and address texts are
    byte strings. The text form of IPv6 addresses (netip) is a parameter. */
module Metadata {
  import opened Bytes
  import opened HostNames

  const COLON: Byte := 58
  const PERCENT: Byte := 37
  const OPEN_BRACKET: Byte := 91
  const CLOSE_BRACKET: Byte := 93

  const CMD_CONNECT: Byte := 1
  const CMD_UDP: Byte := 0x11
  const ATYP_IPV4: Byte := 1
  const ATYP_DOMAIN: Byte := 3
  const ATYP_IPV6: Byte := 4
  const FIXED := 5
  const MAX_UDP := 65535

  datatype Option<T> = None | Some(value: T)

  // ---- decimal numbers ----

  function Dec(n: nat): (s: seq<Byte>)
    ensures |s| > 0
  {
    if n < 10 then [48 + n] else Dec(n / 10) + [48 + n % 10]
  }

  function Val(s: seq<Byte>): nat
    requires AllDigits(s)
  {
    if s == [] then 0
    else
      var d: int := s[|s| - 1];
      10 * Val(s[..|s| - 1]) + (d - 48)
  }

  lemma {:induction false} DecVal(n: nat)
    ensures AllDigits(Dec(n)) && Val(Dec(n)) == n
    ensures n > 0 ==> Dec(n)[0] != ZERO
    ensures n < 10 <==> |Dec(n)| == 1
    ensures n < 1000 ==> |Dec(n)| <= 3
  {
    if n >= 10 {
      DecVal(n / 10);
      assert Dec(n)[..|Dec(n)| - 1] == Dec(n / 10);
    } else {
      assert Dec(n)[..0] == [];
    }
  }

  /** ParseUint(s, 10, 16), and the source's refusal of 0. */
  function ParsePort(s: seq<Byte>): (r: Option<nat>)
    ensures r.Some? ==> 0 < r.value < 0x1_0000
  {
    if s == [] || !AllDigits(s) || Val(s) >= 0x1_0000 || Val(s) == 0 then None else Some(Val(s))
  }

  // ---- host:port ----

  function LastIndex(s: seq<Byte>, c: Byte): (i: int)
    ensures -1 <= i < |s| && (i >= 0 ==> s[i] == c) && forall j :: i < j < |s| ==> s[j] != c
  {
    if s == [] then -1 else if s[|s| - 1] == c then |s| - 1 else LastIndex(s[..|s| - 1], c)
  }

  /** net.SplitHostPort. */
  function SplitHostPort(s: seq<Byte>): Option<(seq<Byte>, seq<Byte>)> {
    var i := LastIndex(s, COLON);
    if i < 0 then None
    else if s[0] == OPEN_BRACKET then
      var end := FirstIndex(s, CLOSE_BRACKET);
      if end == |s| || end + 1 != i then None
      else if OPEN_BRACKET in s[1..] || CLOSE_BRACKET in s[end + 1..] then None
      else Some((s[1..end], s[i + 1..]))
    else if COLON in s[..i] || OPEN_BRACKET in s || CLOSE_BRACKET in s then None
    else Some((s[..i], s[i + 1..]))
  }

  /** No byte that SplitHostPort treats specially. */
  predicate PlainText(s: seq<Byte>) {
    COLON !in s && OPEN_BRACKET !in s && CLOSE_BRACKET !in s
  }

  lemma LastIndexIs(s: seq<Byte>, c: Byte, i: nat)
    requires i < |s| && s[i] == c && forall j :: i < j < |s| ==> s[j] != c
    ensures LastIndex(s, c) == i
  {
  }

  lemma DigitsPlain(s: seq<Byte>)
    requires AllDigits(s)
    ensures PlainText(s)
  {
  }

  lemma SplitPlain(host: seq<Byte>, port: seq<Byte>)
    requires PlainText(host) && PlainText(port)
    ensures SplitHostPort(host + [COLON] + port) == Some((host, port))
  {
    var s := host + [COLON] + port;
    LastIndexIs(s, COLON, |host|);
    assert s[..|host|] == host && s[|host| + 1..] == port;
    assert s[0] != OPEN_BRACKET;
    assert OPEN_BRACKET !in s && CLOSE_BRACKET !in s;
  }

  lemma SplitBracketed(host: seq<Byte>, port: seq<Byte>)
    requires OPEN_BRACKET !in host && CLOSE_BRACKET !in host && PlainText(port)
    ensures SplitHostPort([OPEN_BRACKET] + host + [CLOSE_BRACKET, COLON] + port) == Some((host, port))
  {
    var s := [OPEN_BRACKET] + host + [CLOSE_BRACKET, COLON] + port;
    var end := |host| + 1;
    LastIndexIs(s, COLON, end + 1);
    assert forall j :: 0 < j < end ==> s[j] == host[j - 1];
    FirstIndexIs(s, CLOSE_BRACKET, end);
    assert s[1..end] == host && s[end + 2..] == port;
    assert s[1..] == host + [CLOSE_BRACKET, COLON] + port;
    assert s[end + 1..] == [COLON] + port;
  }

  // ---- addresses ----

  /** A target host; v6 is not IPv4-mapped once unmapped. */
  datatype Addr = V4(b: seq<Byte>) | V6(b: seq<Byte>, zoned: bool)

  /** netip's text form of 16-byte addresses. */
  datatype Text6 = Text6(show: seq<Byte> -> seq<Byte>, read: seq<Byte> -> Option<Addr>)

  /** What netip documents of it: printing and parsing agree, and the text is hex digits, colons and dots, a colon first
      among the colons and dots. */
  ghost predicate Sound(t6: Text6) {
    && (forall b: seq<Byte> :: |b| == 16 ==> t6.read(t6.show(b)) == Some(V6(b, false)))
    && (forall b: seq<Byte> :: |b| == 16 ==> Colonic(t6.show(b)))
    && (forall s: seq<Byte> :: t6.read(s).Some? ==> t6.read(s).value.V6? && |t6.read(s).value.b| == 16)
  }

  predicate Colonic(s: seq<Byte>) {
    && (forall i :: 0 <= i < |s| ==> HexDigit(s[i]) || s[i] == COLON || s[i] == DOT)
    && COLON in s && FirstIndex(s, COLON) < FirstIndex(s, DOT)
  }

  predicate Octet(l: seq<Byte>) {
    1 <= |l| <= 3 && AllDigits(l) && (|l| > 1 ==> l[0] != ZERO) && Val(l) < 256
  }

  function Parse4(s: seq<Byte>): (r: Option<Addr>)
    ensures r.Some? ==> r.value.V4? && |r.value.b| == 4
  {
    var l := Labels(s);
    if |l| == 4 && Octet(l[0]) && Octet(l[1]) && Octet(l[2]) && Octet(l[3])
    then Some(V4([Val(l[0]), Val(l[1]), Val(l[2]), Val(l[3])])) else None
  }

  /** netip.ParseAddr: the first dot, colon or percent sign decides. */
  function ParseAddr(t6: Text6, s: seq<Byte>): Option<Addr> {
    var d, c, p := FirstIndex(s, DOT), FirstIndex(s, COLON), FirstIndex(s, PERCENT);
    if d < c && d < p then Parse4(s)
    else if c < d && c < p then t6.read(s)
    else None
  }

  function Print4(b: seq<Byte>): seq<Byte>
    requires |b| == 4
  {
    Dec(b[0]) + [DOT] + Dec(b[1]) + [DOT] + Dec(b[2]) + [DOT] + Dec(b[3])
  }

  predicate Mapped(b: seq<Byte>)
    requires |b| == 16
  {
    (forall i :: 0 <= i < 10 ==> b[i] == 0) && b[10] == 255 && b[11] == 255
  }

  function Unmap(a: Addr): Addr
    requires a.V6? ==> |a.b| == 16
  {
    if a.V6? && Mapped(a.b) then V4(a.b[12..]) else a
  }

  predicate Unspecified(b: seq<Byte>) { forall i :: 0 <= i < |b| ==> b[i] == 0 }

  /** checkIP: neither unspecified, nor multicast, nor the limited broadcast. */
  predicate TargetIP(a: Addr)
    requires if a.V4? then |a.b| == 4 else |a.b| == 16
  {
    && !Unspecified(a.b)
    && !(if a.V4? then 224 <= a.b[0] <= 239 else a.b[0] == 255)
    && !(a.V4? && a.b == [255, 255, 255, 255])
  }

  // ---- IPv4 text ----

  lemma LabelsCons(l: seq<Byte>, s: seq<Byte>)
    requires DOT !in l
    ensures Labels(l + [DOT] + s) == [l] + Labels(s)
  {
    var t := l + [DOT] + s;
    FirstIndexIs(t, DOT, |l|);
    assert t[..|l|] == l && t[|l| + 1..] == s;
  }

  lemma LabelsOne(l: seq<Byte>)
    requires DOT !in l
    ensures Labels(l) == [l]
  {
    FirstIndexIs(l, DOT, |l|);
  }

  lemma DecOctet(n: Byte)
    ensures Octet(Dec(n)) && Val(Dec(n)) == n && DOT !in Dec(n)
  {
    DecVal(n);
  }

  lemma Labels4(b: seq<Byte>)
    requires |b| == 4
    ensures Labels(Print4(b)) == [Dec(b[0]), Dec(b[1]), Dec(b[2]), Dec(b[3])]
  {
    hide Dec, Labels;
    forall i | 0 <= i < 4 ensures DOT !in Dec(b[i]) { DecOctet(b[i]); }
    var s3 := Dec(b[3]);
    var s2 := Dec(b[2]) + [DOT] + s3;
    var s1 := Dec(b[1]) + [DOT] + s2;
    LabelsOne(s3);
    LabelsCons(Dec(b[2]), s3);
    LabelsCons(Dec(b[1]), s2);
    LabelsCons(Dec(b[0]), s1);
    assert Print4(b) == Dec(b[0]) + [DOT] + s1;
  }

  lemma Print4Plain(b: seq<Byte>)
    requires |b| == 4
    ensures PlainText(Print4(b)) && PERCENT !in Print4(b) && DOT in Print4(b)
  {
    hide Dec;
    forall i | 0 <= i < 4 ensures AllDigits(Dec(b[i])) { DecVal(b[i]); }
    assert Print4(b)[|Dec(b[0])|] == DOT;
  }

  /** A printed IPv4 address parses to itself and is not a name. */
  lemma Parse4Print(t6: Text6, b: seq<Byte>)
    requires |b| == 4
    ensures ParseAddr(t6, Print4(b)) == Some(V4(b)) && !CanonicalName(Print4(b))
  {
    hide Dec, Labels, Print4;
    var s := Print4(b);
    Labels4(b);
    Print4Plain(b);
    forall i | 0 <= i < 4 ensures Octet(Dec(b[i])) && Val(Dec(b[i])) == b[i] { DecOctet(b[i]); }
    assert b == [b[0], b[1], b[2], b[3]];
    assert Parse4(s) == Some(V4(b));
    NotADotEnd(b);
    assert Last(Labels(Bare(s))) == Dec(b[3]);
  }

  lemma NotADotEnd(b: seq<Byte>)
    requires |b| == 4
    ensures Bare(Print4(b)) == Print4(b)
  {
    hide Dec;
    DecVal(b[3]);
    var s := Print4(b);
    assert s[|s| - 1] == Dec(b[3])[|Dec(b[3])| - 1];
  }

  /** A canonical name never parses as an IP address. */
  lemma NameIsNoAddress(t6: Text6, name: seq<Byte>)
    requires CanonicalName(name)
    ensures ParseAddr(t6, name) == None && PlainText(name)
  {
    hide Labels, CanonicalName;
    forall k | 0 <= k < |name|
      ensures name[k] != COLON && name[k] != PERCENT && name[k] != OPEN_BRACKET && name[k] != CLOSE_BRACKET
    {
      NameBytes(name, k);
    }
    assert FirstIndex(name, COLON) == |name|;
    NameIsNot4(name);
  }

  lemma NameIsNot4(name: seq<Byte>)
    requires CanonicalName(name)
    ensures Parse4(name) == None
  {
    if Bare(name) == name {
      assert !Numeric(Last(Labels(name)));
      assert |Labels(name)| == 4 ==> Last(Labels(name)) == Labels(name)[3];
    } else {
      DotEnd(name);
      assert |Labels(name)| == 4 ==> Last(Labels(name)) == Labels(name)[3];
    }
  }

  lemma {:induction false} DotEnd(s: seq<Byte>)
    requires |s| > 0 && s[|s| - 1] == DOT
    ensures Last(Labels(s)) == []
    decreases |s|
  {
    var i := FirstIndex(s, DOT);
    if i == |s| - 1 {
      assert s[i + 1..] == [];
    } else {
      DotEnd(s[i + 1..]);
      assert Last(Labels(s)) == Last(Labels(s[i + 1..]));
    }
  }

  // ---- the address of a request ----

  datatype Host = Name(name: seq<Byte>) | Ip(a: Addr)

  /** A host an encoding can carry. */
  predicate Encodable(h: Host) {
    match h
    case Name(n) => CanonicalName(n)
    case Ip(V4(b)) => |b| == 4 && TargetIP(V4(b))
    case Ip(V6(b, zoned)) => |b| == 16 && !zoned && !Mapped(b) && TargetIP(V6(b, zoned))
  }

  /** AppendMetadata's reading of r.Addr. */
  function Resolve(t6: Text6, addr: seq<Byte>): (r: Option<(Host, nat)>)
    requires Sound(t6)
    ensures r.Some? ==> Encodable(r.value.0) && 0 < r.value.1 < 0x1_0000
  {
    var split := SplitHostPort(addr);
    if split == None then None
    else
      var (host, portText) := split.value;
      var port := ParsePort(portText);
      var bracketed := addr != [] && addr[0] == OPEN_BRACKET;
      if port == None then None
      else if CanonicalName(host) && !bracketed then Some((Name(host), port.value))
      else
        var a := ParseAddr(t6, host);
        if a == None || (bracketed && !a.value.V6?) || (a.value.V6? && a.value.zoned) then None
        else
          var u := Unmap(a.value);
          if TargetIP(u) then Some((Ip(u), port.value)) else None
  }

  /** The text parseHeader gives a host and port. */
  function Render(t6: Text6, h: Host, port: nat): seq<Byte>
    requires Encodable(h)
  {
    (match h
     case Name(n) => n
     case Ip(V4(b)) => Print4(b)
     case Ip(V6(b, _)) => [OPEN_BRACKET] + t6.show(b) + [CLOSE_BRACKET])
    + [COLON] + Dec(port)
  }

  /** Reading a rendered address gives back the host and the port. */
  lemma ResolveRender(t6: Text6, h: Host, port: nat)
    requires Sound(t6) && Encodable(h) && 0 < port < 0x1_0000
    ensures Resolve(t6, Render(t6, h, port)) == Some((h, port))
  {
    DecVal(port);
    DigitsPlain(Dec(port));
    match h
    case Name(n) => ResolveName(t6, n, port);
    case Ip(V4(b)) => Resolve4(t6, b, port);
    case Ip(V6(b, zoned)) => Resolve6(t6, b, port);
  }

  lemma ResolveName(t6: Text6, n: seq<Byte>, port: nat)
    requires Sound(t6) && CanonicalName(n) && 0 < port < 0x1_0000
    ensures Resolve(t6, Render(t6, Name(n), port)) == Some((Name(n), port))
  {
    hide CanonicalName, Dec, SplitHostPort;
    DecVal(port);
    DigitsPlain(Dec(port));
    NameIsNoAddress(t6, n);
    SplitPlain(n, Dec(port));
    NameNotEmpty(n);
    var addr := Render(t6, Name(n), port);
    assert addr[0] == n[0];
  }

  lemma NameNotEmpty(n: seq<Byte>)
    requires CanonicalName(n)
    ensures n != []
  {
  }

  lemma Resolve4(t6: Text6, b: seq<Byte>, port: nat)
    requires Sound(t6) && Encodable(Ip(V4(b))) && 0 < port < 0x1_0000
    ensures Resolve(t6, Render(t6, Ip(V4(b)), port)) == Some((Ip(V4(b)), port))
  {
    hide CanonicalName, Dec, SplitHostPort, ParseAddr, Print4;
    DecVal(port);
    DigitsPlain(Dec(port));
    Parse4Print(t6, b);
    Print4Plain(b);
    SplitPlain(Print4(b), Dec(port));
    var addr := Render(t6, Ip(V4(b)), port);
    assert addr[0] == Print4(b)[0];
  }

  lemma Resolve6(t6: Text6, b: seq<Byte>, port: nat)
    requires Sound(t6) && Encodable(Ip(V6(b, false))) && 0 < port < 0x1_0000
    ensures Resolve(t6, Render(t6, Ip(V6(b, false)), port)) == Some((Ip(V6(b, false)), port))
  {
    hide CanonicalName, Dec, SplitHostPort, ParseAddr;
    DecVal(port);
    DigitsPlain(Dec(port));
    var text := t6.show(b);
    assert Colonic(text);
    SplitBracketed(text, Dec(port));
    ColonicParse(t6, text);
    var addr := Render(t6, Ip(V6(b, false)), port);
    assert addr == [OPEN_BRACKET] + text + [CLOSE_BRACKET, COLON] + Dec(port);
    assert addr[0] == OPEN_BRACKET;
  }

  lemma ColonicParse(t6: Text6, s: seq<Byte>)
    requires Colonic(s)
    ensures ParseAddr(t6, s) == t6.read(s) && OPEN_BRACKET !in s && CLOSE_BRACKET !in s
  {
    assert PERCENT !in s;
    assert FirstIndex(s, PERCENT) == |s|;
  }

  // ---- encoding ----

  datatype Request = Request(cmd: Byte, addr: seq<Byte>, app: seq<Byte>, first: seq<Byte>)

  datatype Encoded = Bytes(md: seq<Byte>) | BadCmd | StrayFirst | BadAddr | TooLong

  function HostBytes(h: Host): seq<Byte>
    requires Encodable(h)
  {
    match h
    case Name(n) => [ATYP_DOMAIN, |n|] + n
    case Ip(V4(b)) => [ATYP_IPV4] + b
    case Ip(V6(b, _)) => [ATYP_IPV6] + b
  }

  lemma NameLength(n: seq<Byte>)
    requires CanonicalName(n)
    ensures 0 < |n| <= 254
  {
  }

  /** The header, through the port. */
  function HeaderBytes(cmd: Byte, h: Host, port: nat): seq<Byte>
    requires Encodable(h) && port < 0x1_0000
  {
    [76, 52, 1, cmd] + HostBytes(h) + PutUint16(port)
  }

  /** AppendMetadata, onto an empty dst. */
  function Append(t6: Text6, r: Request): Encoded
    requires Sound(t6)
  {
    if r.cmd != CMD_CONNECT && r.cmd != CMD_UDP then BadCmd
    else if r.cmd == CMD_CONNECT && |r.first| > 0 then StrayFirst
    else
      var target := Resolve(t6, r.addr);
      if target == None then BadAddr
      else
        var hdr := HeaderBytes(r.cmd, target.value.0, target.value.1);
        if r.cmd == CMD_CONNECT then Bytes(hdr + r.app)
        else if |hdr| + 2 + |r.first| + |r.app| > MAX_UDP then TooLong
        else Bytes(hdr + PutUint16(|r.first|) + r.first + r.app)
  }

  // ---- decoding ----

  datatype Code = BadRequest | BadVersion | BadCommand | BadAddress

  datatype Header = Header(addr: seq<Byte>, end: nat) | Refused(code: Code)

  datatype Decoded = Ok(r: Request) | Err(code: Code)

  /** The host of the bytes after the command, and where the port starts. */
  function ParseHost(rest: seq<Byte>): (r: Option<(Host, nat)>)
    ensures r.Some? ==> Encodable(r.value.0) && r.value.1 + 2 <= |rest|
  {
    if rest == [] then None
    else if rest[0] == ATYP_IPV4 then
      if |rest| < 1 + 4 + 2 then None
      else if TargetIP(V4(rest[1..5])) then Some((Ip(V4(rest[1..5])), 5)) else None
    else if rest[0] == ATYP_IPV6 then
      if |rest| < 1 + 16 + 2 then None
      else if Mapped(rest[1..17]) then None
      else if TargetIP(V6(rest[1..17], false)) then Some((Ip(V6(rest[1..17], false)), 17)) else None
    else if rest[0] == ATYP_DOMAIN then
      if |rest| < 2 then None
      else
        var n: int := rest[1];
        if |rest| < 2 + n + 2 then None
        else if CanonicalName(rest[2..2 + n]) then Some((Name(rest[2..2 + n]), 2 + n)) else None
    else None
  }

  /** parseHeader: the checks in the source's order. */
  function ParseHeader(t6: Text6, md: seq<Byte>, cmd: Byte): (r: Header)
    ensures r.Header? ==> FIXED <= r.end <= |md|
  {
    if |md| < 2 || md[0] != 76 || md[1] != 52 then Refused(BadRequest)
    else if |md| < FIXED then Refused(BadRequest)
    else if md[2] != 1 then Refused(BadVersion)
    else if md[3] != cmd then Refused(BadCommand)
    else
      var h := ParseHost(md[4..]);
      if h == None then Refused(BadAddress)
      else
        var at := 4 + h.value.1;
        var port := Uint16(md[at..at + 2]);
        if port == 0 then Refused(BadAddress) else Header(Render(t6, h.value.0, port), at + 2)
  }

  function ParseMetadata(t6: Text6, md: seq<Byte>): Decoded {
    var h := ParseHeader(t6, md, CMD_CONNECT);
    if h.Refused? then Err(h.code) else Ok(Request(CMD_CONNECT, h.addr, md[h.end..], []))
  }

  function ParseUDPMetadata(t6: Text6, md: seq<Byte>): Decoded {
    var h := ParseHeader(t6, md, CMD_UDP);
    if h.Refused? then Err(h.code)
    else if |md| > MAX_UDP then Err(BadRequest)
    else
      var rest := md[h.end..];
      if |rest| < 2 then Err(BadRequest)
      else
        var n := Uint16(rest[..2]);
        if n > |rest| - 2 then Err(BadRequest)
        else Ok(Request(CMD_UDP, h.addr, rest[2 + n..], rest[2..2 + n]))
  }

  // ---- round trips ----

  lemma GetPut16(x: nat)
    requires x < 0x1_0000
    ensures Uint16(PutUint16(x)) == x
  {
  }

  lemma PutGet16(b: seq<Byte>)
    requires |b| == 2
    ensures PutUint16(Uint16(b)) == b
  {
    var b0: int, b1: int := b[0], b[1];
    assert (b0 * 256 + b1) / 256 == b0 && (b0 * 256 + b1) % 256 == b1;
  }

  /** The host bytes read back. */
  lemma ParseHostBytes(h: Host, tail: seq<Byte>)
    requires Encodable(h) && |tail| >= 2
    ensures ParseHost(HostBytes(h) + tail) == Some((h, |HostBytes(h)|))
  {
    hide CanonicalName, TargetIP, Mapped;
    var rest := HostBytes(h) + tail;
    match h
    case Name(n) =>
      NameLength(n);
      assert rest[2..2 + |n|] == n;
    case Ip(V4(b)) => assert rest[1..5] == b;
    case Ip(V6(b, _)) => assert rest[1..17] == b;
  }

  /** The bytes a host was read from are its encoding. */
  lemma HostBytesParse(rest: seq<Byte>)
    requires ParseHost(rest).Some?
    ensures var (h, n) := ParseHost(rest).value; rest[..n] == HostBytes(h)
  {
    hide CanonicalName, TargetIP, Mapped;
    var (h, n) := ParseHost(rest).value;
    match h
    case Name(m) => NameLength(m); assert rest[..n] == [rest[0], rest[1]] + rest[2..n];
    case Ip(V4(b)) => assert rest[..n] == [rest[0]] + rest[1..n];
    case Ip(V6(b, _)) => assert rest[..n] == [rest[0]] + rest[1..n];
  }

  /** The header read back: the canonical address. */
  lemma ParseHeaderBytes(t6: Text6, cmd: Byte, h: Host, port: nat, tail: seq<Byte>)
    requires Encodable(h) && 0 < port < 0x1_0000
    ensures var hdr := HeaderBytes(cmd, h, port);
            ParseHeader(t6, hdr + tail, cmd) == Header(Render(t6, h, port), |hdr|)
  {
    hide HostBytes, ParseHost, Render, Encodable;
    var md := HeaderBytes(cmd, h, port) + tail;
    var after := PutUint16(port) + tail;
    assert md[4..] == HostBytes(h) + after;
    ParseHostBytes(h, after);
    var at := 4 + |HostBytes(h)|;
    assert md[at..at + 2] == PutUint16(port);
    GetPut16(port);
    HostBytesNonEmpty(h);
  }

  lemma HostBytesNonEmpty(h: Host)
    requires Encodable(h)
    ensures |HostBytes(h)| > 0
  {
  }

  /** A header that was accepted is the encoding of what it says. */
  lemma HeaderBytesParse(t6: Text6, md: seq<Byte>, cmd: Byte)
    requires Sound(t6) && ParseHeader(t6, md, cmd).Header?
    ensures var r := ParseHeader(t6, md, cmd);
            var target := Resolve(t6, r.addr);
            target.Some? && md[..r.end] == HeaderBytes(cmd, target.value.0, target.value.1)
  {
    hide HostBytes, ParseHost, Render, Encodable, Resolve;
    var rest := md[4..];
    var (h, n) := ParseHost(rest).value;
    HostBytesParse(rest);
    var at := 4 + n;
    PutGet16(md[at..at + 2]);
    ResolveRender(t6, h, Uint16(md[at..at + 2]));
    assert md[..at + 2] == md[..4] + rest[..n] + md[at..at + 2];
    assert md[..4] == [76, 52, 1, cmd];
  }

  /** Every metadata ParseMetadata accepts is the canonical encoding of its request. */
  lemma ReencodeConnect(t6: Text6, md: seq<Byte>)
    requires Sound(t6) && ParseMetadata(t6, md).Ok?
    ensures Append(t6, ParseMetadata(t6, md).r) == Bytes(md)
  {
    hide ParseHeader, Resolve, HeaderBytes, Sound;
    HeaderBytesParse(t6, md, CMD_CONNECT);
    var h := ParseHeader(t6, md, CMD_CONNECT);
    assert md == md[..h.end] + md[h.end..];
  }

  /** Every metadata ParseUDPMetadata accepts is the canonical encoding of its request. */
  lemma ReencodeUDP(t6: Text6, md: seq<Byte>)
    requires Sound(t6) && ParseUDPMetadata(t6, md).Ok?
    ensures Append(t6, ParseUDPMetadata(t6, md).r) == Bytes(md)
  {
    hide ParseHeader, Resolve, HeaderBytes, Sound, Uint16, PutUint16;
    HeaderBytesParse(t6, md, CMD_UDP);
    var h := ParseHeader(t6, md, CMD_UDP);
    var rest := md[h.end..];
    PutGet16(rest[..2]);
    var n := Uint16(rest[..2]);
    assert rest == rest[..2] + rest[2..2 + n] + rest[2 + n..];
    assert md == md[..h.end] + rest;
    var target := Resolve(t6, h.addr).value;
    var hdr := HeaderBytes(CMD_UDP, target.0, target.1);
    assert hdr + PutUint16(n) + rest[2..2 + n] + rest[2 + n..] == hdr + rest;
  }

  function ParseFor(t6: Text6, md: seq<Byte>, cmd: Byte): Decoded {
    if cmd == CMD_UDP then ParseUDPMetadata(t6, md) else ParseMetadata(t6, md)
  }

  /** What AppendMetadata writes decodes to the request it wrote, its address in canonical form. */
  lemma DecodeEncoded(t6: Text6, r: Request)
    requires Sound(t6) && Append(t6, r).Bytes?
    ensures var target := Resolve(t6, r.addr);
            && target.Some?
            && ParseFor(t6, Append(t6, r).md, r.cmd) == Ok(r.(addr := Render(t6, target.value.0, target.value.1)))
  {
    hide ParseHeader, Resolve, HeaderBytes, Sound, Render, Encodable;
    var (host, port) := Resolve(t6, r.addr).value;
    var md := Append(t6, r).md;
    var hdr := HeaderBytes(r.cmd, host, port);
    if r.cmd == CMD_CONNECT {
      ParseHeaderBytes(t6, r.cmd, host, port, r.app);
      assert md[|hdr|..] == r.app;
    } else {
      var tail := PutUint16(|r.first|) + r.first + r.app;
      assert md == hdr + tail;
      ParseHeaderBytes(t6, r.cmd, host, port, tail);
      assert md[|hdr|..] == tail;
      assert tail[..2] == PutUint16(|r.first|);
      GetPut16(|r.first|);
      var n := |r.first|;
      assert tail[2..2 + n] == r.first && tail[2 + n..] == r.app;
    }
  }

  /** Exactly the encodings are accepted: a parser takes an input if and only if it is what AppendMetadata writes for
      some request with the parser's command. */
  lemma AcceptedIffEncoded(t6: Text6, md: seq<Byte>, cmd: Byte)
    requires Sound(t6) && (cmd == CMD_CONNECT || cmd == CMD_UDP)
    ensures ParseFor(t6, md, cmd).Ok? <==> exists r: Request :: r.cmd == cmd && Append(t6, r) == Bytes(md)
  {
    hide ParseMetadata, ParseUDPMetadata, Append, Sound, Render, Resolve;
    if ParseFor(t6, md, cmd).Ok? {
      var r := ParseFor(t6, md, cmd).r;
      if cmd == CMD_UDP { ReencodeUDP(t6, md); } else { ReencodeConnect(t6, md); }
      ParsedCommand(t6, md, cmd);
      assert r.cmd == cmd && Append(t6, r) == Bytes(md);
    }
    forall r: Request | r.cmd == cmd && Append(t6, r) == Bytes(md) ensures ParseFor(t6, md, cmd).Ok? {
      DecodeEncoded(t6, r);
    }
  }

  lemma ParsedCommand(t6: Text6, md: seq<Byte>, cmd: Byte)
    requires (cmd == CMD_CONNECT || cmd == CMD_UDP) && ParseFor(t6, md, cmd).Ok?
    ensures ParseFor(t6, md, cmd).r.cmd == cmd
  {
  }

  predicate Magic(md: seq<Byte>) { |md| >= 2 && md[0] == 76 && md[1] == 52 }

  /** Bytes after the address and the port: the length of the first datagram and that many bytes. */
  predicate WholeFirst(rest: seq<Byte>) { |rest| >= 2 && Uint16(rest[..2]) <= |rest| - 2 }

  /** Where the port of a header with an encodable host ends, if its port is not 0. */
  function HeaderEnd(md: seq<Byte>): Option<nat>
    requires |md| >= FIXED
  {
    var h := ParseHost(md[4..]);
    if h == None then None
    else
      var at := 4 + h.value.1;
      if Uint16(md[at..at + 2]) == 0 then None else Some(at + 2)
  }

  /** The first rule a metadata breaks decides its code: the header's presence, the version, the command, the address,
      and for a UDP flow then the length and the first datagram. Metadata that breaks none is accepted. */
  lemma RefusalCodes(t6: Text6, md: seq<Byte>, cmd: Byte)
    requires cmd == CMD_CONNECT || cmd == CMD_UDP
    ensures var r := ParseFor(t6, md, cmd);
            var present := Magic(md) && |md| >= FIXED;
            var named := present && md[2] == 1 && md[3] == cmd;
            var addressed := named && HeaderEnd(md).Some?;
            var whole := cmd == CMD_CONNECT || (addressed && |md| <= MAX_UDP && WholeFirst(md[HeaderEnd(md).value..]));
            && (r == Err(BadRequest) <==> !present || (addressed && !whole))
            && (r == Err(BadVersion) <==> present && md[2] != 1)
            && (r == Err(BadCommand) <==> present && md[2] == 1 && md[3] != cmd)
            && (r == Err(BadAddress) <==> named && !addressed)
            && (r.Ok? <==> addressed && whole)
  {
    hide ParseHost, Render, Uint16;
  }

  /** No metadata is read as both a TCP connection and a UDP flow. */
  lemma OneCommand(t6: Text6, md: seq<Byte>)
    ensures !(ParseMetadata(t6, md).Ok? && ParseUDPMetadata(t6, md).Ok?)
  {
    hide ParseHost, Render;
  }
}
