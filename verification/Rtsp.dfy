/** RTSP messages: `parse_rtsp`, `write_rtsp` and the reply builders of `httpmsg.c`. */
module Rtsp {
  import opened Wrappers
  import opened CStrings
  import opened MessageText

  datatype MsgType = OPTIONS | DESCRIBE | SETUP | PLAY | TEARDOWN | OK

  datatype Field = F_TYPE | F_CSEQ | F_SESSION | F_CONTLEN | F_CONTTYPE | F_TRANSPORT | F_RANGE | F_DATE | F_DATA

  /** `fields` is the set of bits that are on. */
  datatype RTSPMsg = RTSPMsg(fields: set<Field>, msgType: MsgType, cseq: int, session: int, contentlen: int,
                             transport: string, clirtpport: string, clirtcpport: string,
                             date: string, contenttype: string, data: string, range: string)

  /** What `memset` leaves: type 0 is OPTIONS. */
  const ZERO := RTSPMsg({}, OPTIONS, 0, 0, 0, "", "", "", "", "", "", "")

  /** `Unsupported` is the return value -1; `Crash` stands for a null pointer passed to `sscanf`. */
  datatype Parsed = Parsed(msg: RTSPMsg) | Unsupported(msg: RTSPMsg) | Crash

  // ----- parse_rtsp -----

  const STATUS := "RTSP/1.0 200 OK"
  const CLIENT_PORT := "client_port="

  function TypeOf(text: string): Option<MsgType> {
    if StartsWith(text, "OPTIONS") then Some(OPTIONS)
    else if StartsWith(text, "DESCRIBE") then Some(DESCRIBE)
    else if StartsWith(text, "SETUP") then Some(SETUP)
    else if StartsWith(text, "PLAY") then Some(PLAY)
    else if StartsWith(text, "TEARDOWN") then Some(TEARDOWN)
    else if StartsWith(text, STATUS) then Some(OK)
    else None
  }

  /** How a message of a type begins. */
  function Name(t: MsgType): string {
    match t
    case OPTIONS => "OPTIONS"
    case DESCRIBE => "DESCRIBE"
    case SETUP => "SETUP"
    case PLAY => "PLAY"
    case TEARDOWN => "TEARDOWN"
    case OK => STATUS
  }

  const NAMES := {"OPTIONS", "DESCRIBE", "SETUP", "PLAY", "TEARDOWN", STATUS}

  /** The header a line is taken for. */
  function HeaderOf(text: string): Option<Field> {
    if StartsWith(text, "CSeq: ") then Some(F_CSEQ)
    else if StartsWith(text, "Session: ") then Some(F_SESSION)
    else if StartsWith(text, "Content-Length: ") then Some(F_CONTLEN)
    else if StartsWith(text, "Content-Type: ") then Some(F_CONTTYPE)
    else if StartsWith(text, "Transport: ") then Some(F_TRANSPORT)
    else if StartsWith(text, "Range: ") then Some(F_RANGE)
    else None
  }

  /** `sscanf(s, "%[0-9]-%[0-9]", ...)` over two fields that hold `was`. */
  function ScanPorts(s: string, was: (string, string)): (string, string) {
    match ScanDigits(s)
    case None => was
    case Some(rtp) =>
      var rest := s[|rtp|..];
      if rest != "" && rest[0] == '-' then (rtp, Or(ScanDigits(rest[1..]), was.1)) else (rtp, was.1)
  }

  /** What the line that `text` starts with does to the message. A Transport header without a client
      port is fatal. */
  function ApplyLine(text: string, m: RTSPMsg): Option<RTSPMsg> {
    match HeaderOf(text)
    case Some(F_CSEQ) => Some(m.(cseq := Or(ScanInt(text[5..]), m.cseq), fields := m.fields + {F_CSEQ}))
    case Some(F_SESSION) => Some(m.(session := Or(ScanInt(text[8..]), m.session), fields := m.fields + {F_SESSION}))
    case Some(F_CONTLEN) => Some(m.(contentlen := Or(ScanInt(text[15..]), m.contentlen), fields := m.fields + {F_CONTLEN}))
    case Some(F_CONTTYPE) => Some(m.(contenttype := Or(ScanWord(text[13..]), m.contenttype), fields := m.fields + {F_CONTTYPE}))
    case Some(F_RANGE) => Some(m.(range := Or(ScanWord(text[6..]), m.range), fields := m.fields + {F_RANGE}))
    case Some(F_TRANSPORT) => (
      match Find(text, CLIENT_PORT)
      case None => None
      case Some(a) =>
        var ports := ScanPorts(text[a + 12..], (m.clirtpport, m.clirtcpport));
        Some(m.(transport := Or(ScanWord(text[11..]), m.transport), clirtpport := ports.0, clirtcpport := ports.1,
                fields := m.fields + {F_TRANSPORT})))
    case _ => Some(m)
  }

  /** The parser's result: the type from the first line, then every line up to the blank one. Without a
      blank line the loop does not run. */
  function Parse(buffer: string): Parsed {
    match Find(buffer, BLANK_LINE)
    case None => Parsed(ZERO)
    case Some(end) =>
      if end == 0 then Parsed(ZERO)
      else
        match TypeOf(buffer)
        case None => Unsupported(ZERO)
        case Some(t) =>
          match ScanLines(buffer, end, ZERO.(msgType := t, fields := {F_TYPE}), ApplyLine)
          case None => Crash
          case Some((m, _)) => Parsed(m)
  }

  /** What the rest of the loop makes of a message. */
  ghost function Finish(text: string, left: int, m: RTSPMsg): Parsed {
    match ScanLines(text, left, m, ApplyLine)
    case None => Crash
    case Some((r, _)) => Parsed(r)
  }

  lemma FinishStep(text: string, left: int, m: RTSPMsg)
    requires left > 0
    ensures Finish(text, left, m) ==
      match (ApplyLine(text, m), Find(text, CRLF))
      case (Some(next), Some(k)) => Finish(text[k + 2..], left - (k + 2), next)
      case _ => Crash
  {
    hide ApplyLine, Find;
  }

  lemma ParseStarts(buffer: string)
    ensures match Find(buffer, BLANK_LINE)
      case None => Parse(buffer) == Parsed(ZERO)
      case Some(end) =>
        if end == 0 then Parse(buffer) == Parsed(ZERO)
        else
          match TypeOf(buffer)
          case None => Parse(buffer) == Unsupported(ZERO)
          case Some(t) => Parse(buffer) == Finish(buffer, end, ZERO.(msgType := t, fields := {F_TYPE}))
  {
  }

  /** The loop of `parse_rtsp`, `temp` an index into the buffer. */
  method ParseRtsp(buffer: string) returns (r: Parsed)
    ensures r == Parse(buffer)
  {
    ParseStarts(buffer);
    hide Parse, Find, TypeOf, ApplyLine;
    var end := Find(buffer, BLANK_LINE);
    var msg := ZERO;
    var temp, typeflag := 0, false;
    while end.Some? && temp < end.value
      invariant 0 <= temp <= |buffer|
      invariant !typeflag ==> temp == 0 && msg == ZERO
      invariant typeflag ==> end.Some? && end.value > 0 && Finish(buffer[temp..], end.value - temp, msg) == Parse(buffer)
      decreases |buffer| - temp
    {
      var text := buffer[temp..];
      if !typeflag {
        assert text == buffer;
        var t := TypeOf(text);
        if t.None? {
          return Unsupported(msg);
        }
        msg := msg.(msgType := t.value, fields := {F_TYPE});
        typeflag := true;
      }
      FinishStep(text, end.value - temp, msg);
      var next := ApplyLine(text, msg);
      if next.None? {
        return Crash;
      }
      msg := next.value;
      var k := Find(text, CRLF);
      if k.None? {
        return Crash;
      }
      assert text[k.value + 2..] == buffer[temp + k.value + 2..];
      temp := temp + k.value + 2;
    }
    return Parsed(msg);
  }

  // ----- write_rtsp -----

  /** The line of each field, in the order in which they are written. */
  function Header(m: RTSPMsg, f: Field): string {
    match f
    case F_CSEQ => "CSeq: " + PrintInt(m.cseq)
    case F_DATE => "Date: " + m.date
    case F_SESSION => "Session: " + PrintInt(m.session)
    case F_CONTTYPE => "Content-Type: " + m.contenttype
    case F_CONTLEN => "Content-Length: " + PrintInt(m.contentlen)
    case F_TRANSPORT => "Transport: " + m.transport
    case F_RANGE => "Range: " + m.range
    case _ => ""
  }

  const ORDER := [F_CSEQ, F_DATE, F_SESSION, F_CONTTYPE, F_CONTLEN, F_TRANSPORT, F_RANGE]

  /** The lines of the fields of `order` whose bit is on. */
  function Lines(m: RTSPMsg, order: seq<Field>): seq<string> {
    if order == [] then []
    else (if order[0] in m.fields then [Header(m, order[0])] else []) + Lines(m, order[1..])
  }

  function HeaderLines(m: RTSPMsg): seq<string> {
    [STATUS] + Lines(m, ORDER)
  }

  function Print(m: RTSPMsg): string {
    Block(HeaderLines(m)) + (CRLF + if F_DATA in m.fields then m.data else "")
  }

  /** The fields still to be written add their lines in front of the rest. */
  lemma BlockOfLines(m: RTSPMsg, k: nat)
    requires k < |ORDER|
    ensures Block(Lines(m, ORDER[k..]))
         == (if ORDER[k] in m.fields then Header(m, ORDER[k]) + CRLF else "") + Block(Lines(m, ORDER[k + 1..]))
  {
    hide Header;
    assert ORDER[k..][1..] == ORDER[k + 1..];
    var l, rest := Header(m, ORDER[k]), Lines(m, ORDER[k + 1..]);
    if ORDER[k] in m.fields {
      assert Lines(m, ORDER[k..]) == [l] + rest;
      assert ([l] + rest)[1..] == rest;
    } else {
      assert Lines(m, ORDER[k..]) == [] + rest == rest;
    }
  }

  /** `if (msg->fields & f) { sprintf(temp, ...); temp += strlen(temp); }` for the `k`-th field. */
  method AppendIf(buffer: string, m: RTSPMsg, k: nat, line: string, ghost whole: string) returns (longer: string)
    requires k < |ORDER| && line == Header(m, ORDER[k])
    requires buffer + Block(Lines(m, ORDER[k..])) == whole
    ensures longer + Block(Lines(m, ORDER[k + 1..])) == whole
  {
    longer := buffer;
    if ORDER[k] in m.fields {
      longer := longer + (line + CRLF);
    }
    BlockOfLines(m, k);
  }

  /** Appends the lines one after the other, and returns the length written. */
  method WriteRtsp(m: RTSPMsg) returns (buffer: string, n: nat)
    ensures buffer == Print(m) && n == |buffer|
  {
    hide Block, Lines;
    ghost var whole := Block(HeaderLines(m));
    buffer := STATUS + CRLF;
    StatusFirst(m);
    buffer := AppendIf(buffer, m, 0, "CSeq: " + PrintInt(m.cseq), whole);
    buffer := AppendIf(buffer, m, 1, "Date: " + m.date, whole);
    buffer := AppendIf(buffer, m, 2, "Session: " + PrintInt(m.session), whole);
    buffer := AppendIf(buffer, m, 3, "Content-Type: " + m.contenttype, whole);
    buffer := AppendIf(buffer, m, 4, "Content-Length: " + PrintInt(m.contentlen), whole);
    buffer := AppendIf(buffer, m, 5, "Transport: " + m.transport, whole);
    buffer := AppendIf(buffer, m, 6, "Range: " + m.range, whole);
    buffer := buffer + CRLF;
    if F_DATA in m.fields {
      buffer := buffer + m.data;
    }
    n := |buffer|;
  }

  lemma StatusFirst(m: RTSPMsg)
    ensures Block(HeaderLines(m)) == STATUS + CRLF + Block(Lines(m, ORDER[0..]))
    ensures Block(Lines(m, ORDER[7..])) == ""
  {
    assert ORDER[0..] == ORDER;
    assert HeaderLines(m)[1..] == Lines(m, ORDER);
  }

  // ----- reading back -----

  /** Fields that are on hold values that fit their lines. */
  predicate Printable(m: RTSPMsg) {
    && (F_CONTTYPE in m.fields ==> Word(m.contenttype))
    && (F_TRANSPORT in m.fields ==> Word(m.transport) && Find(m.transport, CLIENT_PORT).Some?)
    && (F_RANGE in m.fields ==> Word(m.range))
    && (F_DATE in m.fields ==> CrFree(m.date))
  }

  /** The client ports a transport value names. */
  function PortsOf(transport: string): (string, string) {
    PortsBehind(transport, Find(transport, CLIENT_PORT))
  }

  function PortsBehind(transport: string, a: Option<nat>): (string, string) {
    if a.Some? && a.value + 12 <= |transport| then ScanPorts(transport[a.value + 12..], ("", "")) else ("", "")
  }

  /** What the line of field `f` of `from` does to a message being read. */
  function Effect(from: RTSPMsg, f: Field, m: RTSPMsg): RTSPMsg {
    match f
    case F_CSEQ => m.(cseq := from.cseq, fields := m.fields + {f})
    case F_SESSION => m.(session := from.session, fields := m.fields + {f})
    case F_CONTTYPE => m.(contenttype := from.contenttype, fields := m.fields + {f})
    case F_CONTLEN => m.(contentlen := from.contentlen, fields := m.fields + {f})
    case F_TRANSPORT =>
      m.(transport := from.transport, clirtpport := PortsOf(from.transport).0,
         clirtcpport := PortsOf(from.transport).1, fields := m.fields + {f})
    case F_RANGE => m.(range := from.range, fields := m.fields + {f})
    case _ => m
  }

  /** The port scan is not disturbed by what follows the value. */
  lemma PortsStop(u: string, rest: string, was: (string, string))
    requires rest != "" && !IsDigit(rest[0]) && rest[0] != '-'
    ensures ScanPorts(u + rest, was) == ScanPorts(u, was)
  {
    PrefixOfAppend(u, rest, IsDigit);
    var rtp := Prefix(u, IsDigit);
    var v := u[|rtp|..];
    assert (u + rest)[|rtp|..] == v + rest;
    if v == "" {
      assert v + rest == rest;
    } else {
      assert (v + rest)[1..] == v[1..] + rest;
      PrefixOfAppend(v[1..], rest, IsDigit);
    }
  }

  lemma {:induction false} FindInFront(t: string, rest: string, p: string)
    requires Find(t, p).Some?
    ensures Find(t + rest, p) == Find(t, p)
  {
    if StartsWith(t, p) {
      assert (t + rest)[..|p|] == t[..|p|];
    } else {
      FindIsFirst(t, p);
      assert (t + rest)[1..] == t[1..] + rest;
      FindInFront(t[1..], rest, p);
      FindNotAtStart(t, rest, p);
    }
  }

  lemma FindNotAtStart(t: string, rest: string, p: string)
    requires !StartsWith(t, p) && Find(t, p).Some?
    ensures !StartsWith(t + rest, p)
  {
    assert |p| <= |t|;
    assert (t + rest)[..|p|] == t[..|p|];
  }

  /** A line is taken for the header it was written as; the others are for none. */
  lemma HeaderIsRecognised(name: string, x: string)
    requires name in {"CSeq: ", "Session: ", "Content-Length: ", "Content-Type: ", "Transport: ", "Range: ",
                      "Date: ", "Public: "} + NAMES
    ensures HeaderOf(name + x) ==
      if name == "CSeq: " then Some(F_CSEQ) else if name == "Session: " then Some(F_SESSION)
      else if name == "Content-Length: " then Some(F_CONTLEN) else if name == "Content-Type: " then Some(F_CONTTYPE)
      else if name == "Transport: " then Some(F_TRANSPORT) else if name == "Range: " then Some(F_RANGE)
      else None
  {
    hide StartsWith;
    Named(name, x, name);
    if name != "CSeq: " { Differs(name, x, "CSeq: ", 1); }
    if name != "Session: " { Differs(name, x, "Session: ", if name[0] != 'S' then 0 else 1); }
    if name != "Content-Length: " { Differs(name, x, "Content-Length: ", if name == "Content-Type: " then 8 else 1); }
    if name != "Content-Type: " { Differs(name, x, "Content-Type: ", if name == "Content-Length: " then 8 else 1); }
    if name != "Transport: " { Differs(name, x, "Transport: ", if name[0] != 'T' then 0 else 1); }
    if name != "Range: " { Differs(name, x, "Range: ", if name == STATUS then 1 else 0); }
  }

  lemma NumberLine(name: string, n: int, tail: string)
    requires |name| > 1 && name[|name| - 1] == ' '
    ensures ScanInt((name + PrintInt(n) + (CRLF + tail))[|name| - 1..]) == Some(n)
  {
    PrintedIntReadsBack(n, CRLF + tail);
    hide *;
    BehindName(name, PrintInt(n), CRLF + tail);
  }

  lemma WordLine(name: string, v: string, tail: string)
    requires |name| > 1 && name[|name| - 1] == ' ' && Word(v)
    ensures ScanWord((name + v + (CRLF + tail))[|name| - 1..]) == Some(v)
    ensures ScanWord((name + v + (CRLF + tail))[|name|..]) == Some(v)
  {
    WordReadsBack(v, CRLF + tail);
    hide *;
    BehindName(name, v, CRLF + tail);
  }

  lemma NotInTransport(x: string)
    ensures forall j :: 0 <= j < 11 ==> !StartsWith(("Transport: " + x)[j..], CLIENT_PORT)
  {
    forall j | 0 <= j < 11
      ensures !StartsWith(("Transport: " + x)[j..], CLIENT_PORT)
    {
      assert ("Transport: " + x)[j..][0] == "Transport: "[j];
    }
  }

  lemma TransportLine(t: string, tail: string, was: (string, string))
    requires Find(t, CLIENT_PORT).Some? && was == ("", "")
    ensures var text := "Transport: " + t + (CRLF + tail);
      Find(text, CLIENT_PORT).Some? && ScanPorts(text[Find(text, CLIENT_PORT).value + 12..], was) == PortsOf(t)
  {
    hide Find, ScanPorts;
    var rest := CRLF + tail;
    var text := "Transport: " + t + rest;
    FindInFront(t, rest, CLIENT_PORT);
    NotInTransport(t + rest);
    assert text == "Transport: " + (t + rest);
    hide StartsWith;
    FindSkip(text, CLIENT_PORT, 11);
    assert text[11..] == t + rest;
    var a := Find(t, CLIENT_PORT).value;
    assert text[a + 11 + 12..] == t[a + 12..] + rest;
    PortsStop(t[a + 12..], rest, was);
  }

  lemma NumberLineReadsBack(from: RTSPMsg, f: Field, tail: string, m: RTSPMsg)
    requires f in {F_CSEQ, F_SESSION, F_CONTLEN}
    ensures ApplyLine(Header(from, f) + (CRLF + tail), m) == Some(Effect(from, f, m))
  {
    hide HeaderOf, ScanInt, PrintInt;
    var rest := CRLF + tail;
    match f
    case F_CSEQ =>
      assert "CSeq: " + PrintInt(from.cseq) + rest == "CSeq: " + (PrintInt(from.cseq) + rest);
      HeaderIsRecognised("CSeq: ", PrintInt(from.cseq) + rest);
      NumberLine("CSeq: ", from.cseq, tail);
    case F_SESSION =>
      assert "Session: " + PrintInt(from.session) + rest == "Session: " + (PrintInt(from.session) + rest);
      HeaderIsRecognised("Session: ", PrintInt(from.session) + rest);
      NumberLine("Session: ", from.session, tail);
    case F_CONTLEN =>
      assert "Content-Length: " + PrintInt(from.contentlen) + rest == "Content-Length: " + (PrintInt(from.contentlen) + rest);
      HeaderIsRecognised("Content-Length: ", PrintInt(from.contentlen) + rest);
      NumberLine("Content-Length: ", from.contentlen, tail);
  }

  lemma WordLineReadsBack(from: RTSPMsg, f: Field, tail: string, m: RTSPMsg)
    requires f in {F_CONTTYPE, F_RANGE}
    requires Word(if f == F_RANGE then from.range else from.contenttype)
    ensures ApplyLine(Header(from, f) + (CRLF + tail), m) == Some(Effect(from, f, m))
  {
    hide HeaderOf, ScanWord, Word;
    var rest := CRLF + tail;
    match f
    case F_CONTTYPE =>
      assert "Content-Type: " + from.contenttype + rest == "Content-Type: " + (from.contenttype + rest);
      HeaderIsRecognised("Content-Type: ", from.contenttype + rest);
      WordLine("Content-Type: ", from.contenttype, tail);
    case F_RANGE =>
      assert "Range: " + from.range + rest == "Range: " + (from.range + rest);
      HeaderIsRecognised("Range: ", from.range + rest);
      WordLine("Range: ", from.range, tail);
  }

  lemma TransportLineReadsBack(from: RTSPMsg, tail: string, m: RTSPMsg)
    requires Word(from.transport) && Find(from.transport, CLIENT_PORT).Some? && m.clirtpport == m.clirtcpport == ""
    ensures ApplyLine(Header(from, F_TRANSPORT) + (CRLF + tail), m) == Some(Effect(from, F_TRANSPORT, m))
  {
    hide HeaderOf, ScanWord, Word, Find, ScanPorts, PortsOf;
    var rest := CRLF + tail;
    assert "Transport: " + from.transport + rest == "Transport: " + (from.transport + rest);
    HeaderIsRecognised("Transport: ", from.transport + rest);
    WordLine("Transport: ", from.transport, tail);
    TransportLine(from.transport, tail, (m.clirtpport, m.clirtcpport));
  }

  /** Reading the line of a field that is on has the field's effect, whatever follows. */
  lemma LineReadsBack(from: RTSPMsg, f: Field, tail: string, m: RTSPMsg)
    requires Printable(from) && f in from.fields && f in ORDER
    requires f == F_TRANSPORT ==> m.clirtpport == m.clirtcpport == ""
    ensures ApplyLine(Header(from, f) + (CRLF + tail), m) == Some(Effect(from, f, m))
  {
    hide ApplyLine, Find, PortsOf, Word, PrintInt;
    match f
    case F_TRANSPORT => TransportLineReadsBack(from, tail, m);
    case F_CONTTYPE => WordLineReadsBack(from, f, tail, m);
    case F_RANGE => WordLineReadsBack(from, f, tail, m);
    case F_DATE =>
      assert Header(from, f) + (CRLF + tail) == "Date: " + (from.date + (CRLF + tail));
      NoEffect("Date: ", from.date + (CRLF + tail), m);
    case _ => NumberLineReadsBack(from, f, tail, m);
  }

  function Methods(): string {
    "DESCRIBE, SETUP, PLAY, TEARDOWN"
  }

  /** The line `rtsp_options` adds. */
  function PublicLine(): string {
    "Public: " + Methods()
  }

  /** One line of a message: a header the parser knows, or one it does not. */
  datatype Line = Head(f: Field) | Other(text: string)

  function Text(m: RTSPMsg, l: Line): string {
    match l
    case Head(f) => Header(m, f)
    case Other(text) => text
  }

  function Texts(m: RTSPMsg, lines: seq<Line>): seq<string> {
    if lines == [] then [] else [Text(m, lines[0])] + Texts(m, lines[1..])
  }

  /** Any order of lines: headers that are on in `m`, each at most once, and lines the parser ignores. */
  ghost predicate Arranged(m: RTSPMsg, lines: seq<Line>) {
    && (forall i :: 0 <= i < |lines| ==> LineOk(m, lines[i]))
    && forall i, j :: 0 <= i < j < |lines| && lines[i].Head? ==> lines[i] != lines[j]
  }

  predicate LineOk(m: RTSPMsg, l: Line) {
    match l
    case Head(f) => f in ORDER && f in m.fields
    case Other(text) => text != "" && CrFree(text) && HeaderOf(text).None?
  }

  lemma NoEffect(name: string, x: string, m: RTSPMsg)
    requires name in {"Date: ", "Public: "} + NAMES
    ensures ApplyLine(name + x, m) == Some(m)
  {
    hide HeaderOf;
    HeaderIsRecognised(name, x);
  }

  lemma NamesHaveNoCr()
    ensures CrFree("CSeq: ") && CrFree("Session: ") && CrFree("Content-Length: ") && CrFree("Content-Type: ")
    ensures CrFree("Transport: ") && CrFree("Range: ") && CrFree("Date: ")
  {
  }

  /** A line is for the same header, or for none, with the rest of the text behind it. */
  lemma HeaderIsInFront(line: string, rest: string)
    ensures HeaderOf(line + (CRLF + rest)) == HeaderOf(line)
  {
    hide StartsWith, CrFree;
    NamesHaveNoCr();
    InFrontIff(line, rest, "CSeq: ");
    InFrontIff(line, rest, "Session: ");
    InFrontIff(line, rest, "Content-Length: ");
    InFrontIff(line, rest, "Content-Type: ");
    InFrontIff(line, rest, "Transport: ");
    InFrontIff(line, rest, "Range: ");
  }

  lemma OtherHasNoEffect(text: string, rest: string, m: RTSPMsg)
    requires HeaderOf(text).None?
    ensures ApplyLine(text + (CRLF + rest), m) == Some(m)
  {
    hide HeaderOf;
    HeaderIsInFront(text, rest);
  }

  lemma HeaderIsClean(m: RTSPMsg, f: Field)
    requires Printable(m) && f in m.fields && f in ORDER
    ensures Header(m, f) != "" && CrFree(Header(m, f))
  {
    NumberIsClean(m.cseq);
    NumberIsClean(m.session);
    NumberIsClean(m.contentlen);
    NamesHaveNoCr();
    WordsAreClean(m);
    hide PrintInt, Find, CrFree, Word;
    match f
    case F_CSEQ => CleanLine("CSeq: ", PrintInt(m.cseq));
    case F_DATE => CleanLine("Date: ", m.date);
    case F_SESSION => CleanLine("Session: ", PrintInt(m.session));
    case F_CONTTYPE => CleanLine("Content-Type: ", m.contenttype);
    case F_CONTLEN => CleanLine("Content-Length: ", PrintInt(m.contentlen));
    case F_TRANSPORT => CleanLine("Transport: ", m.transport);
    case F_RANGE => CleanLine("Range: ", m.range);
  }

  lemma WordsAreClean(m: RTSPMsg)
    ensures Word(m.contenttype) ==> CrFree(m.contenttype)
    ensures Word(m.transport) ==> CrFree(m.transport)
    ensures Word(m.range) ==> CrFree(m.range)
  {
  }

  lemma {:induction false} LinesAreClean(m: RTSPMsg, order: seq<Field>)
    requires Printable(m) && forall i :: 0 <= i < |order| ==> order[i] in ORDER
    ensures Clean(Lines(m, order))
    decreases |order|
  {
    hide Header, Printable;
    if order != [] {
      LinesAreClean(m, order[1..]);
      if order[0] in m.fields {
        HeaderIsClean(m, order[0]);
      }
    }
  }

  /** The text of a message: a first line that begins with the type's name, the lines, and a body. */
  function MessageOf(m: RTSPMsg, t: MsgType, uri: string, lines: seq<Line>, body: string): string {
    Block([Name(t) + uri] + Texts(m, lines)) + (CRLF + body)
  }

  lemma BlockParses(t: MsgType, uri: string, lines: seq<string>, body: string, r: RTSPMsg)
    requires Clean([Name(t) + uri] + lines)
    requires Fold([Name(t) + uri] + lines, CRLF + body, ZERO.(msgType := t, fields := {F_TYPE}), ApplyLine) == Some(r)
    ensures Parse(Block([Name(t) + uri] + lines) + (CRLF + body)) == Parsed(r)
  {
    hide Find, Block, Fold, ScanLines, TypeOf, Clean, Parse, ApplyLine, Name;
    var all, tail := [Name(t) + uri] + lines, CRLF + body;
    HeaderEnds(all, body);
    ScanIsFold(all, body, ZERO.(msgType := t, fields := {F_TYPE}), ApplyLine);
    BlockStep(all, tail);
    BlockIsLong(all);
    var x := uri + CRLF + (Block(all[1..]) + tail);
    assert Block(all) + tail == Name(t) + x;
    NameIsType(t, x);
    ParseOfType(Block(all) + tail, |Block(all)| - 2, t, r, tail);
  }

  lemma BlockIsLong(all: seq<string>)
    requires Clean(all) && all != []
    ensures |Block(all)| > 2
  {
  }

  lemma ParseOfType(buffer: string, end: nat, t: MsgType, r: RTSPMsg, rest: string)
    requires end > 0 && Find(buffer, BLANK_LINE) == Some(end) && TypeOf(buffer) == Some(t)
    requires ScanLines(buffer, end, ZERO.(msgType := t, fields := {F_TYPE}), ApplyLine) == Some((r, rest))
    ensures Parse(buffer) == Parsed(r)
  {
    hide Find, TypeOf, ScanLines;
  }

  lemma NameIsListed(t: MsgType)
    ensures Name(t) in NAMES && Name(t) != "" && CrFree(Name(t))
  {
  }

  lemma NameIsType(t: MsgType, x: string)
    ensures TypeOf(Name(t) + x) == Some(t)
  {
    hide StartsWith;
    var n := Name(t);
    Named(n, x, n);
    if t != OPTIONS { Differs(n, x, "OPTIONS", 0); }
    if t != DESCRIBE { Differs(n, x, "DESCRIBE", 0); }
    if t != SETUP { Differs(n, x, "SETUP", 0); }
    if t != PLAY { Differs(n, x, "PLAY", 0); }
    if t != TEARDOWN { Differs(n, x, "TEARDOWN", 0); }
  }

  /** The values that lie in `done`, the rest zero: the message as far as those fields have been read. */
  function Restricted(m: RTSPMsg, t: MsgType, done: set<Field>): RTSPMsg {
    var on := m.fields * done;
    var ports := if F_TRANSPORT in on then PortsOf(m.transport) else ("", "");
    RTSPMsg({F_TYPE} + on, t,
            if F_CSEQ in on then m.cseq else 0, if F_SESSION in on then m.session else 0,
            if F_CONTLEN in on then m.contentlen else 0, if F_TRANSPORT in on then m.transport else "",
            ports.0, ports.1, "", if F_CONTTYPE in on then m.contenttype else "", "",
            if F_RANGE in on then m.range else "")
  }

  lemma RestrictedStep(m: RTSPMsg, t: MsgType, f: Field, done: set<Field>)
    requires f in ORDER && f in m.fields
    ensures Effect(m, f, Restricted(m, t, done)) == Restricted(m, t, if f == F_DATE then done else done + {f})
    ensures F_TRANSPORT !in done ==> Restricted(m, t, done).clirtpport == Restricted(m, t, done).clirtcpport == ""
  {
    hide PortsOf;
    OneMore(m.fields, f, done);
  }

  lemma OneMore(fields: set<Field>, f: Field, done: set<Field>)
    requires f in fields
    ensures fields * (done + {f}) == fields * done + {f}
    ensures {F_TYPE} + fields * (done + {f}) == {F_TYPE} + fields * done + {f}
  {
  }

  /** The fields a reader can recover from a message. */
  const READABLE := {F_CSEQ, F_SESSION, F_CONTTYPE, F_CONTLEN, F_TRANSPORT, F_RANGE}

  /** Those of them that have a line. */
  function Readable(lines: seq<Line>): set<Field> {
    set f | f in READABLE && Head(f) in lines
  }

  /** What one line adds to the fields that have been read. */
  function Added(l: Line): set<Field> {
    if l.Head? && l.f != F_DATE then {l.f} else {}
  }

  lemma ReadableOfFirst(m: RTSPMsg, lines: seq<Line>)
    requires lines != [] && LineOk(m, lines[0])
    ensures Readable(lines) == Added(lines[0]) + Readable(lines[1..])
  {
    assert forall l :: l in lines <==> l == lines[0] || l in lines[1..];
  }

  lemma LineIsRead(m: RTSPMsg, t: MsgType, l: Line, tail: string, done: set<Field>)
    requires Printable(m) && LineOk(m, l) && (l == Head(F_TRANSPORT) ==> F_TRANSPORT !in done)
    ensures ApplyLine(Text(m, l) + (CRLF + tail), Restricted(m, t, done)) == Some(Restricted(m, t, done + Added(l)))
  {
    hide ApplyLine, Header, Printable, HeaderOf, CrFree, Restricted, Effect;
    match l
    case Head(f) =>
      RestrictedStep(m, t, f, done);
      LineReadsBack(m, f, tail, Restricted(m, t, done));
      assert done + {} == done;
    case Other(text) =>
      OtherHasNoEffect(text, tail, Restricted(m, t, done));
      assert done + {} == done;
  }

  lemma {:induction false} FoldLines(m: RTSPMsg, t: MsgType, lines: seq<Line>, tail: string, done: set<Field>)
    requires Printable(m) && Arranged(m, lines)
    requires Head(F_TRANSPORT) in lines ==> F_TRANSPORT !in done
    ensures Fold(Texts(m, lines), tail, Restricted(m, t, done), ApplyLine) == Some(Restricted(m, t, done + Readable(lines)))
    decreases |lines|
  {
    hide ApplyLine, Block, Printable, Restricted, Text, LineOk, Readable;
    if lines == [] {
      assert done + Readable([]) == done by { NothingReadable(); }
    } else {
      var l, rest := lines[0], Texts(m, lines[1..]);
      LineIsRead(m, t, l, Block(rest) + tail, done);
      FoldTakesFirst(Text(m, l), rest, tail, Restricted(m, t, done), ApplyLine);
      ReadableOfFirst(m, lines);
      assert done + Added(l) + Readable(lines[1..]) == done + Readable(lines);
      assert Head(F_TRANSPORT) in lines[1..] ==> l != Head(F_TRANSPORT);
      FoldLines(m, t, lines[1..], tail, done + Added(l));
    }
  }

  lemma NothingReadable()
    ensures Readable([]) == {}
  {
  }

  lemma {:induction false} TextsAreClean(m: RTSPMsg, lines: seq<Line>)
    requires Printable(m) && Arranged(m, lines)
    ensures Clean(Texts(m, lines))
    decreases |lines|
  {
    hide Header, Printable, CrFree;
    if lines != [] {
      TextsAreClean(m, lines[1..]);
      assert LineOk(m, lines[0]);
      if lines[0].Head? {
        HeaderIsClean(m, lines[0].f);
      }
    }
  }

  lemma NothingRead(m: RTSPMsg, t: MsgType)
    ensures Restricted(m, t, {}) == ZERO.(msgType := t, fields := {F_TYPE})
  {
    assert m.fields * {} == {};
    assert {F_TYPE} + {} == {F_TYPE};
  }

  lemma AllFolds(m: RTSPMsg, t: MsgType, uri: string, lines: seq<Line>, tail: string)
    requires Printable(m) && Arranged(m, lines)
    ensures Fold([Name(t) + uri] + Texts(m, lines), tail, ZERO.(msgType := t, fields := {F_TYPE}), ApplyLine)
         == Some(Restricted(m, t, Readable(lines)))
  {
    NameIsListed(t);
    NothingRead(m, t);
    hide *;
    var texts, start := Texts(m, lines), Restricted(m, t, {});
    var first, rest := Name(t) + uri, CRLF + (Block(texts) + tail);
    assert first + rest == Name(t) + (uri + rest);
    NoEffect(Name(t), uri + rest, start);
    FoldTakesFirst(first, texts, tail, start, ApplyLine);
    FoldLines(m, t, lines, tail, {});
    assert {} + Readable(lines) == Readable(lines);
  }

  /** Every message whose headers stand in any order, each at most once, with any lines between them that
      the parser does not know, and whatever the rest of the first line and the body: it is parsed to its
      type, exactly the readable fields that have a line, their values, and the client ports of the
      Transport value. */
  lemma MessageIsParsed(m: RTSPMsg, t: MsgType, uri: string, lines: seq<Line>, body: string)
    requires Printable(m) && CrFree(uri) && Arranged(m, lines)
    ensures Parse(MessageOf(m, t, uri, lines, body)) == Parsed(Restricted(m, t, Readable(lines)))
  {
    TextsAreClean(m, lines);
    NameIsListed(t);
    AllFolds(m, t, uri, lines, CRLF + body);
    var texts := Texts(m, lines);
    assert Clean([Name(t) + uri] + texts) by {
      assert CrFree(Name(t) + uri);
    }
    hide Parse, Printable, Restricted, Readable, Block, Name, Clean, CrFree, Fold;
    BlockParses(t, uri, texts, body, Restricted(m, t, Readable(lines)));
  }

  /** The lines `write_rtsp` writes. */
  function Written(fields: set<Field>, order: seq<Field>): seq<Line> {
    if order == [] then []
    else (if order[0] in fields then [Head(order[0])] else []) + Written(fields, order[1..])
  }

  lemma {:induction false} WrittenTexts(m: RTSPMsg, order: seq<Field>)
    ensures Texts(m, Written(m.fields, order)) == Lines(m, order)
    decreases |order|
  {
    hide Header;
    if order != [] {
      WrittenTexts(m, order[1..]);
      var rest := Written(m.fields, order[1..]);
      if order[0] in m.fields {
        assert ([Head(order[0])] + rest)[1..] == rest;
      } else {
        assert [] + rest == rest;
      }
    }
  }

  lemma {:induction false} WrittenMembers(fields: set<Field>, order: seq<Field>)
    ensures forall l :: l in Written(fields, order) <==> l.Head? && l.f in order && l.f in fields
    decreases |order|
  {
    if order != [] {
      WrittenMembers(fields, order[1..]);
      assert forall f :: f in order <==> f == order[0] || f in order[1..];
    }
  }

  ghost predicate NoneTwice(lines: seq<Line>) {
    forall i, j :: 0 <= i < j < |lines| ==> lines[i] != lines[j]
  }

  lemma {:induction false} WrittenOnce(fields: set<Field>, order: seq<Field>)
    requires forall i, j :: 0 <= i < j < |order| ==> order[i] != order[j]
    ensures NoneTwice(Written(fields, order))
    decreases |order|
  {
    if order != [] {
      var f, rest := order[0], Written(fields, order[1..]);
      WrittenOnce(fields, order[1..]);
      WrittenMembers(fields, order[1..]);
      assert f !in order[1..];
      if f in fields {
        OneMoreLine(Head(f), rest);
      } else {
        assert [] + rest == rest;
      }
    }
  }

  lemma OneMoreLine(l: Line, rest: seq<Line>)
    requires NoneTwice(rest) && l !in rest
    ensures NoneTwice([l] + rest)
  {
    var lines := [l] + rest;
    assert forall i :: 1 <= i < |lines| ==> lines[i] == rest[i - 1] && rest[i - 1] in rest;
  }

  lemma OrderIsDistinct()
    ensures forall i, j :: 0 <= i < j < |ORDER| ==> ORDER[i] != ORDER[j]
    ensures forall f :: f in READABLE ==> f in ORDER
  {
  }

  lemma WrittenAll(m: RTSPMsg)
    ensures Texts(m, Written(m.fields, ORDER)) == Lines(m, ORDER) && Arranged(m, Written(m.fields, ORDER))
    ensures Readable(Written(m.fields, ORDER)) == m.fields * READABLE
    ensures forall l :: l in Written(m.fields, ORDER) ==> l.Head?
  {
    hide Lines, Written, Header, Texts, HeaderOf, CrFree;
    OrderIsDistinct();
    WrittenTexts(m, ORDER);
    WrittenMembers(m.fields, ORDER);
    WrittenOnce(m.fields, ORDER);
    hide ORDER, READABLE;
    var lines := Written(m.fields, ORDER);
    assert forall i :: 0 <= i < |lines| ==> lines[i] in lines;
  }

  lemma ReadableSuffices(m: RTSPMsg, t: MsgType)
    ensures Restricted(m, t, m.fields * READABLE) == Restricted(m, t, READABLE)
  {
    assert m.fields * (m.fields * READABLE) == m.fields * READABLE;
  }

  /** RTSP round trip: for every printable message, parsing what `write_rtsp` writes gives a 200 OK with
      its readable fields. */
  lemma RoundTrip(m: RTSPMsg)
    requires Printable(m)
    ensures Parse(Print(m)) == Parsed(Restricted(m, OK, READABLE))
  {
    WrittenAll(m);
    ReadableSuffices(m, OK);
    PrintIsMessage(m);
    assert CrFree("");
    hide *;
    MessageIsParsed(m, OK, "", Written(m.fields, ORDER), if F_DATA in m.fields then m.data else "");
  }

  lemma PrintIsMessage(m: RTSPMsg)
    requires Texts(m, Written(m.fields, ORDER)) == Lines(m, ORDER)
    ensures Print(m) == MessageOf(m, OK, "", Written(m.fields, ORDER), if F_DATA in m.fields then m.data else "")
  {
    hide Block, Lines, Texts, Written;
    assert STATUS + "" == STATUS;
  }

  // ----- lines in any spelling -----

  /** The line's own text holds what the conversions of its header look for. Where it does not, `sscanf` and
      `strstr` run on into the lines behind it. */
  predicate Complete(line: string) {
    match HeaderOf(line)
    case Some(F_CSEQ) => ScanInt(line[5..]).Some?
    case Some(F_SESSION) => ScanInt(line[8..]).Some?
    case Some(F_CONTLEN) => ScanInt(line[15..]).Some?
    case Some(F_CONTTYPE) => ScanWord(line[13..]).Some?
    case Some(F_RANGE) => ScanWord(line[6..]).Some?
    case Some(F_TRANSPORT) => ScanWord(line[11..]).Some? && Find(line, CLIENT_PORT).Some?
    case _ => true
  }

  lemma PortsInLine(line: string, rest: string, was: (string, string))
    requires Find(line, CLIENT_PORT).Some?
    ensures var x, a := line + (CRLF + rest), Find(line, CLIENT_PORT).value;
      Find(x, CLIENT_PORT) == Some(a) && ScanPorts(x[a + 12..], was) == ScanPorts(line[a + 12..], was)
  {
    hide Find, ScanPorts;
    var x, a := CRLF + rest, Find(line, CLIENT_PORT).value;
    FindInFront(line, x, CLIENT_PORT);
    assert (line + x)[a + 12..] == line[a + 12..] + x;
    PortsStop(line[a + 12..], x, was);
  }

  /** A complete line is read for itself, whatever follows. */
  lemma CompleteLineStandsAlone(line: string, rest: string, m: RTSPMsg)
    requires Complete(line)
    ensures ApplyLine(line, m).Some? && ApplyLine(line + (CRLF + rest), m) == ApplyLine(line, m)
  {
    HeaderIsInFront(line, rest);
    HeaderIsLong(line);
    hide HeaderOf, ScanInt, ScanWord, ScanPorts, Find;
    match HeaderOf(line)
    case Some(F_CSEQ) => IntInLine(line, 5, rest);
    case Some(F_SESSION) => IntInLine(line, 8, rest);
    case Some(F_CONTLEN) => IntInLine(line, 15, rest);
    case Some(F_CONTTYPE) => WordInLine(line, 13, rest);
    case Some(F_RANGE) => WordInLine(line, 6, rest);
    case Some(F_TRANSPORT) =>
      WordInLine(line, 11, rest);
      PortsInLine(line, rest, (m.clirtpport, m.clirtcpport));
    case _ =>
  }

  lemma HeaderIsLong(line: string)
    ensures match HeaderOf(line)
      case Some(F_CSEQ) => |line| >= 6
      case Some(F_SESSION) => |line| >= 9
      case Some(F_CONTLEN) => |line| >= 16
      case Some(F_CONTTYPE) => |line| >= 14
      case Some(F_RANGE) => |line| >= 7
      case Some(F_TRANSPORT) => |line| >= 11
      case _ => true
  {
  }

  /** The last line that is for the header. */
  function LastOf(lines: seq<string>, f: Field): Option<string> {
    if lines == [] then None
    else if HeaderOf(lines[|lines| - 1]) == Some(f) then Some(lines[|lines| - 1])
    else LastOf(lines[..|lines| - 1], f)
  }

  /** The client ports: a Transport line that names only one keeps the other of the line before it. */
  function PortsRead(lines: seq<string>): (string, string) {
    if lines == [] then ("", "")
    else
      var l, before := lines[|lines| - 1], PortsRead(lines[..|lines| - 1]);
      if HeaderOf(l) != Some(F_TRANSPORT) then before
      else
        match Find(l, CLIENT_PORT)
        case None => before
        case Some(a) => ScanPorts(l[a + 12..], before)
  }

  /** The fields that have a line. */
  function Fields(lines: seq<string>): set<Field> {
    set f | f in READABLE && LastOf(lines, f).Some?
  }

  /** What the lines say: each field the value of its last line. */
  function Said(lines: seq<string>, t: MsgType): RTSPMsg {
    RTSPMsg({F_TYPE} + Fields(lines), t,
            IntOf(LastOf(lines, F_CSEQ), 5), IntOf(LastOf(lines, F_SESSION), 8), IntOf(LastOf(lines, F_CONTLEN), 15),
            WordOf(LastOf(lines, F_TRANSPORT), 11), PortsRead(lines).0, PortsRead(lines).1,
            "", WordOf(LastOf(lines, F_CONTTYPE), 13), "", WordOf(LastOf(lines, F_RANGE), 6))
  }

  lemma LastOfSnoc(lines: seq<string>, l: string, f: Field)
    ensures LastOf(lines + [l], f) == if HeaderOf(l) == Some(f) then Some(l) else LastOf(lines, f)
    ensures PortsRead(lines + [l]) == if HeaderOf(l) != Some(F_TRANSPORT) then PortsRead(lines) else
      match Find(l, CLIENT_PORT)
      case None => PortsRead(lines)
      case Some(a) => ScanPorts(l[a + 12..], PortsRead(lines))
  {
    hide HeaderOf, Find, ScanPorts;
    assert (lines + [l])[..|lines|] == lines;
  }

  lemma FieldsSaid(lines: seq<string>, l: string)
    ensures Fields(lines + [l]) == Fields(lines) + if HeaderOf(l).Some? then {HeaderOf(l).value} else {}
  {
    hide HeaderOf, LastOf;
    HeaderIsReadable(l);
    forall f
      ensures LastOf(lines + [l], f) == if HeaderOf(l) == Some(f) then Some(l) else LastOf(lines, f)
    {
      LastOfSnoc(lines, l, f);
    }
  }

  lemma HeaderIsReadable(l: string)
    ensures HeaderOf(l).Some? ==> HeaderOf(l).value in READABLE
  {
    hide StartsWith;
  }

  lemma OneMoreSaid(lines: seq<string>, l: string, t: MsgType)
    requires Complete(l)
    ensures ApplyLine(l, Said(lines, t)) == Some(Said(lines + [l], t))
  {
    HeaderIsLong(l);
    FieldsSaid(lines, l);
    HeaderIsReadable(l);
    hide HeaderOf, ScanInt, ScanWord, ScanPorts, Find, LastOf, PortsRead, Fields;
    LastOfSnoc(lines, l, F_CSEQ);
    LastOfSnoc(lines, l, F_SESSION);
    LastOfSnoc(lines, l, F_CONTLEN);
    LastOfSnoc(lines, l, F_CONTTYPE);
    LastOfSnoc(lines, l, F_RANGE);
    LastOfSnoc(lines, l, F_TRANSPORT);
    var x := {F_TYPE} + Fields(lines);
    assert HeaderOf(l).None? ==> Fields(lines + [l]) == Fields(lines);
    assert HeaderOf(l).Some? ==> {F_TYPE} + Fields(lines + [l]) == x + {HeaderOf(l).value};
  }

  lemma {:induction false} FoldSaid(done: seq<string>, lines: seq<string>, tail: string, t: MsgType)
    requires forall l :: l in lines ==> Complete(l)
    ensures Fold(lines, CRLF + tail, Said(done, t), ApplyLine) == Some(Said(done + lines, t))
    decreases |lines|
  {
    hide ApplyLine, Said, Complete, Block;
    if lines == [] {
      assert done + lines == done;
    } else {
      var l, rest := lines[0], Block(lines[1..]) + (CRLF + tail);
      assert lines == [l] + lines[1..] && l in lines;
      FoldTakesFirst(l, lines[1..], CRLF + tail, Said(done, t), ApplyLine);
      CompleteLineStandsAlone(l, rest, Said(done, t));
      OneMoreSaid(done, l, t);
      FoldSaid(done + [l], lines[1..], tail, t);
      assert done + [l] + lines[1..] == done + lines;
    }
  }

  /** The text of a message with these lines behind its first. */
  function TextOf(t: MsgType, uri: string, lines: seq<string>, body: string): string {
    Block([Name(t) + uri] + lines) + (CRLF + body)
  }

  /** Every message whose lines are complete, in any spelling, order and number, known and unknown ones: it is
      parsed to its type and, for each field, the value of its last line. */
  lemma TextIsParsed(t: MsgType, uri: string, lines: seq<string>, body: string)
    requires CrFree(uri) && Clean(lines) && forall l :: l in lines ==> Complete(l)
    ensures Parse(TextOf(t, uri, lines, body)) == Parsed(Said(lines, t))
  {
    NameIsListed(t);
    assert Clean([Name(t) + uri] + lines);
    NothingSaid(t);
    hide *;
    var first, rest := Name(t) + uri, CRLF + (Block(lines) + (CRLF + body));
    assert first + rest == Name(t) + (uri + rest);
    NoEffect(Name(t), uri + rest, Said([], t));
    FoldTakesFirst(first, lines, CRLF + body, Said([], t), ApplyLine);
    FoldSaid([], lines, body, t);
    assert [] + lines == lines;
    TextParses(t, uri, lines, body);
  }

  lemma NothingSaid(t: MsgType)
    ensures Said([], t) == ZERO.(msgType := t, fields := {F_TYPE})
  {
    assert Fields([]) == {};
    assert {F_TYPE} + {} == {F_TYPE};
  }

  lemma TextParses(t: MsgType, uri: string, lines: seq<string>, body: string)
    requires Clean([Name(t) + uri] + lines)
    requires Said([], t) == ZERO.(msgType := t, fields := {F_TYPE})
    requires Fold([Name(t) + uri] + lines, CRLF + body, Said([], t), ApplyLine) == Some(Said(lines, t))
    ensures Parse(TextOf(t, uri, lines, body)) == Parsed(Said(lines, t))
  {
    hide Clean, Name, Block, Fold, ApplyLine, Said, Parse;
    BlockParses(t, uri, lines, body, Said(lines, t));
  }

  // ----- types and ports, from the text alone -----

  /** A text with a blank line is read as what its first word says, and is unsupported exactly if it begins with none
      of the six; without a blank line, or with nothing in front of it, anything is read as an OPTIONS without a field. */
  lemma TypeIsRead(buffer: string)
    ensures Find(buffer, BLANK_LINE).None? || Find(buffer, BLANK_LINE) == Some(0) ==>
              Parse(buffer).Parsed? && Parse(buffer).msg.msgType == OPTIONS && Parse(buffer).msg.fields == {}
    ensures Find(buffer, BLANK_LINE).Some? && Parse(buffer).Parsed? ==>
              && (StartsWith(buffer, "OPTIONS") ==> Parse(buffer).msg.msgType == OPTIONS)
              && (StartsWith(buffer, "DESCRIBE") ==> Parse(buffer).msg.msgType == DESCRIBE)
              && (StartsWith(buffer, "SETUP") ==> Parse(buffer).msg.msgType == SETUP)
              && (StartsWith(buffer, "PLAY") ==> Parse(buffer).msg.msgType == PLAY)
              && (StartsWith(buffer, "TEARDOWN") ==> Parse(buffer).msg.msgType == TEARDOWN)
              && (StartsWith(buffer, "RTSP/1.0 200 OK") ==> Parse(buffer).msg.msgType == OK)
    ensures Find(buffer, BLANK_LINE).Some? && Find(buffer, BLANK_LINE) != Some(0) ==>
              (Parse(buffer).Unsupported? <==>
                 forall w :: w in {"OPTIONS", "DESCRIBE", "SETUP", "PLAY", "TEARDOWN", "RTSP/1.0 200 OK"} ==> !StartsWith(buffer, w))
  {
    FindIsFirst(buffer, BLANK_LINE);
    WordIsType(buffer);
    ParseStarts(buffer);
    if Find(buffer, BLANK_LINE).Some? && TypeOf(buffer).Some? {
      ScanKeepsType(buffer, Find(buffer, BLANK_LINE).value, ZERO.(msgType := TypeOf(buffer).value, fields := {F_TYPE}));
    }
    hide Parse, TypeOf, Find, StartsWith, ScanLines;
  }

  /** Every type word differs from the others within the first two characters, and none begins with CR. */
  lemma WordIsType(buffer: string)
    ensures StartsWith(buffer, "OPTIONS") <==> TypeOf(buffer) == Some(OPTIONS)
    ensures StartsWith(buffer, "DESCRIBE") <==> TypeOf(buffer) == Some(DESCRIBE)
    ensures StartsWith(buffer, "SETUP") <==> TypeOf(buffer) == Some(SETUP)
    ensures StartsWith(buffer, "PLAY") <==> TypeOf(buffer) == Some(PLAY)
    ensures StartsWith(buffer, "TEARDOWN") <==> TypeOf(buffer) == Some(TEARDOWN)
    ensures StartsWith(buffer, "RTSP/1.0 200 OK") <==> TypeOf(buffer) == Some(OK)
    ensures TypeOf(buffer).Some? ==> !StartsWith(buffer, BLANK_LINE)
  {
    FirstLetter(buffer, "OPTIONS");
    FirstLetter(buffer, "DESCRIBE");
    FirstLetter(buffer, "SETUP");
    FirstLetter(buffer, "PLAY");
    FirstLetter(buffer, "TEARDOWN");
    FirstLetter(buffer, STATUS);
    FirstLetter(buffer, BLANK_LINE);
    hide StartsWith;
  }

  lemma {:induction false} ScanKeepsType(text: string, left: int, m: RTSPMsg)
    ensures var r := ScanLines(text, left, m, ApplyLine); r.Some? ==> r.value.0.msgType == m.msgType
    decreases |text|
  {
    hide Find;
    var next, k := ApplyLine(text, m), Find(text, CRLF);
    assert next.Some? ==> next.value.msgType == m.msgType by { LineKeepsType(text, m); }
    hide ApplyLine;
    if left > 0 && next.Some? && k.Some? {
      ScanKeepsType(text[k.value + 2..], left - (k.value + 2), next.value);
    }
  }

  lemma LineKeepsType(text: string, m: RTSPMsg)
    ensures ApplyLine(text, m).Some? ==> ApplyLine(text, m).value.msgType == m.msgType
  {
    hide HeaderOf, Find, ScanInt, ScanWord, ScanPorts;
  }

  predicate AllDigits(s: string) {
    s != "" && forall i :: 0 <= i < |s| ==> IsDigit(s[i])
  }

  /** Nothing that the digits in front would run on into. */
  predicate NoDigitFirst(s: string) {
    s == "" || !IsDigit(s[0])
  }

  lemma TwoPortsAreScanned(a: string, b: string, rest: string, was: (string, string))
    requires AllDigits(a) && AllDigits(b) && NoDigitFirst(rest)
    ensures ScanPorts(a + ("-" + (b + rest)), was) == (a, b)
  {
    PrefixStops(a, "-" + (b + rest), IsDigit);
    PrefixStops(b, rest, IsDigit);
    assert (a + ("-" + (b + rest)))[|a|..] == "-" + (b + rest);
    assert ("-" + (b + rest))[1..] == b + rest;
    hide Prefix;
  }

  lemma OnePortIsScanned(a: string, rest: string, was: (string, string))
    requires AllDigits(a) && NoDigitFirst(rest) && (rest != "" && rest[0] == '-' ==> NoDigitFirst(rest[1..]))
    ensures ScanPorts(a + rest, was) == (a, was.1)
  {
    PrefixStops(a, rest, IsDigit);
    assert (a + rest)[|a|..] == rest;
    if rest != "" && rest[0] == '-' {
      PrefixStops("", rest[1..], IsDigit);
      assert "" + rest[1..] == rest[1..];
    }
    hide Prefix;
  }

  lemma {:induction false} PortsOfLast(before: seq<string>, l: string, after: seq<string>)
    requires forall x :: x in after ==> HeaderOf(x) != Some(F_TRANSPORT)
    ensures PortsRead(before + [l] + after) == PortsRead(before + [l])
    decreases |after|
  {
    hide HeaderOf;
    if after == [] {
      assert before + [l] + after == before + [l];
    } else {
      var n := |after| - 1;
      assert after == after[..n] + [after[n]] && after[n] in after;
      PortsOfLast(before, l, after[..n]);
      LastOfSnoc(before + [l] + after[..n], after[n], F_TRANSPORT);
      assert before + [l] + after == before + [l] + after[..n] + [after[n]];
    }
  }

  /** The ports that the text of a message names. Its last Transport line reads `client_port=a-b`: they are `a` for
      RTP and `b` for RTCP. It reads `client_port=a` alone: `a` for RTP, and RTCP as the lines before it left it. */
  lemma PortsAreRead(t: MsgType, uri: string, before: seq<string>, p: string, a: string, rest: string, after: seq<string>, body: string)
    requires AllDigits(a) && NoDigitFirst(rest)
    requires var l := "Transport: " + p + "client_port=" + (a + rest);
      && Find(l, "client_port=") == Some(11 + |p|)
      && CrFree(uri) && Clean(before + [l] + after) && forall x :: x in before + [l] + after ==> Complete(x)
    requires forall x :: x in after ==> HeaderOf(x) != Some(F_TRANSPORT)
    ensures var lines := before + ["Transport: " + p + "client_port=" + (a + rest)] + after;
      var r := Parse(TextOf(t, uri, lines, body));
      && r.Parsed? && r.msg.msgType == t && r.msg.clirtpport == a
      && (forall b, x :: rest == "-" + (b + x) && AllDigits(b) && NoDigitFirst(x) ==> r.msg.clirtcpport == b)
      && (rest == "" || rest[0] != '-' || NoDigitFirst(rest[1..]) ==>
            && Parse(TextOf(t, uri, before, body)).Parsed?
            && r.msg.clirtcpport == Parse(TextOf(t, uri, before, body)).msg.clirtcpport)
  {
    hide *;
    var l := "Transport: " + p + "client_port=" + (a + rest);
    var lines := before + [l] + after;
    TextIsParsed(t, uri, lines, body);
    assert before + ([l] + after) == lines;
    FrontIsToo(before, [l] + after);
    TextIsParsed(t, uri, before, body);
    TransportNames(before, l, p, a + rest);
    PortsOfLast(before, l, after);
    SaidPorts(lines, t);
    SaidPorts(before, t);
    ScannedPorts(a, rest, PortsRead(before));
  }

  lemma SaidPorts(lines: seq<string>, t: MsgType)
    ensures (Said(lines, t).clirtpport, Said(lines, t).clirtcpport) == PortsRead(lines) && Said(lines, t).msgType == t
  {
  }

  lemma ScannedPorts(a: string, rest: string, was: (string, string))
    requires AllDigits(a) && NoDigitFirst(rest)
    ensures ScanPorts(a + rest, was).0 == a
    ensures forall b, x :: rest == "-" + (b + x) && AllDigits(b) && NoDigitFirst(x) ==> ScanPorts(a + rest, was).1 == b
    ensures rest == "" || rest[0] != '-' || NoDigitFirst(rest[1..]) ==> ScanPorts(a + rest, was).1 == was.1
  {
    FirstPortIsScanned(a, rest, was);
    hide ScanPorts, AllDigits;
    forall b, x | rest == "-" + (b + x) && AllDigits(b) && NoDigitFirst(x)
      ensures ScanPorts(a + rest, was).1 == b
    {
      TwoPortsAreScanned(a, b, x, was);
    }
    if rest == "" || rest[0] != '-' || NoDigitFirst(rest[1..]) {
      OnePortIsScanned(a, rest, was);
    }
  }

  lemma FirstPortIsScanned(a: string, rest: string, was: (string, string))
    requires AllDigits(a) && NoDigitFirst(rest)
    ensures ScanPorts(a + rest, was).0 == a
  {
    PrefixStops(a, rest, IsDigit);
    hide Prefix;
  }

  lemma FrontIsToo(before: seq<string>, more: seq<string>)
    requires Clean(before + more) && forall x :: x in before + more ==> Complete(x)
    ensures Clean(before) && forall x :: x in before ==> Complete(x)
  {
    hide Complete, CrFree;
    var lines := before + more;
    assert forall i :: 0 <= i < |before| ==> before[i] == lines[i];
    assert forall x :: x in before ==> x in lines;
  }

  lemma TransportNames(before: seq<string>, l: string, p: string, tail: string)
    requires l == "Transport: " + p + "client_port=" + tail && Find(l, "client_port=") == Some(11 + |p|)
    ensures PortsRead(before + [l]) == ScanPorts(tail, PortsRead(before))
  {
    assert l == "Transport: " + (p + "client_port=" + tail);
    HeaderIsRecognised("Transport: ", p + "client_port=" + tail);
    LastOfSnoc(before, l, F_TRANSPORT);
    hide HeaderOf, Find, ScanPorts, PortsRead;
    assert l[11 + |p| + 12..] == tail;
  }

  /** A line without its value is not read for itself: the number comes from the next line. */
  lemma IncompleteLineRunsOn(m: RTSPMsg)
    ensures !Complete("CSeq: ")
    ensures ApplyLine("CSeq: " + (CRLF + "7"), m) == Some(m.(cseq := 7, fields := m.fields + {F_CSEQ}))
  {
    var text, rest := "CSeq: " + (CRLF + "7"), CRLF + "7";
    HeaderIsRecognised("CSeq: ", "");
    HeaderIsRecognised("CSeq: ", rest);
    assert "CSeq: " + "" == "CSeq: " && "CSeq: "[5..] == " " && " "[1..] == "";
    assert text[5..] == " " + rest && (" " + rest)[1..] == rest && rest[1..] == "\n7" && "\n7"[1..] == "7";
    PrintedIntReadsBack(7, "");
    assert PrintInt(7) + "" == "7";
    hide HeaderOf;
    assert SkipSpace(" " + rest) == SkipSpace(rest) == SkipSpace("\n7") == SkipSpace("7") == "7";
  }

  // ----- the replies -----

  /** The part of `Client` that the reply builders write. */
  class Client {
    var cseq: int
    var session: int

    constructor ()
      ensures cseq == 0 && session == 0
    {
      cseq, session := 0, 0;
    }
  }

  /** The reply to OPTIONS: the request's fields, the last CRLF overwritten by the Public header. */
  function OptionsReply(m: RTSPMsg): string {
    var p := Print(m);
    if |p| < 2 then p else p[..|p| - 2] + (PublicLine() + BLANK_LINE)
  }

  method RtspOptions(m: RTSPMsg, client: Client) returns (buf: string)
    modifies client`cseq
    ensures client.cseq == m.cseq + 1 && buf == OptionsReply(m)
  {
    client.cseq := m.cseq + 1;
    var n;
    buf, n := WriteRtsp(m);
    PrintIsLong(m);
    buf := buf[..n - 2] + ("Public: " + "DESCRIBE, SETUP, PLAY, TEARDOWN" + BLANK_LINE);
  }

  lemma PrintIsLong(m: RTSPMsg)
    ensures |Print(m)| >= 2
  {
  }

  /** The lines of the reply to OPTIONS. */
  function OptionsLines(m: RTSPMsg): seq<Line> {
    Written(m.fields, ORDER) + [Other(PublicLine())]
  }

  lemma PublicIsOther(m: RTSPMsg)
    ensures LineOk(m, Other(PublicLine()))
  {
    HeaderIsRecognised("Public: ", Methods());
    PublicIsClean();
    hide *;
    OtherIsOk(m, PublicLine());
  }

  lemma OtherIsOk(m: RTSPMsg, text: string)
    requires text != "" && CrFree(text) && HeaderOf(text).None?
    ensures LineOk(m, Other(text))
  {
    hide CrFree, HeaderOf;
  }

  lemma PublicIsClean()
    ensures PublicLine() == "Public: " + Methods() && PublicLine() != "" && CrFree(PublicLine())
  {
    assert CrFree("Public: ") && CrFree(Methods());
    hide Methods;
    CleanLine("Public: ", Methods());
  }

  lemma {:induction false} TextsOfSnoc(m: RTSPMsg, lines: seq<Line>, l: Line)
    ensures Texts(m, lines + [l]) == Texts(m, lines) + [Text(m, l)]
  {
    hide Text;
    if lines == [] {
      assert (lines + [l])[1..] == [];
    } else {
      assert (lines + [l])[1..] == lines[1..] + [l];
      TextsOfSnoc(m, lines[1..], l);
    }
  }

  lemma OptionsLinesAre(m: RTSPMsg)
    ensures Texts(m, OptionsLines(m)) == Lines(m, ORDER) + [PublicLine()]
    ensures Arranged(m, OptionsLines(m)) && Readable(OptionsLines(m)) == m.fields * READABLE
  {
    WrittenAll(m);
    PublicIsOther(m);
    hide PublicLine, Written, Lines;
    var lines, l := Written(m.fields, ORDER), Other(PublicLine());
    TextsOfSnoc(m, lines, l);
    assert forall i :: 0 <= i < |lines| ==> lines[i] in lines;
    assert Readable(lines + [l]) == Readable(lines);
  }

  /** For a request without a body the reply to OPTIONS reads back like the plain message. */
  lemma OptionsReplyReadsBack(m: RTSPMsg)
    requires Printable(m) && F_DATA !in m.fields
    ensures Parse(OptionsReply(m)) == Parsed(Restricted(m, OK, READABLE))
  {
    OptionsLinesAre(m);
    ReadableSuffices(m, OK);
    assert CrFree("");
    OptionsReplyIsMessage(m);
    hide *;
    MessageIsParsed(m, OK, "", OptionsLines(m), "");
  }

  lemma OptionsReplyIsMessage(m: RTSPMsg)
    requires F_DATA !in m.fields && Texts(m, OptionsLines(m)) == Lines(m, ORDER) + [PublicLine()]
    ensures OptionsReply(m) == MessageOf(m, OK, "", OptionsLines(m), "")
  {
    hide Block, Lines, PublicLine, OptionsLines, Texts;
    var front, extra := [STATUS] + Lines(m, ORDER), [PublicLine()];
    BlockOfAppend(front, extra);
    BlockOfOne(PublicLine());
    assert STATUS + "" == STATUS;
    assert [Name(OK) + ""] + (Lines(m, ORDER) + extra) == front + extra;
    assert Print(m) == Block(front) + CRLF;
    assert OptionsReply(m) == Block(front) + (PublicLine() + BLANK_LINE);
    assert BLANK_LINE == CRLF + (CRLF + "");
    assert OptionsReply(m) == Block(front + extra) + (CRLF + "");
  }

  /** The session description sent to every client. */
  const SDP := "v=0\r\no=testi\r\ns=mpeg4video\r\nt=0 0\r\na=recvonly\r\nm=audio 40408 RTP/AVP 8\r\nm=video 40404 RTP/AVP 96\r\na=rtpmap:96 H264/90000\r\na=fmtp:96 packetization-mode=1\r\n"

  function DescribeReply(cseq: int, date: string): RTSPMsg {
    ZERO.(fields := {F_CSEQ, F_DATE, F_CONTTYPE, F_CONTLEN, F_DATA}, cseq := cseq, date := date,
          contenttype := "application/sdp", data := SDP, contentlen := |SDP|)
  }

  /** The reply to DESCRIBE takes its CSeq from the client record and not from the request. */
  method RtspDescribe(client: Client, date: string) returns (buf: string)
    modifies client`cseq
    ensures client.cseq == old(client.cseq) + 1 && buf == Print(DescribeReply(old(client.cseq), date))
  {
    var newmsg := ZERO.(fields := {F_CSEQ, F_DATE, F_CONTTYPE, F_CONTLEN, F_DATA}, cseq := client.cseq);
    client.cseq := client.cseq + 1;
    newmsg := newmsg.(date := date, contenttype := "application/sdp", data := SDP);
    newmsg := newmsg.(contentlen := |newmsg.data|);
    var n;
    buf, n := WriteRtsp(newmsg);
  }

  function ServerPort(rtp: int, rtcp: int): string {
    ";server_port=" + PrintInt(rtp) + "-" + PrintInt(rtcp)
  }

  function SetupReply(m: RTSPMsg, session: int, rtp: int, rtcp: int): RTSPMsg {
    m.(session := session, fields := m.fields + {F_SESSION}, transport := m.transport + ServerPort(rtp, rtcp))
  }

  method RtspSetup(m: RTSPMsg, client: Client, rtp: int, rtcp: int, random: nat) returns (buf: string)
    modifies client`session
    ensures client.session == random % 1000000 && buf == Print(SetupReply(m, client.session, rtp, rtcp))
  {
    var newmsg := m;
    client.session := random % 1000000;
    newmsg := newmsg.(session := client.session);
    newmsg := newmsg.(fields := newmsg.fields + {F_SESSION});
    newmsg := newmsg.(transport := newmsg.transport + (";server_port=" + PrintInt(rtp) + "-" + PrintInt(rtcp)));
    var n;
    buf, n := WriteRtsp(newmsg);
  }

  /** The appended server ports leave the client ports of the Transport value as they were. */
  lemma SetupReplyReadsBack(m: RTSPMsg, session: int, rtp: int, rtcp: int)
    requires Printable(m)
    ensures var r := SetupReply(m, session, rtp, rtcp);
      && Parse(Print(r)) == Parsed(Restricted(r, OK, READABLE))
      && (F_TRANSPORT in m.fields ==> PortsOf(r.transport) == PortsOf(m.transport))
  {
    var r := SetupReply(m, session, rtp, rtcp);
    if F_TRANSPORT in m.fields {
      SuffixKeepsPorts(m.transport, rtp, rtcp);
    }
    hide Parse, Print, Restricted, Find, PortsOf;
    RoundTrip(r);
  }

  lemma SuffixKeepsPorts(t: string, rtp: int, rtcp: int)
    requires Word(t) && Find(t, CLIENT_PORT).Some?
    ensures var u := t + ServerPort(rtp, rtcp); Word(u) && Find(u, CLIENT_PORT).Some? && PortsOf(u) == PortsOf(t)
  {
    var suffix := ServerPort(rtp, rtcp);
    ServerPortIsWord(rtp, rtcp);
    WordAppend(t, suffix);
    FindInFront(t, suffix, CLIENT_PORT);
    var a := Find(t, CLIENT_PORT).value;
    PortsOfIs(t);
    PortsOfIs(t + suffix);
    assert !IsDigit(suffix[0]);
    hide *;
    SuffixIsBehind(t, suffix, a + 12);
    PortsStop(t[a + 12..], suffix, ("", ""));
  }

  lemma SuffixIsBehind(t: string, suffix: string, k: nat)
    requires k <= |t|
    ensures (t + suffix)[k..] == t[k..] + suffix
  {
  }

  lemma PortsOfIs(t: string)
    requires Find(t, CLIENT_PORT).Some?
    ensures PortsOf(t) == ScanPorts(t[Find(t, CLIENT_PORT).value + 12..], ("", ""))
  {
    hide ScanPorts, Find;
  }

  lemma WordAppend(v: string, w: string)
    requires Word(v) && Word(w)
    ensures Word(v + w)
  {
    hide IsSpace;
  }

  lemma ServerPortIsWord(rtp: int, rtcp: int)
    ensures Word(ServerPort(rtp, rtcp)) && ServerPort(rtp, rtcp)[0] == ';'
  {
    NumberIsWord(rtp);
    NumberIsWord(rtcp);
    hide PrintInt;
  }

  lemma NumberIsWord(n: int)
    ensures forall i :: 0 <= i < |PrintInt(n)| ==> !IsSpace(PrintInt(n)[i])
  {
    PrintedValue(if n < 0 then -n else n);
    hide PrintNat;
  }

  /** `fields ^= F_SESSION`: the bit is toggled. */
  function PlayReply(m: RTSPMsg, date: string): RTSPMsg {
    var fields := m.fields + {F_DATE};
    m.(date := date, fields := if F_SESSION in fields then fields - {F_SESSION} else fields + {F_SESSION})
  }

  method RtspPlay(m: RTSPMsg, date: string) returns (buf: string)
    ensures buf == Print(PlayReply(m, date))
  {
    var newmsg := m.(date := date);
    newmsg := newmsg.(fields := newmsg.fields + {F_DATE});
    newmsg := newmsg.(fields := newmsg.fields - {F_SESSION} + ({F_SESSION} - newmsg.fields));
    assert newmsg.fields == PlayReply(m, date).fields;
    var n;
    buf, n := WriteRtsp(newmsg);
  }

  /** Of the toggled bit the client sees this: the reply to PLAY carries a Session exactly if the request did
      not. */
  lemma PlayTogglesSession(m: RTSPMsg, date: string)
    requires Printable(m) && CrFree(date)
    ensures Parse(Print(PlayReply(m, date))).Parsed?
    ensures F_SESSION in Parse(Print(PlayReply(m, date))).msg.fields <==> F_SESSION !in m.fields
  {
    hide Parse, Print, PortsOf, Find;
    RoundTrip(PlayReply(m, date));
  }

  function TeardownReply(m: RTSPMsg): RTSPMsg {
    m.(msgType := OK, fields := {F_SESSION, F_CSEQ})
  }

  method RtspTeardown(m: RTSPMsg) returns (buf: string)
    ensures buf == Print(TeardownReply(m))
  {
    var newmsg := m;
    newmsg := newmsg.(msgType := OK, cseq := m.cseq, session := m.session);
    newmsg := newmsg.(fields := {});
    newmsg := newmsg.(fields := newmsg.fields + {F_SESSION});
    newmsg := newmsg.(fields := newmsg.fields + {F_CSEQ});
    assert newmsg.fields == {F_SESSION, F_CSEQ};
    var n;
    buf, n := WriteRtsp(newmsg);
  }

  /** What follows the blank line is the body, and nothing else. */
  lemma BodyIsBehind(m: RTSPMsg)
    requires Printable(m)
    ensures Find(Print(m), BLANK_LINE).Some?
    ensures var k := Find(Print(m), BLANK_LINE).value;
      k + 4 <= |Print(m)| && Print(m)[k + 4..] == if F_DATA in m.fields then m.data else ""
  {
    var body := if F_DATA in m.fields then m.data else "";
    WrittenAll(m);
    TextsAreClean(m, Written(m.fields, ORDER));
    assert STATUS != "" && CrFree(STATUS);
    assert Clean(HeaderLines(m));
    hide Clean, Find, Block, Lines;
    HeaderEnds(HeaderLines(m), body);
    var front := Block(HeaderLines(m));
    assert Print(m) == front + (CRLF + body);
    assert (front + (CRLF + body))[|front| + 2..] == body;
  }

  /** The reply to DESCRIBE brings the session description, announced with its type and length. */
  lemma DescribeReplyReadsBack(cseq: int, date: string)
    requires CrFree(date)
    ensures var text := Print(DescribeReply(cseq, date));
      && Find(text, BLANK_LINE).Some? && Find(text, BLANK_LINE).value + 4 <= |text|
      && var body := text[Find(text, BLANK_LINE).value + 4..];
      && body == SDP && Parse(text).Parsed?
      && Parse(text).msg.contenttype == "application/sdp" && Parse(text).msg.contentlen == |body|
  {
    hide Parse, Print, Find, SDP;
    BodyIsBehind(DescribeReply(cseq, date));
    RoundTrip(DescribeReply(cseq, date));
  }

  /** The reply to OPTIONS ends with the methods the server offers. */
  lemma OptionsReplyOffers(m: RTSPMsg)
    ensures var text, offer := OptionsReply(m), "Public: " + "DESCRIBE, SETUP, PLAY, TEARDOWN" + "\r\n\r\n";
      |offer| <= |text| && text[|text| - |offer|..] == offer
  {
    PrintIsLong(m);
    assert PublicLine() == "Public: " + "DESCRIBE, SETUP, PLAY, TEARDOWN";
    hide *;
    EndsWith(m, Print(m), PublicLine() + BLANK_LINE);
  }

  lemma EndsWith(m: RTSPMsg, p: string, offer: string)
    requires p == Print(m) && |p| >= 2 && offer == PublicLine() + BLANK_LINE
    ensures |offer| <= |OptionsReply(m)| && OptionsReply(m)[|OptionsReply(m)| - |offer|..] == offer
  {
    hide Print, PublicLine, BLANK_LINE;
    assert OptionsReply(m) == p[..|p| - 2] + offer;
  }

  /** The reply to SETUP names the server's ports behind the client's Transport value: RTP, then RTCP. */
  lemma SetupReplyTellsPorts(m: RTSPMsg, session: int, rtp: int, rtcp: int)
    requires Printable(m) && F_TRANSPORT in m.fields
    ensures var r := Parse(Print(SetupReply(m, session, rtp, rtcp)));
      && r.Parsed? && r.msg.session == session
      && r.msg.transport == m.transport + (";server_port=" + PrintInt(rtp) + "-" + PrintInt(rtcp))
  {
    hide Parse, Print, Find, PortsOf, PrintInt;
    SetupReplyReadsBack(m, session, rtp, rtcp);
  }

  /** The reply to TEARDOWN carries the request's CSeq and session, and no other field. */
  lemma TeardownReplyReadsBack(m: RTSPMsg)
    ensures var r := Parse(Print(TeardownReply(m)));
      r.Parsed? && r.msg.cseq == m.cseq && r.msg.session == m.session && r.msg.fields == {F_TYPE, F_CSEQ, F_SESSION}
  {
    hide Parse, Print, Find, PortsOf;
    RoundTrip(TeardownReply(m));
  }

  lemma {:induction false} LineHasPlace(m: RTSPMsg, order: seq<Field>, f: Field) returns (i: nat)
    requires f in order && f in m.fields
    ensures i < |Lines(m, order)| && Lines(m, order)[i] == Header(m, f)
    decreases |order|
  {
    hide Header;
    if order[0] == f {
      i := 0;
    } else {
      i := LineHasPlace(m, order[1..], f);
      if order[0] in m.fields {
        i := i + 1;
      }
    }
  }

  /** Every field that is on has its line. */
  lemma LineIsWritten(m: RTSPMsg, f: Field)
    requires f in ORDER && f in m.fields
    ensures Find(Print(m), CRLF + Header(m, f) + CRLF).Some?
  {
    hide Header, Find, Lines, Block;
    var i := LineHasPlace(m, ORDER, f);
    var front, rest := LineIsInBlock(HeaderLines(m), i + 1);
    var tail, p := CRLF + (if F_DATA in m.fields then m.data else ""), CRLF + Header(m, f) + CRLF;
    assert Print(m) == front + (p + (rest + tail));
    FoundBehind(front, p, rest + tail);
  }

  /** The replies to PLAY and DESCRIBE are dated. */
  lemma RepliesAreDated(m: RTSPMsg, cseq: int, date: string)
    ensures Find(Print(PlayReply(m, date)), CRLF + ("Date: " + date) + CRLF).Some?
    ensures Find(Print(DescribeReply(cseq, date)), CRLF + ("Date: " + date) + CRLF).Some?
  {
    hide Print, Find;
    LineIsWritten(PlayReply(m, date), F_DATE);
    LineIsWritten(DescribeReply(cseq, date), F_DATE);
  }

  /** What a client reads in a reply's CSeq. */
  predicate Reads(reply: string, cseq: int) {
    Parse(reply).Parsed? && Parse(reply).msg.cseq == cseq
  }

  lemma CSeqReadsBack(m: RTSPMsg)
    requires Printable(m) && F_CSEQ in m.fields
    ensures Reads(Print(m), m.cseq)
  {
    hide Parse, Print, PortsOf;
    RoundTrip(m);
  }

  /** The CSeq a client reads in each reply: the request's own, except for DESCRIBE, whose reply carries
      the client record's. */
  lemma RepliesEchoCSeq(m: RTSPMsg, session: int, rtp: int, rtcp: int, date: string, cseq: int)
    requires CrFree(date)
    ensures Printable(m) && F_CSEQ in m.fields ==>
      && (F_DATA !in m.fields ==> Reads(OptionsReply(m), m.cseq))
      && Reads(Print(SetupReply(m, session, rtp, rtcp)), m.cseq)
      && Reads(Print(PlayReply(m, date)), m.cseq)
    ensures Reads(Print(TeardownReply(m)), m.cseq)
    ensures Reads(Print(DescribeReply(cseq, date)), cseq)
  {
    hide Parse, Print, PortsOf, OptionsReply, Find, PrintInt, Reads;
    if Printable(m) && F_CSEQ in m.fields {
      if F_DATA !in m.fields {
        OptionsEcho(m);
      }
      assert Printable(SetupReply(m, session, rtp, rtcp)) by {
        if F_TRANSPORT in m.fields {
          SuffixKeepsPorts(m.transport, rtp, rtcp);
        }
      }
      hide ServerPort;
      CSeqReadsBack(SetupReply(m, session, rtp, rtcp));
      CSeqReadsBack(PlayReply(m, date));
    }
    CSeqReadsBack(TeardownReply(m));
    CSeqReadsBack(DescribeReply(cseq, date));
  }

  lemma OptionsEcho(m: RTSPMsg)
    requires Printable(m) && F_CSEQ in m.fields && F_DATA !in m.fields
    ensures Reads(OptionsReply(m), m.cseq)
  {
    hide Parse, OptionsReply, PortsOf, Printable;
    OptionsReplyReadsBack(m);
  }

  lemma ScannedIsWord(s: string)
    requires ScanWord(s).Some?
    ensures Word(ScanWord(s).value)
  {
    PrefixIsWord(SkipSpace(s));
  }

  lemma {:induction false} PrefixIsWord(s: string)
    ensures forall i :: 0 <= i < |Prefix(s, NotSpace)| ==> !IsSpace(Prefix(s, NotSpace)[i])
  {
    hide IsSpace;
    if s != "" && NotSpace(s[0]) {
      PrefixIsWord(s[1..]);
    }
  }

  lemma {:induction false} LastIsFor(lines: seq<string>, f: Field)
    requires LastOf(lines, f).Some?
    ensures LastOf(lines, f).value in lines && HeaderOf(LastOf(lines, f).value) == Some(f)
  {
    hide HeaderOf;
    if HeaderOf(lines[|lines| - 1]) != Some(f) {
      LastIsFor(lines[..|lines| - 1], f);
    }
  }

  /** What a client says can be printed back if the Transport value is one word that names a client port. */
  lemma SaidIsPrintable(lines: seq<string>, t: MsgType)
    requires forall l :: l in lines ==> Complete(l)
    requires LastOf(lines, F_TRANSPORT).Some? ==> Find(Said(lines, t).transport, CLIENT_PORT).Some?
    ensures Printable(Said(lines, t))
  {
    SaidIsWord(lines, F_CONTTYPE, 13);
    SaidIsWord(lines, F_TRANSPORT, 11);
    SaidIsWord(lines, F_RANGE, 6);
    hide Word, WordOf, Find, LastOf, IntOf, PortsRead;
  }

  lemma SaidIsWord(lines: seq<string>, f: Field, k: nat)
    requires forall l :: l in lines ==> Complete(l)
    requires (f == F_CONTTYPE && k == 13) || (f == F_TRANSPORT && k == 11) || (f == F_RANGE && k == 6)
    ensures LastOf(lines, f).Some? ==> Word(WordOf(LastOf(lines, f), k))
  {
    hide HeaderOf, ScanWord, Word, Find, LastOf, ScanInt;
    if LastOf(lines, f).Some? {
      var l := LastOf(lines, f).value;
      LastIsFor(lines, f);
      HeaderIsLong(l);
      ScannedIsWord(l[k..]);
    }
  }

  /** A whole exchange, for every SETUP request whose lines are complete, whatever their spelling and order,
      that has a CSeq and a Transport value naming a client port: the reply to what the server parsed reads back
      with the request's CSeq and client ports, and with the new session. */
  lemma SetupExchange(uri: string, lines: seq<string>, body: string, session: int, rtp: int, rtcp: int)
    requires CrFree(uri) && Clean(lines) && forall l :: l in lines ==> Complete(l)
    requires LastOf(lines, F_CSEQ).Some? && LastOf(lines, F_TRANSPORT).Some?
    requires Find(Said(lines, SETUP).transport, CLIENT_PORT).Some?
    ensures var request := Parse(TextOf(SETUP, uri, lines, body));
      request == Parsed(Said(lines, SETUP)) &&
      var reply := Parse(Print(SetupReply(request.msg, session, rtp, rtcp)));
      reply.Parsed? && reply.msg.msgType == OK && reply.msg.session == session
      && reply.msg.cseq == IntOf(LastOf(lines, F_CSEQ), 5)
      && (reply.msg.clirtpport, reply.msg.clirtcpport) == PortsOf(WordOf(LastOf(lines, F_TRANSPORT), 11))
  {
    TextIsParsed(SETUP, uri, lines, body);
    SaidIsPrintable(lines, SETUP);
    var request := Said(lines, SETUP);
    assert F_CSEQ in request.fields && F_TRANSPORT in request.fields && F_TRANSPORT in READABLE && F_CSEQ in READABLE;
    hide Parse, Print, TextOf, PortsOf, Find, ServerPort, LastOf, Clean, CrFree, Complete, IntOf, WordOf, PortsRead, Printable;
    SetupReplyReadsBack(request, session, rtp, rtcp);
  }
}
