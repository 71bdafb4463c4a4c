/** SIP messages: `parsesipmsg`, `write_sip`, `create_ok` and `create_bye` of `sipfunctions.c`. */
module Sip {
  import opened Wrappers
  import opened CStrings
  import opened MessageText

  datatype MsgType = INVITE | SIPOK | ACK | BYE

  // The bits of `fields`, by number. The mask of Content-Type covers two other fields' bits.
  const SIP_TYPE: set<nat> := {0}
  const SIP_VIA: set<nat> := {1}
  const SIP_FROM: set<nat> := {2}
  const SIP_TO: set<nat> := {3}
  const SIP_CSEQ: set<nat> := {5}
  const SIP_CALLID: set<nat> := {6}
  const SIP_CONTENTLEN: set<nat> := {7}
  const SIP_CONTENTS: set<nat> := {8}
  const SIP_CLIRTPPORT: set<nat> := {9}
  const SIP_CONTENTTYPE: set<nat> := {8, 9}

  datatype SIPMsg = SIPMsg(fields: set<nat>, msgType: MsgType, to: string, from: string, clirtpport: string, via: string,
                           callid: string, cseq: string, contentlen: int, contenttype: string, contents: string)

  /** What `memset` leaves: type 0 is INVITE. */
  const ZERO := SIPMsg({}, INVITE, "", "", "", "", "", "", 0, "", "")

  datatype Parsed = Parsed(msg: SIPMsg) | Unsupported(msg: SIPMsg) | Crash

  const STATUS := "SIP/2.0 200 OK"
  const BYE_LINE := "BYE sip:kaisa@localhost SIP/2.0"
  const SDP_TYPE := "application/sdp"
  const AUDIO := "m=audio"

  // ----- parsesipmsg -----

  function TypeOf(text: string): Option<MsgType> {
    if StartsWith(text, "INVITE") then Some(INVITE)
    else if StartsWith(text, "ACK") then Some(ACK)
    else if StartsWith(text, "BYE") then Some(BYE)
    else if StartsWith(text, STATUS) then Some(SIPOK)
    else None
  }

  datatype Header = From | Via | To | CSeq | CallId | ContentLength | ContentType

  /** The header a line is taken for. Of `To: ` only three characters are compared. */
  function HeaderOf(text: string): Option<Header> {
    if StartsWith(text, "From: ") then Some(From)
    else if StartsWith(text, "Via: ") then Some(Via)
    else if StartsWith(text, "To:") then Some(To)
    else if StartsWith(text, "CSeq: ") then Some(CSeq)
    else if StartsWith(text, "Call-ID: ") then Some(CallId)
    else if StartsWith(text, "Content-Length: ") then Some(ContentLength)
    else if StartsWith(text, "Content-Type: ") then Some(ContentType)
    else None
  }

  /** What the line that `text` starts with does to the message; a failed conversion changes no value. */
  function ApplyLine(text: string, m: SIPMsg): Option<SIPMsg> {
    match HeaderOf(text)
    case Some(From) => Some(m.(from := Or(ScanRest(text[5..]), m.from), fields := m.fields + SIP_FROM))
    case Some(Via) => Some(m.(via := Or(ScanRest(text[4..]), m.via), fields := m.fields + SIP_VIA))
    case Some(To) => Some(m.(to := Or(ScanRest(text[3..]), m.to), fields := m.fields + SIP_TO))
    case Some(CSeq) => Some(m.(cseq := Or(ScanRest(text[5..]), m.cseq), fields := m.fields + SIP_CSEQ))
    case Some(CallId) => Some(m.(callid := Or(ScanRest(text[8..]), m.callid), fields := m.fields + SIP_CALLID))
    case Some(ContentLength) =>
      Some(m.(contentlen := Or(ScanInt(text[15..]), m.contentlen), fields := m.fields + SIP_CONTENTLEN))
    case Some(ContentType) =>
      Some(m.(contenttype := Or(ScanWord(text[13..]), m.contenttype), fields := m.fields + SIP_CONTENTTYPE))
    case None => Some(m)
  }

  /** The word behind the first `m=audio`, if there is one. */
  function PortIn(rest: string): Option<Option<string>> {
    match Find(rest, AUDIO)
    case None => None
    case Some(k) => Some(ScanWord(rest[k + 7..]))
  }

  /** After the headers: the port of the audio line, when a session description is announced. */
  function Describe(m: SIPMsg, rest: string): Parsed {
    if m.contentlen > 0 && m.contenttype == SDP_TYPE then
      match PortIn(rest)
      case None => Crash
      case Some(port) => Parsed(m.(clirtpport := Or(port, m.clirtpport), fields := m.fields + SIP_CLIRTPPORT))
    else Parsed(m)
  }

  /** The parser's result. Without a blank line the header loop does not run. */
  function Parse(buffer: string): Parsed {
    match Find(buffer, BLANK_LINE)
    case None => Parsed(ZERO)
    case Some(end) =>
      if end == 0 then Parsed(ZERO)
      else
        match TypeOf(buffer)
        case None => Unsupported(ZERO)
        case Some(t) => Finish(buffer, end, ZERO.(msgType := t, fields := SIP_TYPE))
  }

  /** What the rest of the loop, and the part behind it, make of a message. */
  function Finish(text: string, left: int, m: SIPMsg): Parsed {
    match ScanLines(text, left, m, ApplyLine)
    case None => Crash
    case Some((r, rest)) => Describe(r, rest)
  }

  lemma FinishStep(text: string, left: int, m: SIPMsg)
    requires left > 0
    ensures Finish(text, left, m) ==
      match (ApplyLine(text, m), Find(text, CRLF))
      case (Some(next), Some(k)) => Finish(text[k + 2..], left - (k + 2), next)
      case _ => Crash
  {
    hide ApplyLine, Find, Describe;
  }

  lemma NothingToDescribe(m: SIPMsg, text: string, left: int)
    requires left <= 0
    ensures Finish(text, left, m) == Describe(m, text)
    ensures Describe(ZERO, text) == Parsed(ZERO)
  {
  }

  /** The loop of `parsesipmsg`, `temp` an index into the buffer, and the search behind it. */
  method ParseSipMsg(buffer: string) returns (r: Parsed)
    ensures r == Parse(buffer)
  {
    hide Find, TypeOf, ApplyLine, Finish, Describe;
    var end := Find(buffer, BLANK_LINE);
    var msg := ZERO;
    var temp, typeflag := 0, false;
    while end.Some? && temp < end.value
      invariant 0 <= temp <= |buffer|
      invariant !typeflag ==> temp == 0 && msg == ZERO
      invariant typeflag ==> end.Some? && end.value > 0 && Finish(buffer[temp..], end.value - temp, msg) == Parse(buffer)
      decreases |buffer| - temp
    {
      var text := buffer[temp..];
      if !typeflag {
        assert text == buffer;
        var t := TypeOf(text);
        if t.None? {
          return Unsupported(msg);
        }
        msg := msg.(msgType := t.value, fields := SIP_TYPE);
        typeflag := true;
      }
      FinishStep(text, end.value - temp, msg);
      var next := ApplyLine(text, msg);
      if next.None? {
        return Crash;
      }
      msg := next.value;
      var k := Find(text, CRLF);
      if k.None? {
        return Crash;
      }
      assert text[k.value + 2..] == buffer[temp + k.value + 2..];
      temp := temp + k.value + 2;
    }
    ghost var left := if end.Some? then end.value - temp else 0;
    NothingToDescribe(msg, buffer[temp..], left);
    r := FindPort(msg, buffer[temp..]);
  }

  method FindPort(msg: SIPMsg, rest: string) returns (r: Parsed)
    ensures r == Describe(msg, rest)
  {
    var m := msg;
    if m.contentlen > 0 && m.contenttype == SDP_TYPE {
      var k := Find(rest, AUDIO);
      if k.None? {
        return Crash;
      }
      m := m.(clirtpport := Or(ScanWord(rest[k.value + 7..]), m.clirtpport));
      m := m.(fields := m.fields + SIP_CLIRTPPORT);
    }
    r := Parsed(m);
  }

  /** A request the program does not support leaves the message looking like an INVITE of no dialog. */
  lemma UnsupportedLooksLikeInvite(buffer: string)
    requires Find(buffer, BLANK_LINE).Some? && Find(buffer, BLANK_LINE) != Some(0)
    ensures Parse(buffer).Unsupported? <==> TypeOf(buffer) == None
    ensures Parse(buffer).Unsupported? ==> Parse(buffer).msg.msgType == INVITE && Parse(buffer).msg.callid == ""
  {
    hide TypeOf, Find, ScanLines, ApplyLine;
  }

  // ----- write_sip -----

  datatype Line = LVia | LFrom | LTo | LCallId | LCSeq | LContact | LMaxForwards | LContentType | LContentLength

  function Text(m: SIPMsg, l: Line): string {
    match l
    case LVia => "Via: " + m.via
    case LFrom => "From: " + m.from
    case LTo => "To: " + m.to
    case LCallId => "Call-ID: " + m.callid
    case LCSeq => "CSeq: " + m.cseq
    case LContact => "Contact: " + m.to
    case LMaxForwards => "Max-Forwards: 70"
    case LContentType => "Content-Type: " + m.contenttype
    case LContentLength => "Content-Length: " + PrintInt(m.contentlen)
  }

  const FIXED := [LVia, LFrom, LTo, LCallId, LCSeq, LContact, LMaxForwards]

  /** The lines that are written. */
  function Order(m: SIPMsg): seq<Line> {
    FIXED + ((if m.fields * SIP_CONTENTTYPE != {} then [LContentType] else [])
             + (if m.fields * SIP_CONTENTLEN != {} then [LContentLength] else []))
  }

  function Texts(m: SIPMsg, order: seq<Line>): seq<string> {
    if order == [] then [] else [Text(m, order[0])] + Texts(m, order[1..])
  }

  function FirstLine(t: MsgType): string {
    if t == SIPOK then STATUS else BYE_LINE
  }

  function Body(m: SIPMsg): string {
    if m.fields * SIP_CONTENTLEN != {} && m.contentlen > 0 then m.contents + CRLF else ""
  }

  /** Only 200 OK and BYE can be written. */
  function Print(m: SIPMsg): Option<string> {
    if m.msgType == SIPOK || m.msgType == BYE then
      Some(Block([FirstLine(m.msgType)] + Texts(m, Order(m))) + (CRLF + Body(m)))
    else None
  }

  lemma BlockOfTexts(m: SIPMsg, order: seq<Line>)
    requires order != []
    ensures Block(Texts(m, order)) == Text(m, order[0]) + CRLF + Block(Texts(m, order[1..]))
  {
    hide Text;
    assert Texts(m, order)[1..] == Texts(m, order[1..]);
  }

  lemma {:induction false} BlockOfAppended(m: SIPMsg, a: seq<Line>, l: Line)
    ensures Block(Texts(m, a + [l])) == Block(Texts(m, a)) + (Text(m, l) + CRLF)
  {
    hide Text, Block, Texts;
    if a == [] {
      assert a + [l] == [l];
      BlockOfTexts(m, [l]);
      NoTexts(m);
      assert [l][1..] == [];
    } else {
      assert (a + [l])[1..] == a[1..] + [l];
      BlockOfTexts(m, a + [l]);
      BlockOfTexts(m, a);
      BlockOfAppended(m, a[1..], l);
    }
  }

  lemma NoTexts(m: SIPMsg)
    ensures Block(Texts(m, [])) == ""
  {
  }

  lemma FirstThenTexts(m: SIPMsg, order: seq<Line>)
    ensures Block([FirstLine(m.msgType)] + Texts(m, order)) == FirstLine(m.msgType) + CRLF + Block(Texts(m, order))
  {
    hide Texts, FirstLine;
    assert ([FirstLine(m.msgType)] + Texts(m, order))[1..] == Texts(m, order);
  }

  /** `sprintf(temp, ...); temp += strlen(temp);` for one line. */
  method Append(buf: string, m: SIPMsg, ghost l: Line, text: string, ghost done: seq<Line>)
    returns (longer: string, ghost more: seq<Line>)
    requires text == Text(m, l)
    requires buf == FirstLine(m.msgType) + CRLF + Block(Texts(m, done))
    ensures more == done + [l] && longer == FirstLine(m.msgType) + CRLF + Block(Texts(m, more))
  {
    hide Block, Texts, FirstLine, Text;
    more := done + [l];
    longer := buf + (text + CRLF);
    BlockOfAppended(m, done, l);
  }

  /** The seven lines that every message has. */
  method WriteFixed(start: string, m: SIPMsg) returns (buf: string, ghost done: seq<Line>)
    requires start == FirstLine(m.msgType) + CRLF + Block(Texts(m, []))
    ensures done == FIXED && buf == FirstLine(m.msgType) + CRLF + Block(Texts(m, done))
  {
    hide Block, Texts, FirstLine;
    buf, done := Append(start, m, LVia, "Via: " + m.via, []);
    buf, done := Append(buf, m, LFrom, "From: " + m.from, done);
    buf, done := Append(buf, m, LTo, "To: " + m.to, done);
    buf, done := Append(buf, m, LCallId, "Call-ID: " + m.callid, done);
    buf, done := Append(buf, m, LCSeq, "CSeq: " + m.cseq, done);
    buf, done := Append(buf, m, LContact, "Contact: " + m.to, done);
    buf, done := Append(buf, m, LMaxForwards, "Max-Forwards: 70", done);
  }

  /** Writes the lines one after the other; -1, here `None`, for a type it does not handle. */
  method WriteSip(m: SIPMsg) returns (r: Option<string>)
    ensures r == Print(m)
  {
    if m.msgType != SIPOK && m.msgType != BYE {
      return None;
    }
    NoTexts(m);
    var buf, done := WriteFixed((if m.msgType == SIPOK then STATUS else BYE_LINE) + CRLF, m);
    hide Block, Texts, FirstLine;
    if m.fields * SIP_CONTENTTYPE != {} {
      buf, done := Append(buf, m, LContentType, "Content-Type: " + m.contenttype, done);
    }
    if m.fields * SIP_CONTENTLEN != {} {
      buf, done := Append(buf, m, LContentLength, "Content-Length: " + PrintInt(m.contentlen), done);
    }
    assert done == Order(m);
    hide Text, Order;
    FirstThenTexts(m, done);
    ghost var block := buf;
    buf := buf + CRLF;
    if m.fields * SIP_CONTENTLEN != {} && m.contentlen > 0 {
      buf := buf + (m.contents + CRLF);
    }
    assert buf == block + (CRLF + Body(m));
    r := Some(buf);
  }

  // ----- reading back -----

  /** A line is taken for the header it was written as; the others are for none. */
  lemma HeaderIsRecognised(name: string, x: string)
    requires name in {"From: ", "Via: ", "To: ", "CSeq: ", "Call-ID: ", "Content-Length: ", "Content-Type: ",
                      "Contact: ", "Max-Forwards: 70", STATUS, BYE_LINE}
    ensures HeaderOf(name + x) ==
      if name == "From: " then Some(From) else if name == "Via: " then Some(Via) else if name == "To: " then Some(To)
      else if name == "CSeq: " then Some(CSeq) else if name == "Call-ID: " then Some(CallId)
      else if name == "Content-Length: " then Some(ContentLength)
      else if name == "Content-Type: " then Some(ContentType) else None
  {
    hide StartsWith;
    var c := name[0];
    if name == "To: " {
      Named(name, x, "To:");
    } else {
      Named(name, x, name);
      Differs(name, x, "To:", 0);
    }
    if name != "From: " { Differs(name, x, "From: ", 0); }
    if name != "Via: " { Differs(name, x, "Via: ", 0); }
    if name != "CSeq: " { Differs(name, x, "CSeq: ", if c != 'C' then 0 else 1); }
    if name != "Call-ID: " { Differs(name, x, "Call-ID: ", if c != 'C' then 0 else 1); }
    if name != "Content-Length: " {
      Differs(name, x, "Content-Length: ",
              if c != 'C' then 0 else if name == "Content-Type: " then 8 else if name == "Contact: " then 4 else 1);
    }
    if name != "Content-Type: " {
      Differs(name, x, "Content-Type: ",
              if c != 'C' then 0 else if name == "Content-Length: " then 8 else if name == "Contact: " then 4 else 1);
    }
  }

  /** Header values that end where their line ends; every value `parsesipmsg` stores is one. */
  predicate Printable(m: SIPMsg) {
    CrFree(m.via) && CrFree(m.from) && CrFree(m.to) && CrFree(m.callid) && CrFree(m.cseq) && CrFree(m.contenttype)
  }

  /** How far `m`, being read from the text of `from`, has come when the lines `done` have been read. Each of
      the five identifying headers is right exactly if its value is not empty and has no leading blank. */
  ghost predicate Read(from: SIPMsg, m: SIPMsg, done: set<Line>) {
    && m.msgType == from.msgType && m.clirtpport == ""
    && (LVia in done ==> (m.via == from.via <==> Leads(from.via)))
    && (LFrom in done ==> (m.from == from.from <==> Leads(from.from)))
    && (LTo in done ==> (m.to == from.to <==> Leads(from.to)))
    && (LCallId in done ==> (m.callid == from.callid <==> Leads(from.callid)))
    && (LCSeq in done ==> (m.cseq == from.cseq <==> Leads(from.cseq)))
    && (if LContentType in done then Word(from.contenttype) ==> m.contenttype == from.contenttype
        else m.contenttype == "")
    && (m.contentlen == if LContentLength in done then from.contentlen else 0)
  }

  /** The conversion of a header value's line, given that a line with a name follows. */
  lemma RestLine(name: string, v: string, next: string, k: nat)
    requires k < |name| && name[k..] == " " && CrFree(v) && Leads(next)
    ensures ScanRest((name + v + (CRLF + next))[k..]).Some?
    ensures ScanRest((name + v + (CRLF + next))[k..]) == Some(v) <==> Leads(v)
  {
    RestReadsBackIff(v, next);
    assert (name + v + (CRLF + next))[k..] == " " + v + CRLF + next;
  }

  predicate IsValueLine(l: Line) {
    l.LVia? || l.LFrom? || l.LTo? || l.LCallId? || l.LCSeq?
  }

  lemma ValueLineReadsBack(from: SIPMsg, l: Line, next: string, m: SIPMsg, done: set<Line>)
    requires Printable(from) && Read(from, m, done) && IsValueLine(l) && Leads(next)
    ensures var r := ApplyLine(Text(from, l) + (CRLF + next), m); r.Some? && Read(from, r.value, done + {l})
  {
    hide HeaderOf, ScanRest, Leads, CrFree, Word;
    var x := CRLF + next;
    match l
    case LVia =>
      assert "Via: " + from.via + x == "Via: " + (from.via + x);
      HeaderIsRecognised("Via: ", from.via + x);
      RestLine("Via: ", from.via, next, 4);
    case LFrom =>
      assert "From: " + from.from + x == "From: " + (from.from + x);
      HeaderIsRecognised("From: ", from.from + x);
      RestLine("From: ", from.from, next, 5);
    case LTo =>
      assert "To: " + from.to + x == "To: " + (from.to + x);
      HeaderIsRecognised("To: ", from.to + x);
      RestLine("To: ", from.to, next, 3);
    case LCallId =>
      assert "Call-ID: " + from.callid + x == "Call-ID: " + (from.callid + x);
      HeaderIsRecognised("Call-ID: ", from.callid + x);
      RestLine("Call-ID: ", from.callid, next, 8);
    case LCSeq =>
      assert "CSeq: " + from.cseq + x == "CSeq: " + (from.cseq + x);
      HeaderIsRecognised("CSeq: ", from.cseq + x);
      RestLine("CSeq: ", from.cseq, next, 5);
  }

  lemma OtherLineReadsBack(from: SIPMsg, l: Line, next: string, m: SIPMsg, done: set<Line>)
    requires Printable(from) && Read(from, m, done) && !IsValueLine(l)
    ensures var r := ApplyLine(Text(from, l) + (CRLF + next), m); r.Some? && Read(from, r.value, done + {l})
  {
    hide HeaderOf, ScanWord, ScanInt, PrintInt, Leads, CrFree, Word;
    var x := CRLF + next;
    match l
    case LContact =>
      assert "Contact: " + from.to + x == "Contact: " + (from.to + x);
      HeaderIsRecognised("Contact: ", from.to + x);
    case LMaxForwards => HeaderIsRecognised("Max-Forwards: 70", x);
    case LContentType =>
      assert "Content-Type: " + from.contenttype + x == "Content-Type: " + (from.contenttype + x);
      HeaderIsRecognised("Content-Type: ", from.contenttype + x);
      if Word(from.contenttype) {
        WordLine(from.contenttype, next);
      }
    case LContentLength =>
      assert "Content-Length: " + PrintInt(from.contentlen) + x == "Content-Length: " + (PrintInt(from.contentlen) + x);
      HeaderIsRecognised("Content-Length: ", PrintInt(from.contentlen) + x);
      NumberLine(from.contentlen, next);
  }

  lemma WordLine(v: string, next: string)
    requires Word(v)
    ensures ScanWord(("Content-Type: " + v + (CRLF + next))[13..]) == Some(v)
  {
    WordReadsBack(v, CRLF + next);
    assert ("Content-Type: " + v + (CRLF + next))[13..] == " " + v + (CRLF + next);
  }

  lemma NumberLine(n: int, next: string)
    ensures ScanInt(("Content-Length: " + PrintInt(n) + (CRLF + next))[15..]) == Some(n)
  {
    PrintedIntReadsBack(n, CRLF + next);
    hide *;
    BehindName("Content-Length: ", PrintInt(n), CRLF + next);
  }

  lemma TextLeads(m: SIPMsg, l: Line, rest: string)
    ensures Leads(Text(m, l) + rest)
  {
    hide PrintInt;
  }

  /** Reading all lines of an order in which every identifying header is followed by another line. */
  lemma {:induction false} OrderReadsBack(from: SIPMsg, order: seq<Line>, tail: string, m: SIPMsg, done: set<Line>)
    requires Printable(from) && Read(from, m, done)
    requires order != [] ==> !IsValueLine(order[|order| - 1])
    ensures var r := Fold(Texts(from, order), tail, m, ApplyLine);
      r.Some? && Read(from, r.value, done + (set l | l in order))
    decreases |order|
  {
    hide Text, ApplyLine, Read, Block, Printable, Leads;
    if order == [] {
      assert done + (set l | l in order) == done;
    } else {
      var l, rest := order[0], Texts(from, order[1..]);
      var all := Texts(from, order);
      assert all == [Text(from, l)] + rest && all[1..] == rest;
      BlockStep(all, tail);
      var next := Block(rest) + tail;
      assert Text(from, l) + CRLF + next == Text(from, l) + (CRLF + next);
      if IsValueLine(l) {
        assert order[1..] != [];
        NextLeads(from, order[1..], tail);
        ValueLineReadsBack(from, l, next, m, done);
      } else {
        OtherLineReadsBack(from, l, next, m, done);
      }
      var r := ApplyLine(Text(from, l) + (CRLF + next), m).value;
      OrderReadsBack(from, order[1..], tail, r, done + {l});
      assert forall x :: x in order <==> x == l || x in order[1..];
      assert done + {l} + (set x | x in order[1..]) == done + (set x | x in order);
    }
  }

  lemma NextLeads(from: SIPMsg, order: seq<Line>, tail: string)
    requires order != []
    ensures Leads(Block(Texts(from, order)) + tail)
  {
    hide Text;
    BlockOfTexts(from, order);
    var rest := CRLF + Block(Texts(from, order[1..])) + tail;
    assert Block(Texts(from, order)) + tail == Text(from, order[0]) + rest;
    TextLeads(from, order[0], rest);
  }

  lemma {:induction false} TextsAreClean(m: SIPMsg, order: seq<Line>)
    requires Printable(m)
    ensures Clean(Texts(m, order))
    decreases |order|
  {
    hide Text, Printable;
    if order != [] {
      TextIsClean(m, order[0]);
      TextsAreClean(m, order[1..]);
    }
  }

  lemma TextIsClean(m: SIPMsg, l: Line)
    requires Printable(m)
    ensures Text(m, l) != "" && CrFree(Text(m, l))
  {
    NumberIsClean(m.contentlen);
    NamesAreClean();
    hide PrintInt, CrFree;
    match l
    case LVia => CleanLine("Via: ", m.via);
    case LFrom => CleanLine("From: ", m.from);
    case LTo => CleanLine("To: ", m.to);
    case LCallId => CleanLine("Call-ID: ", m.callid);
    case LCSeq => CleanLine("CSeq: ", m.cseq);
    case LContact => CleanLine("Contact: ", m.to);
    case LMaxForwards =>
    case LContentType => CleanLine("Content-Type: ", m.contenttype);
    case LContentLength => CleanLine("Content-Length: ", PrintInt(m.contentlen));
  }

  lemma NamesAreClean()
    ensures CrFree("Via: ") && CrFree("From: ") && CrFree("To: ") && CrFree("Call-ID: ") && CrFree("CSeq: ")
    ensures CrFree("Contact: ") && CrFree("Max-Forwards: 70") && CrFree("Content-Type: ") && CrFree("Content-Length: ")
  {
  }

  lemma FirstLineIsClean(t: MsgType)
    ensures FirstLine(t) != "" && CrFree(FirstLine(t))
  {
  }

  lemma FirstLineReads(t: MsgType, x: string, m: SIPMsg)
    requires t == SIPOK || t == BYE
    ensures TypeOf(FirstLine(t) + x) == Some(t) && ApplyLine(FirstLine(t) + x, m) == Some(m)
    ensures CrFree(FirstLine(t)) && FirstLine(t) != ""
  {
    var l := FirstLine(t);
    FirstLineIsClean(t);
    HeaderIsRecognised(l, x);
    hide StartsWith, HeaderOf, CrFree;
    Differs(l, x, "INVITE", 0);
    Differs(l, x, "ACK", 0);
    if t == SIPOK {
      Differs(l, x, "BYE", 0);
      Named(l, x, STATUS);
    } else {
      Named(l, x, "BYE");
    }
  }

  lemma ParseOf(buffer: string, end: nat, t: MsgType, m: SIPMsg, rest: string)
    requires end > 0 && Find(buffer, BLANK_LINE) == Some(end) && TypeOf(buffer) == Some(t)
    requires ScanLines(buffer, end, ZERO.(msgType := t, fields := SIP_TYPE), ApplyLine) == Some((m, rest))
    ensures Parse(buffer) == Describe(m, rest)
  {
    hide Find, TypeOf, ScanLines, Describe;
  }

  lemma OrderEndsWell(m: SIPMsg)
    ensures Order(m) != [] && !IsValueLine(Order(m)[|Order(m)| - 1])
  {
  }

  lemma StartIsRead(m: SIPMsg)
    ensures Read(m, ZERO.(msgType := m.msgType, fields := SIP_TYPE), {})
  {
  }

  /** What a reader gets out of a printed message: every line is read, then the description is searched in
      what follows the blank line. */
  lemma PrintedIsRead(m: SIPMsg) returns (r: SIPMsg)
    requires Printable(m) && (m.msgType == SIPOK || m.msgType == BYE)
    ensures Read(m, r, set l | l in Order(m))
    ensures Print(m).Some? && Parse(Print(m).value) == Describe(r, CRLF + Body(m))
  {
    hide Order, Text, Texts, Block, Fold, Find, ApplyLine, FirstLine, ScanLines, TypeOf, Describe, Body, Printable, Parse, Read;
    var order, start, tail := Order(m), ZERO.(msgType := m.msgType, fields := SIP_TYPE), CRLF + Body(m);
    var texts := Texts(m, order);
    OrderEndsWell(m);
    StartIsRead(m);
    OrderReadsBack(m, order, tail, start, {});
    TextsAreClean(m, order);
    assert {} + (set l | l in order) == set l | l in order;
    r := Fold(texts, tail, start, ApplyLine).value;
    BlockIsRead(m.msgType, texts, Body(m), r);
  }

  lemma BlockIsRead(t: MsgType, texts: seq<string>, body: string, r: SIPMsg)
    requires (t == SIPOK || t == BYE) && Clean(texts)
    requires Fold(texts, CRLF + body, ZERO.(msgType := t, fields := SIP_TYPE), ApplyLine) == Some(r)
    ensures Parse(Block([FirstLine(t)] + texts) + (CRLF + body)) == Describe(r, CRLF + body)
  {
    hide Block, Fold, Find, ApplyLine, FirstLine, ScanLines, TypeOf, Describe, Parse;
    var all, start, tail := [FirstLine(t)] + texts, ZERO.(msgType := t, fields := SIP_TYPE), CRLF + body;
    var x := CRLF + (Block(texts) + tail);
    FirstLineReads(t, x, start);
    FoldTakesFirst(FirstLine(t), texts, tail, start, ApplyLine);
    BlockStep(all, tail);
    assert all[1..] == texts;
    assert Block(all) + tail == FirstLine(t) + x;
    HeaderEnds(all, body);
    LongBlock(all);
    ScanIsFold(all, body, start, ApplyLine);
    ParseOf(Block(all) + tail, |Block(all)| - 2, t, r, tail);
  }

  lemma LongBlock(all: seq<string>)
    requires all != [] && all[0] != ""
    ensures |Block(all)| > 2
  {
  }

  // ----- create_ok and create_bye -----

  /** The session description of every 200 OK to an INVITE, up to its audio line. */
  function SessionLines(): string {
    "v=0\r\n" + ("o=kaisa 123456 " + ("654321 IN IP4 " + ("127.0.0.1\r\n" + ("s=SIP server\r\n"
    + ("c=IN IP4 " + ("127.0.0.1\r\n" + "t=0 0\r\n"))))))
  }

  function AfterPort(): string {
    " RTP/AVP 8\r\n" + "a=rtpmap:8 PCMA/8000/1\r\n"
  }

  function Description(): string {
    SessionLines() + (AUDIO + (" 47522" + AfterPort()))
  }

  method CreateOk(msg: SIPMsg) returns (ok: SIPMsg)
    ensures ok == OkFor(msg)
  {
    hide Description;
    ok := ZERO.(msgType := SIPOK);
    ok := ok.(via := msg.via, to := msg.to, from := msg.from, callid := msg.callid, cseq := msg.cseq);
    if msg.msgType == INVITE {
      ok := ok.(contenttype := msg.contenttype, contents := Description());
      ok := ok.(contentlen := |ok.contents|);
      ok := ok.(fields := ok.fields + (SIP_CONTENTS + SIP_CONTENTTYPE));
    } else if msg.msgType == BYE {
      ok := ok.(contentlen := 0);
    }
    ok := ok.(fields := ok.fields + (SIP_TYPE + SIP_VIA + SIP_FROM + SIP_TO + SIP_CONTENTLEN + SIP_CALLID + SIP_CSEQ));
  }

  /** The reply, field by field: the request's identifying headers, and a description for an INVITE. */
  function OkFor(msg: SIPMsg): SIPMsg {
    var always := {0, 1, 2, 3, 5, 6, 7};
    var plain := ZERO.(fields := always, msgType := SIPOK, via := msg.via, to := msg.to, from := msg.from,
                       callid := msg.callid, cseq := msg.cseq);
    if msg.msgType == INVITE then
      plain.(fields := always + {8, 9}, contenttype := msg.contenttype, contents := Description(), contentlen := |Description()|)
    else plain
  }

  predicate Without(s: string, c: char) {
    forall i :: 0 <= i < |s| ==> s[i] != c
  }

  lemma WithoutBoth(a: string, b: string, c: char)
    requires Without(a, c) && Without(b, c)
    ensures Without(a + b, c)
  {
  }

  lemma NoAudioBefore()
    ensures Without(SessionLines(), 'm')
  {
    var x1, x2, x3 := "t=0 0\r\n", "127.0.0.1\r\n", "c=IN IP4 ";
    var x4, x5, x6, x7 := "s=SIP server\r\n", "654321 IN IP4 ", "o=kaisa 123456 ", "v=0\r\n";
    assert Without(x1, 'm') && Without(x2, 'm') && Without(x3, 'm') && Without(x4, 'm');
    assert Without(x5, 'm') && Without(x6, 'm') && Without(x7, 'm');
    WithoutBoth(x2, x1, 'm');
    WithoutBoth(x3, x2 + x1, 'm');
    WithoutBoth(x4, x3 + (x2 + x1), 'm');
    WithoutBoth(x2, x4 + (x3 + (x2 + x1)), 'm');
    WithoutBoth(x5, x2 + (x4 + (x3 + (x2 + x1))), 'm');
    WithoutBoth(x6, x5 + (x2 + (x4 + (x3 + (x2 + x1)))), 'm');
    WithoutBoth(x7, x6 + (x5 + (x2 + (x4 + (x3 + (x2 + x1))))), 'm');
  }

  /** The port of the description is found behind the blank line. */
  lemma DescriptionNamesPort()
    ensures PortIn(CRLF + (Description() + CRLF)) == Some(Some("47522"))
    ensures |Description()| > 0
  {
    AroundThePort();
    hide SessionLines, AfterPort, PortIn, Without;
    PortBehind(CRLF + SessionLines(), AfterPort() + CRLF);
    assert CRLF + (Description() + CRLF) == (CRLF + SessionLines()) + (AUDIO + (" 47522" + (AfterPort() + CRLF)));
  }

  lemma AroundThePort()
    ensures Without(CRLF + SessionLines(), 'm') && AfterPort() != "" && (AfterPort() + CRLF)[0] == ' '
  {
    NoAudioBefore();
    hide SessionLines;
    WithoutBoth(CRLF, SessionLines(), 'm');
  }

  lemma PortBehind(front: string, back: string)
    requires Without(front, 'm') && back != "" && back[0] == ' '
    ensures PortIn(front + (AUDIO + (" 47522" + back))) == Some(Some("47522"))
  {
    hide Find, ScanWord, Without;
    AudioIsFound(front, " 47522" + back);
    assert " 47522" + back == " " + "47522" + back;
    PortReadsBack(back);
  }

  lemma PortReadsBack(back: string)
    requires back != "" && IsSpace(back[0])
    ensures ScanWord(" " + "47522" + back) == Some("47522")
  {
    hide ScanWord;
    WordReadsBack("47522", back);
  }

  lemma AudioIsFound(front: string, back: string)
    requires Without(front, 'm')
    ensures Find(front + (AUDIO + back), AUDIO) == Some(|front|)
    ensures (front + (AUDIO + back))[|front| + 7..] == back
  {
    hide Find, StartsWith, Without;
    var s := front + (AUDIO + back);
    NoAudioIn(front, AUDIO + back);
    AtStart(AUDIO, back);
    FindSkip(s, AUDIO, |front|);
    assert s[|front|..] == AUDIO + back;
    assert s[|front| + 7..] == back;
  }

  lemma NoAudioIn(front: string, t: string)
    requires Without(front, 'm')
    ensures forall j :: 0 <= j < |front| ==> !StartsWith((front + t)[j..], AUDIO)
  {
    forall j | 0 <= j < |front|
      ensures !StartsWith((front + t)[j..], AUDIO)
    {
      assert (front + t)[j..][0] == front[j];
    }
  }

  lemma AtStart(p: string, back: string)
    ensures Find(p + back, p) == Some(0)
  {
  }

  /** SIP reply round trip: a client that parses the printed reply to an INVITE or a BYE reads a 200 OK
      with the request's Via, To, From, Call-ID and CSeq, each exactly if its value is not empty and has no
      leading blank; and the audio port, if the INVITE announced a session description. */
  lemma OkReadsBack(msg: SIPMsg)
    requires Printable(msg) && (msg.msgType == INVITE || msg.msgType == BYE)
    ensures Print(OkFor(msg)).Some? && Parse(Print(OkFor(msg)).value).Parsed?
    ensures var r := Parse(Print(OkFor(msg)).value).msg;
      && r.msgType == SIPOK
      && (r.via == msg.via <==> Leads(msg.via)) && (r.to == msg.to <==> Leads(msg.to))
      && (r.from == msg.from <==> Leads(msg.from)) && (r.callid == msg.callid <==> Leads(msg.callid))
      && (r.cseq == msg.cseq <==> Leads(msg.cseq))
      && (msg.msgType == INVITE && Word(msg.contenttype) ==> r.contenttype == msg.contenttype)
      && (msg.msgType == INVITE && msg.contenttype == SDP_TYPE ==> r.contenttype == SDP_TYPE && r.clirtpport == "47522")
      && r.contentlen == (if msg.msgType == INVITE then |Description()| else 0)
      && (msg.msgType == BYE ==> r.clirtpport == "")
  {
    var ok := OkFor(msg);
    OkIsPrintable(msg);
    OkOrder(msg);
    OkFields(msg);
    hide *;
    var r := PrintedIsRead(ok);
    OkIsRight(msg, r, set l | l in Order(ok));
  }

  lemma OkIsPrintable(msg: SIPMsg)
    requires Printable(msg)
    ensures Printable(OkFor(msg))
  {
    hide Description;
  }

  lemma OkIsRight(msg: SIPMsg, r: SIPMsg, done: set<Line>)
    requires msg.msgType == INVITE || msg.msgType == BYE
    requires Read(OkFor(msg), r, done)
    requires {LVia, LFrom, LTo, LCallId, LCSeq, LContentLength} <= done && (msg.msgType == INVITE ==> LContentType in done)
    ensures var p := Describe(r, CRLF + Body(OkFor(msg)));
      && p.Parsed? && p.msg.msgType == SIPOK
      && (p.msg.via == msg.via <==> Leads(msg.via)) && (p.msg.to == msg.to <==> Leads(msg.to))
      && (p.msg.from == msg.from <==> Leads(msg.from)) && (p.msg.callid == msg.callid <==> Leads(msg.callid))
      && (p.msg.cseq == msg.cseq <==> Leads(msg.cseq))
      && (msg.msgType == INVITE && Word(msg.contenttype) ==> p.msg.contenttype == msg.contenttype)
      && (msg.msgType == INVITE && msg.contenttype == SDP_TYPE ==> p.msg.contenttype == SDP_TYPE && p.msg.clirtpport == "47522")
      && p.msg.contentlen == (if msg.msgType == INVITE then |Description()| else 0)
      && (msg.msgType == BYE ==> p.msg.clirtpport == "")
  {
    hide Leads, Word, Describe, Body, Description, PortIn, OkFor;
    var rest := CRLF + Body(OkFor(msg));
    OkFields(msg);
    OkPort(msg, r);
    Described(r, rest);
  }

  lemma OkFields(msg: SIPMsg)
    ensures var ok := OkFor(msg);
      && ok.msgType == SIPOK && ok.via == msg.via && ok.to == msg.to && ok.from == msg.from
      && ok.callid == msg.callid && ok.cseq == msg.cseq
      && ok.contentlen == (if msg.msgType == INVITE then |Description()| else 0)
      && (msg.msgType == INVITE ==> ok.contenttype == msg.contenttype)
    ensures Word(SDP_TYPE) && |Description()| > 0
  {
    SdpTypeIsWord();
    DescriptionNamesPort();
    hide Description, Word;
  }

  lemma OkPort(msg: SIPMsg, r: SIPMsg)
    requires r.contentlen == (if msg.msgType == INVITE then |Description()| else 0)
    ensures r.contentlen > 0 ==> PortIn(CRLF + Body(OkFor(msg))) == Some(Some("47522"))
  {
    hide Body, Description, PortIn, OkFor;
    DescriptionNamesPort();
    OkBody(msg);
  }

  lemma OkBody(msg: SIPMsg)
    requires |Description()| > 0
    ensures msg.msgType == INVITE ==> Body(OkFor(msg)) == Description() + CRLF
  {
    hide Description;
    assert 7 in OkFor(msg).fields * SIP_CONTENTLEN;
  }

  /** The search for the port changes nothing else. */
  lemma Described(m: SIPMsg, rest: string)
    requires m.contentlen > 0 && m.contenttype == SDP_TYPE ==> PortIn(rest).Some?
    ensures var r := Describe(m, rest);
      && r.Parsed?
      && r.msg.msgType == m.msgType && r.msg.via == m.via && r.msg.to == m.to && r.msg.from == m.from
      && r.msg.callid == m.callid && r.msg.cseq == m.cseq
      && r.msg.contentlen == m.contentlen && r.msg.contenttype == m.contenttype
      && r.msg.clirtpport == if m.contentlen > 0 && m.contenttype == SDP_TYPE
                             then Or(PortIn(rest).value, m.clirtpport) else m.clirtpport
  {
    hide PortIn;
  }

  lemma OkOrder(msg: SIPMsg)
    ensures var order, ok := Order(OkFor(msg)), OkFor(msg);
      && {LVia, LFrom, LTo, LCallId, LCSeq, LContentLength} <= (set l | l in order)
      && (msg.msgType == INVITE ==> LContentType in order)
  {
    hide Description;
    var ok := OkFor(msg);
    assert 7 in ok.fields * SIP_CONTENTLEN;
    assert msg.msgType == INVITE ==> 8 in ok.fields * SIP_CONTENTTYPE;
    var a := if ok.fields * SIP_CONTENTTYPE != {} then [LContentType] else [];
    assert Order(ok) == FIXED + (a + [LContentLength]);
    assert LContentLength in a + [LContentLength];
    assert FIXED[0] == LVia && FIXED[1] == LFrom && FIXED[2] == LTo && FIXED[3] == LCallId && FIXED[4] == LCSeq;
  }

  lemma SdpTypeIsWord()
    ensures Word(SDP_TYPE)
  {
  }

  // ----- replies to received texts -----

  /** A header value as the parser stores it: none, or one that begins with no blank and ends before its CR. */
  predicate Kept(v: string) {
    v == "" || (Leads(v) && CrFree(v))
  }

  predicate Stored(m: SIPMsg) {
    Kept(m.via) && Kept(m.from) && Kept(m.to) && Kept(m.callid) && Kept(m.cseq) && Kept(m.contenttype)
  }

  lemma {:induction false} SkipStops(s: string)
    ensures SkipSpace(s) != "" ==> !IsSpace(SkipSpace(s)[0])
  {
    if s != "" && IsSpace(s[0]) {
      SkipStops(s[1..]);
    }
  }

  lemma {:induction false} PrefixHolds(s: string, f: char -> bool)
    ensures forall i :: 0 <= i < |Prefix(s, f)| ==> f(Prefix(s, f)[i])
    ensures Prefix(s, f) != "" ==> Prefix(s, f)[0] == s[0]
  {
    if s != "" && f(s[0]) {
      PrefixHolds(s[1..], f);
    }
  }

  lemma ScannedIsKept(s: string)
    ensures ScanRest(s).Some? ==> Kept(ScanRest(s).value)
    ensures ScanWord(s).Some? ==> Kept(ScanWord(s).value)
  {
    SkipStops(s);
    PrefixHolds(SkipSpace(s), NotCr);
    PrefixHolds(SkipSpace(s), NotSpace);
    hide SkipSpace, Prefix;
  }

  lemma LineKeepsStored(text: string, m: SIPMsg)
    requires Stored(m)
    ensures ApplyLine(text, m).Some? && Stored(ApplyLine(text, m).value)
    ensures ApplyLine(text, m).value.msgType == m.msgType
  {
    HeaderIsLong(text);
    hide HeaderOf, ScanRest, ScanWord, ScanInt, Kept;
    match HeaderOf(text)
    case Some(From) => ScannedIsKept(text[5..]);
    case Some(Via) => ScannedIsKept(text[4..]);
    case Some(To) => ScannedIsKept(text[3..]);
    case Some(CSeq) => ScannedIsKept(text[5..]);
    case Some(CallId) => ScannedIsKept(text[8..]);
    case Some(ContentLength) =>
    case Some(ContentType) => ScannedIsKept(text[13..]);
    case None =>
  }

  lemma HeaderIsLong(text: string)
    ensures match HeaderOf(text)
      case Some(From) => |text| >= 5
      case Some(Via) => |text| >= 4
      case Some(To) => |text| >= 3
      case Some(CSeq) => |text| >= 5
      case Some(CallId) => |text| >= 8
      case Some(ContentLength) => |text| >= 15
      case Some(ContentType) => |text| >= 13
      case _ => true
  {
  }

  lemma {:induction false} ScanKeepsStored(text: string, left: int, m: SIPMsg)
    requires Stored(m)
    ensures var r := ScanLines(text, left, m, ApplyLine);
      r.Some? ==> Stored(r.value.0) && r.value.0.msgType == m.msgType
    decreases |text|
  {
    hide ApplyLine, Stored, Find;
    if left > 0 {
      LineKeepsStored(text, m);
      var k := Find(text, CRLF);
      if k.Some? {
        ScanKeepsStored(text[k.value + 2..], left - (k.value + 2), ApplyLine(text, m).value);
      }
    }
  }

  /** Of every text that is parsed, each header value stored is empty, or begins with no blank and is free of
      CR. */
  lemma ParsedIsStored(buffer: string)
    requires Parse(buffer).Parsed?
    ensures Stored(Parse(buffer).msg)
  {
    ZeroIsStored();
    forall text, left, t | Stored(ZERO.(msgType := t, fields := SIP_TYPE))
      ensures ScanLines(text, left, ZERO.(msgType := t, fields := SIP_TYPE), ApplyLine).Some? ==>
                Stored(ScanLines(text, left, ZERO.(msgType := t, fields := SIP_TYPE), ApplyLine).value.0)
    {
      ScanKeepsStored(text, left, ZERO.(msgType := t, fields := SIP_TYPE));
    }
    hide ScanLines, Find, TypeOf, PortIn, Kept;
  }

  lemma ZeroIsStored()
    ensures forall t: MsgType :: Stored(ZERO.(msgType := t, fields := SIP_TYPE))
    ensures Stored(ZERO)
  {
  }

  lemma StoredIsPrintable(m: SIPMsg)
    requires Stored(m)
    ensures Printable(m)
    ensures Leads(m.via) <==> m.via != ""
    ensures Leads(m.from) <==> m.from != ""
    ensures Leads(m.to) <==> m.to != ""
    ensures Leads(m.callid) <==> m.callid != ""
    ensures Leads(m.cseq) <==> m.cseq != ""
  {
  }

  /** A whole exchange, for every INVITE or BYE that is parsed, whatever its text: the reply is read as a 200 OK
      with each identifying header of the request, exactly if the request had a value for it. */
  lemma ReplyReadsBack(buffer: string)
    requires Parse(buffer).Parsed? && (Parse(buffer).msg.msgType == INVITE || Parse(buffer).msg.msgType == BYE)
    ensures var msg := Parse(buffer).msg;
      && Print(OkFor(msg)).Some? && Parse(Print(OkFor(msg)).value).Parsed?
      && var r := Parse(Print(OkFor(msg)).value).msg;
      && r.msgType == SIPOK
      && (r.via == msg.via <==> msg.via != "") && (r.to == msg.to <==> msg.to != "")
      && (r.from == msg.from <==> msg.from != "") && (r.callid == msg.callid <==> msg.callid != "")
      && (r.cseq == msg.cseq <==> msg.cseq != "")
      && (msg.msgType == INVITE && msg.contenttype == SDP_TYPE ==> r.clirtpport == "47522")
  {
    hide Parse, Print, Stored, Printable, Leads, OkFor;
    ParsedIsStored(buffer);
    StoredIsPrintable(Parse(buffer).msg);
    OkReadsBack(Parse(buffer).msg);
  }

  lemma FoldedIsParsed(lines: seq<string>, body: string, t: MsgType, start: SIPMsg, r: SIPMsg)
    requires lines != [] && Clean(lines) && |Block(lines)| > 2 && start == ZERO.(msgType := t, fields := SIP_TYPE)
    requires TypeOf(Block(lines) + (CRLF + body)) == Some(t)
    requires Fold(lines, CRLF + body, start, ApplyLine) == Some(r)
    ensures Parse(Block(lines) + (CRLF + body)) == Describe(r, CRLF + body)
  {
    hide Clean, Block, TypeOf, Fold, ApplyLine, Find, ScanLines, PortIn, Parse, Describe;
    HeaderEnds(lines, body);
    ScanIsFold(lines, body, start, ApplyLine);
    ParseOf(Block(lines) + (CRLF + body), |Block(lines)| - 2, t, r, CRLF + body);
  }

  lemma NoDescription(m: SIPMsg, rest: string)
    requires m.contentlen == 0
    ensures Describe(m, rest) == Parsed(m)
  {
    hide PortIn;
  }

  const BARE_INVITE := "INVITE" + CRLF + ("CSeq: 1 INVITE" + CRLF) + CRLF

  /** An INVITE without a Via is parsed, and the reply to it carries a Via that is not the request's: the blank
      in the format runs on into the next line. */
  lemma MissingViaIsNotEchoed()
    ensures Parse(BARE_INVITE).Parsed?
    ensures var msg := Parse(BARE_INVITE).msg;
      && msg.msgType == INVITE && msg.via == ""
      && Print(OkFor(msg)).Some? && Parse(Print(OkFor(msg)).value).Parsed?
      && Parse(Print(OkFor(msg)).value).msg.via != ""
  {
    BareInviteIsParsed();
    hide Parse, Print, OkFor;
    ReplyReadsBack(BARE_INVITE);
  }

  lemma BareInviteIsParsed()
    ensures Parse(BARE_INVITE).Parsed? && Parse(BARE_INVITE).msg.msgType == INVITE && Parse(BARE_INVITE).msg.via == ""
  {
    var lines, start := ["INVITE", "CSeq: 1 INVITE"], ZERO.(msgType := INVITE, fields := SIP_TYPE);
    BareText(lines);
    BareInviteIsFolded(lines, CRLF + "", start);
    InviteIsType();
    hide *;
    var r := Fold(lines, CRLF + "", start, ApplyLine).value;
    FoldedIsParsed(lines, "", INVITE, start, r);
    NoDescription(r, CRLF + "");
  }

  lemma BareText(lines: seq<string>)
    requires lines == ["INVITE", "CSeq: 1 INVITE"]
    ensures Clean(lines) && |Block(lines)| > 2 && Block(lines) + (CRLF + "") == BARE_INVITE
  {
    assert lines[1..] == ["CSeq: 1 INVITE"] && lines[1..][1..] == [];
    assert Block(lines[1..]) == "CSeq: 1 INVITE" + CRLF + "";
    assert Block(lines) == "INVITE" + CRLF + Block(lines[1..]);
  }

  lemma InviteIsType()
    ensures TypeOf(BARE_INVITE) == Some(INVITE)
  {
    assert BARE_INVITE[..6] == "INVITE";
  }

  lemma BareInviteIsFolded(lines: seq<string>, tail: string, start: SIPMsg)
    requires lines == ["INVITE", "CSeq: 1 INVITE"] && start == ZERO.(msgType := INVITE, fields := SIP_TYPE)
    ensures var r := Fold(lines, tail, start, ApplyLine);
      r.Some? && r.value.msgType == INVITE && r.value.via == "" && r.value.contentlen == 0
  {
    hide Fold, Block, ApplyLine;
    var second := lines[1..];
    assert lines == ["INVITE"] + second && second == ["CSeq: 1 INVITE"] + [];
    FoldTakesFirst("INVITE", second, tail, start, ApplyLine);
    FoldTakesFirst("CSeq: 1 INVITE", [], tail, start, ApplyLine);
    var x, y := CRLF + (Block(second) + tail), CRLF + (Block([]) + tail);
    NoHeader(x, start);
    CSeqFirst(y, start);
    FoldOfNothing(tail, ApplyLine("CSeq: 1 INVITE" + y, start).value);
  }

  lemma FoldOfNothing(tail: string, m: SIPMsg)
    ensures Fold([], tail, m, ApplyLine) == Some(m)
  {
  }

  lemma NoHeader(x: string, m: SIPMsg)
    ensures ApplyLine("INVITE" + x, m) == Some(m)
  {
    hide StartsWith;
    Differs("INVITE", x, "From: ", 0);
    Differs("INVITE", x, "Via: ", 0);
    Differs("INVITE", x, "To:", 0);
    Differs("INVITE", x, "CSeq: ", 0);
    Differs("INVITE", x, "Call-ID: ", 0);
    Differs("INVITE", x, "Content-Length: ", 0);
    Differs("INVITE", x, "Content-Type: ", 0);
  }

  lemma CSeqFirst(y: string, m: SIPMsg)
    ensures var r := ApplyLine("CSeq: 1 INVITE" + y, m);
      r.Some? && r.value.msgType == m.msgType && r.value.via == m.via && r.value.contentlen == m.contentlen
  {
    assert "CSeq: 1 INVITE" + y == "CSeq: " + ("1 INVITE" + y);
    HeaderIsRecognised("CSeq: ", "1 INVITE" + y);
    hide HeaderOf, ScanRest;
  }

  // ----- what a text says -----

  /** A text with a blank line is read as what its first word says, whatever its lines and body, and is unsupported
      exactly if it begins with none of the four; without a blank line, or with nothing in front of it, anything
      is read as an INVITE without a header. */
  lemma TypeIsRead(buffer: string)
    ensures Find(buffer, BLANK_LINE).None? || Find(buffer, BLANK_LINE) == Some(0) ==>
              Parse(buffer).Parsed? && Says([], INVITE, Parse(buffer).msg) && Parse(buffer).msg.clirtpport == ""
    ensures Find(buffer, BLANK_LINE).Some? && Parse(buffer).Parsed? ==>
              && (StartsWith(buffer, "INVITE") ==> Parse(buffer).msg.msgType == INVITE)
              && (StartsWith(buffer, "ACK") ==> Parse(buffer).msg.msgType == ACK)
              && (StartsWith(buffer, "BYE") ==> Parse(buffer).msg.msgType == BYE)
              && (StartsWith(buffer, "SIP/2.0 200 OK") ==> Parse(buffer).msg.msgType == SIPOK)
    ensures Find(buffer, BLANK_LINE).Some? && Find(buffer, BLANK_LINE) != Some(0) ==>
              (Parse(buffer).Unsupported? <==>
                 forall w :: w in {"INVITE", "ACK", "BYE", "SIP/2.0 200 OK"} ==> !StartsWith(buffer, w))
  {
    FindIsFirst(buffer, BLANK_LINE);
    WordIsType(buffer);
    ZeroIsStored();
    if Find(buffer, BLANK_LINE).Some? && TypeOf(buffer).Some? {
      ScanKeepsStored(buffer, Find(buffer, BLANK_LINE).value, ZERO.(msgType := TypeOf(buffer).value, fields := SIP_TYPE));
    }
    hide TypeOf, Find, StartsWith, ScanLines, PortIn, Stored;
  }

  /** No two of the type words begin with the same letter, and none with CR. */
  lemma WordIsType(buffer: string)
    ensures StartsWith(buffer, "INVITE") <==> TypeOf(buffer) == Some(INVITE)
    ensures StartsWith(buffer, "ACK") <==> TypeOf(buffer) == Some(ACK)
    ensures StartsWith(buffer, "BYE") <==> TypeOf(buffer) == Some(BYE)
    ensures StartsWith(buffer, "SIP/2.0 200 OK") <==> TypeOf(buffer) == Some(SIPOK)
    ensures TypeOf(buffer).Some? ==> !StartsWith(buffer, BLANK_LINE)
  {
    FirstLetter(buffer, "INVITE");
    FirstLetter(buffer, "ACK");
    FirstLetter(buffer, "BYE");
    FirstLetter(buffer, STATUS);
    FirstLetter(buffer, BLANK_LINE);
    hide StartsWith;
  }

  /** The line's own text holds what the conversion of its header looks for. */
  predicate Complete(line: string) {
    match HeaderOf(line)
    case Some(From) => ScanRest(line[5..]).Some?
    case Some(Via) => ScanRest(line[4..]).Some?
    case Some(To) => ScanRest(line[3..]).Some?
    case Some(CSeq) => ScanRest(line[5..]).Some?
    case Some(CallId) => ScanRest(line[8..]).Some?
    case Some(ContentLength) => ScanInt(line[15..]).Some?
    case Some(ContentType) => ScanWord(line[13..]).Some?
    case None => true
  }

  lemma NamesHaveNoCr()
    ensures CrFree("From: ") && CrFree("Via: ") && CrFree("To:") && CrFree("CSeq: ") && CrFree("Call-ID: ")
    ensures CrFree("Content-Length: ") && CrFree("Content-Type: ")
  {
  }

  lemma HeaderIsInFront(line: string, rest: string)
    ensures HeaderOf(line + (CRLF + rest)) == HeaderOf(line)
  {
    hide StartsWith, CrFree;
    NamesHaveNoCr();
    InFrontIff(line, rest, "From: ");
    InFrontIff(line, rest, "Via: ");
    InFrontIff(line, rest, "To:");
    InFrontIff(line, rest, "CSeq: ");
    InFrontIff(line, rest, "Call-ID: ");
    InFrontIff(line, rest, "Content-Length: ");
    InFrontIff(line, rest, "Content-Type: ");
  }

  /** A complete line is read for itself, whatever follows. */
  lemma CompleteLineStandsAlone(line: string, rest: string, m: SIPMsg)
    requires Complete(line)
    ensures ApplyLine(line, m).Some? && ApplyLine(line + (CRLF + rest), m) == ApplyLine(line, m)
  {
    HeaderIsInFront(line, rest);
    HeaderIsLong(line);
    hide HeaderOf, ScanRest, ScanWord, ScanInt;
    match HeaderOf(line)
    case Some(From) => RestInLine(line, 5, rest);
    case Some(Via) => RestInLine(line, 4, rest);
    case Some(To) => RestInLine(line, 3, rest);
    case Some(CSeq) => RestInLine(line, 5, rest);
    case Some(CallId) => RestInLine(line, 8, rest);
    case Some(ContentLength) => IntInLine(line, 15, rest);
    case Some(ContentType) => WordInLine(line, 13, rest);
    case None =>
  }

  /** The last line that is for the header. */
  function LastOf(lines: seq<string>, h: Header): Option<string> {
    if lines == [] then None
    else if HeaderOf(lines[|lines| - 1]) == Some(h) then Some(lines[|lines| - 1])
    else LastOf(lines[..|lines| - 1], h)
  }

  lemma LastOfSnoc(lines: seq<string>, l: string, h: Header)
    ensures LastOf(lines + [l], h) == if HeaderOf(l) == Some(h) then Some(l) else LastOf(lines, h)
  {
    hide HeaderOf;
    assert (lines + [l])[..|lines|] == lines;
  }

  /** The message holds what the lines say: for each header the value of its last line. */
  predicate Says(lines: seq<string>, t: MsgType, m: SIPMsg) {
    && m.msgType == t
    && m.from == RestOf(LastOf(lines, From), 5) && m.via == RestOf(LastOf(lines, Via), 4)
    && m.to == RestOf(LastOf(lines, To), 3) && m.cseq == RestOf(LastOf(lines, CSeq), 5)
    && m.callid == RestOf(LastOf(lines, CallId), 8) && m.contentlen == IntOf(LastOf(lines, ContentLength), 15)
    && m.contenttype == WordOf(LastOf(lines, ContentType), 13)
  }

  lemma OneMoreSaid(lines: seq<string>, l: string, t: MsgType, m: SIPMsg)
    requires Complete(l) && Says(lines, t, m)
    ensures ApplyLine(l, m).Some? && Says(lines + [l], t, ApplyLine(l, m).value)
    ensures ApplyLine(l, m).value.clirtpport == m.clirtpport
  {
    HeaderIsLong(l);
    hide HeaderOf, ScanRest, ScanInt, ScanWord, LastOf;
    LastOfSnoc(lines, l, From);
    LastOfSnoc(lines, l, Via);
    LastOfSnoc(lines, l, To);
    LastOfSnoc(lines, l, CSeq);
    LastOfSnoc(lines, l, CallId);
    LastOfSnoc(lines, l, ContentLength);
    LastOfSnoc(lines, l, ContentType);
  }

  lemma {:induction false} FoldSaid(done: seq<string>, lines: seq<string>, tail: string, t: MsgType, m: SIPMsg)
    requires (forall l :: l in lines ==> Complete(l)) && Says(done, t, m) && m.clirtpport == ""
    ensures var r := Fold(lines, CRLF + tail, m, ApplyLine);
      r.Some? && Says(done + lines, t, r.value) && r.value.clirtpport == ""
    decreases |lines|
  {
    hide ApplyLine, Says, Complete, Block;
    if lines == [] {
      assert done + lines == done;
    } else {
      var l, rest := lines[0], Block(lines[1..]) + (CRLF + tail);
      assert lines == [l] + lines[1..] && l in lines;
      FoldTakesFirst(l, lines[1..], CRLF + tail, m, ApplyLine);
      CompleteLineStandsAlone(l, rest, m);
      OneMoreSaid(done, l, t, m);
      FoldSaid(done + [l], lines[1..], tail, t, ApplyLine(l, m).value);
      assert done + [l] + lines[1..] == done + lines;
    }
  }

  /** How the first line of a message begins. */
  function WordFor(t: MsgType): string {
    match t
    case INVITE => "INVITE"
    case ACK => "ACK"
    case BYE => "BYE"
    case SIPOK => "SIP/2.0 200 OK"
  }

  function TextOf(t: MsgType, uri: string, lines: seq<string>, body: string): string {
    Block([WordFor(t) + uri] + lines) + (CRLF + body)
  }

  /** A session description is announced. */
  predicate Announced(lines: seq<string>) {
    IntOf(LastOf(lines, ContentLength), 15) > 0 && WordOf(LastOf(lines, ContentType), 13) == "application/sdp"
  }

  /** Every message whose lines are complete, in any spelling, order and number, known and unknown ones, is read as
      what its first word and its lines say. The body is looked at only if a session description is announced;
      then it must name an audio line. */
  lemma TextIsParsed(t: MsgType, uri: string, lines: seq<string>, body: string)
    requires CrFree(uri) && Clean(lines) && forall l :: l in lines ==> Complete(l)
    ensures var r := Parse(TextOf(t, uri, lines, body));
      if Announced(lines) && Find(CRLF + body, "m=audio").None? then r == Crash
      else r.Parsed? && Says(lines, t, r.msg) && (!Announced(lines) ==> r.msg.clirtpport == "")
  {
    var r := TextIsFolded(t, uri, lines, body);
    hide Parse, TextOf, LastOf, Find, IntOf, RestOf, WordOf, ScanWord;
  }

  /** The port of the first audio line is the word behind it. */
  lemma AudioPortIsRead(t: MsgType, uri: string, lines: seq<string>, p: string, port: string, x: string)
    requires CrFree(uri) && Clean(lines) && (forall l :: l in lines ==> Complete(l)) && Announced(lines)
    requires Word(port) && x != "" && IsSpace(x[0])
    requires Find(CRLF + (p + ("m=audio" + (" " + port + x))), "m=audio") == Some(2 + |p|)
    ensures var r := Parse(TextOf(t, uri, lines, p + ("m=audio" + (" " + port + x))));
      r.Parsed? && r.msg.clirtpport == port
  {
    var body := p + ("m=audio" + (" " + port + x));
    var r := TextIsFolded(t, uri, lines, body);
    assert r.contentlen > 0 && r.contenttype == SDP_TYPE;
    hide *;
    PortIsDescribed(r, p, port, x);
  }

  lemma PortIsDescribed(r: SIPMsg, p: string, port: string, x: string)
    requires r.contentlen > 0 && r.contenttype == SDP_TYPE && Word(port) && x != "" && IsSpace(x[0])
    requires Find(CRLF + (p + ("m=audio" + (" " + port + x))), "m=audio") == Some(2 + |p|)
    ensures var d := Describe(r, CRLF + (p + ("m=audio" + (" " + port + x)))); d.Parsed? && d.msg.clirtpport == port
  {
    WordReadsBack(port, x);
    BehindAudio(p, " " + port + x);
    hide Find, ScanWord, Word, IsSpace, SDP_TYPE;
  }

  lemma BehindAudio(p: string, y: string)
    ensures (CRLF + (p + ("m=audio" + y)))[2 + |p| + 7..] == y
  {
  }

  lemma TextIsFolded(t: MsgType, uri: string, lines: seq<string>, body: string) returns (r: SIPMsg)
    requires CrFree(uri) && Clean(lines) && forall l :: l in lines ==> Complete(l)
    ensures Says(lines, t, r) && r.clirtpport == "" && Parse(TextOf(t, uri, lines, body)) == Describe(r, CRLF + body)
  {
    var start := ZERO.(msgType := t, fields := SIP_TYPE);
    NothingSaid(t);
    WordIsClean(t, uri, lines);
    var first, all, tail := WordFor(t) + uri, [WordFor(t) + uri] + lines, CRLF + body;
    TypeOfText(t, uri, lines, tail);
    hide *;
    var x := CRLF + (Block(lines) + tail);
    assert first + x == WordFor(t) + (uri + x);
    FirstLineIsIgnored(t, uri + x, start);
    FoldTakesFirst(first, lines, tail, start, ApplyLine);
    FoldSaid([], lines, body, t, start);
    assert [] + lines == lines;
    r := Fold(lines, tail, start, ApplyLine).value;
    ParsedByFold(t, uri, lines, body, start, r);
  }

  lemma ParsedByFold(t: MsgType, uri: string, lines: seq<string>, body: string, start: SIPMsg, r: SIPMsg)
    requires var all := [WordFor(t) + uri] + lines;
      && Clean(all) && |Block(all)| > 2 && start == ZERO.(msgType := t, fields := SIP_TYPE)
      && TypeOf(Block(all) + (CRLF + body)) == Some(t) && Fold(all, CRLF + body, start, ApplyLine) == Some(r)
    ensures Parse(TextOf(t, uri, lines, body)) == Describe(r, CRLF + body)
  {
    hide Clean, Block, TypeOf, Fold, ApplyLine, Parse, Describe, WordFor;
    FoldedIsParsed([WordFor(t) + uri] + lines, body, t, start, r);
  }

  lemma NothingSaid(t: MsgType)
    ensures Says([], t, ZERO.(msgType := t, fields := SIP_TYPE))
  {
  }

  lemma WordIsClean(t: MsgType, uri: string, lines: seq<string>)
    requires CrFree(uri) && Clean(lines)
    ensures Clean([WordFor(t) + uri] + lines) && |Block([WordFor(t) + uri] + lines)| > 2
  {
    assert CrFree(WordFor(t)) && WordFor(t) != "";
    hide Block;
    LongBlock([WordFor(t) + uri] + lines);
  }

  lemma TypeOfText(t: MsgType, uri: string, lines: seq<string>, tail: string)
    ensures TypeOf(Block([WordFor(t) + uri] + lines) + tail) == Some(t)
  {
    hide Block, StartsWith, TypeOf;
    TextOfFirst(WordFor(t) + uri, lines, tail);
    var x := CRLF + (Block(lines) + tail);
    assert WordFor(t) + uri + x == WordFor(t) + (uri + x);
    Named(WordFor(t), uri + x, WordFor(t));
    WordIsType(WordFor(t) + (uri + x));
  }

  lemma FirstLineIsIgnored(t: MsgType, x: string, m: SIPMsg)
    ensures ApplyLine(WordFor(t) + x, m) == Some(m)
  {
    hide StartsWith;
    var w := WordFor(t);
    Differs(w, x, "From: ", 0);
    Differs(w, x, "Via: ", 0);
    Differs(w, x, "To:", 0);
    Differs(w, x, "CSeq: ", 0);
    Differs(w, x, "Call-ID: ", 0);
    Differs(w, x, "Content-Length: ", 0);
    Differs(w, x, "Content-Type: ", 0);
  }

  // ----- what is written -----

  lemma {:induction false} TextHasPlace(m: SIPMsg, order: seq<Line>, l: Line) returns (i: nat)
    requires l in order
    ensures i < |Texts(m, order)| && Texts(m, order)[i] == Text(m, l)
    decreases |order|
  {
    hide Text;
    if order[0] == l {
      i := 0;
    } else {
      i := TextHasPlace(m, order[1..], l);
      i := i + 1;
    }
  }

  lemma LineIsWritten(m: SIPMsg, l: Line)
    requires Print(m).Some? && l in Order(m)
    ensures Find(Print(m).value, CRLF + Text(m, l) + CRLF).Some?
  {
    hide Text, Find, Texts, Block, Order, FirstLine;
    var i := TextHasPlace(m, Order(m), l);
    var front, rest := LineIsInBlock([FirstLine(m.msgType)] + Texts(m, Order(m)), i + 1);
    var tail, p := CRLF + Body(m), CRLF + Text(m, l) + CRLF;
    assert Print(m).value == front + (p + (rest + tail));
    FoundBehind(front, p, rest + tail);
  }

  lemma BodyIsBehind(m: SIPMsg)
    requires Printable(m) && Print(m).Some?
    ensures Find(Print(m).value, BLANK_LINE).Some?
    ensures var k := Find(Print(m).value, BLANK_LINE).value;
      k + 4 <= |Print(m).value| && Print(m).value[k + 4..] == Body(m)
  {
    FirstLineIsClean(m.msgType);
    TextsAreClean(m, Order(m));
    var lines := [FirstLine(m.msgType)] + Texts(m, Order(m));
    hide Find, Block, Texts, Order, Printable, FirstLine, Body, CrFree;
    HeaderEnds(lines, Body(m));
    var front := Block(lines);
    assert (front + (CRLF + Body(m)))[|front| + 2..] == Body(m);
  }

  /** Behind the blank line of the reply to an INVITE stands the session description, of the announced length, and a
      line end; behind that of the reply to a BYE nothing. */
  lemma DescriptionIsBehind(msg: SIPMsg)
    requires Printable(msg) && (msg.msgType == INVITE || msg.msgType == BYE)
    ensures Print(OkFor(msg)).Some? && Find(Print(OkFor(msg)).value, BLANK_LINE).Some?
    ensures var text := Print(OkFor(msg)).value;
      var k := Find(text, BLANK_LINE).value;
      && k + 4 <= |text|
      && text[k + 4..] == (if msg.msgType == INVITE then Description() + "\r\n" else "")
  {
    OkIsPrintable(msg);
    OkFields(msg);
    OkBodyIs(msg);
    hide Find, Description, OkFor, Body, Printable;
    BodyIsBehind(OkFor(msg));
  }

  lemma OkBodyIs(msg: SIPMsg)
    ensures Body(OkFor(msg)) == if msg.msgType == INVITE then Description() + "\r\n" else ""
  {
    DescriptionNamesPort();
    OkBody(msg);
    hide Description;
  }

  /** Whatever is written has the recipient as its contact, and a hop limit. */
  lemma ContactIsWritten(m: SIPMsg)
    requires Print(m).Some?
    ensures Find(Print(m).value, CRLF + ("Contact: " + m.to) + CRLF).Some?
    ensures Find(Print(m).value, CRLF + "Max-Forwards: 70" + CRLF).Some?
  {
    hide Print, Find;
    assert FIXED[5] == LContact && FIXED[6] == LMaxForwards;
    LineIsWritten(m, LContact);
    LineIsWritten(m, LMaxForwards);
  }

  datatype Peer = Peer(callid: string, from: string, to: string)

  /** The BYE for a client: its own To and From swapped. Only the type and the fields' bits are cleared
      beforehand, so no Content-Type and no Content-Length are written, whatever the rest holds. */
  function ByeFor(client: Peer, garbage: SIPMsg): SIPMsg {
    garbage.(fields := {}, msgType := BYE, from := client.to, to := client.from, callid := client.callid, cseq := "20 BYE",
             contentlen := 0, via := "SIP/2.0/UDP " + client.from + ";rport;branch=z9hG4bK12345")
  }

  method CreateBye(client: Peer, garbage: SIPMsg) returns (bye: SIPMsg)
    ensures bye == ByeFor(client, garbage)
  {
    bye := garbage.(fields := {}, msgType := INVITE);
    bye := bye.(msgType := BYE);
    bye := bye.(from := client.to);
    bye := bye.(to := client.from);
    bye := bye.(callid := client.callid, cseq := "20 BYE", contentlen := 0);
    bye := bye.(via := "SIP/2.0/UDP " + client.from + ";rport;branch=z9hG4bK12345");
  }

  /** The client reads a BYE with its dialog's Call-ID and with From and To exchanged. */
  lemma ByeReadsBack(client: Peer, garbage: SIPMsg)
    requires CrFree(client.callid) && CrFree(client.from) && CrFree(client.to)
    ensures Print(ByeFor(client, garbage)).Some? && Parse(Print(ByeFor(client, garbage)).value).Parsed?
    ensures var r := Parse(Print(ByeFor(client, garbage)).value).msg;
      && r.msgType == BYE && r.cseq == "20 BYE" && r.contenttype == "" 
      && r.via == "SIP/2.0/UDP " + client.from + ";rport;branch=z9hG4bK12345"
      && (r.callid == client.callid <==> Leads(client.callid))
      && (r.from == client.to <==> Leads(client.to)) && (r.to == client.from <==> Leads(client.from))
  {
    var tidy := garbage.(contenttype := "");
    GarbageIsNotPrinted(client, garbage);
    ByeIsClean(client, tidy);
    assert Leads("20 BYE");
    ByeOrder(client, tidy);
    hide Print, Parse, Order, Leads, Find, ScanWord, CrFree;
    var r := PrintedIsRead(ByeFor(client, tidy));
  }

  lemma {:induction false} SameTexts(m: SIPMsg, m': SIPMsg, order: seq<Line>)
    requires forall l :: l in order ==> Text(m, l) == Text(m', l)
    ensures Texts(m, order) == Texts(m', order)
    decreases |order|
  {
    hide Text;
    if order != [] {
      SameTexts(m, m', order[1..]);
    }
  }

  /** The content type that happens to be in the message is not printed. */
  lemma GarbageIsNotPrinted(client: Peer, garbage: SIPMsg)
    ensures Print(ByeFor(client, garbage)) == Print(ByeFor(client, garbage.(contenttype := "")))
  {
    hide PrintInt, Block, Texts;
    var bye, tidy := ByeFor(client, garbage), ByeFor(client, garbage.(contenttype := ""));
    ByeOrder(client, garbage);
    ByeOrder(client, garbage.(contenttype := ""));
    assert forall l :: l in FIXED ==> l != LContentType;
    assert forall l :: l in FIXED ==> Text(bye, l) == Text(tidy, l);
    SameTexts(bye, tidy, FIXED);
    hide Order;
  }

  lemma ByeIsClean(client: Peer, garbage: SIPMsg)
    requires CrFree(client.callid) && CrFree(client.from) && CrFree(client.to) && garbage.contenttype == ""
    ensures Printable(ByeFor(client, garbage)) && Leads(ByeFor(client, garbage).via)
    ensures CrFree("20 BYE") && CrFree("")
  {
    assert CrFree("SIP/2.0/UDP ") && CrFree(";rport;branch=z9hG4bK12345");
  }

  lemma ByeOrder(client: Peer, garbage: SIPMsg)
    ensures Order(ByeFor(client, garbage)) == FIXED
    ensures LVia in FIXED && LFrom in FIXED && LTo in FIXED && LCallId in FIXED && LCSeq in FIXED
    ensures LContentLength !in FIXED && LContentType !in FIXED
  {
    var bye := ByeFor(client, garbage);
    assert bye.fields * SIP_CONTENTLEN == {} && bye.fields * SIP_CONTENTTYPE == {};
    assert FIXED[0] == LVia && FIXED[1] == LFrom && FIXED[2] == LTo && FIXED[3] == LCallId && FIXED[4] == LCSeq;
  }

  /** A whole exchange: the BYE for a dialog, answered by a peer that replies as this program does, comes
      back as a 200 OK with the dialog's Call-ID, From and To. */
  lemma ByeExchange(client: Peer, garbage: SIPMsg)
    requires CrFree(client.callid) && CrFree(client.from) && CrFree(client.to)
    requires Leads(client.callid) && Leads(client.from) && Leads(client.to)
    ensures Print(ByeFor(client, garbage)).Some? && Parse(Print(ByeFor(client, garbage)).value).Parsed?
    ensures var bye := Parse(Print(ByeFor(client, garbage)).value).msg;
      && Print(OkFor(bye)).Some? && Parse(Print(OkFor(bye)).value).Parsed?
      && var ok := Parse(Print(OkFor(bye)).value).msg;
      ok.msgType == SIPOK && ok.callid == client.callid && ok.from == client.to && ok.to == client.from
  {
    ByeReadsBack(client, garbage);
    ByeIsClean(client, garbage.(contenttype := ""));
    var bye := Parse(Print(ByeFor(client, garbage)).value).msg;
    hide Print, Parse, Leads, CrFree, OkFor;
    assert Printable(bye);
    OkReadsBack(bye);
  }
}
