/** The skeleton both parsers share: find the blank line, then take the header lines one by one, moving
    on with `strstr(temp, "\r\n") + 2`. What a line does to the message is a parameter; it sees the
    text from the line on, since `sscanf` may read past the line's end. */
module MessageText {
  import opened Wrappers
  import opened CStrings

  const BLANK_LINE := "\r\n\r\n"

  /** The loop: `text` is the buffer from `temp` on, `left` is `end - temp`. */
  function ScanLines<M>(text: string, left: int, m: M, apply: (string, M) -> Option<M>): Option<(M, string)>
    decreases |text|
  {
    if left <= 0 then Some((m, text))
    else
      match (apply(text, m), Find(text, CRLF))
      case (Some(next), Some(k)) => ScanLines(text[k + 2..], left - (k + 2), next, apply)
      case _ => None
  }

  /** A block of header lines. */
  function Block(lines: seq<string>): string {
    if lines == [] then "" else lines[0] + CRLF + Block(lines[1..])
  }

  /** What the lines do to the message, one after the other. */
  function Fold<M>(lines: seq<string>, tail: string, m: M, apply: (string, M) -> Option<M>): Option<M> {
    if lines == [] then Some(m)
    else
      match apply(Block(lines) + tail, m)
      case None => None
      case Some(next) => Fold(lines[1..], tail, next, apply)
  }

  ghost predicate Clean(lines: seq<string>) {
    forall i :: 0 <= i < |lines| ==> lines[i] != "" && CrFree(lines[i])
  }

  lemma NoMatchIn(line: string, rest: string, p: string)
    requires CrFree(line) && p != "" && p[0] == '\r'
    ensures forall j :: 0 <= j < |line| ==> !StartsWith((line + rest)[j..], p)
  {
    forall j | 0 <= j < |line|
      ensures !StartsWith((line + rest)[j..], p)
    {
      assert (line + rest)[j..][0] == line[j];
    }
  }

  lemma LineEnds(line: string, rest: string)
    requires CrFree(line)
    ensures Find(line + CRLF + rest, CRLF) == Some(|line|)
  {
    var s := line + (CRLF + rest);
    assert line + CRLF + rest == s;
    NoMatchIn(line, CRLF + rest, CRLF);
    FindSkip(s, CRLF, |line|);
    assert s[|line|..] == CRLF + rest;
  }

  lemma BlockStep(lines: seq<string>, tail: string)
    requires lines != []
    ensures Block(lines) + tail == lines[0] + CRLF + (Block(lines[1..]) + tail)
    ensures (Block(lines) + tail)[|lines[0]| + 2..] == Block(lines[1..]) + tail
  {
    assert Block(lines) + tail == (lines[0] + CRLF) + (Block(lines[1..]) + tail);
  }

  /** The parser takes the lines exactly one at a time, whatever `apply` reads beyond them. */
  lemma {:induction false} ScanIsFold<M>(lines: seq<string>, body: string, m: M, apply: (string, M) -> Option<M>)
    requires Clean(lines)
    ensures ScanLines(Block(lines) + (CRLF + body), |Block(lines)| - 2, m, apply)
         == match Fold(lines, CRLF + body, m, apply)
            case None => None
            case Some(r) => Some((r, CRLF + body))
    decreases |lines|
  {
    hide Find;
    var tail := CRLF + body;
    if lines == [] {
      assert Block(lines) + tail == tail;
    } else {
      var text := Block(lines) + tail;
      BlockStep(lines, tail);
      LineEnds(lines[0], Block(lines[1..]) + tail);
      BlockLength(lines);
      hide Block;
      if apply(text, m).Some? {
        ScanIsFold(lines[1..], body, apply(text, m).value, apply);
      }
    }
  }

  lemma BlockLength(lines: seq<string>)
    requires lines != []
    ensures |Block(lines)| == |lines[0]| + 2 + |Block(lines[1..])|
  {
  }

  function Shift(r: Option<nat>, k: nat): Option<nat> {
    match r
    case None => None
    case Some(i) => Some(i + k)
  }

  /** The blank line does not begin inside a line's text. */
  lemma SkipLine(line: string, t: string)
    requires CrFree(line)
    ensures Find(line + t, BLANK_LINE) == Shift(Find(t, BLANK_LINE), |line|)
  {
    hide Find, StartsWith;
    NoMatchIn(line, t, BLANK_LINE);
    FindSkip(line + t, BLANK_LINE, |line|);
    assert (line + t)[|line|..] == t;
  }

  /** Nor at the end of a line that another line follows. */
  lemma SkipLineEnd(rest: string)
    requires rest != "" && rest[0] != '\r'
    ensures Find(CRLF + rest, BLANK_LINE) == Shift(Find(rest, BLANK_LINE), 2)
  {
    var t := CRLF + rest;
    assert t[2] != BLANK_LINE[2] && t[1..][0] != BLANK_LINE[0];
    assert t[0..] == t && !StartsWith(t, BLANK_LINE) && !StartsWith(t[1..], BLANK_LINE);
    hide Find, StartsWith;
    FindSkip(t, BLANK_LINE, 2);
    assert t[2..] == rest;
  }

  lemma BlankLineHere(body: string)
    ensures Find(CRLF + (CRLF + body), BLANK_LINE) == Some(0)
  {
    assert CRLF + (CRLF + body) == BLANK_LINE + body;
  }

  /** The blank line is found right behind the last header line. */
  lemma {:induction false} HeaderEnds(lines: seq<string>, body: string)
    requires lines != [] && Clean(lines)
    ensures |Block(lines)| >= 2 && Find(Block(lines) + (CRLF + body), BLANK_LINE) == Some(|Block(lines)| - 2)
    decreases |lines|
  {
    hide Find;
    var line, rest := lines[0], Block(lines[1..]) + (CRLF + body);
    BlockStep(lines, CRLF + body);
    assert Block(lines) + (CRLF + body) == line + (CRLF + rest);
    if |lines| == 1 {
      assert rest == CRLF + body;
      SkipLine(line, CRLF + rest);
      BlankLineHere(body);
    } else {
      HeaderEnds(lines[1..], body);
      assert rest[0] == lines[1][0];
      SkipLine(line, CRLF + rest);
      SkipLineEnd(rest);
    }
  }

  lemma TextOfFirst(first: string, lines: seq<string>, tail: string)
    ensures Block([first] + lines) + tail == first + (CRLF + (Block(lines) + tail))
  {
    hide Block;
    var all := [first] + lines;
    assert all[1..] == lines;
    BlockStep(all, tail);
    Regroup(first, CRLF, Block(lines) + tail);
  }

  lemma FoldTakesFirst<M>(first: string, lines: seq<string>, tail: string, m: M, apply: (string, M) -> Option<M>)
    ensures Fold([first] + lines, tail, m, apply)
         == match apply(first + (CRLF + (Block(lines) + tail)), m)
            case None => None
            case Some(next) => Fold(lines, tail, next, apply)
  {
    TextOfFirst(first, lines, tail);
    hide Block, CRLF;
    assert ([first] + lines)[1..] == lines;
  }

  lemma InFrontIff(line: string, rest: string, p: string)
    requires CrFree(p)
    ensures StartsWith(line + (CRLF + rest), p) <==> StartsWith(line, p)
  {
    var s := line + (CRLF + rest);
    if |p| <= |line| {
      assert s[..|p|] == line[..|p|];
    } else if |p| <= |s| {
      assert s[..|p|][|line|] == '\r' != p[|line|];
    }
  }

  lemma IntInLine(line: string, k: nat, rest: string)
    requires k <= |line| && ScanInt(line[k..]).Some?
    ensures ScanInt((line + (CRLF + rest))[k..]) == ScanInt(line[k..])
  {
    hide ScanInt;
    assert (line + (CRLF + rest))[k..] == line[k..] + (CRLF + rest);
    IntIsInFront(line[k..], CRLF + rest);
  }

  lemma WordInLine(line: string, k: nat, rest: string)
    requires k <= |line| && ScanWord(line[k..]).Some?
    ensures ScanWord((line + (CRLF + rest))[k..]) == ScanWord(line[k..])
  {
    hide ScanWord;
    assert (line + (CRLF + rest))[k..] == line[k..] + (CRLF + rest);
    WordIsInFront(line[k..], CRLF + rest);
  }

  lemma {:induction false} BlockOfAppend(a: seq<string>, b: seq<string>)
    ensures Block(a + b) == Block(a) + Block(b)
  {
    if a == [] {
      assert a + b == b;
    } else {
      assert (a + b)[1..] == a[1..] + b;
      BlockOfAppend(a[1..], b);
    }
  }

  lemma BlockOfOne(line: string)
    ensures Block([line]) == line + CRLF
  {
  }

  lemma {:induction false} LineIsInBlock(lines: seq<string>, i: nat) returns (front: string, rest: string)
    requires 0 < i < |lines|
    ensures Block(lines) == front + (CRLF + lines[i] + CRLF + rest)
    decreases |lines|
  {
    BlockOfAppend(lines[..i], lines[i..]);
    assert lines == lines[..i] + lines[i..];
    BlockOfAppend(lines[..i - 1], lines[i - 1..i]);
    assert lines[..i] == lines[..i - 1] + lines[i - 1..i];
    BlockOfOne(lines[i - 1]);
    assert lines[i - 1..i] == [lines[i - 1]];
    front := Block(lines[..i - 1]) + lines[i - 1];
    rest := Block(lines[i..][1..]);
    assert Block(lines[i..]) == lines[i] + CRLF + rest;
    hide Block;
    assert Block(lines[..i]) == front + CRLF;
    assert front + CRLF + (lines[i] + CRLF + rest) == front + (CRLF + lines[i] + CRLF + rest);
  }

  lemma RestInLine(line: string, k: nat, rest: string)
    requires k <= |line| && ScanRest(line[k..]).Some?
    ensures ScanRest((line + (CRLF + rest))[k..]) == ScanRest(line[k..])
  {
    hide ScanRest;
    assert (line + (CRLF + rest))[k..] == line[k..] + (CRLF + rest);
    RestIsInFront(line[k..], CRLF + rest);
  }
}
