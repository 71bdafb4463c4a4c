/** The string functions the parsers and printers use: `strncmp` against a literal, `strstr`, the
    conversions `%d`, `%s`, `%[0-9]` and `%[^\r]` of `sscanf`, and `%d` of `sprintf`. A C string is the
    characters before its terminator. */
module CStrings {
  import opened Wrappers

  const CRLF := "\r\n"

  /** `strncmp(s, p, strlen(p)) == 0`. */
  predicate StartsWith(s: string, p: string) {
    |p| <= |s| && s[..|p|] == p
  }

  /** `strstr`: where `p` occurs first. */
  function Find(s: string, p: string): (r: Option<nat>)
    ensures r.Some? ==> r.value + |p| <= |s|
  {
    if StartsWith(s, p) then Some(0)
    else if s == "" then None
    else
      match Find(s[1..], p)
      case None => None
      case Some(k) => Some(k + 1)
  }

  /** `Find` returns exactly the first occurrence. */
  lemma {:induction false} FindIsFirst(s: string, p: string)
    ensures match Find(s, p)
      case Some(k) => k <= |s| && StartsWith(s[k..], p) && forall j :: 0 <= j < k ==> !StartsWith(s[j..], p)
      case None => forall j :: 0 <= j <= |s| ==> !StartsWith(s[j..], p)
  {
    assert s[0..] == s;
    if !StartsWith(s, p) && s != "" {
      FindIsFirst(s[1..], p);
      assert forall j :: 1 <= j <= |s| ==> s[j..] == s[1..][j - 1..];
    }
  }

  /** Skipping a stretch in which `p` does not begin. */
  lemma {:induction false} FindSkip(s: string, p: string, k: nat)
    requires k <= |s| && forall j :: 0 <= j < k ==> !StartsWith(s[j..], p)
    ensures Find(s, p) == match Find(s[k..], p)
      case None => None
      case Some(i) => Some(i + k)
  {
    if k == 0 {
      assert s[0..] == s;
    } else {
      assert s[0..] == s;
      assert forall j :: 0 <= j < k - 1 ==> s[1..][j..] == s[j + 1..];
      FindSkip(s[1..], p, k - 1);
      assert s[1..][k - 1..] == s[k..];
    }
  }

  lemma Differs(name: string, x: string, p: string, i: nat)
    requires i < |p| && i < |name| && p[i] != name[i]
    ensures !StartsWith(name + x, p)
  {
    assert (name + x)[i] == name[i];
  }

  lemma Named(name: string, x: string, p: string)
    requires p <= name
    ensures StartsWith(name + x, p)
  {
  }

  /** A failed conversion leaves the old value. */
  function Or<T>(r: Option<T>, was: T): T {
    match r
    case None => was
    case Some(v) => v
  }

  /** The six characters of `isspace`. */
  predicate IsSpace(c: char) {
    c == ' ' || c == '\t' || c == '\n' || c == 11 as char || c == 12 as char || c == '\r'
  }

  predicate IsDigit(c: char) {
    '0' <= c <= '9'
  }

  /** A blank in a format, and what `%d` and `%s` do first. */
  function SkipSpace(s: string): string {
    if s != "" && IsSpace(s[0]) then SkipSpace(s[1..]) else s
  }

  /** The longest prefix whose characters satisfy `f`. */
  function Prefix(s: string, f: char -> bool): (r: string)
    ensures |r| <= |s|
  {
    if s != "" && f(s[0]) then [s[0]] + Prefix(s[1..], f) else ""
  }

  lemma {:induction false} PrefixStops(v: string, rest: string, f: char -> bool)
    requires forall i :: 0 <= i < |v| ==> f(v[i])
    requires rest != "" ==> !f(rest[0])
    ensures Prefix(v + rest, f) == v
  {
    if v == "" {
      assert v + rest == rest;
    } else {
      assert (v + rest)[1..] == v[1..] + rest;
      PrefixStops(v[1..], rest, f);
    }
  }

  predicate NotCr(c: char) { c != '\r' }

  predicate NotSpace(c: char) { !IsSpace(c) }

  /** `%s`: at least one character. */
  function ScanWord(s: string): Option<string> {
    var w := Prefix(SkipSpace(s), NotSpace);
    if w == "" then None else Some(w)
  }

  /** A blank and `%[^\r]`: at least one character. */
  function ScanRest(s: string): Option<string> {
    var w := Prefix(SkipSpace(s), NotCr);
    if w == "" then None else Some(w)
  }

  /** `%[0-9]`: at least one character. */
  function ScanDigits(s: string): Option<string> {
    var w := Prefix(s, IsDigit);
    if w == "" then None else Some(w)
  }

  /** `%d`: blanks, an optional sign, at least one digit. */
  function ScanInt(s: string): Option<int> {
    var t := SkipSpace(s);
    if t != "" && t[0] == '-' then Negated(ScanNat(t[1..]))
    else if t != "" && t[0] == '+' then ScanNat(t[1..])
    else ScanNat(t)
  }

  function ScanNat(t: string): Option<int> {
    var ds := Prefix(t, IsDigit);
    if ds == "" then None else Some(Value(ds))
  }

  function Negated(r: Option<int>): Option<int> {
    match r
    case None => None
    case Some(n) => Some(-n)
  }

  function Value(ds: string): nat {
    if ds == "" then 0
    else 10 * Value(ds[..|ds| - 1]) + if IsDigit(ds[|ds| - 1]) then ds[|ds| - 1] as int - '0' as int else 0
  }

  /** `%d` of `sprintf`. */
  function PrintInt(n: int): (s: string)
    ensures s != ""
  {
    if n < 0 then "-" + PrintNat(-n) else PrintNat(n)
  }

  function PrintNat(n: nat): (s: string)
    ensures s != ""
  {
    if n < 10 then [Digit(n)] else PrintNat(n / 10) + [Digit(n % 10)]
  }

  function Digit(n: nat): char
    requires n < 10
  {
    ('0' as int + n) as char
  }

  lemma {:induction false} PrintedValue(n: nat)
    ensures Value(PrintNat(n)) == n && forall i :: 0 <= i < |PrintNat(n)| ==> IsDigit(PrintNat(n)[i])
  {
    if n >= 10 {
      PrintedValue(n / 10);
      assert PrintNat(n)[..|PrintNat(n)| - 1] == PrintNat(n / 10);
    } else {
      assert Value("") == 0;
      assert PrintNat(n)[..0] == "";
    }
  }

  /** Reading back a printed number: `%d` inverts `%d`. */
  lemma PrintedIntReadsBack(n: int, rest: string)
    requires rest != "" ==> !IsDigit(rest[0])
    ensures ScanInt(PrintInt(n) + rest) == Some(n)
    ensures ScanInt(" " + PrintInt(n) + rest) == Some(n)
  {
    var m: nat := if n < 0 then -n else n;
    var digits := PrintNat(m);
    PrintedNatReadsBack(m, rest);
    assert IsDigit((digits + rest)[0]) by { PrintedValue(m); }
    assert PrintInt(n) == if n < 0 then "-" + digits else digits;
    hide *;
    SignIsRead(digits + rest, m);
    Regroup(" ", PrintInt(n), rest);
    Regroup("-", digits, rest);
  }

  lemma Regroup(a: string, b: string, c: string)
    ensures a + b + c == a + (b + c)
  {
  }

  /** The digits of `m`, with the sign and a blank in front or without them. */
  lemma SignIsRead(t: string, m: int)
    requires t != "" && IsDigit(t[0]) && ScanNat(t) == Some(m)
    ensures ScanInt(t) == ScanInt(" " + t) == Some(m)
    ensures ScanInt("-" + t) == ScanInt(" " + ("-" + t)) == Some(-m)
  {
    SkipsOneBlank(t);
    SkipsOneBlank("-" + t);
    assert ("-" + t)[1..] == t;
    hide ScanNat, SkipSpace, IsSpace;
  }

  lemma SkipsOneBlank(s: string)
    requires s != "" && !IsSpace(s[0])
    ensures SkipSpace(s) == s && SkipSpace(" " + s) == s
  {
    assert (" " + s)[1..] == s;
  }

  lemma PrintedNatReadsBack(n: nat, rest: string)
    requires rest != "" ==> !IsDigit(rest[0])
    ensures ScanNat(PrintNat(n) + rest) == Some(n)
  {
    PrintedValue(n);
    PrefixStops(PrintNat(n), rest, IsDigit);
  }

  /** A value that the scanning conversions give back: not empty, no blank in front. */
  predicate Leads(v: string) {
    v != "" && !IsSpace(v[0])
  }

  /** What `%s` gives back unchanged. */
  predicate Word(v: string) {
    Leads(v) && forall i :: 0 <= i < |v| ==> !IsSpace(v[i])
  }

  lemma WordReadsBack(v: string, rest: string)
    requires Word(v) && rest != "" && IsSpace(rest[0])
    ensures ScanWord(v + rest) == Some(v) && ScanWord(" " + v + rest) == Some(v)
  {
    PrefixStops(v, rest, NotSpace);
    assert (" " + v + rest)[1..] == v + rest;
  }

  predicate CrFree(s: string) {
    forall i :: 0 <= i < |s| ==> s[i] != '\r'
  }

  lemma CleanLine(name: string, v: string)
    requires name != "" && CrFree(name) && CrFree(v)
    ensures name + v != "" && CrFree(name + v)
  {
  }

  lemma NumberIsClean(n: int)
    ensures CrFree(PrintInt(n))
  {
    PrintedValue(if n < 0 then -n else n);
    hide PrintNat;
  }

  lemma {:induction false} SkipOver(v: string, rest: string)
    requires forall i :: 0 <= i < |v| ==> IsSpace(v[i])
    ensures SkipSpace(v + rest) == SkipSpace(rest)
  {
    if v == "" {
      assert v + rest == rest;
    } else {
      assert (v + rest)[1..] == v[1..] + rest;
      SkipOver(v[1..], rest);
    }
  }

  /** How many blanks lead. */
  function Blanks(v: string): (k: nat)
    ensures k <= |v| && (forall i :: 0 <= i < k ==> IsSpace(v[i])) && (k < |v| ==> !IsSpace(v[k]))
  {
    if v != "" && IsSpace(v[0]) then 1 + Blanks(v[1..]) else 0
  }

  /** A header value ending at a CR comes back exactly when it is not empty and has no leading blank:
      otherwise the blank in the format swallows its front, or runs on into the next line. */
  lemma RestReadsBackIff(v: string, next: string)
    requires CrFree(v) && Leads(next)
    ensures ScanRest(" " + v + CRLF + next) == Some(v) <==> Leads(v)
    ensures ScanRest(" " + v + CRLF + next).Some?
  {
    var s, k := v + CRLF + next, Blanks(v);
    assert (" " + v + CRLF + next)[1..] == s;
    if k < |v| {
      var tail := v[k..];
      assert s == v[..k] + (tail + (CRLF + next));
      SkipOver(v[..k], tail + (CRLF + next));
      PrefixStops(tail, CRLF + next, NotCr);
    } else {
      assert s == (v + CRLF) + next;
      SkipOver(v + CRLF, next);
      assert Prefix(next, NotCr)[0] == next[0];
    }
  }

  lemma {:induction false} PrefixOfAppend(u: string, rest: string, f: char -> bool)
    requires rest != "" ==> !f(rest[0])
    ensures Prefix(u + rest, f) == Prefix(u, f)
  {
    if u == "" {
      assert u + rest == rest;
    } else {
      assert (u + rest)[1..] == u[1..] + rest;
      PrefixOfAppend(u[1..], rest, f);
    }
  }

  lemma {:induction false} SkipSpaceInFront(s: string, rest: string)
    requires SkipSpace(s) != ""
    ensures SkipSpace(s + rest) == SkipSpace(s) + rest
  {
    if IsSpace(s[0]) {
      assert (s + rest)[1..] == s[1..] + rest;
      SkipSpaceInFront(s[1..], rest);
    }
  }

  lemma IntIsInFront(s: string, rest: string)
    requires ScanInt(s).Some? && rest != "" && rest[0] == '\r'
    ensures ScanInt(s + rest) == ScanInt(s)
  {
    var t := SkipSpace(s);
    SkipSpaceInFront(s, rest);
    hide SkipSpace;
    PrefixOfAppend(t, rest, IsDigit);
    if t[0] == '-' || t[0] == '+' {
      assert (t + rest)[1..] == t[1..] + rest;
      PrefixOfAppend(t[1..], rest, IsDigit);
    }
  }

  lemma WordIsInFront(s: string, rest: string)
    requires ScanWord(s).Some? && rest != "" && rest[0] == '\r'
    ensures ScanWord(s + rest) == ScanWord(s)
  {
    SkipSpaceInFront(s, rest);
    PrefixOfAppend(SkipSpace(s), rest, NotSpace);
  }

  lemma FirstLetter(s: string, p: string)
    requires p != ""
    ensures StartsWith(s, p) ==> s != "" && s[0] == p[0]
  {
  }

  lemma {:induction false} FoundBehind(front: string, p: string, rest: string)
    ensures Find(front + (p + rest), p).Some?
  {
    var s := front + (p + rest);
    FindIsFirst(s, p);
    assert s[|front|..] == p + rest;
    assert (p + rest)[..|p|] == p;
    hide Find;
  }

  lemma RestIsInFront(s: string, rest: string)
    requires ScanRest(s).Some? && rest != "" && rest[0] == '\r'
    ensures ScanRest(s + rest) == ScanRest(s)
  {
    SkipSpaceInFront(s, rest);
    PrefixOfAppend(SkipSpace(s), rest, NotCr);
  }

  /** The value of a line, if there is one, from its `k`-th character on. */
  function IntOf(line: Option<string>, k: nat): int {
    match line
    case None => 0
    case Some(l) => if k <= |l| then Or(ScanInt(l[k..]), 0) else 0
  }

  function WordOf(line: Option<string>, k: nat): string {
    match line
    case None => ""
    case Some(l) => if k <= |l| then Or(ScanWord(l[k..]), "") else ""
  }

  function RestOf(line: Option<string>, k: nat): string {
    match line
    case None => ""
    case Some(l) => if k <= |l| then Or(ScanRest(l[k..]), "") else ""
  }

  /** A conversion starts at the blank that ends the header's name. */
  lemma BehindName(name: string, v: string, x: string)
    requires |name| > 1 && name[|name| - 1] == ' '
    ensures (name + v + x)[|name| - 1..] == " " + v + x && (name + v + x)[|name|..] == v + x
  {
  }

  lemma SignsAreRead(blanks: string, t: string, m: int)
    requires (forall i :: 0 <= i < |blanks| ==> IsSpace(blanks[i])) && t != "" && IsDigit(t[0]) && ScanNat(t) == Some(m)
    ensures ScanInt(blanks + t) == ScanInt(blanks + ("+" + t)) == Some(m)
    ensures ScanInt(blanks + ("-" + t)) == Some(-m)
  {
    SkipOver(blanks, t);
    SkipOver(blanks, "+" + t);
    SkipOver(blanks, "-" + t);
    SkipsOneBlank(t);
    SkipsOneBlank("+" + t);
    SkipsOneBlank("-" + t);
    assert ("+" + t)[1..] == t && ("-" + t)[1..] == t;
    hide SkipSpace, ScanNat, IsSpace;
  }

  /** `%d` reads digits with a plus, a minus or no sign, behind any blanks; leading zeros do not count. */
  lemma NumberIsRead(blanks: string, digits: string, rest: string)
    requires (forall i :: 0 <= i < |blanks| ==> IsSpace(blanks[i])) && digits != ""
    requires (forall i :: 0 <= i < |digits| ==> IsDigit(digits[i])) && (rest != "" ==> !IsDigit(rest[0]))
    ensures ScanInt(blanks + (digits + rest)) == ScanInt(blanks + ("+" + (digits + rest))) == Some(Value(digits))
    ensures ScanInt(blanks + ("-" + (digits + rest))).Some? && ScanInt(blanks + ("-" + (digits + rest))).value + Value(digits) == 0
    ensures Value("0" + digits) == Value(digits)
  {
    ZeroInFront(digits);
    DigitsAreRead(digits, rest);
    hide ScanInt, ScanNat, Value;
    SignsAreRead(blanks, digits + rest, Value(digits));
  }

  lemma DigitsAreRead(digits: string, rest: string)
    requires digits != "" && (forall i :: 0 <= i < |digits| ==> IsDigit(digits[i])) && (rest != "" ==> !IsDigit(rest[0]))
    ensures ScanNat(digits + rest) == Some(Value(digits))
  {
    PrefixStops(digits, rest, IsDigit);
    hide Prefix, Value;
  }

  lemma {:induction false} ZeroInFront(digits: string)
    ensures Value("0" + digits) == Value(digits)
  {
    if digits == "" {
      assert "0"[..0] == "" && "0" + "" == "0";
    } else {
      var n := |digits| - 1;
      assert ("0" + digits)[..n + 1] == "0" + digits[..n];
      ZeroInFront(digits[..n]);
    }
  }
}
