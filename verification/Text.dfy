/**
 The text primitives the program takes from its standard library: splitting and joining on one
 character, trimming, scanning lines, and printing and reading decimal integers.
 */
module Text {
  import opened Wrappers

  // ---------------------------------------------------------------- decimal integers

  const MAX_INT64 := 0x7fff_ffff_ffff_ffff

  predicate IsDigit(c: char) { '0' <= c <= '9' }

  predicate AllDigits(s: string) { forall i :: 0 <= i < |s| ==> IsDigit(s[i]) }

  function DigitOf(c: char): (d: nat)
    requires IsDigit(c)
    ensures d < 10
  {
    c as int - '0' as int
  }

  function CharOf(d: nat): (c: char)
    requires d < 10
    ensures IsDigit(c) && DigitOf(c) == d
  {
    ('0' as int + d) as char
  }

  /** The number a run of digits denotes. */
  function Value(s: string): nat
    requires AllDigits(s)
  {
    if s == "" then 0 else 10 * Value(s[..|s| - 1]) + DigitOf(s[|s| - 1])
  }

  /** `%d` on a non-negative number. */
  function Digits(n: nat): (s: string)
    ensures s != "" && AllDigits(s) && Value(s) == n
  {
    if n < 10 then
      [CharOf(n)]
    else
      var s := Digits(n / 10) + [CharOf(n % 10)];
      assert s[..|s| - 1] == Digits(n / 10);
      s
  }

  /** `%d` on any integer. */
  function FormatInt(n: int): string {
    if n < 0 then "-" + Digits(-n) else Digits(n)
  }

  /** The sign a number starts with (absent means plus), and what follows it. */
  function SplitSign(s: string): (bool, string) {
    if s != "" && s[0] == '-' then (true, s[1..])
    else if s != "" && s[0] == '+' then (false, s[1..])
    else (false, s)
  }

  /** The signed value of a non-empty run of digits, when it fits 64 bits. */
  function ToInt64(negative: bool, digits: string): Option<int>
    requires AllDigits(digits)
  {
    var v: int := Value(digits);
    if digits == "" then None
    else if !negative && v <= MAX_INT64 then Some(v)
    else if negative && v <= MAX_INT64 + 1 then Some(-v)
    else None
  }

  /** `strconv.Atoi`: the whole string must be one number. */
  function Atoi(s: string): Option<int> {
    var (negative, digits) := SplitSign(s);
    if AllDigits(digits) then ToInt64(negative, digits) else None
  }

  /** How many digits a string starts with. */
  function DigitRun(s: string): (n: nat)
    ensures n <= |s| && AllDigits(s[..n])
    ensures n < |s| ==> !IsDigit(s[n])
  {
    if s == "" || !IsDigit(s[0]) then 0
    else
      var n := 1 + DigitRun(s[1..]);
      assert forall i :: 1 <= i < n ==> s[..n][i] == s[1..][..n - 1][i - 1];
      n
  }

  /** Blanks before a number; a line break there is an error. */
  function SkipBlanks(s: string): Option<string> {
    if s == "" then Some("")
    else if s[0] == '\n' then None
    else if IsSpace(s[0]) then SkipBlanks(s[1..])
    else Some(s)
  }

  /** `fmt.Fscanf("%d")`: reads a number off the front and ignores the rest. */
  function ScanInt(s: string): Option<int> {
    match SkipBlanks(s)
    case None => None
    case Some(t) =>
      var (negative, u) := SplitSign(t);
      ToInt64(negative, u[..DigitRun(u)])
  }

  lemma {:induction false} ValueGrows(s: string, t: string)
    requires AllDigits(s) && AllDigits(t)
    ensures AllDigits(s + t)
    ensures t != "" ==> Value(s + t) >= 10 * Value(s)
  {
    if |t| == 1 {
      assert (s + t)[..|s|] == s;
    } else if t != "" {
      var u := t[..|t| - 1];
      ValueGrows(s, u);
      assert (s + t)[..|s + t| - 1] == s + u;
    }
  }

  lemma {:induction false} DigitRunOf(digits: string, rest: string)
    requires AllDigits(digits)
    ensures DigitRun(digits + rest) == |digits| + DigitRun(rest)
    decreases |digits|
  {
    if digits == "" {
      assert digits + rest == rest;
    } else {
      assert (digits + rest)[1..] == digits[1..] + rest;
      DigitRunOf(digits[1..], rest);
    }
  }

  /** Reading a number off a string that starts with its digits gives that number exactly when no digit follows. */
  lemma ScanAfterDigits(p: nat, rest: string)
    requires 0 < p <= MAX_INT64
    ensures ScanInt(Digits(p) + rest) == Some(p) <==> rest == "" || !IsDigit(rest[0])
  {
    var s := Digits(p) + rest;
    var more := rest[..DigitRun(rest)];
    assert s[0] == Digits(p)[0] && IsDigit(s[0]);
    DigitRunOf(Digits(p), rest);
    assert s[..DigitRun(s)] == Digits(p) + more;
    ValueGrows(Digits(p), more);
    assert more == "" ==> Digits(p) + more == Digits(p);
  }

  lemma AtoiFormatInt(n: int)
    requires -MAX_INT64 - 1 <= n <= MAX_INT64
    ensures Atoi(FormatInt(n)) == Some(n)
  {}

  // ---------------------------------------------------------------- white space

  /** `unicode.IsSpace`. */
  predicate IsSpace(c: char) {
    || '\t' <= c <= '\r' || c == ' '
    || c == '\U{85}' || c == '\U{A0}' || c == '\U{1680}' || '\U{2000}' <= c <= '\U{200A}'
    || c == '\U{2028}' || c == '\U{2029}' || c == '\U{202F}' || c == '\U{205F}' || c == '\U{3000}'
  }

  function TrimLeft(s: string): string {
    if s != "" && IsSpace(s[0]) then TrimLeft(s[1..]) else s
  }

  function TrimRight(s: string): string {
    if s != "" && IsSpace(s[|s| - 1]) then TrimRight(s[..|s| - 1]) else s
  }

  function TrimSpace(s: string): string { TrimRight(TrimLeft(s)) }

  /** Trimming leaves the string alone. */
  predicate Trimmed(s: string) { s == "" || (!IsSpace(s[0]) && !IsSpace(s[|s| - 1])) }

  lemma {:induction false} TrimIsShorter(s: string)
    ensures |TrimLeft(s)| <= |s| && |TrimRight(s)| <= |s|
    ensures TrimLeft(s) == "" || !IsSpace(TrimLeft(s)[0])
    ensures TrimRight(s) == "" || !IsSpace(TrimRight(s)[|TrimRight(s)| - 1])
    decreases |s|
  {
    if s != "" {
      TrimIsShorter(s[1..]);
      TrimIsShorter(s[..|s| - 1]);
    }
  }

  /** Exactly the trimmed strings are left alone. */
  lemma TrimSpaceFixpoint(s: string)
    ensures TrimSpace(s) == s <==> Trimmed(s)
  {
    if s != "" {
      if IsSpace(s[0]) {
        TrimIsShorter(s[1..]);
        TrimIsShorter(TrimLeft(s));
      } else if IsSpace(s[|s| - 1]) {
        TrimIsShorter(s[..|s| - 1]);
      }
    }
  }

  lemma FormatIntTrimmed(n: int)
    ensures FormatInt(n) != "" && TrimSpace(FormatInt(n)) == FormatInt(n)
    ensures forall c :: c in FormatInt(n) ==> c == '-' || IsDigit(c)
  {}

  // ---------------------------------------------------------------- fields and lines

  predicate Free(c: char, s: string) { c !in s }

  /** `strings.Split` on one character: always at least one piece. */
  function Split(s: string, c: char): (parts: seq<string>)
    ensures |parts| >= 1
  {
    if s == "" then [""]
    else
      var parts := Split(s[1..], c);
      if s[0] == c then [""] + parts else [[s[0]] + parts[0]] + parts[1..]
  }

  /** `strings.Join` with one character. */
  function Join(parts: seq<string>, c: char): string {
    if |parts| == 0 then ""
    else if |parts| == 1 then parts[0]
    else parts[0] + [c] + Join(parts[1..], c)
  }

  lemma {:induction false} SplitHead(part: string, rest: string, c: char)
    requires Free(c, part)
    ensures Split(part + [c] + rest, c) == [part] + Split(rest, c)
    decreases |part|
  {
    if part == "" {
      assert (part + [c] + rest)[1..] == rest;
    } else {
      assert part[0] != c;
      SplitHead(part[1..], rest, c);
      assert (part + [c] + rest)[1..] == part[1..] + [c] + rest;
      assert [part[0]] + part[1..] == part;
    }
  }

  lemma {:induction false} SplitWhole(part: string, c: char)
    requires Free(c, part)
    ensures Split(part, c) == [part]
    decreases |part|
  {
    if part != "" {
      assert part[0] != c;
      SplitWhole(part[1..], c);
      assert [part[0]] + part[1..] == part;
    }
  }

  /** Splitting what was joined gives the pieces back. */
  lemma {:induction false} SplitJoin(parts: seq<string>, c: char)
    requires |parts| >= 1
    requires forall p :: p in parts ==> Free(c, p)
    ensures Split(Join(parts, c), c) == parts
    decreases |parts|
  {
    if |parts| == 1 {
      SplitWhole(parts[0], c);
      assert parts == [parts[0]];
    } else {
      SplitHead(parts[0], Join(parts[1..], c), c);
      SplitJoin(parts[1..], c);
      assert parts == [parts[0]] + parts[1..];
    }
  }

  /** And joining what was split. */
  lemma {:induction false} JoinSplit(s: string, c: char)
    ensures Join(Split(s, c), c) == s
    decreases |s|
  {
    if s != "" {
      JoinSplit(s[1..], c);
      var parts := Split(s[1..], c);
      if s[0] == c {
        assert ([""] + parts)[1..] == parts;
      } else {
        assert ([[s[0]] + parts[0]] + parts[1..])[1..] == parts[1..];
      }
    }
  }

  lemma {:induction false} JoinFree(parts: seq<string>, c: char, d: char)
    requires c != d
    requires forall p :: p in parts ==> Free(d, p)
    ensures Free(d, Join(parts, c))
    decreases |parts|
  {
    if |parts| > 0 {
      assert parts[0] in parts;
      JoinFree(parts[1..], c, d);
    }
  }

  lemma {:induction false} JoinEnd(parts: seq<string>, c: char)
    requires |parts| >= 1
    ensures var j, last := Join(parts, c), parts[|parts| - 1];
            if last != "" then j != "" && j[|j| - 1] == last[|last| - 1] else |parts| > 1 ==> j != "" && j[|j| - 1] == c
    decreases |parts|
  {
    if |parts| > 1 { JoinEnd(parts[1..], c); }
  }

  /** Where a character first occurs, or the length when it does not. */
  function IndexOf(s: string, c: char): (i: nat)
    ensures i <= |s| && Free(c, s[..i])
    ensures i < |s| ==> s[i] == c
  {
    if s == "" || s[0] == c then 0
    else
      var i := 1 + IndexOf(s[1..], c);
      assert s[..i] == [s[0]] + s[1..][..i - 1];
      i
  }

  function DropCR(s: string): string {
    if s != "" && s[|s| - 1] == '\r' then s[..|s| - 1] else s
  }

  /** One step of `bufio.Scanner` over lines: the line, and the text after its terminator. */
  function NextLine(s: string): (r: (string, string))
    requires s != ""
    ensures |r.1| < |s|
  {
    var i := IndexOf(s, '\n');
    (DropCR(s[..i]), if i < |s| then s[i + 1..] else "")
  }

  lemma {:induction false} IndexOfFirst(before: string, c: char, rest: string)
    requires Free(c, before)
    ensures IndexOf(before + [c] + rest, c) == |before|
    decreases |before|
  {
    if before != "" {
      assert before[0] != c;
      assert (before + [c] + rest)[1..] == before[1..] + [c] + rest;
      IndexOfFirst(before[1..], c, rest);
    }
  }

  lemma {:induction false} IndexOfNone(s: string, c: char)
    requires Free(c, s)
    ensures IndexOf(s, c) == |s|
    decreases |s|
  {
    if s != "" {
      assert s[0] != c;
      IndexOfNone(s[1..], c);
    }
  }

  /** A last line needs no terminator, and a carriage return before one, or at the end, is dropped. */
  lemma NextLineOfOthers(line: string, rest: string)
    requires Free('\n', line)
    ensures line != "" ==> NextLine(line) == (DropCR(line), "")
    ensures NextLine(line + "\r" + "\n" + rest) == (line, rest)
  {
    IndexOfNone(line, '\n');
    var dos := line + "\r";
    IndexOfFirst(dos, '\n', rest);
    assert dos[|line|] == '\r' && dos[..|line|] == line;
    var s := dos + "\n" + rest;
    assert s[..|dos|] == dos && s[|dos| + 1..] == rest;
    assert line[..|line|] == line;
  }

  lemma NextLineOfTerminated(line: string, rest: string)
    requires Free('\n', line) && (line == "" || line[|line| - 1] != '\r')
    ensures NextLine(line + "\n" + rest) == (line, rest)
  {
    var s := line + "\n" + rest;
    IndexOfFirst(line, '\n', rest);
    assert s[..|line|] == line && s[|line| + 1..] == rest;
  }
}
