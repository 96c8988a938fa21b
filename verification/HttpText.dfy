/** Text helpers of the HTTP layer: searching, line splitting, header trimming and numbers.
    A byte of the wire is a `char`; nothing below depends on which characters occur. */
module HttpText {

  import opened Optional

  // size_t and unsigned long on the 64-bit targets of the library.
  const SIZE_MODULUS: int := 0x1_0000_0000_0000_0000

  type size_t = n: int | 0 <= n < SIZE_MODULUS

  // Unsigned addition and subtraction wrap around.
  function AddSize(a: size_t, b: size_t): size_t {
    if a + b < SIZE_MODULUS then a + b else a + b - SIZE_MODULUS
  }

  function SubSize(a: size_t, b: size_t): size_t {
    if b <= a then a - b else a - b + SIZE_MODULUS
  }

  /** string_view::find of one character. */
  function FindChar(s: string, c: char): (r: Option<nat>)
    ensures r.Some? ==> r.value < |s| && s[r.value] == c && c !in s[..r.value]
    ensures r.None? ==> c !in s
  {
    if s == "" then None
    else if s[0] == c then Some(0)
    else match FindChar(s[1..], c)
      case None => None
      case Some(i) => assert s[..i + 1] == [s[0]] + s[1..][..i]; Some(i + 1)
  }

  predicate CrlfAt(s: string, i: nat) {
    i + 1 < |s| && s[i] == '\r' && s[i + 1] == '\n'
  }

  predicate NoCrlf(s: string) {
    forall i: nat | i < |s| :: !CrlfAt(s, i)
  }

  /** string_view::find("\r\n"): the first place where a line ends. */
  function FindCrlf(s: string): (r: Option<nat>)
    ensures r.Some? ==> CrlfAt(s, r.value) && forall j: nat | j < r.value :: !CrlfAt(s, j)
    ensures r.None? ==> NoCrlf(s)
  {
    if |s| < 2 then None
    else if s[0] == '\r' && s[1] == '\n' then Some(0)
    else
      assert forall j: nat | 0 < j :: CrlfAt(s, j) <==> CrlfAt(s[1..], j - 1);
      match FindCrlf(s[1..])
      case None => None
      case Some(i) => Some(i + 1)
  }

  /** The line before the first CRLF and everything after it; ("", data) when there is none. */
  function SplitLine(data: string): (r: (string, string))
    ensures NoCrlf(data) ==> r == ("", data)
    ensures !NoCrlf(data) ==> data == r.0 + "\r\n" + r.1
  {
    match FindCrlf(data)
    case None => ("", data)
    case Some(pos) => (data[..pos], data[pos + 2..])
  }

  lemma SplitLineRest(data: string)
    ensures var rest := SplitLine(data).1; |rest| <= |data| && rest == data[|data| - |rest|..]
  {
  }

  // What string_view equality makes of the caller's test `line.empty() && rest == cur`.
  predicate NoLine(data: string) {
    var (line, rest) := SplitLine(data);
    line == "" && rest == data
  }

  lemma NoLineIff(data: string)
    ensures NoLine(data) <==> NoCrlf(data)
    ensures !NoLine(data) ==> |SplitLine(data).1| + 2 <= |data|
  {
  }

  /** Bytes that arrive after a complete line do not change where the line ends. */
  lemma SplitLineExtends(a: string, b: string)
    requires !NoLine(a)
    ensures !NoLine(a + b)
    ensures SplitLine(a + b) == (SplitLine(a).0, SplitLine(a).1 + b)
  {
    NoLineIff(a);
    var pos := FindCrlf(a).value;
    assert CrlfAt(a + b, pos);
    assert forall j: nat | j < pos :: CrlfAt(a + b, j) <==> CrlfAt(a, j);
    assert FindCrlf(a + b) == Some(pos) by {
      var q := FindCrlf(a + b);
      assert q.Some? && !(q.value < pos) && !(pos < q.value);
    }
    assert (a + b)[..pos] == a[..pos];
    assert (a + b)[pos + 2..] == a[pos + 2..] + b;
    NoLineIff(a + b);
  }

  /** A line without CRLF inside is read back exactly, whatever follows its CRLF. */
  lemma SplitLineExact(line: string, rest: string)
    requires NoCrlf(line)
    ensures !NoLine(line + "\r\n" + rest)
    ensures SplitLine(line + "\r\n" + rest) == (line, rest)
  {
    var s := line + "\r\n" + rest;
    assert CrlfAt(s, |line|);
    forall j: nat | j < |line| ensures !CrlfAt(s, j) {
      assert !CrlfAt(line, j);
    }
    var q := FindCrlf(s);
    assert q.Some? && !(q.value < |line|) && !(|line| < q.value);
    assert s[..|line|] == line && s[|line| + 2..] == rest;
    NoLineIff(s);
  }

  lemma NoCrlfConcat(a: string, c: char, b: string)
    requires NoCrlf(a) && NoCrlf(b) && c != '\r' && c != '\n'
    ensures NoCrlf(a + [c] + b)
  {
    var s := a + [c] + b;
    forall i: nat | i < |s| ensures !CrlfAt(s, i) {
      if i < |a| {
        assert !CrlfAt(a, i);
      } else if |a| < i {
        assert !CrlfAt(b, i - |a| - 1);
      }
    }
  }

  /** FindChar sees the first separator of a joined string. */
  lemma {:induction false} FindCharJoined(a: string, c: char, b: string)
    requires c !in a
    ensures FindChar(a + [c] + b, c) == Some(|a|)
    ensures (a + [c] + b)[..|a|] == a && (a + [c] + b)[|a| + 1..] == b
  {
    var s := a + [c] + b;
    assert s[|a|] == c;
    assert c in s;
  }

  lemma {:induction false} FindCharFirst(s: string, c: char, i: nat)
    requires i < |s| && s[i] == c
    ensures FindChar(s, c).Some? && FindChar(s, c).value <= i
  {
    if s[0] != c {
      FindCharFirst(s[1..], c, i - 1);
    }
  }

  function ToLower(c: char): char {
    if 'A' <= c <= 'Z' then (c as int + 32) as char else c
  }

  function Lowercase(s: string): (r: string)
    ensures |r| == |s| && forall i | 0 <= i < |s| :: r[i] == ToLower(s[i])
  {
    if s == "" then "" else [ToLower(s[0])] + Lowercase(s[1..])
  }

  // ---- Names up to the case of ASCII letters -----------------------------------------------------

  predicate SameLetter(a: char, b: char) {
    || a == b
    || ('A' <= a <= 'Z' && b as int == a as int + 32)
    || ('A' <= b <= 'Z' && a as int == b as int + 32)
  }

  predicate SameName(a: string, b: string) {
    |a| == |b| && forall i | 0 <= i < |a| :: SameLetter(a[i], b[i])
  }

  predicate NoCapitals(s: string) {
    forall i | 0 <= i < |s| :: !('A' <= s[i] <= 'Z')
  }

  /** Lowercasing keeps the name and leaves no capital: there is one such spelling and this is it. */
  lemma {:induction false} LowercaseIs(s: string, t: string)
    ensures SameName(s, Lowercase(s)) && NoCapitals(Lowercase(s))
    ensures SameName(s, t) && NoCapitals(t) ==> Lowercase(s) == t
  {
    var r := Lowercase(s);
    hide Lowercase;
    if SameName(s, t) && NoCapitals(t) {
      forall i | 0 <= i < |s| ensures r[i] == t[i] {
        assert SameLetter(s[i], t[i]);
      }
    }
  }

  /** Two names are filed under one key exactly when they differ in case alone. */
  lemma {:induction false} SameKeyIff(a: string, b: string)
    ensures Lowercase(a) == Lowercase(b) <==> SameName(a, b)
  {
    hide Lowercase;
    var r, t := Lowercase(a), Lowercase(b);
    if r == t {
      forall i | 0 <= i < |a| ensures SameLetter(a[i], b[i]) {
        assert r[i] == t[i];
      }
    }
    if SameName(a, b) {
      LowerSame(a, b, r, t);
    }
  }

  lemma LowerSame(a: string, b: string, r: string, t: string)
    requires SameName(a, b) && |r| == |a| && |t| == |b|
    requires forall i | 0 <= i < |a| :: r[i] == ToLower(a[i])
    requires forall i | 0 <= i < |b| :: t[i] == ToLower(b[i])
    ensures r == t
  {
    assert forall i | 0 <= i < |a| :: SameLetter(a[i], b[i]) && r[i] == t[i];
  }

  // ---- Trimming and numbers ----------------------------------------------------------------------

  function SkipSpaces(s: string): string {
    if s != "" && s[0] == ' ' then SkipSpaces(s[1..]) else s
  }

  function DropTrailingSpaces(s: string): string {
    if s != "" && s[|s| - 1] == ' ' then DropTrailingSpaces(s[..|s| - 1]) else s
  }

  predicate NoEdgeSpaces(s: string) {
    s != "" ==> s[0] != ' ' && s[|s| - 1] != ' '
  }

  predicate AllSpaces(s: string) {
    forall i | 0 <= i < |s| :: s[i] == ' '
  }

  /** Trimming takes spaces off both ends, all of them, and nothing else. */
  lemma {:induction false} TrimmedParts(s: string) returns (before: string, after: string)
    ensures var v := DropTrailingSpaces(SkipSpaces(s));
            s == before + v + after && AllSpaces(before) && AllSpaces(after) && NoEdgeSpaces(v)
  {
    before := SkippedPart(s);
    after := DroppedPart(SkipSpaces(s));
    var v := DropTrailingSpaces(SkipSpaces(s));
    assert s == before + (v + after);
    assert v != "" ==> v[0] == SkipSpaces(s)[0];
  }

  lemma {:induction false} SkippedPart(s: string) returns (before: string)
    ensures s == before + SkipSpaces(s) && AllSpaces(before)
    ensures SkipSpaces(s) != "" ==> SkipSpaces(s)[0] != ' '
  {
    before := "";
    if s != "" && s[0] == ' ' {
      var rest := SkippedPart(s[1..]);
      before := [' '] + rest;
      assert s == [' '] + s[1..];
    }
  }

  lemma {:induction false} DroppedPart(s: string) returns (after: string)
    ensures s == DropTrailingSpaces(s) + after && AllSpaces(after)
    ensures DropTrailingSpaces(s) != "" ==> DropTrailingSpaces(s)[|DropTrailingSpaces(s)| - 1] != ' '
  {
    after := "";
    if s != "" && s[|s| - 1] == ' ' {
      var rest := DroppedPart(s[..|s| - 1]);
      after := rest + [' '];
      assert s == s[..|s| - 1] + [' '];
    }
  }

  predicate IsDigit(c: char) { '0' <= c <= '9' }

  // isspace in the C locale.
  predicate IsBlank(c: char) { c == ' ' || 9 <= c as int <= 13 }

  function SkipBlanks(s: string): string {
    if s != "" && IsBlank(s[0]) then SkipBlanks(s[1..]) else s
  }

  predicate AllDigits(s: string) {
    forall i | 0 <= i < |s| :: IsDigit(s[i])
  }

  function LeadingDigits(s: string): (r: string)
    ensures AllDigits(r) && r <= s
  {
    if s != "" && IsDigit(s[0]) then [s[0]] + LeadingDigits(s[1..]) else ""
  }

  function DecimalValue(s: string): nat
    requires AllDigits(s)
  {
    if s == "" then 0 else 10 * DecimalValue(s[..|s| - 1]) + (s[|s| - 1] as int - '0' as int)
  }

  /** std::stoul in base 10: leading blanks, an optional sign, digits, then anything.
      None stands for its two exceptions (no digits; value too large for the type). */
  function Stoul(s: string): Option<size_t> {
    var t := SkipBlanks(s);
    var signed := t != "" && (t[0] == '-' || t[0] == '+');
    var digits := LeadingDigits(if signed then t[1..] else t);
    if digits == "" then None
    else
      var n := DecimalValue(digits);
      if n >= SIZE_MODULUS then None
      else if signed && t[0] == '-' then Some(SubSize(0, n))
      else Some(n)
  }

  /** std::to_string of a non-negative number. */
  function Decimal(n: nat): (r: string)
    ensures r != "" && AllDigits(r)
  {
    var last := [('0' as int + n % 10) as char];
    if n < 10 then last else Decimal(n / 10) + last
  }

  // std::to_string of an int.
  function DecimalInt(n: int): string {
    if n < 0 then "-" + Decimal(-n) else Decimal(n)
  }

  lemma {:induction false} DecimalValueInverts(n: nat)
    ensures DecimalValue(Decimal(n)) == n
  {
    var s := Decimal(n);
    if n < 10 {
      assert s[..|s| - 1] == "";
    } else {
      assert s[..|s| - 1] == Decimal(n / 10);
      DecimalValueInverts(n / 10);
    }
  }

  lemma {:induction false} LeadingDigitsOfDigits(s: string)
    requires AllDigits(s)
    ensures LeadingDigits(s) == s
  {
    if s != "" {
      LeadingDigitsOfDigits(s[1..]);
      assert s == [s[0]] + s[1..];
    }
  }

  /** Printing a length and reading it back: the decimal inverse behind Content-Length. */
  lemma {:induction false} StoulOfDecimal(n: size_t)
    ensures Stoul(Decimal(n)) == Some(n)
  {
    var s := Decimal(n);
    assert IsDigit(s[0]);
    LeadingDigitsOfDigits(s);
    DecimalValueInverts(n);
  }

  predicate AllBlanks(s: string) {
    forall i | 0 <= i < |s| :: s[i] in {' ', '\t', '\n', '\r', 11 as char, 12 as char}
  }

  lemma {:induction false} BlanksSkipped(blanks: string, rest: string)
    requires AllBlanks(blanks)
    requires rest != "" ==> rest[0] !in {' ', '\t', '\n', '\r', 11 as char, 12 as char}
    ensures SkipBlanks(blanks + rest) == rest
  {
    if blanks == "" {
      assert blanks + rest == rest;
    } else {
      assert (blanks + rest)[1..] == blanks[1..] + rest;
      BlanksSkipped(blanks[1..], rest);
    }
  }

  lemma {:induction false} DigitsTaken(digits: string, tail: string)
    requires forall i | 0 <= i < |digits| :: '0' <= digits[i] <= '9'
    requires tail != "" ==> !('0' <= tail[0] <= '9')
    ensures LeadingDigits(digits + tail) == digits
  {
    if digits == "" {
      assert digits + tail == tail;
    } else {
      assert (digits + tail)[1..] == digits[1..] + tail;
      DigitsTaken(digits[1..], tail);
      assert digits == [digits[0]] + digits[1..];
    }
  }

  /** What stoul makes of any text: blanks, a sign, digits and whatever follows them. It refuses
      exactly texts without digits there and numbers of 2^64 or more; a minus sign wraps around. */
  lemma {:induction false} StoulReads(blanks: string, sign: string, digits: string, tail: string)
    requires AllBlanks(blanks) && sign in {"", "+", "-"}
    requires forall i | 0 <= i < |digits| :: '0' <= digits[i] <= '9'
    requires tail != "" ==> !('0' <= tail[0] <= '9')
    requires sign == "" && digits == "" && tail != "" ==>
               tail[0] !in {' ', '\t', '\n', '\r', 11 as char, 12 as char, '+', '-'}
    ensures var r := Stoul(blanks + sign + digits + tail);
            var n := DecimalValue(digits);
            if digits == "" || n >= 0x1_0000_0000_0000_0000 then r == None
            else r == Some(if sign == "-" && n != 0 then 0x1_0000_0000_0000_0000 - n else n)
  {
    var t := sign + (digits + tail);
    assert blanks + sign + digits + tail == blanks + t;
    SignThenRest(sign, digits + tail);
    FirstOf(digits, tail);
    BlanksSkipped(blanks, t);
    DigitsTaken(digits, tail);
    hide SkipBlanks, LeadingDigits, DecimalValue, AllBlanks;
    assert t != "" && (t[0] == '-' || t[0] == '+') <==> sign != "";
  }

  lemma SignThenRest(sign: string, rest: string)
    requires sign in {"", "+", "-"}
    ensures sign == "" ==> sign + rest == rest
    ensures sign != "" ==> |sign + rest| > 0 && (sign + rest)[0] == sign[0] && (sign + rest)[1..] == rest
  {
  }

  lemma FirstOf(a: string, b: string)
    ensures a != "" ==> (a + b)[0] == a[0]
    ensures a == "" ==> a + b == b
  {
  }

  /** Decimal notation: the value of a digit string is the sum of its digits' places. */
  lemma {:induction false} DecimalPlaces(high: string, low: string)
    requires AllDigits(high) && |low| == 1 && '0' <= low[0] <= '9'
    ensures DecimalValue(high + low) == 10 * DecimalValue(high) + (low[0] as int - 48)
    ensures DecimalValue("") == 0
  {
    assert (high + low)[..|high|] == high;
  }

  // A negative number is printed with a minus sign before its digits, any other without.
  lemma {:induction false} DecimalIntReadsBack(n: int)
    ensures n >= 0 ==> AllDigits(DecimalInt(n)) && DecimalValue(DecimalInt(n)) == n
    ensures n < 0 ==> exists d :: DecimalInt(n) == "-" + d && AllDigits(d) && DecimalValue(d) == -n
  {
    DecimalValueInverts(if n < 0 then -n else n);
    if n < 0 {
      assert DecimalInt(n) == "-" + Decimal(-n);
    }
  }
}
