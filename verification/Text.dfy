/**
 The parts of printf and scanf that the programs use: %d, %04d and %s printed, %d and %s read back.
 */
module Text {
  import opened Basics

  predicate IsDigit(c: char) { '0' <= c <= '9' }

  /** isspace, in the C locale. */
  predicate IsSpace(c: char) { c == ' ' || '\t' <= c <= '\r' }

  predicate AllDigits(s: string) {
    forall i | 0 <= i < |s| :: IsDigit(s[i])
  }

  /** A string that %s reads back whole. */
  predicate IsWord(s: string) {
    s != "" && forall i | 0 <= i < |s| :: !IsSpace(s[i])
  }

  predicate StartsWith(s: string, prefix: string) {
    prefix <= s
  }

  function DigitChar(n: nat): (c: char)
    requires n < 10
    ensures IsDigit(c)
  {
    '0' + n as char
  }

  function DigitValue(c: char): nat
    requires IsDigit(c)
  {
    (c - '0') as nat
  }

  function Digits(n: nat): (s: string)
    ensures s != "" && AllDigits(s)
  {
    if n < 10 then [DigitChar(n)] else Digits(n / 10) + [DigitChar(n % 10)]
  }

  function Value(s: string): nat
    requires AllDigits(s)
  {
    if s == "" then 0 else Value(s[..|s| - 1]) * 10 + DigitValue(s[|s| - 1])
  }

  lemma {:induction false} DigitsValue(n: nat)
    ensures Value(Digits(n)) == n
  {
    if n >= 10 {
      DigitsValue(n / 10);
      assert Digits(n)[..|Digits(n)| - 1] == Digits(n / 10);
    }
  }

  /** printf("%d") */
  function PrintInt(n: int): (s: string)
    ensures s != ""
  {
    if n < 0 then "-" + Digits(-n) else Digits(n)
  }

  /** printf("%04d"), for numbers that are not negative. */
  function Pad4(n: nat): string {
    var s := Digits(n);
    seq(if |s| < 4 then 4 - |s| else 0, _ => '0') + s
  }

  function Span(s: string, p: char -> bool): (n: nat)
    ensures n <= |s|
  {
    if s != "" && p(s[0]) then 1 + Span(s[1..], p) else 0
  }

  lemma {:induction false} SpanStops(a: string, b: string, p: char -> bool)
    requires forall i | 0 <= i < |a| :: p(a[i])
    requires b != "" ==> !p(b[0])
    ensures Span(a + b, p) == |a|
  {
    if a == "" {
      assert a + b == b;
    } else {
      assert (a + b)[1..] == a[1..] + b;
      SpanStops(a[1..], b, p);
    }
  }

  lemma {:induction false} SpanTrue(s: string, p: char -> bool)
    ensures forall i | 0 <= i < Span(s, p) :: p(s[i])
  {
    if s != "" && p(s[0]) {
      SpanTrue(s[1..], p);
      forall i | 0 <= i < Span(s, p) ensures p(s[i]) {
        assert i > 0 ==> s[i] == s[1..][i - 1];
      }
    }
  }

  function SkipSpace(s: string): string {
    s[Span(s, IsSpace)..]
  }

  function ScanDigits(s: string): Option<(int, string)> {
    var n := Span(s, IsDigit);
    SpanTrue(s, IsDigit);
    if n == 0 then None else Some((Value(s[..n]), s[n..]))
  }

  function ScanSigned(t: string): Option<(int, string)> {
    var signed := t != "" && (t[0] == '-' || t[0] == '+');
    var found := ScanDigits(if signed then t[1..] else t);
    if found.None? then None
    else
      var n := found.value.0;
      Some((if signed && t[0] == '-' then -n else n, found.value.1))
  }

  /** scanf("%d"): the number and what follows it, or None when nothing matches. */
  function ScanInt(s: string): Option<(int, string)> {
    ScanSigned(SkipSpace(s))
  }

  /** scanf("%s") */
  function ScanWord(s: string): Option<(string, string)> {
    var t := SkipSpace(s);
    var n := Span(t, c => !IsSpace(c));
    if n == 0 then None else Some((t[..n], t[n..]))
  }

  lemma SkipNothing(s: string)
    requires s != "" ==> !IsSpace(s[0])
    ensures SkipSpace(s) == s
  {
  }

  lemma SkipOne(s: string)
    requires s != "" ==> !IsSpace(s[0])
    ensures SkipSpace(" " + s) == s
  {
    SpanStops(" ", s, IsSpace);
  }

  lemma ScanDigitsPrinted(n: nat, rest: string)
    requires rest != "" ==> !IsDigit(rest[0])
    ensures ScanDigits(Digits(n) + rest) == Some((n, rest))
  {
    SpanStops(Digits(n), rest, IsDigit);
    DigitsValue(n);
    assert (Digits(n) + rest)[..|Digits(n)|] == Digits(n);
    assert (Digits(n) + rest)[|Digits(n)|..] == rest;
  }

  lemma ScanMinus(t: string, n: int, rest: string)
    requires ScanDigits(t) == Some((n, rest))
    ensures ScanSigned("-" + t) == Some((-n, rest))
  {
    assert ("-" + t)[1..] == t;
  }

  lemma ScanPlain(t: string, n: int, rest: string)
    requires t != "" && IsDigit(t[0]) && ScanDigits(t) == Some((n, rest))
    ensures ScanSigned(t) == Some((n, rest))
  {
  }

  lemma ScanNegative(digits: string, n: int, rest: string)
    requires ScanDigits(digits + rest) == Some((n, rest))
    ensures ScanSigned("-" + digits + rest) == Some((-n, rest))
  {
    ScanMinus(digits + rest, n, rest);
    assert "-" + digits + rest == "-" + (digits + rest);
  }

  lemma ScanSignedPrinted(n: int, rest: string)
    requires rest != "" ==> !IsDigit(rest[0])
    ensures ScanSigned(PrintInt(n) + rest) == Some((n, rest))
  {
    if n < 0 {
      ScanDigitsPrinted(-n, rest);
      ScanNegative(Digits(-n), -n, rest);
    } else {
      ScanDigitsPrinted(n, rest);
      ScanPlain(Digits(n) + rest, n, rest);
    }
  }

  lemma ScanIntSkips(s: string)
    requires s != "" && !IsSpace(s[0])
    ensures ScanInt(s) == ScanSigned(s)
    ensures ScanInt(" " + s) == ScanSigned(s)
  {
    SkipNothing(s);
    SkipOne(s);
  }

  lemma PrintedFirst(n: int, rest: string)
    ensures !IsSpace((PrintInt(n) + rest)[0])
  {
  }

  /** %d reads back what %d printed, after a blank or not. */
  lemma ScanIntPrinted(n: int, rest: string)
    requires rest != "" ==> !IsDigit(rest[0])
    ensures ScanInt(PrintInt(n) + rest) == Some((n, rest))
    ensures ScanInt(" " + PrintInt(n) + rest) == Some((n, rest))
  {
    hide PrintInt, ScanInt, ScanSigned, IsSpace;
    var s := PrintInt(n) + rest;
    PrintedFirst(n, rest);
    ScanSignedPrinted(n, rest);
    ScanIntSkips(s);
    assert " " + PrintInt(n) + rest == " " + s;
  }

  /** %s reads back a word, after a blank or not. */
  lemma ScanWordPrinted(w: string, rest: string)
    requires IsWord(w) && (rest != "" ==> IsSpace(rest[0]))
    ensures ScanWord(w + rest) == Some((w, rest))
    ensures ScanWord(" " + w + rest) == Some((w, rest))
  {
    var s := w + rest;
    assert " " + w + rest == " " + s;
    SkipOne(s);
    SkipNothing(s);
    SpanStops(w, rest, c => !IsSpace(c));
    assert s[..|w|] == w && s[|w|..] == rest;
  }

  lemma {:induction false} DigitsLength(n: nat, k: nat)
    requires k > 0 && n < Power10(k)
    ensures |Digits(n)| <= k
    decreases k
  {
    if n >= 10 {
      DigitsLength(n / 10, k - 1);
    }
  }

  function Power10(k: nat): (p: nat)
    ensures p > 0
  {
    if k == 0 then 1 else 10 * Power10(k - 1)
  }
  // ---------- what is scanned, of any text ----------

  predicate AllBlank(s: string) {
    forall i | 0 <= i < |s| :: s[i] in {' ', '\t', '\n', '\U{0B}', '\U{0C}', '\r'}
  }

  lemma BlankIsSpace(s: string)
    ensures AllBlank(s) <==> forall i | 0 <= i < |s| :: IsSpace(s[i])
  {
  }

  lemma SpanSplits(s: string, p: char -> bool)
    ensures var n := Span(s, p);
            s == s[..n] + s[n..] && (forall i | 0 <= i < n :: p(s[..n][i])) && (s[n..] != "" ==> !p(s[n..][0]))
  {
    SpanTrue(s, p);
    SpanEnds(s, p);
  }

  lemma {:induction false} SpanEnds(s: string, p: char -> bool)
    ensures Span(s, p) < |s| ==> !p(s[Span(s, p)])
  {
    if s != "" && p(s[0]) {
      SpanEnds(s[1..], p);
    }
  }

  lemma SkipsBlanks(blanks: string, t: string)
    requires AllBlank(blanks) && (t != "" ==> !IsSpace(t[0]))
    ensures SkipSpace(blanks + t) == t
  {
    BlankIsSpace(blanks);
    SpanStops(blanks, t, IsSpace);
    assert (blanks + t)[|blanks|..] == t;
  }

  /** The number that a sign and digits make. */
  function Signed(sign: string, digits: string): int
    requires AllDigits(digits)
  {
    var n: int := Value(digits);
    if sign == "-" then -n else n
  }

  /** A text as %d takes it apart: blanks, a sign or none, digits as far as they go, and what follows. */
  ghost predicate IsNumber(s: string, blanks: string, sign: string, digits: string, rest: string) {
    && s == blanks + (sign + (digits + rest)) && AllBlank(blanks) && sign in {"", "+", "-"}
    && digits != "" && AllDigits(digits) && (rest != "" ==> !IsDigit(rest[0]))
  }

  lemma DigitsAreScanned(digits: string, rest: string)
    requires digits != "" && AllDigits(digits) && (rest != "" ==> !IsDigit(rest[0]))
    ensures ScanDigits(digits + rest) == Some((Value(digits), rest))
  {
    SpanStops(digits, rest, IsDigit);
    assert (digits + rest)[..|digits|] == digits && (digits + rest)[|digits|..] == rest;
  }

  lemma SignIsScanned(sign: string, u: string)
    requires sign in {"", "+", "-"} && u != "" && IsDigit(u[0])
    ensures ScanSigned(sign + u) == match ScanDigits(u)
                                    case None => None
                                    case Some((n, rest)) => Some((if sign == "-" then -n else n, rest))
  {
    hide ScanDigits;
    if sign == "" {
      assert sign + u == u;
    } else {
      assert (sign + u)[1..] == u;
    }
  }

  lemma NumberIsScanned(s: string, blanks: string, sign: string, digits: string, rest: string)
    requires IsNumber(s, blanks, sign, digits, rest)
    ensures ScanInt(s) == Some((Signed(sign, digits), rest))
  {
    hide ScanSigned, ScanDigits, SkipSpace;
    SkipsBlanks(blanks, sign + (digits + rest));
    SignIsScanned(sign, digits + rest);
    DigitsAreScanned(digits, rest);
  }

  /** %d reads exactly the texts that begin with a number, and their number. */
  lemma ScanIntIff(s: string, n: int, rest: string)
    ensures ScanInt(s) == Some((n, rest)) <==>
              exists blanks, sign, digits :: IsNumber(s, blanks, sign, digits, rest) && n == Signed(sign, digits)
  {
    hide ScanInt, Signed;
    if ScanInt(s) == Some((n, rest)) {
      var blanks, sign, digits := TakenApart(s, n, rest);
    }
    if blanks, sign, digits :| IsNumber(s, blanks, sign, digits, rest) && n == Signed(sign, digits) {
      NumberIsScanned(s, blanks, sign, digits, rest);
    }
  }

  lemma SignTakenApart(t: string, n: int, rest: string) returns (sign: string, digits: string)
    requires ScanSigned(t) == Some((n, rest))
    ensures t == sign + (digits + rest) && sign in {"", "+", "-"} && digits != "" && AllDigits(digits)
    ensures n == Signed(sign, digits) && (rest != "" ==> !IsDigit(rest[0]))
  {
    var signed := t != "" && (t[0] == '-' || t[0] == '+');
    sign := if signed then t[..1] else "";
    var u := if signed then t[1..] else t;
    assert t == sign + u;
    SpanSplits(u, IsDigit);
    digits := u[..Span(u, IsDigit)];
    assert u == digits + rest;
    assert signed ==> sign == [t[0]];
    assert "+" == ['+'] && "-" == ['-'];
  }

  lemma TakenApart(s: string, n: int, rest: string) returns (blanks: string, sign: string, digits: string)
    requires ScanInt(s) == Some((n, rest))
    ensures IsNumber(s, blanks, sign, digits, rest) && n == Signed(sign, digits)
  {
    hide ScanSigned, Signed;
    SpanSplits(s, IsSpace);
    blanks := s[..Span(s, IsSpace)];
    BlankIsSpace(blanks);
    sign, digits := SignTakenApart(SkipSpace(s), n, rest);
  }

  /** %s reads exactly the texts that have a word, and their first one. */
  lemma ScanWordIff(s: string, w: string, rest: string)
    ensures ScanWord(s) == Some((w, rest)) <==>
              exists blanks :: s == blanks + (w + rest) && AllBlank(blanks) && IsWord(w)
                               && (rest != "" ==> IsSpace(rest[0]))
  {
    var p := c => !IsSpace(c);
    if ScanWord(s) == Some((w, rest)) {
      SpanSplits(s, IsSpace);
      var blanks, t := s[..Span(s, IsSpace)], SkipSpace(s);
      BlankIsSpace(blanks);
      SpanSplits(t, p);
      assert s == blanks + (w + rest);
    }
    if blanks :| s == blanks + (w + rest) && AllBlank(blanks) && IsWord(w) && (rest != "" ==> IsSpace(rest[0])) {
      SkipsBlanks(blanks, w + rest);
      SpanStops(w, rest, p);
      assert (w + rest)[..|w|] == w && (w + rest)[|w|..] == rest;
    }
  }
}
