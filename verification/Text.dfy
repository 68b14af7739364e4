/** JavaScript's text operations, as far as the parsers use them. */
module Text {
  import opened Banks

  // ---------- Splitting and joining ----------

  /** The first place the separator occurs. */
  function IndexOf(text: string, sep: string): (r: Option<nat>)
    ensures r.Some? ==> r.value + |sep| <= |text| && text[r.value..r.value + |sep|] == sep
  {
    if |text| < |sep| then None
    else if text[..|sep|] == sep then Some(0)
    else if text == "" then None
    else
      match IndexOf(text[1..], sep)
      case None => None
      case Some(i) =>
        assert text[1..][i..i + |sep|] == text[i + 1..i + 1 + |sep|];
        Some(i + 1)
  }

  function Split(text: string, sep: string): (chunks: seq<string>)
    ensures text != "" || sep != "" ==> chunks != []
  {
    if sep == "" then seq(|text|, i requires 0 <= i < |text| => [text[i]])
    else
      match IndexOf(text, sep)
      case None => [text]
      case Some(i) => [text[..i]] + Split(text[i + |sep|..], sep)
  }

  function Join(chunks: seq<string>, sep: string): string {
    if chunks == [] then ""
    else if |chunks| == 1 then chunks[0]
    else chunks[0] + sep + Join(chunks[1..], sep)
  }

  lemma JoinFirst(chunk: string, rest: seq<string>, sep: string)
    requires rest != []
    ensures Join([chunk] + rest, sep) == chunk + sep + Join(rest, sep)
  {
    assert ([chunk] + rest)[1..] == rest;
  }

  /** Splitting loses nothing but the separators. */
  lemma {:induction false} JoinSplit(text: string, sep: string)
    ensures Join(Split(text, sep), sep) == text
  {
    if sep == "" {
      JoinLetters(text);
    } else {
      var i := IndexOf(text, sep);
      if i.Some? {
        var rest := text[i.value + |sep|..];
        JoinSplit(rest, sep);
        JoinFirst(text[..i.value], Split(rest, sep), sep);
        assert text == text[..i.value] + sep + rest;
      }
    }
  }

  lemma {:induction false} JoinLetters(text: string)
    ensures Join(Split(text, ""), "") == text
  {
    if |text| > 1 {
      JoinLetters(text[1..]);
      assert Split(text, "")[1..] == Split(text[1..], "");
    }
  }

  lemma {:induction false} JoinMore(chunks: seq<string>, sep: string, chunk: string)
    requires chunks != []
    ensures Join(chunks + [chunk], sep) == Join(chunks, sep) + sep + chunk
  {
    assert (chunks + [chunk])[1..] == chunks[1..] + [chunk];
    if |chunks| > 1 {
      JoinMore(chunks[1..], sep, chunk);
    }
  }

  function NonEmpty(chunks: seq<string>): seq<string> {
    if chunks == [] then []
    else
      var n := |chunks| - 1;
      NonEmpty(chunks[..n]) + if chunks[n] == "" then [] else [chunks[n]]
  }

  lemma NonEmptyMore(chunks: seq<string>, chunk: string)
    ensures NonEmpty(chunks + [chunk]) == NonEmpty(chunks) + if chunk == "" then [] else [chunk]
  {
    assert (chunks + [chunk])[..|chunks|] == chunks;
  }

  lemma {:induction false} FirstOf(a: string, c: char, b: string)
    requires c !in a
    ensures IndexOf(a + [c] + b, [c]) == Some(|a|)
    ensures IndexOf(a, [c]) == None
  {
    var s := a + [c] + b;
    if a == "" {
      assert s[..1] == [c];
    } else {
      FirstOf(a[1..], c, b);
      assert s[1..] == a[1..] + [c] + b;
      assert s[..1] == [a[0]] && a[..1] == [a[0]];
    }
  }

  lemma SplitFirst(a: string, c: char, b: string)
    requires c !in a
    ensures Split(a + [c] + b, [c]) == [a] + Split(b, [c])
    ensures Split(a, [c]) == [a]
  {
    FirstOf(a, c, b);
    var s := a + [c] + b;
    assert s[..|a|] == a && s[|a| + 1..] == b;
  }

  /** Splitting undoes joining when no chunk holds the separator. */
  lemma {:induction false} SplitJoin(chunks: seq<string>, c: char)
    requires chunks != [] && forall k :: 0 <= k < |chunks| ==> c !in chunks[k]
    ensures Split(Join(chunks, [c]), [c]) == chunks
  {
    if |chunks| == 1 {
      SplitFirst(chunks[0], c, "");
    } else {
      var rest := Join(chunks[1..], [c]);
      SplitJoin(chunks[1..], c);
      SplitFirst(chunks[0], c, rest);
      assert Join(chunks, [c]) == chunks[0] + [c] + rest;
      assert chunks == [chunks[0]] + chunks[1..];
    }
  }

  // ---------- White space ----------

  predicate IsWhite(c: char) {
    var k := c as int;
    || 9 <= k <= 13 || k == 32 || k == 0xA0 || k == 0x1680 || 0x2000 <= k <= 0x200A || k == 0x2028
    || k == 0x2029 || k == 0x202F || k == 0x205F || k == 0x3000 || k == 0xFEFF
  }

  /** The white space of ECMA-262 (sections 12.2 and 12.3), by its code points. */
  lemma WhiteIs(c: char)
    ensures IsWhite(c) <==>
            c as int in {0x9, 0xA, 0xB, 0xC, 0xD, 0x20, 0xA0, 0x1680, 0x2000, 0x2001, 0x2002, 0x2003, 0x2004, 0x2005,
                         0x2006, 0x2007, 0x2008, 0x2009, 0x200A, 0x2028, 0x2029, 0x202F, 0x205F, 0x3000, 0xFEFF}
  {
  }

  ghost predicate AllWhite(s: string) {
    forall i :: 0 <= i < |s| ==> IsWhite(s[i])
  }

  function TrimStart(s: string): (r: string)
    ensures |r| <= |s|
    ensures r == "" || !IsWhite(r[0])
  {
    if s != "" && IsWhite(s[0]) then TrimStart(s[1..]) else s
  }

  function TrimEnd(s: string): (r: string)
    ensures r <= s
    ensures r == "" || !IsWhite(r[|r| - 1])
  {
    if s != "" && IsWhite(s[|s| - 1]) then TrimEnd(s[..|s| - 1]) else s
  }

  function Trim(s: string): (r: string)
    ensures |r| <= |s|
    ensures r == "" || (!IsWhite(r[0]) && !IsWhite(r[|r| - 1]))
  {
    TrimEnd(TrimStart(s))
  }

  predicate Trimmed(s: string) {
    s != "" && !IsWhite(s[0]) && !IsWhite(s[|s| - 1])
  }

  lemma TrimOfTrimmed(s: string)
    requires Trimmed(s)
    ensures Trim(s) == s && Trim(" " + s) == s
  {
    assert (" " + s)[1..] == s;
  }

  lemma {:induction false} TrimStartOf(a: string, m: string)
    requires AllWhite(a) && (m == "" || !IsWhite(m[0]))
    ensures TrimStart(a + m) == m
  {
    if a == "" {
      assert a + m == m;
    } else {
      TrimStartOf(a[1..], m);
      assert (a + m)[1..] == a[1..] + m;
    }
  }

  lemma {:induction false} TrimEndOf(m: string, b: string)
    requires AllWhite(b) && (m == "" || !IsWhite(m[|m| - 1]))
    ensures TrimEnd(m + b) == m
  {
    if b == "" {
      assert m + b == m;
    } else {
      TrimEndOf(m, b[..|b| - 1]);
      assert (m + b)[..|m + b| - 1] == m + b[..|b| - 1];
    }
  }

  /** Trimming takes off the white space on both sides, and no more. */
  lemma TrimOf(a: string, m: string, b: string)
    requires AllWhite(a) && AllWhite(b) && (m == "" || Trimmed(m))
    ensures Trim(a + m + b) == m
  {
    if m == "" {
      TrimStartOf(a + b, "");
      assert a + m + b == a + b + "";
    } else {
      TrimStartOf(a, m + b);
      assert a + m + b == a + (m + b);
      TrimEndOf(m, b);
    }
  }

  function LeadingWhite(s: string): (k: nat)
    ensures k <= |s|
  {
    if s != "" && IsWhite(s[0]) then 1 + LeadingWhite(s[1..]) else 0
  }

  /** Runs of two or more white-space characters become one space. */
  function Collapse(s: string): string
    decreases |s|
  {
    if s == "" then ""
    else if !IsWhite(s[0]) then [s[0]] + Collapse(s[1..])
    else
      var k := LeadingWhite(s);
      (if k >= 2 then " " else [s[0]]) + Collapse(s[k..])
  }

  ghost predicate NoDoubleWhite(s: string) {
    forall i :: 0 < i < |s| && IsWhite(s[i]) ==> !IsWhite(s[i - 1])
  }

  lemma {:induction false} CollapseOfSingle(s: string)
    requires NoDoubleWhite(s)
    ensures Collapse(s) == s
    decreases |s|
  {
    if s != "" {
      if |s| > 1 && IsWhite(s[0]) {
        assert !IsWhite(s[1]);
        assert s[1..][0] == s[1];
      }
      assert IsWhite(s[0]) ==> LeadingWhite(s) == 1;
      forall i | 0 < i < |s[1..]| && IsWhite(s[1..][i]) ensures !IsWhite(s[1..][i - 1])
      {
        assert IsWhite(s[i + 1]) && !IsWhite(s[i + 1 - 1]);
      }
      CollapseOfSingle(s[1..]);
    }
  }

  lemma {:induction false} LeadingWhiteOf(run: string, b: string)
    requires AllWhite(run) && (b == "" || !IsWhite(b[0]))
    ensures LeadingWhite(run + b) == |run|
  {
    if run == "" {
      assert run + b == b;
    } else {
      LeadingWhiteOf(run[1..], b);
      assert (run + b)[1..] == run[1..] + b;
    }
  }

  /** A run of white space between other text becomes one space if it is two or more long, and stays otherwise. */
  lemma {:induction false} CollapseRun(a: string, run: string, b: string)
    requires AllWhite(run) && run != ""
    requires (forall i :: 0 <= i < |a| ==> !IsWhite(a[i])) && (b == "" || !IsWhite(b[0]))
    ensures Collapse(a + run + b) == a + (if |run| == 1 then run else " ") + Collapse(b)
  {
    if a == "" {
      RunCollapses(run, b);
      assert a + run + b == run + b;
      assert "" + (if |run| == 1 then run else " ") + Collapse(b) == (if |run| == 1 then run else " ") + Collapse(b);
    } else {
      CollapseRun(a[1..], run, b);
      assert (a + run + b)[1..] == a[1..] + run + b;
      assert a == [a[0]] + a[1..];
    }
  }

  lemma RunCollapses(run: string, b: string)
    requires AllWhite(run) && run != "" && (b == "" || !IsWhite(b[0]))
    ensures Collapse(run + b) == (if |run| == 1 then run else " ") + Collapse(b)
  {
    LeadingWhiteOf(run, b);
    assert (run + b)[|run|..] == b && run[0] == (run + b)[0];
    assert |run| == 1 ==> run == [run[0]];
  }

  // ---------- Numbers ----------

  predicate IsDigit(c: char) {
    '0' <= c <= '9'
  }

  predicate AllDigits(s: string) {
    s != "" && forall i :: 0 <= i < |s| ==> IsDigit(s[i])
  }

  function Decimal(n: nat): (s: string)
    ensures AllDigits(s)
  {
    var last := [('0' as int + n % 10) as char];
    if n < 10 then last else Decimal(n / 10) + last
  }

  /** The number a text of digits stands for. */
  ghost function Value(s: string): int {
    if s == "" then 0 else 10 * Value(s[..|s| - 1]) + (s[|s| - 1] as int - '0' as int)
  }

  /** A numeral stands for its number, and has no superfluous zeros. */
  lemma {:induction false} DecimalIs(n: nat)
    ensures Value(Decimal(n)) == n && (n > 0 ==> Decimal(n)[0] != '0')
  {
    var last := [('0' as int + n % 10) as char];
    if n < 10 {
      assert last[..0] == "";
    } else {
      DecimalIs(n / 10);
      assert (Decimal(n / 10) + last)[..|Decimal(n / 10)|] == Decimal(n / 10);
    }
  }

  function LeadingDigits(s: string): (k: nat)
    ensures k <= |s|
    ensures forall i :: 0 <= i < k ==> IsDigit(s[i])
  {
    if s != "" && IsDigit(s[0]) then 1 + LeadingDigits(s[1..]) else 0
  }

  /** A numeral with its sign taken off. */
  function Unsigned(s: string): string {
    if s != "" && (s[0] == '+' || s[0] == '-') then s[1..] else s
  }

  predicate IsExponent(s: string) {
    s == "" || ((s[0] == 'e' || s[0] == 'E') && AllDigits(Unsigned(s[1..])))
  }

  predicate IsPlainDecimal(s: string) {
    var i := LeadingDigits(s);
    if i < |s| && s[i] == '.' then
      var rest := s[i + 1..];
      var f := LeadingDigits(rest);
      (i > 0 || f > 0) && IsExponent(rest[f..])
    else i > 0 && IsExponent(s[i..])
  }

  predicate IsUnsignedDecimal(s: string) {
    s == "Infinity" || IsPlainDecimal(s)
  }

  predicate IsRadix(s: string) {
    && |s| > 2 && s[0] == '0'
    && var d := s[2..];
       (|| (s[1] in "xX" && forall i :: 0 <= i < |d| ==> IsDigit(d[i]) || 'a' <= d[i] <= 'f' || 'A' <= d[i] <= 'F')
        || (s[1] in "oO" && forall i :: 0 <= i < |d| ==> '0' <= d[i] <= '7')
        || (s[1] in "bB" && forall i :: 0 <= i < |d| ==> '0' <= d[i] <= '1'))
  }

  /** Number(s) is not NaN (section 7.1.4.1.1 of ECMA-262, StringNumericLiteral). */
  predicate IsNumeric(s: string) {
    var t := Trim(s);
    t == "" || IsRadix(t) || IsUnsignedDecimal(Unsigned(t))
  }

  lemma ExponentHasNoSpace(s: string, i: nat)
    requires IsExponent(s) && i < |s|
    ensures s[i] != ' '
  {
    var rest := s[1..];
    if i > 0 && (i > 1 || Unsigned(rest) == rest) {
      assert s[i] == Unsigned(rest)[if Unsigned(rest) == rest then i - 1 else i - 2];
    }
  }

  lemma PlainDecimalHasNoSpace(s: string, k: nat)
    requires IsPlainDecimal(s) && k < |s|
    ensures s[k] != ' '
  {
    var i := LeadingDigits(s);
    if i < |s| && s[i] == '.' {
      var rest := s[i + 1..];
      var f := LeadingDigits(rest);
      if i < k < i + 1 + f {
        assert IsDigit(rest[k - i - 1]);
      } else if k >= i + 1 + f {
        ExponentHasNoSpace(rest[f..], k - (i + 1 + f));
      }
    } else if k >= i {
      ExponentHasNoSpace(s[i..], k - i);
    }
  }

  lemma DecimalHasNoSpace(s: string, k: nat)
    requires IsUnsignedDecimal(s) && k < |s|
    ensures s[k] != ' '
  {
    if s == "Infinity" {
      assert ' ' !in "Infinity";
    } else {
      PlainDecimalHasNoSpace(s, k);
    }
  }

  lemma RadixHasNoSpace(s: string, k: nat)
    requires IsRadix(s) && k < |s|
    ensures s[k] != ' '
  {
    if k >= 2 {
      assert s[2..][k - 2] == s[k];
    }
  }

  /** A text of several words is not a number. */
  lemma WordsAreNotNumeric(s: string, k: nat)
    requires Trimmed(s) && k < |s| && s[k] == ' '
    ensures !IsNumeric(s)
  {
    TrimOfTrimmed(s);
    if IsRadix(s) {
      RadixHasNoSpace(s, k);
    }
    if IsUnsignedDecimal(Unsigned(s)) {
      if Unsigned(s) == s {
        DecimalHasNoSpace(s, k);
      } else {
        DecimalHasNoSpace(Unsigned(s), k - 1);
      }
    }
  }

  // ---------- The grammar of numerals ----------

  ghost predicate Digits(s: string) {
    forall i :: 0 <= i < |s| ==> s[i] in "0123456789"
  }

  ghost predicate IsSign(s: string) {
    s == "" || s == "+" || s == "-"
  }

  /** Nothing, or a letter e, a sign and digits. */
  ghost predicate ExponentPart(s: string) {
    s == "" || exists e, sign, d :: (e == "e" || e == "E") && IsSign(sign) && Digits(d) && d != "" && s == e + sign + d
  }

  /** Digits, or digits with a point before, after or among them, and an exponent part. */
  ghost predicate DecimalPart(s: string) {
    exists i, p, f, e :: DecimalParts(i, p, f, e) && s == i + p + f + e
  }

  ghost predicate DecimalParts(i: string, p: string, f: string, e: string) {
    && Digits(i) && Digits(f) && ExponentPart(e) && i + f != ""
    && (p == "." || (p == "" && f == ""))
  }

  /** A 0, the letter of a base, and digits of that base. */
  ghost predicate RadixNumeral(s: string) {
    exists x, d :: s == "0" + x + d && d != "" && IsBase(x, d)
  }

  ghost predicate IsBase(x: string, d: string) {
    || ((x == "x" || x == "X") && forall i :: 0 <= i < |d| ==> d[i] in "0123456789abcdefABCDEF")
    || ((x == "o" || x == "O") && forall i :: 0 <= i < |d| ==> d[i] in "01234567")
    || ((x == "b" || x == "B") && forall i :: 0 <= i < |d| ==> d[i] in "01")
  }

  /** What the language reads as a number, with white space on either side. */
  ghost predicate Numeral(s: string) {
    exists a, m, b :: AllWhite(a) && AllWhite(b) && (m == "" || Trimmed(m)) && s == a + m + b && NumeralBody(m)
  }

  ghost predicate NumeralBody(m: string) {
    m == "" || RadixNumeral(m) || exists sign, d :: IsSign(sign) && m == sign + d && (d == "Infinity" || DecimalPart(d))
  }

  lemma DigitIs(c: char)
    ensures IsDigit(c) <==> c in "0123456789"
  {
    assert "0123456789"[0] == '0' && "0123456789"[1] == '1' && "0123456789"[2] == '2' && "0123456789"[3] == '3' &&
           "0123456789"[4] == '4' && "0123456789"[5] == '5' && "0123456789"[6] == '6' && "0123456789"[7] == '7' &&
           "0123456789"[8] == '8' && "0123456789"[9] == '9';
  }

  lemma DigitsAre(s: string)
    ensures Digits(s) && s != "" <==> AllDigits(s)
  {
    forall i | 0 <= i < |s| ensures IsDigit(s[i]) <==> s[i] in "0123456789"
    {
      DigitIs(s[i]);
    }
  }

  lemma {:induction false} LeadingDigitsOf(d: string, rest: string)
    requires Digits(d) && (rest == "" || !IsDigit(rest[0]))
    ensures LeadingDigits(d + rest) == |d|
  {
    if d == "" {
      assert d + rest == rest;
    } else {
      DigitIs(d[0]);
      LeadingDigitsOf(d[1..], rest);
      assert (d + rest)[1..] == d[1..] + rest;
    }
  }

  lemma LeadingAreDigits(s: string)
    ensures var k := LeadingDigits(s); Digits(s[..k]) && (k < |s| ==> !IsDigit(s[k]))
  {
    var k := LeadingDigits(s);
    forall i | 0 <= i < k ensures s[..k][i] in "0123456789"
    {
      DigitIs(s[i]);
    }
    LeadingStops(s);
  }

  lemma {:induction false} LeadingStops(s: string)
    ensures LeadingDigits(s) < |s| ==> !IsDigit(s[LeadingDigits(s)])
  {
    if s != "" && IsDigit(s[0]) {
      LeadingStops(s[1..]);
    }
  }

  lemma UnsignedOf(sign: string, d: string)
    requires IsSign(sign) && (d == "" || (d[0] != '+' && d[0] != '-'))
    ensures Unsigned(sign + d) == d
  {
    assert sign == "" ==> sign + d == d;
    assert sign != "" ==> (sign + d)[1..] == d;
  }

  lemma UnsignedIs(s: string) returns (sign: string)
    ensures IsSign(sign) && s == sign + Unsigned(s)
  {
    sign := if s != "" && (s[0] == '+' || s[0] == '-') then [s[0]] else "";
  }

  lemma ExponentOf(e: string, sign: string, d: string)
    requires (e == "e" || e == "E") && IsSign(sign) && AllDigits(d)
    ensures ExponentPart(e + sign + d)
  {
    DigitsAre(d);
  }

  lemma ExponentIsPart(s: string)
    requires IsExponent(s)
    ensures ExponentPart(s)
  {
    if s != "" {
      var rest := s[1..];
      var sign := UnsignedIs(rest);
      ExponentOf([s[0]], sign, Unsigned(rest));
      assert s == [s[0]] + rest == [s[0]] + sign + Unsigned(rest);
    }
  }

  lemma PartIsExponent(e: string, sign: string, d: string)
    requires (e == "e" || e == "E") && IsSign(sign) && Digits(d) && d != ""
    ensures IsExponent(e + sign + d)
  {
    DigitsAre(d);
    assert (e + sign + d)[1..] == sign + d;
    UnsignedOf(sign, d);
  }

  lemma ExponentIs(s: string)
    ensures IsExponent(s) <==> ExponentPart(s)
  {
    if IsExponent(s) {
      ExponentIsPart(s);
    } else if e, sign, d :| (e == "e" || e == "E") && IsSign(sign) && Digits(d) && d != "" && s == e + sign + d {
      PartIsExponent(e, sign, d);
    }
  }

  lemma DecimalOf(i: string, p: string, f: string, e: string)
    requires Digits(i) && Digits(f) && IsExponent(e) && i + f != "" && (p == "." || (p == "" && f == ""))
    ensures DecimalPart(i + p + f + e)
  {
    ExponentIs(e);
    assert DecimalParts(i, p, f, e);
  }

  lemma PlainIsDecimal(s: string)
    requires IsPlainDecimal(s)
    ensures DecimalPart(s)
  {
    var k := LeadingDigits(s);
    LeadingAreDigits(s);
    if k < |s| && s[k] == '.' {
      PointIsDecimal(s, k);
    } else {
      DecimalOf(s[..k], "", "", s[k..]);
      assert s == s[..k] + "" + "" + s[k..];
    }
  }

  lemma PointSplits(s: string, k: nat, f: nat)
    requires k < |s| && s[k] == '.' && f <= |s| - k - 1
    ensures s == s[..k] + "." + s[k + 1..][..f] + s[k + 1..][f..]
  {
  }

  lemma PointExponent(s: string, k: nat, f: nat)
    requires IsPlainDecimal(s) && k == LeadingDigits(s) < |s| && s[k] == '.' && f == LeadingDigits(s[k + 1..])
    ensures IsExponent(s[k + 1..][f..]) && k + f > 0
  {
  }

  lemma PointIsDecimal(s: string, k: nat)
    requires IsPlainDecimal(s) && k == LeadingDigits(s) < |s| && s[k] == '.' && Digits(s[..k])
    ensures DecimalPart(s)
  {
    var after := s[k + 1..];
    var f := LeadingDigits(after);
    LeadingAreDigits(after);
    PointExponent(s, k, f);
    PointSplits(s, k, f);
    DecimalOf(s[..k], ".", after[..f], after[f..]);
  }

  lemma ExponentStarts(e: string)
    requires ExponentPart(e) && e != ""
    ensures e[0] == 'e' || e[0] == 'E'
  {
  }

  lemma EndsDigits(e: string)
    requires ExponentPart(e)
    ensures e == "" || (!IsDigit(e[0]) && e[0] != '.')
  {
    if e != "" {
      ExponentStarts(e);
    }
  }

  lemma DecimalIsPlain(i: string, p: string, f: string, e: string)
    requires DecimalParts(i, p, f, e)
    ensures IsPlainDecimal(i + p + f + e)
  {
    ExponentIs(e);
    EndsDigits(e);
    if p == "." {
      PointIsPlain(i, p, f, e);
    } else {
      NoPointIsPlain(i, p, f, e);
    }
  }

  lemma NoPointIsPlain(i: string, p: string, f: string, e: string)
    requires Digits(i) && i != "" && IsExponent(e) && (e == "" || (!IsDigit(e[0]) && e[0] != '.')) && p == "" == f
    ensures IsPlainDecimal(i + p + f + e)
  {
    LeadingDigitsOf(i, e);
    assert i + p + f + e == i + e && (i + e)[|i|..] == e;
  }

  lemma PointSlices(i: string, p: string, after: string)
    requires p == "."
    ensures var s := i + (p + after); s[|i|] == '.' && s[|i| + 1..] == after
  {
  }

  lemma PointIsPlain(i: string, p: string, f: string, e: string)
    requires Digits(i) && Digits(f) && i + f != "" && IsExponent(e) && (e == "" || !IsDigit(e[0])) && p == "."
    ensures IsPlainDecimal(i + p + f + e)
  {
    var after := f + e;
    assert i + p + f + e == i + (p + after);
    PointSlices(i, p, after);
    LeadingDigitsOf(i, p + after);
    LeadingDigitsOf(f, e);
    assert after[|f|..] == e;
  }

  lemma RadixIsNumeral(s: string)
    requires IsRadix(s)
    ensures RadixNumeral(s)
  {
    var x, d := s[1..2], s[2..];
    assert s == "0" + x + d && x == [s[1]];
    BaseIs(x, d);
  }

  lemma NumeralIsRadix(x: string, d: string)
    requires d != "" && IsBase(x, d)
    ensures IsRadix("0" + x + d)
  {
    var s := "0" + x + d;
    BaseIs(x, d);
    assert s[0] == '0' && s[1] == x[0] && s[2..] == d;
  }

  lemma RadixIs(s: string)
    ensures IsRadix(s) <==> RadixNumeral(s)
  {
    if IsRadix(s) {
      RadixIsNumeral(s);
    } else if x, d :| s == "0" + x + d && d != "" && IsBase(x, d) {
      NumeralIsRadix(x, d);
    }
  }

  lemma HexIs(c: char)
    ensures IsDigit(c) || 'a' <= c <= 'f' || 'A' <= c <= 'F' <==> c in "0123456789abcdefABCDEF"
  {
    DigitIs(c);
    assert "0123456789abcdefABCDEF" == "0123456789" + "abcdefABCDEF";
    assert "abcdefABCDEF"[0] == 'a' && "abcdefABCDEF"[1] == 'b' && "abcdefABCDEF"[2] == 'c' &&
           "abcdefABCDEF"[3] == 'd' && "abcdefABCDEF"[4] == 'e' && "abcdefABCDEF"[5] == 'f' &&
           "abcdefABCDEF"[6] == 'A' && "abcdefABCDEF"[7] == 'B' && "abcdefABCDEF"[8] == 'C' &&
           "abcdefABCDEF"[9] == 'D' && "abcdefABCDEF"[10] == 'E' && "abcdefABCDEF"[11] == 'F';
  }

  lemma OctalIs(c: char)
    ensures '0' <= c <= '7' <==> c in "01234567"
    ensures '0' <= c <= '1' <==> c in "01"
  {
    assert "01234567"[0] == '0' && "01234567"[1] == '1' && "01234567"[2] == '2' && "01234567"[3] == '3' &&
           "01234567"[4] == '4' && "01234567"[5] == '5' && "01234567"[6] == '6' && "01234567"[7] == '7';
    assert "01"[0] == '0' && "01"[1] == '1';
  }

  lemma BaseIs(x: string, d: string)
    requires |x| == 1
    ensures IsBase(x, d) <==>
            || (x[0] in "xX" && forall i :: 0 <= i < |d| ==> IsDigit(d[i]) || 'a' <= d[i] <= 'f' || 'A' <= d[i] <= 'F')
            || (x[0] in "oO" && forall i :: 0 <= i < |d| ==> '0' <= d[i] <= '7')
            || (x[0] in "bB" && forall i :: 0 <= i < |d| ==> '0' <= d[i] <= '1')
  {
    forall i | 0 <= i < |d|
      ensures IsDigit(d[i]) || 'a' <= d[i] <= 'f' || 'A' <= d[i] <= 'F' <==> d[i] in "0123456789abcdefABCDEF"
      ensures '0' <= d[i] <= '7' <==> d[i] in "01234567"
      ensures '0' <= d[i] <= '1' <==> d[i] in "01"
    {
      HexIs(d[i]);
      OctalIs(d[i]);
    }
  }

  lemma BodyIs(m: string)
    ensures m == "" || IsRadix(m) || IsUnsignedDecimal(Unsigned(m)) <==> NumeralBody(m)
  {
    RadixIs(m);
    if IsUnsignedDecimal(Unsigned(m)) {
      var sign := UnsignedIs(m);
      if Unsigned(m) != "Infinity" {
        PlainIsDecimal(Unsigned(m));
      }
    }
    if sign, d :| IsSign(sign) && m == sign + d && (d == "Infinity" || DecimalPart(d)) {
      if d != "Infinity" {
        var i, p, f, e :| DecimalParts(i, p, f, e) && d == i + p + f + e;
        DecimalIsPlain(i, p, f, e);
        DecimalHasNoSign(d);
      }
      UnsignedOf(sign, d);
    }
  }

  lemma DecimalHasNoSign(d: string)
    requires IsPlainDecimal(d)
    ensures d != "" && d[0] != '+' && d[0] != '-'
  {
  }

  lemma TrimParts(s: string) returns (a: string, b: string)
    ensures AllWhite(a) && AllWhite(b) && s == a + Trim(s) + b
  {
    a := StartParts(s);
    b := EndParts(TrimStart(s));
  }

  lemma {:induction false} StartParts(s: string) returns (a: string)
    ensures AllWhite(a) && s == a + TrimStart(s)
  {
    if s != "" && IsWhite(s[0]) {
      var rest := StartParts(s[1..]);
      a := [s[0]] + rest;
      assert s == [s[0]] + s[1..];
    } else {
      a := "";
    }
  }

  lemma {:induction false} EndParts(s: string) returns (b: string)
    ensures AllWhite(b) && s == TrimEnd(s) + b
  {
    if s != "" && IsWhite(s[|s| - 1]) {
      var rest := EndParts(s[..|s| - 1]);
      b := rest + [s[|s| - 1]];
      assert s == s[..|s| - 1] + [s[|s| - 1]];
    } else {
      b := "";
    }
  }

  /** A text is a number exactly when the grammar derives it. */
  lemma NumericIff(s: string)
    ensures IsNumeric(s) <==> Numeral(s)
  {
    BodyIs(Trim(s));
    if IsNumeric(s) {
      var a, b := TrimParts(s);
    }
    if a, m, b :| AllWhite(a) && AllWhite(b) && (m == "" || Trimmed(m)) && s == a + m + b && NumeralBody(m) {
      TrimOf(a, m, b);
    }
  }
}
