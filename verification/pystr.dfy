/** The parts of Python's `str` that the record decoders rely on: `isspace`, `strip`,
    clamped slicing and indexing, `int()` on text and `str()` of a small natural number. */
module PyStr {
  import opened Results

  /** `c.isspace()` in Python 3. */
  predicate IsSpace(c: char) {
    || ('\t' <= c <= '\r')
    || ('\U{1C}' <= c <= ' ')
    || c == '\U{85}' || c == '\U{A0}' || c == '\U{1680}'
    || ('\U{2000}' <= c <= '\U{200A}')
    || c == '\U{2028}' || c == '\U{2029}' || c == '\U{202F}' || c == '\U{205F}' || c == '\U{3000}'
  }

  /** The whitespace `int()` skips around a number: every `isspace` character except the
      four information separators U+001C..U+001F, which `int()` rejects. */
  predicate IsNumberSpace(c: char) {
    IsSpace(c) && !('\U{1C}' <= c <= '\U{1F}')
  }

  // ---------------------------------------------------------------------------
  // Slicing and indexing

  function Min(a: nat, b: nat): nat {
    if a <= b then a else b
  }

  /** Python's `s[i:j]` for constant bounds `0 <= i <= j`: both bounds are clamped to the
      length, so a short sequence gives a short (possibly empty) slice instead of an error. */
  function Slice<T>(s: seq<T>, i: nat, j: nat): (r: seq<T>)
    requires i <= j
    ensures |r| == Min(j, |s|) - Min(i, |s|)
    ensures forall k :: 0 <= k < |r| ==> r[k] == s[i + k]
    ensures j <= |s| ==> r == s[i..j]
  {
    if |s| <= i then [] else if |s| <= j then s[i..] else s[i..j]
  }

  /** Python's `s[i]` for a constant `i >= 0`: past the end it raises `IndexError`. */
  function At<T>(s: seq<T>, i: nat): (r: Result<T>)
    ensures r.Success? <==> i < |s|
    ensures r.Success? ==> r.value == s[i]
  {
    if i < |s| then Success(s[i]) else Failure(IndexError)
  }

  // ---------------------------------------------------------------------------
  // strip()

  /** Python's `s.strip()` with no argument: whitespace is removed from the front, then from the
      back, one character at a time. */
  function Strip(s: string): (r: string)
    ensures |r| <= |s|
    ensures r != [] ==> !IsSpace(r[0]) && !IsSpace(r[|r| - 1])
    ensures r == [] <==> forall k :: 0 <= k < |s| ==> IsSpace(s[k])
    decreases |s|
  {
    if s != [] && IsSpace(s[0]) then Strip(s[1..])
    else if s != [] && IsSpace(s[|s| - 1]) then Strip(s[..|s| - 1])
    else s
  }

  /** What `strip()` removes is whitespace, and what it keeps is one contiguous piece
      `s[i..j]` of `s`. */
  lemma {:induction false} StripIsInfix(s: string) returns (i: nat, j: nat)
    ensures i <= j <= |s| && Strip(s) == s[i..j]
    ensures forall k :: 0 <= k < i ==> IsSpace(s[k])
    ensures forall k :: j <= k < |s| ==> IsSpace(s[k])
    decreases |s|
  {
    if s != [] && IsSpace(s[0]) {
      var i', j' := StripIsInfix(s[1..]);
      i, j := i' + 1, j' + 1;
      DropFirstSpaces(s, i', j');
    } else if s != [] && IsSpace(s[|s| - 1]) {
      i, j := StripIsInfix(s[..|s| - 1]);
      DropLastSpaces(s, s[..|s| - 1], i, j);
    } else {
      i, j := 0, |s|;
    }
  }

  lemma DropFirstSpaces(s: string, i: nat, j: nat)
    requires s != [] && IsSpace(s[0]) && i <= j <= |s| - 1
    requires forall k :: 0 <= k < i ==> IsSpace(s[1..][k])
    requires forall k :: j <= k < |s| - 1 ==> IsSpace(s[1..][k])
    ensures s[1..][i..j] == s[i + 1..j + 1]
    ensures forall k :: 0 <= k < i + 1 ==> IsSpace(s[k])
    ensures forall k :: j + 1 <= k < |s| ==> IsSpace(s[k])
  {
    forall k | 0 <= k < i + 1 ensures IsSpace(s[k]) {
      if k > 0 { assert s[k] == s[1..][k - 1]; }
    }
    forall k | j + 1 <= k < |s| ensures IsSpace(s[k]) {
      assert s[k] == s[1..][k - 1];
    }
  }

  lemma DropLastSpaces(s: string, t: string, i: nat, j: nat)
    requires s != [] && IsSpace(s[|s| - 1]) && t == s[..|s| - 1] && i <= j <= |t|
    requires forall k :: 0 <= k < i ==> IsSpace(t[k])
    requires forall k :: j <= k < |t| ==> IsSpace(t[k])
    ensures t[i..j] == s[i..j]
    ensures forall k :: 0 <= k < i ==> IsSpace(s[k])
    ensures forall k :: j <= k < |s| ==> IsSpace(s[k])
  {
    forall k | 0 <= k < i ensures IsSpace(s[k]) {
      assert s[k] == t[k];
    }
    forall k | j <= k < |s| ensures IsSpace(s[k]) {
      if k < |t| { assert s[k] == t[k]; }
    }
  }

  /** Stripping twice is stripping once. */
  lemma StripIdempotent(s: string)
    ensures Strip(Strip(s)) == Strip(s)
  {
  }

  // ---------------------------------------------------------------------------
  // Decimal digits

  predicate IsDigit(c: char) {
    '0' <= c <= '9'
  }

  function DigitValue(c: char): nat
    requires IsDigit(c)
  {
    (c as int) - ('0' as int)
  }

  function DigitChar(d: nat): (c: char)
    requires d < 10
    ensures IsDigit(c) && DigitValue(c) == d
  {
    (('0' as int) + d) as char
  }

  predicate AllDigits(s: string) {
    forall k :: 0 <= k < |s| ==> IsDigit(s[k])
  }

  /** The number a string of decimal digits denotes, most significant digit first. */
  function DecimalValue(s: string): nat
    requires AllDigits(s)
  {
    if s == [] then 0 else 10 * DecimalValue(s[..|s| - 1]) + DigitValue(s[|s| - 1])
  }

  function Pow10(n: nat): (p: nat)
    ensures p >= 1
  {
    if n == 0 then 1 else 10 * Pow10(n - 1)
  }

  /** A string of `n` digits denotes a number below 10^n. */
  lemma {:induction false} DecimalValueBound(s: string)
    requires AllDigits(s)
    ensures DecimalValue(s) < Pow10(|s|)
  {
    if s != [] {
      DecimalValueBound(s[..|s| - 1]);
    }
  }

  /** Python's `str(n)` for `n >= 0`: decimal digits without leading zeros. */
  function NatToString(n: nat): (s: string)
    ensures |s| > 0 && AllDigits(s)
    ensures DecimalValue(s) == n
    ensures s[0] == '0' ==> n == 0
  {
    if n < 10 then [DigitChar(n)] else NatToString(n / 10) + [DigitChar(n % 10)]
  }

  // ---------------------------------------------------------------------------
  // int()

  /** The digit part `int()` accepts in base 10 and its value: digits, with single underscores
      allowed only between two digits; `None` for anything else. Read from the last digit. */
  function DigitGroups(s: string): (r: Option<nat>)
    ensures r.Some? ==> s != [] && IsDigit(s[0]) && IsDigit(s[|s| - 1])
    decreases |s|
  {
    if s == [] || !IsDigit(s[|s| - 1]) then None
    else if |s| == 1 then Some(DigitValue(s[0]))
    else
      var rest := if s[|s| - 2] == '_' then s[..|s| - 2] else s[..|s| - 1];
      match DigitGroups(rest)
      case None => None
      case Some(v) => Some(10 * v + DigitValue(s[|s| - 1]))
  }

  /** Plain digits are digit groups worth their decimal value. */
  lemma {:induction false} DigitGroupsDigits(s: string)
    requires s != [] && AllDigits(s)
    ensures DigitGroups(s) == Some(DecimalValue(s))
    decreases |s|
  {
    if |s| > 1 {
      assert IsDigit(s[|s| - 2]);
      DigitGroupsDigits(s[..|s| - 1]);
    } else {
      assert s[..0] == [];
    }
  }

  /** A character that is neither a digit nor an underscore is never part of digit groups. */
  lemma {:induction false} DigitGroupsRejects(s: string, k: nat)
    requires k < |s| && !IsDigit(s[k]) && s[k] != '_'
    ensures DigitGroups(s) == None
    decreases |s|
  {
    if k < |s| - 1 {
      var rest := if s[|s| - 2] == '_' then s[..|s| - 2] else s[..|s| - 1];
      assert k < |rest| && rest[k] == s[k];
      DigitGroupsRejects(rest, k);
    }
  }

  /** Python's `int(s)` for a `str` argument, `None` where it raises `ValueError`: optional
      surrounding whitespace, an optional sign, then base-10 digit groups. */
  function ParseInt(s: string): (r: Option<int>)
    ensures (forall k :: 0 <= k < |s| ==> IsNumberSpace(s[k])) ==> r == None
    decreases |s|
  {
    if s != [] && IsNumberSpace(s[0]) then ParseInt(s[1..])
    else if s != [] && IsNumberSpace(s[|s| - 1]) then ParseInt(s[..|s| - 1])
    else if s != [] && (s[0] == '+' || s[0] == '-') then
      match DigitGroups(s[1..])
      case None => None
      case Some(v) => Some(if s[0] == '-' then -(v as int) else v)
    else
      match DigitGroups(s)
      case None => None
      case Some(v) => Some(v)
  }

  /** On plain digit text `int()` is the decimal value of the digits. */
  lemma ParseIntDigits(s: string)
    requires AllDigits(s) && s != []
    ensures ParseInt(s) == Some(DecimalValue(s))
  {
    assert IsDigit(s[0]) && IsDigit(s[|s| - 1]);
    DigitGroupsDigits(s);
  }

  /** A character that can appear in no integer literal. */
  predicate IsForeignToNumbers(c: char) {
    !IsDigit(c) && !IsNumberSpace(c) && c != '+' && c != '-' && c != '_'
  }

  /** One such character anywhere in the text makes `int()` raise. */
  lemma {:induction false} ParseIntRejects(s: string, k: nat)
    requires k < |s| && IsForeignToNumbers(s[k])
    ensures ParseInt(s) == None
    decreases |s|
  {
    if IsNumberSpace(s[0]) {
      assert s[1..][k - 1] == s[k];
      ParseIntRejects(s[1..], k - 1);
    } else if IsNumberSpace(s[|s| - 1]) {
      assert s[..|s| - 1][k] == s[k];
      ParseIntRejects(s[..|s| - 1], k);
    } else if s[0] == '+' || s[0] == '-' {
      assert s[1..][k - 1] == s[k];
      DigitGroupsRejects(s[1..], k - 1);
    } else {
      DigitGroupsRejects(s, k);
    }
  }

  /** Python's `int()` is lenient: blanks around the digits are accepted ... */
  lemma {:induction false} ParseIntSkipsBlanks(blanks: string, digits: string)
    requires forall k :: 0 <= k < |blanks| ==> IsNumberSpace(blanks[k])
    requires AllDigits(digits) && digits != []
    ensures ParseInt(blanks + digits) == Some(DecimalValue(digits))
  {
    if blanks == [] {
      assert blanks + digits == digits;
      ParseIntDigits(digits);
    } else {
      assert (blanks + digits)[1..] == blanks[1..] + digits;
      ParseIntSkipsBlanks(blanks[1..], digits);
    }
  }

  /** A minus sign before plain digit text negates its decimal value. */
  lemma ParseIntNegative(s: string)
    requires |s| > 1 && s[0] == '-' && AllDigits(s[1..])
    ensures ParseInt(s) == Some(-(DecimalValue(s[1..]) as int))
  {
    assert IsDigit(s[1..][|s| - 2]);
    DigitGroupsDigits(s[1..]);
  }

  /** ... and so is a sign, ... */
  lemma ParseIntTakesSign(s: string)
    requires s == "-0001"
    ensures ParseInt(s) == Some(-1)
  {
    assert s[1..] == "0001";
    ParseIntNegative(s);
    DecimalValue0001();
  }

  lemma DecimalValue0001()
    ensures DecimalValue("0001") == 1
  {
    assert "0001"[..3] == "000";
    assert "000"[..2] == "00";
    assert "00"[..1] == "0";
  }

  /** ... but a blank between two digits is not. */
  lemma ParseIntRejectsInnerBlank(s: string)
    requires s == "1 2"
    ensures ParseInt(s) == None
  {
    assert s[..2] == "1 ";
    assert DigitGroups("1 ") == None;
  }
}
