/** The three ways a record decoder turns a byte range into a field value: the decoded text at
    full width, the decoded text stripped of surrounding whitespace, or an integer read with
    `int()`, which raises `ValueError` on text that is not an integer literal. */
module Fields {
  import opened Results
  import opened PyStr
  import opened Cp500
  import opened Numeric

  /** `data[i:j].decode('cp500')`: one character per byte of the (clamped) range, and the
      bytes can be recovered from the text. */
  function Field(data: Bytes, i: nat, j: nat): (s: string)
    requires i <= j
    ensures |s| == Min(j, |data|) - Min(i, |data|)
    ensures j <= |data| ==> InCodePage(s) && Encode(s) == data[i..j]
  {
    var s := Decode(Slice(data, i, j));
    RoundTrip(Slice(data, i, j));
    s
  }

  /** A text that is at most `width` characters long and has no whitespace at either end. */
  predicate Trimmed(s: string, width: nat) {
    && |s| <= width
    && (s != [] ==> !IsSpace(s[0]) && !IsSpace(s[|s| - 1]))
  }

  /** `data[i:j].decode('cp500').strip()`. */
  function TextField(data: Bytes, i: nat, j: nat): (s: string)
    requires i <= j
    ensures Trimmed(s, j - i)
    ensures s == [] <==> forall k :: 0 <= k < |Field(data, i, j)| ==> IsSpace(Field(data, i, j)[k])
  {
    Strip(Field(data, i, j))
  }

  /** `int(text)`: text that is not an integer literal raises `ValueError`. */
  function IntOf(text: string): (r: Result<int>)
    ensures r.Success? <==> ParseInt(text).Some?
  {
    match ParseInt(text)
    case None => Failure(ValueError)
    case Some(n) => Success(n)
  }

  /** `int(data[i:j].decode('cp500'))`. */
  function IntField(data: Bytes, i: nat, j: nat): Result<int>
    requires i <= j
  {
    IntOf(Field(data, i, j))
  }

  /** A one-byte field is the character of that byte. */
  lemma OneByteField(data: Bytes, i: nat)
    requires i < |data|
    ensures Field(data, i, i + 1) == [DecodeByte(data[i])]
  {
  }

  /** A one-byte text field is that byte's character, or empty when the character is
      whitespace. */
  lemma OneByteTextField(data: Bytes, i: nat)
    requires i < |data|
    ensures TextField(data, i, i + 1) ==
              if IsSpace(DecodeByte(data[i])) then [] else [DecodeByte(data[i])]
  {
    OneByteField(data, i);
  }

  /** A byte or character range [start, start + width). */
  datatype Span = Span(start: nat, width: nat) {
    function End(): nat { start + width }
  }

  /** `int(text[i:j])` for each span in turn: the first one that is not an integer raises, and
      the integers are the result otherwise. */
  function IntsOf(text: string, spans: seq<Span>): (r: Result<seq<int>>)
    ensures r.Success? ==> |r.value| == |spans|
  {
    if spans == [] then Success([])
    else
      var first :- IntOf(Slice(text, spans[0].start, spans[0].End()));
      var rest :- IntsOf(text, spans[1..]);
      Success([first] + rest)
  }

  /** The spans succeed together or not at all, and each integer is its own span's. */
  lemma {:induction false} IntsOfEach(text: string, spans: seq<Span>)
    ensures IntsOf(text, spans).Success? <==>
              forall k :: 0 <= k < |spans| ==> IntOf(Slice(text, spans[k].start, spans[k].End())).Success?
    ensures IntsOf(text, spans).Success? ==>
              forall k :: 0 <= k < |spans| ==>
                Success(IntsOf(text, spans).value[k]) == IntOf(Slice(text, spans[k].start, spans[k].End()))
  {
    if spans != [] {
      IntsOfEach(text, spans[1..]);
      assert forall k :: 1 <= k < |spans| ==> spans[1..][k - 1] == spans[k];
    }
  }

  /** On decoded bytes, the spans succeed together exactly when every byte range is an integer
      field, and each integer is its own range's. */
  lemma IntsOfFields(data: Bytes, spans: seq<Span>)
    ensures IntsOf(Decode(data), spans).Success? <==>
              forall k :: 0 <= k < |spans| ==> IntField(data, spans[k].start, spans[k].End()).Success?
    ensures IntsOf(Decode(data), spans).Success? ==>
              forall k :: 0 <= k < |spans| ==>
                Success(IntsOf(Decode(data), spans).value[k]) == IntField(data, spans[k].start, spans[k].End())
  {
    IntsOfEach(Decode(data), spans);
    forall k | 0 <= k < |spans|
      ensures IntField(data, spans[k].start, spans[k].End()) ==
              IntOf(Slice(Decode(data), spans[k].start, spans[k].End()))
    {
      DecodeSlice(data, spans[k].start, spans[k].End());
    }
  }

  /** Texts that agree on every span read the same integers. */
  lemma {:induction false} IntsOfFrame(t1: string, t2: string, spans: seq<Span>)
    requires forall k :: 0 <= k < |spans| ==>
               Slice(t1, spans[k].start, spans[k].End()) == Slice(t2, spans[k].start, spans[k].End())
    ensures IntsOf(t1, spans) == IntsOf(t2, spans)
  {
    if spans != [] {
      IntsOfFrame(t1, t2, spans[1..]);
    }
  }

  /** Two records of the same length whose bytes agree in the range [i, j). */
  predicate SameBytes(d1: Bytes, d2: Bytes, i: nat, j: nat) {
    && |d1| == |d2|
    && forall k :: i <= k < j && k < |d1| ==> d1[k] == d2[k]
  }

  /** Records that agree on a range give the same field from any range inside it. */
  lemma FieldFrame(d1: Bytes, d2: Bytes, i: nat, j: nat, a: nat, b: nat)
    requires i <= a <= b <= j && SameBytes(d1, d2, i, j)
    ensures Field(d1, a, b) == Field(d2, a, b)
  {
    assert Slice(d1, a, b) == Slice(d2, a, b);
  }

  /** A field read from digit bytes 0xF0..0xF9 is the number those digits spell, below
      10^(j - i). */
  lemma DigitField(data: Bytes, i: nat, j: nat)
    requires i < j <= |data|
    requires forall k :: i <= k < j ==> 0xF0 <= data[k] <= 0xF9
    ensures IntField(data, i, j) == Success(NibbleValue(LowNibbles(data[i..j])))
    ensures NibbleValue(LowNibbles(data[i..j])) < Pow10(j - i)
  {
    var text := Field(data, i, j);
    forall k | 0 <= k < |text|
      ensures IsDigit(text[k]) && DigitValue(text[k]) == LowNibbles(data[i..j])[k]
    {
      DigitByte(data[i + k]);
    }
    DecimalValueOfDigits(text, LowNibbles(data[i..j]));
    DecimalValueBound(text);
    ParseIntDigits(text);
  }

  /** A range of blanks (0x40) is an empty text field and an integer field `int()` refuses. */
  lemma BlankField(data: Bytes, i: nat, j: nat)
    requires i <= j <= |data|
    requires forall k :: i <= k < j ==> data[k] == 0x40
    ensures TextField(data, i, j) == []
    ensures IntField(data, i, j) == Failure(ValueError)
  {
    var text := Field(data, i, j);
    forall k | 0 <= k < |text|
      ensures text[k] == ' '
    {
      SpaceByte(data[i + k]);
    }
  }
}
