/** Store-assigned identities. An identity is a counter value; `str(_id)` is its
    decimal text and `ObjectId(text)` parses such a text back. */
module ObjectIds {
  import opened Values

  type ObjectId = nat

  function Digit(d: nat): char
    requires d < 10
  {
    "0123456789"[d]
  }

  predicate IsDigit(c: char)
  {
    '0' <= c <= '9'
  }

  /** Decimal text without leading zeros: what `str(id)` gives for an identity, and how a status code prints. */
  function DecimalText(id: nat): (s: string)
    ensures |s| >= 1
    ensures forall i :: 0 <= i < |s| ==> IsDigit(s[i])
    ensures |s| > 1 ==> s[0] != '0'
    ensures id < 10 <==> |s| == 1
  {
    if id < 10 then [Digit(id)] else DecimalText(id / 10) + [Digit(id % 10)]
  }

  /** What the digits of `s` denote, most significant first. */
  function DigitsValue(s: string): nat
    requires forall i :: 0 <= i < |s| ==> IsDigit(s[i])
  {
    if s == [] then 0
    else
      assert IsDigit(s[|s| - 1]);
      DigitsValue(s[..|s| - 1]) * 10 + (s[|s| - 1] as int - '0' as int)
  }

  /** A text that `DecimalText` could have produced. */
  predicate IsDecimalText(s: string)
  {
    |s| >= 1 && (forall i :: 0 <= i < |s| ==> IsDigit(s[i])) && (|s| > 1 ==> s[0] != '0')
  }

  /** `ObjectId(text)`: `None` stands for the `InvalidId` the driver raises. */
  function ParseId(s: string): (r: Option<ObjectId>)
    ensures r.Some? <==> IsDecimalText(s)
  {
    if IsDecimalText(s) then Some(DigitsValue(s)) else None
  }

  lemma {:induction false} DigitsValueOfDecimalText(id: ObjectId)
    ensures DigitsValue(DecimalText(id)) == id
    decreases id
  {
    var s := DecimalText(id);
    if id >= 10 {
      DigitsValueOfDecimalText(id / 10);
      assert s[..|s| - 1] == DecimalText(id / 10);
      assert s[|s| - 1] == Digit(id % 10);
    }
  }

  /** The identity written into a token or a response parses back to itself. */
  lemma ParseIdText(id: ObjectId)
    ensures ParseId(DecimalText(id)) == Some(id)
  {
    DigitsValueOfDecimalText(id);
  }

  /** Distinct identities have distinct texts. */
  lemma DecimalTextInjective(a: ObjectId, b: ObjectId)
    ensures DecimalText(a) == DecimalText(b) ==> a == b
  {
    ParseIdText(a);
    ParseIdText(b);
  }
}
