/** The transfer message carried by a block: `sender,receiver,quantity`, the
    pattern `\A(?<sender>[-_0-9a-zA-Z]{,64}),(?<receiver>[-_0-9a-zA-Z]{,64}),(?<q>[1-9]\d*)\z`.
    A message that does not match makes the block mining-only. */
module TransferMsg {
  import opened Wrappers
  import opened Formats

  datatype Transfer = Transfer(sender: string, receiver: string, quantity: nat)

  /** What a matched message always satisfies: both names have the name
      format and the quantity has no leading zero, so it is at least 1. */
  predicate WellFormed(t: Transfer) {
    IsName(t.sender) && IsName(t.receiver) && t.quantity >= 1
  }

  /** `[1-9]\d*`: a decimal numeral without a leading zero. */
  predicate IsNumeral(s: string) {
    |s| > 0 && '1' <= s[0] <= '9' && forall i :: 0 <= i < |s| ==> IsDigit(s[i])
  }

  function DigitValue(c: char): nat
    requires IsDigit(c)
  {
    c as int - '0' as int
  }

  function DigitChar(d: nat): char
    requires d < 10
  {
    ('0' as int + d) as char
  }

  /** The number a string of digits denotes (Ruby's `to_f` on `q`, exactly). */
  function NumeralValue(s: string): nat
    requires forall i :: 0 <= i < |s| ==> IsDigit(s[i])
  {
    if |s| == 0 then 0 else NumeralValue(s[..|s| - 1]) * 10 + DigitValue(s[|s| - 1])
  }

  /** The canonical decimal spelling of a number. */
  function Decimal(n: nat): string
  {
    if n < 10 then [DigitChar(n)] else Decimal(n / 10) + [DigitChar(n % 10)]
  }

  /** Spelling a positive number gives a numeral without leading zero that
      denotes the number. */
  lemma {:induction false} DecimalIsNumeral(n: nat)
    requires n >= 1
    ensures IsNumeral(Decimal(n))
    ensures NumeralValue(Decimal(n)) == n
  {
    if n >= 10 {
      DecimalIsNumeral(n / 10);
      var d := Decimal(n);
      assert d[..|d| - 1] == Decimal(n / 10);
    }
  }

  lemma {:induction false} NumeralPositive(s: string)
    requires IsNumeral(s)
    ensures NumeralValue(s) >= 1
  {
    if |s| > 1 {
      NumeralPositive(s[..|s| - 1]);
    }
  }

  /** A numeral without leading zero is the canonical spelling of its value. */
  lemma {:induction false} NumeralIsDecimal(s: string)
    requires IsNumeral(s)
    ensures Decimal(NumeralValue(s)) == s
  {
    if |s| > 1 {
      var init := s[..|s| - 1];
      NumeralPositive(init);
      NumeralIsDecimal(init);
      var v := NumeralValue(s);
      assert v / 10 == NumeralValue(init) && v % 10 == DigitValue(s[|s| - 1]);
      assert s == init + [s[|s| - 1]];
    }
  }

  /** The first position of `c` in `s`, if any. */
  function IndexOf(s: string, c: char): (r: Option<nat>)
    ensures r.Some? ==> r.value < |s| && s[r.value] == c && forall i :: 0 <= i < r.value ==> s[i] != c
    ensures r.None? ==> forall i :: 0 <= i < |s| ==> s[i] != c
  {
    if |s| == 0 then None
    else if s[0] == c then Some(0)
    else match IndexOf(s[1..], c)
      case None => None
      case Some(k) => Some(k + 1)
  }

  /** parse_msg_as_transfer. A name cannot contain a comma, so the sender is
      everything before the first comma and the receiver everything between the
      first and the second; the rest must be a numeral. */
  function Parse(msg: string): (r: Option<Transfer>)
    ensures r.Some? ==> WellFormed(r.value)
  {
    match IndexOf(msg, ',')
    case None => None
    case Some(i) =>
      var rest := msg[i + 1..];
      match IndexOf(rest, ',')
      case None => None
      case Some(j) =>
        var sender, receiver, q := msg[..i], rest[..j], rest[j + 1..];
        if IsName(sender) && IsName(receiver) && IsNumeral(q)
        then NumeralPositive(q); Some(Transfer(sender, receiver, NumeralValue(q)))
        else None
  }

  /** The message a client writes to request transfer `t`. */
  function Format(t: Transfer): string
  {
    t.sender + "," + t.receiver + "," + Decimal(t.quantity)
  }

  lemma NameHasNoComma(s: string, i: int)
    requires IsName(s) && 0 <= i < |s|
    ensures s[i] != ','
  {
  }

  /** Formatting a well-formed transfer and parsing the text gives it back. */
  lemma FormatThenParse(t: Transfer)
    requires WellFormed(t)
    ensures Parse(Format(t)) == Some(t)
  {
    var msg := Format(t);
    var q := Decimal(t.quantity);
    DecimalIsNumeral(t.quantity);
    forall k | 0 <= k < |t.sender| ensures msg[k] != ',' {
      NameHasNoComma(t.sender, k);
    }
    assert msg[|t.sender|] == ',';
    assert IndexOf(msg, ',') == Some(|t.sender|);
    var rest := msg[|t.sender| + 1..];
    assert rest == t.receiver + "," + q;
    forall k | 0 <= k < |t.receiver| ensures rest[k] != ',' {
      NameHasNoComma(t.receiver, k);
    }
    assert rest[|t.receiver|] == ',';
    assert IndexOf(rest, ',') == Some(|t.receiver|);
    assert msg[..|t.sender|] == t.sender;
    assert rest[..|t.receiver|] == t.receiver;
    assert rest[|t.receiver| + 1..] == q;
  }

  /** Cutting a string at two commas and gluing the three pieces back with
      commas gives the string. */
  lemma CommaSplit(s: string, i: nat, j: nat)
    requires i < |s| && s[i] == ',' && j < |s[i + 1..]| && s[i + 1..][j] == ','
    ensures s == s[..i] + "," + s[i + 1..][..j] + "," + s[i + 1..][j + 1..]
  {
  }

  /** Whatever a message parses to is well formed and formats back to the
      message itself. */
  lemma ParseThenFormat(msg: string)
    requires Parse(msg).Some?
    ensures WellFormed(Parse(msg).value)
    ensures Format(Parse(msg).value) == msg
  {
    var i := IndexOf(msg, ',').value;
    var j := IndexOf(msg[i + 1..], ',').value;
    var q := msg[i + 1..][j + 1..];
    NumeralPositive(q);
    NumeralIsDecimal(q);
    CommaSplit(msg, i, j);
  }

  /** A message parses as a transfer exactly when it is the formatted text of a
      well-formed transfer, and then it parses as that transfer. */
  lemma ParseExactly(msg: string, t: Transfer)
    ensures Parse(msg) == Some(t) <==> WellFormed(t) && msg == Format(t)
  {
    if WellFormed(t) && msg == Format(t) {
      FormatThenParse(t);
    }
    if Parse(msg) == Some(t) {
      ParseThenFormat(msg);
    }
  }
}
