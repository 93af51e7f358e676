/** The fixed-width lines of the accounting files. Amounts are whole cents. */
module Records {
  import opened Options
  import opened Digits

  const CODE_POSITION := 6
  const CODE_END := 15
  const AMOUNT_POSITION := 25
  const AMOUNT_END := 34
  const INPUT_LENGTH := 81

  const NAME_POSITION := 9
  const NAME_END := 42
  const UNITS_POSITION := 46
  const POINT_POSITION := 53
  const CENTS_POSITION := 54
  const CENTS_END := 56
  const CONTROL_LENGTH := 67

  /** The first sum, in cents, that does not fit an amount field. */
  const AMOUNT_LIMIT := 1_000_000_000

  datatype Client = Client(prefixCode: string, code: string, middleCode: string, suffixCode: string)

  datatype Transaction = Transaction(client: Client, amount: nat)

  /** A control line; `transactionsAmount` is filled in when a period is controlled. */
  datatype ControlRecord = ControlRecord(code: string, name: string, middleCode: string, controlAmount: nat,
                                         suffixCode: string, transactionsAmount: Option<nat>)
  {
    predicate AmountsMatch() {
      transactionsAmount == Some(controlAmount)
    }
  }

  /** What a dot matches in a pattern: any character that does not end a line. */
  predicate IsDot(c: char) {
    c != '\n' && c != '\r' && c != '\U{85}' && c != '\U{2028}' && c != '\U{2029}'
  }

  predicate AllDots(s: string) {
    forall i | 0 <= i < |s| :: IsDot(s[i])
  }

  predicate IsInputLine(line: string) {
    && |line| == INPUT_LENGTH
    && AllDots(line)
    && AllDigits(line[AMOUNT_POSITION..AMOUNT_END])
  }

  predicate IsControlLine(line: string) {
    && |line| == CONTROL_LENGTH
    && AllDots(line)
    && AllDigits(line[UNITS_POSITION..POINT_POSITION])
    && line[POINT_POSITION] == '.'
    && AllDigits(line[CENTS_POSITION..CENTS_END])
  }

  function ParseInput(line: string): Option<Transaction> {
    if !IsInputLine(line) then None
    else
      var client := Client(line[..CODE_POSITION], line[CODE_POSITION..CODE_END], line[CODE_END..AMOUNT_POSITION],
                           line[AMOUNT_END..]);
      Some(Transaction(client, Value(line[AMOUNT_POSITION..AMOUNT_END])))
  }

  function FormatInput(c: Client, amount: nat): string {
    c.prefixCode + c.code + c.middleCode + Pad(amount, 9) + c.suffixCode
  }

  function ParseControl(line: string): Option<ControlRecord> {
    if !IsControlLine(line) then None
    else Some(ControlRecord(line[..NAME_POSITION], line[NAME_POSITION..NAME_END],
                            line[NAME_END..UNITS_POSITION],
                            Value(line[UNITS_POSITION..POINT_POSITION]) * 100 + Value(line[CENTS_POSITION..CENTS_END]),
                            line[CENTS_END..], None))
  }

  /** An amount in units with two decimals. */
  function FormatAmount(amount: nat): string {
    Pad(amount / 100, 7) + "." + Pad(amount % 100, 2)
  }

  /** A control line with the fields of `r` and this amount. */
  function FormatControl(r: ControlRecord, amount: nat): string {
    r.code + r.name + r.middleCode + FormatAmount(amount) + r.suffixCode
  }

  /** The field widths that parsing an input line gives. */
  predicate IsClient(c: Client) {
    && |c.prefixCode| == 6 && |c.code| == 9 && |c.middleCode| == 10 && |c.suffixCode| == 47
    && AllDots(c.prefixCode) && AllDots(c.code) && AllDots(c.middleCode) && AllDots(c.suffixCode)
  }

  predicate IsControl(r: ControlRecord) {
    && |r.code| == 9 && |r.name| == 33 && |r.middleCode| == 4 && |r.suffixCode| == 11
    && AllDots(r.code) && AllDots(r.name) && AllDots(r.middleCode) && AllDots(r.suffixCode)
    && r.controlAmount < AMOUNT_LIMIT
  }

  /** The characters that the patterns let through. */
  predicate OnOneLine(s: string) {
    forall i | 0 <= i < |s| :: s[i] !in {'\n', '\r', '\U{0085}', '\U{2028}', '\U{2029}'}
  }

  /** An input line has 81 characters: the client code is at 6 to 14 and the amount, in cents, at 25 to 33. */
  lemma InputLineLayout(line: string)
    ensures ParseInput(line).Some?
            <==> |line| == 81 && OnOneLine(line) && forall i | 25 <= i < 34 :: '0' <= line[i] <= '9'
    ensures ParseInput(line).Some? ==>
              var t := ParseInput(line).value;
              && t.client.prefixCode == line[0..6] && t.client.code == line[6..15]
              && t.client.middleCode == line[15..25] && t.client.suffixCode == line[34..81]
              && AllDigits(line[25..34]) && t.amount == Weighted(line[25..34])
  {
    if |line| == 81 {
      var amount := line[25..34];
      assert forall i | 25 <= i < 34 :: line[i] == amount[i - 25];
      if AllDigits(amount) { ValueIsDecimal(amount); }
    }
  }

  /** A control line has 67 characters: the client code is at 0 to 8 and the amount, with a point before the cents,
      at 46 to 55. */
  lemma ControlLineLayout(line: string)
    ensures ParseControl(line).Some?
            <==> |line| == 67 && OnOneLine(line) && line[53] == '.'
                 && forall i | 46 <= i < 56 && i != 53 :: '0' <= line[i] <= '9'
    ensures ParseControl(line).Some? ==>
              var r := ParseControl(line).value;
              && r.code == line[0..9] && r.name == line[9..42] && r.middleCode == line[42..46]
              && AllDigits(line[46..53]) && AllDigits(line[54..56])
              && r.controlAmount == Weighted(line[46..53]) * 100 + Weighted(line[54..56])
              && r.suffixCode == line[56..67] && r.transactionsAmount == None
  {
    if |line| == 67 {
      var units, cents := line[46..53], line[54..56];
      assert forall i | 46 <= i < 53 :: line[i] == units[i - 46];
      assert forall i | 54 <= i < 56 :: line[i] == cents[i - 54];
      if AllDigits(units) { ValueIsDecimal(units); }
      if AllDigits(cents) { ValueIsDecimal(cents); }
    }
  }

  lemma DigitsAreDots(s: string)
    requires AllDigits(s)
    ensures AllDots(s)
  {
    assert forall i | 0 <= i < |s| :: IsDigit(s[i]);
  }

  /** A printed amount reads back as itself exactly when it fits nine digits; a longer line is rejected. */
  lemma FormatThenParseInput(c: Client, amount: nat)
    requires IsClient(c)
    ensures ParseInput(FormatInput(c, amount))
         == if amount < AMOUNT_LIMIT then Some(Transaction(c, amount)) else None
    ensures FormatInput(c, amount) != ""
  {
    var line := FormatInput(c, amount);
    PadThenValue(amount, 9);
    PowersOfTen();
    DigitsAreDots(Pad(amount, 9));
    if amount < AMOUNT_LIMIT {
      assert line[..CODE_POSITION] == c.prefixCode && line[CODE_POSITION..CODE_END] == c.code;
      assert line[CODE_END..AMOUNT_POSITION] == c.middleCode;
      assert line[AMOUNT_POSITION..AMOUNT_END] == Pad(amount, 9) && line[AMOUNT_END..] == c.suffixCode;
    } else {
      assert |line| > INPUT_LENGTH;
    }
  }

  /** Reading an input line loses nothing. */
  lemma ParseThenFormatInput(line: string)
    requires ParseInput(line).Some?
    ensures var t := ParseInput(line).value;
            IsClient(t.client) && t.amount < AMOUNT_LIMIT && FormatInput(t.client, t.amount) == line
  {
    ValueThenPad(line[AMOUNT_POSITION..AMOUNT_END]);
    PowersOfTen();
    assert line[..CODE_POSITION] + line[CODE_POSITION..CODE_END] == line[..CODE_END];
    assert line[..CODE_END] + line[CODE_END..AMOUNT_POSITION] == line[..AMOUNT_POSITION];
    assert line[..AMOUNT_POSITION] + line[AMOUNT_POSITION..AMOUNT_END] == line[..AMOUNT_END];
    assert line[..AMOUNT_END] + line[AMOUNT_END..] == line;
  }

  lemma AmountFits(amount: nat)
    requires amount < AMOUNT_LIMIT
    ensures var s := FormatAmount(amount);
            |s| == 10 && AllDots(s) && AllDigits(s[..7]) && s[7] == '.' && AllDigits(s[8..])
            && Value(s[..7]) * 100 + Value(s[8..]) == amount
  {
    PadThenValue(amount / 100, 7);
    PadThenValue(amount % 100, 2);
    PowersOfTen();
    DigitsAreDots(Pad(amount / 100, 7));
    DigitsAreDots(Pad(amount % 100, 2));
    var s := FormatAmount(amount);
    assert s[..7] == Pad(amount / 100, 7) && s[8..] == Pad(amount % 100, 2);
  }

  /** A split line is a control line again: the control record with the amount of one transaction. */
  lemma FormatThenParseControl(r: ControlRecord, amount: nat)
    requires IsControl(r) && amount < AMOUNT_LIMIT
    ensures ParseControl(FormatControl(r, amount)) == Some(r.(controlAmount := amount, transactionsAmount := None))
  {
    var line, s := FormatControl(r, amount), FormatAmount(amount);
    AmountFits(amount);
    assert line[..NAME_POSITION] == r.code && line[NAME_POSITION..NAME_END] == r.name;
    assert line[NAME_END..UNITS_POSITION] == r.middleCode && line[CENTS_END..] == r.suffixCode;
    assert line[UNITS_POSITION..POINT_POSITION] == s[..7] && line[POINT_POSITION] == s[7];
    assert line[CENTS_POSITION..CENTS_END] == s[8..];
  }

  lemma ParseThenFormatControl(line: string)
    requires ParseControl(line).Some?
    ensures var r := ParseControl(line).value;
            IsControl(r) && r.transactionsAmount == None && FormatControl(r, r.controlAmount) == line
  {
    ParsedAmountPrints(line[UNITS_POSITION..POINT_POSITION], line[CENTS_POSITION..CENTS_END]);
    FieldsMakeControl(line);
  }

  lemma ParsedAmountPrints(whole: string, cents: string)
    requires |whole| == 7 && |cents| == 2 && AllDigits(whole) && AllDigits(cents)
    ensures var amount := Value(whole) * 100 + Value(cents);
            amount < AMOUNT_LIMIT && FormatAmount(amount) == whole + "." + cents
  {
    ValueThenPad(whole);
    ValueThenPad(cents);
    PowersOfTen();
    UnitsAndCents(Value(whole), Value(cents));
  }

  lemma UnitsAndCents(units: nat, cents: nat)
    requires cents < 100
    ensures (units * 100 + cents) / 100 == units && (units * 100 + cents) % 100 == cents
  {
  }

  lemma FieldsMakeControl(line: string)
    requires IsControlLine(line)
    ensures var whole, cents := line[UNITS_POSITION..POINT_POSITION], line[CENTS_POSITION..CENTS_END];
            line == line[..NAME_POSITION] + line[NAME_POSITION..NAME_END] + line[NAME_END..UNITS_POSITION]
                    + (whole + "." + cents) + line[CENTS_END..]
  {
    var whole, cents := line[UNITS_POSITION..POINT_POSITION], line[CENTS_POSITION..CENTS_END];
    assert line[..NAME_POSITION] + line[NAME_POSITION..NAME_END] == line[..NAME_END];
    assert line[..NAME_END] + line[NAME_END..UNITS_POSITION] == line[..UNITS_POSITION];
    assert line[UNITS_POSITION..CENTS_END] == whole + "." + cents;
    assert line[..UNITS_POSITION] + line[UNITS_POSITION..CENTS_END] == line[..CENTS_END];
    assert line[..CENTS_END] + line[CENTS_END..] == line;
  }
}
