/** Decoding of one fixed-width Cboe PITCH record into the list of string
    fields the analyzers work on. The type tag sits at index 9; each of the
    five supported message types has its own layout of half-open character
    ranges. Both analyzers decode identically, so one decoder serves both. */
module Pitch {
  import opened Python

  /** `entry[9]`: the message type of a record. */
  function GetMessageType(entry: string): (r: Result<char>)
    ensures r.Ok? <==> |entry| > 9
    ensures r.Ok? ==> r.value == entry[9]
    ensures r.Fail? ==> r.fault == IndexError
  {
    if |entry| > 9 then Ok(entry[9]) else Fail(IndexError)
  }

  /** The tags that have a layout: Add Order short and long, Order Executed,
      Order Cancel and Trade short. */
  predicate HasLayout(tag: char) {
    tag == 'A' || tag == '1' || tag == 'E' || tag == 'X' || tag == 'P'
  }

  /** One more than the largest single index a layout subscripts (slices
      never fail); a shorter entry raises IndexError. */
  function MinLength(tag: char): nat {
    match tag
    case 'A' => 46
    case '1' => 57
    case 'E' => 10
    case 'X' => 10
    case 'P' => 23
    case _ => 0
  }

  /** How many fields a layout yields. */
  function FieldCount(tag: char): nat {
    match tag
    case 'A' => 8
    case '1' => 10
    case 'E' => 5
    case 'X' => 4
    case 'P' => 8
    case _ => 0
  }

  /** The end of the symbol range: 6 characters in the short layouts, 8 in the
      long Add Order. */
  function SymbolEnd(tag: char): nat {
    if tag == '1' then 37 else 35
  }

  /** Add Order (short): time stamp, type, order id, side, shares, symbol,
      price, reserved. */
  function AddShortFields(entry: string): (r: Result<seq<string>>)
    ensures r.Ok? <==> |entry| > 45
    ensures r.Ok? ==> r.value == [entry[1..9], [entry[9]], entry[10..22], [entry[22]],
                                  entry[23..29], Strip(entry[29..35]), entry[35..45], [entry[45]]]
  {
    var timeStamp := Slice(entry, 1, 9);
    var messageType :- CharAt(entry, 9);
    var orderId := Slice(entry, 10, 22);
    var side :- CharAt(entry, 22);
    var shares := Slice(entry, 23, 29);
    var symbol := Strip(Slice(entry, 29, 35));
    var price := Slice(entry, 35, 45);
    var reserved :- CharAt(entry, 45);
    Ok([timeStamp, messageType, orderId, side, shares, symbol, price, reserved])
  }

  /** Add Order (long): time stamp, type, order id, side, shares, symbol,
      price, display, participant id, customer indicator. */
  function AddLongFields(entry: string): (r: Result<seq<string>>)
    ensures r.Ok? <==> |entry| > 56
    ensures r.Ok? ==> r.value == [entry[1..9], [entry[9]], entry[10..22], [entry[22]],
                                  entry[23..29], Strip(entry[29..37]), entry[37..51], [entry[51]],
                                  entry[52..56], [entry[56]]]
  {
    var timeStamp := Slice(entry, 1, 9);
    var messageType :- CharAt(entry, 9);
    var orderId := Slice(entry, 10, 22);
    var side :- CharAt(entry, 22);
    var shares := Slice(entry, 23, 29);
    var symbol := Strip(Slice(entry, 29, 37));
    var price := Slice(entry, 37, 51);
    var display :- CharAt(entry, 51);
    var participant := Slice(entry, 52, 56);
    var customer :- CharAt(entry, 56);
    Ok([timeStamp, messageType, orderId, side, shares, symbol, price, display, participant, customer])
  }

  /** Order Executed: time stamp, type, order id, executed shares, execution
      id. Only index 9 is subscripted; the slices may come out short. */
  function ExecutedFields(entry: string): (r: Result<seq<string>>)
    ensures r.Ok? <==> |entry| > 9
    ensures r.Ok? ==> r.value == [entry[1..9], [entry[9]], Slice(entry, 10, 22),
                                  Slice(entry, 22, 28), Slice(entry, 28, 40)]
  {
    var timeStamp := Slice(entry, 1, 9);
    var messageType :- CharAt(entry, 9);
    var orderId := Slice(entry, 10, 22);
    var executedShares := Slice(entry, 22, 28);
    var executionId := Slice(entry, 28, 40);
    Ok([timeStamp, messageType, orderId, executedShares, executionId])
  }

  /** Order Cancel: time stamp, type, order id, canceled shares. */
  function CanceledFields(entry: string): (r: Result<seq<string>>)
    ensures r.Ok? <==> |entry| > 9
    ensures r.Ok? ==> r.value == [entry[1..9], [entry[9]], Slice(entry, 10, 22),
                                  Slice(entry, 22, 28)]
  {
    var timeStamp := Slice(entry, 1, 9);
    var messageType :- CharAt(entry, 9);
    var orderId := Slice(entry, 10, 22);
    var canceledShares := Slice(entry, 22, 28);
    Ok([timeStamp, messageType, orderId, canceledShares])
  }

  /** Trade (short): time stamp, type, order id, side, shares, symbol, price,
      execution id. */
  function TradeFields(entry: string): (r: Result<seq<string>>)
    ensures r.Ok? <==> |entry| > 22
    ensures r.Ok? ==> r.value == [entry[1..9], [entry[9]], entry[10..22], [entry[22]],
                                  Slice(entry, 23, 29), Strip(Slice(entry, 29, 35)),
                                  Slice(entry, 35, 45), Slice(entry, 45, 57)]
  {
    var timeStamp := Slice(entry, 1, 9);
    var messageType :- CharAt(entry, 9);
    var orderId := Slice(entry, 10, 22);
    var side :- CharAt(entry, 22);
    var shares := Slice(entry, 23, 29);
    var symbol := Strip(Slice(entry, 29, 35));
    var price := Slice(entry, 35, 45);
    var executionId := Slice(entry, 45, 57);
    Ok([timeStamp, messageType, orderId, side, shares, symbol, price, executionId])
  }

  /** Splits a record into its fields according to the layout of `tag`. An
      unknown tag yields the empty list; a record too short for a subscript
      of its layout raises IndexError. */
  function ParseOrderMessage(entry: string, tag: char): (r: Result<seq<string>>)
    ensures r.Ok? <==> |entry| >= MinLength(tag)
    ensures r.Ok? ==> |r.value| == FieldCount(tag)
    ensures !HasLayout(tag) ==> r == Ok([])
    ensures r.Fail? ==> r.fault == IndexError
  {
    match tag
    case 'A' => AddShortFields(entry)
    case '1' => AddLongFields(entry)
    case 'E' => ExecutedFields(entry)
    case 'X' => CanceledFields(entry)
    case 'P' => TradeFields(entry)
    case _ => Ok([])
  }

  /** The symbol of a decoded message: none for Order Executed and Order
      Cancel, field 5 otherwise, and IndexError when there is no field 5
      (the empty message of an unknown tag). */
  function GetMessageSymbol(message: seq<string>, tag: char): (r: Result<Option<string>>)
    ensures tag == 'E' || tag == 'X' ==> r == Ok(None)
    ensures tag != 'E' && tag != 'X' ==> (r.Ok? <==> |message| > 5)
    ensures tag != 'E' && tag != 'X' && r.Ok? ==> r.value == Some(message[5])
    ensures r.Fail? ==> r.fault == IndexError
  {
    match tag
    case 'E' => Ok(None)
    case 'X' => Ok(None)
    case _ =>
      var symbol :- At(message, 5);
      Ok(Some(symbol))
  }

  /** The first steps of the event loop for one line: strip it, then read
      its tag and decode its fields. */
  function Decode(line: string): (r: Result<(char, seq<string>)>)
    ensures r.Fail? ==> r.fault == IndexError
  {
    DecodeEntry(Strip(line))
  }

  /** Reads the tag of a stripped line and decodes its fields. */
  function DecodeEntry(entry: string): (r: Result<(char, seq<string>)>)
    ensures r.Ok? <==> |entry| > 9 && |entry| >= MinLength(entry[9])
    ensures r.Ok? ==> r.value.0 == entry[9] && |r.value.1| == FieldCount(r.value.0)
    ensures r.Fail? ==> r.fault == IndexError
  {
    var tag :- GetMessageType(entry);
    var message :- ParseOrderMessage(entry, tag);
    Ok((tag, message))
  }

  /** A record of one of the five supported types, as its fields' values. */
  datatype Record =
    | AddShort(time: string, orderId: string, side: char, shares: nat, symbol: string,
               price: string, reserved: char)
    | AddLong(time: string, orderId: string, side: char, shares: nat, symbol: string,
              price: string, display: char, participant: string, customer: char)
    | Executed(time: string, orderId: string, shares: nat, executionId: string)
    | Canceled(time: string, orderId: string, shares: nat)
    | Trade(time: string, orderId: string, side: char, shares: nat, symbol: string,
            price: string, executionId: string)

  function Tag(r: Record): char {
    match r
    case AddShort(_, _, _, _, _, _, _) => 'A'
    case AddLong(_, _, _, _, _, _, _, _, _) => '1'
    case Executed(_, _, _, _) => 'E'
    case Canceled(_, _, _) => 'X'
    case Trade(_, _, _, _, _, _, _) => 'P'
  }

  /** Every field fits its range; shares fit six digits; a symbol fits its
      range and has no whitespace at its ends. */
  predicate WellFormed(r: Record) {
    && |r.time| == 8 && |r.orderId| == 12 && r.shares < Pow10(6)
    && match r
       case AddShort(_, _, _, _, symbol, price, _) =>
         |symbol| <= 6 && Trimmed(symbol) && |price| == 10
       case AddLong(_, _, _, _, symbol, price, _, participant, _) =>
         |symbol| <= 8 && Trimmed(symbol) && |price| == 14 && |participant| == 4
       case Executed(_, _, _, executionId) => |executionId| == 12
       case Canceled(_, _, _) => true
       case Trade(_, _, _, _, symbol, price, executionId) =>
         |symbol| <= 6 && Trimmed(symbol) && |price| == 10 && |executionId| == 12
  }

  /** The last character of the record line is not whitespace, so reading the
      line with `strip()` keeps it whole. */
  predicate Framed(r: Record)
    requires WellFormed(r)
  {
    match r
    case AddShort(_, _, _, _, _, _, reserved) => !IsSpace(reserved)
    case AddLong(_, _, _, _, _, _, _, _, customer) => !IsSpace(customer)
    case Executed(_, _, _, executionId) => !IsSpace(executionId[11])
    case Canceled(_, _, _) => true
    case Trade(_, _, _, _, _, _, executionId) => !IsSpace(executionId[11])
  }

  /** The line of an Add Order (short): a leading 'S', the time stamp, the
      tag, then each field in its range. */
  function AddShortLine(time: string, orderId: string, side: char, shares: nat, symbol: string,
                        price: string, reserved: char): string
    requires |symbol| <= 6
  {
    "S" + time + "A" + orderId + [side] + Digits(shares, 6) + PadRight(symbol, 6) + price
    + [reserved]
  }

  /** The line of an Add Order (long). */
  function AddLongLine(time: string, orderId: string, side: char, shares: nat, symbol: string,
                       price: string, display: char, participant: string, customer: char): string
    requires |symbol| <= 8
  {
    "S" + time + "1" + orderId + [side] + Digits(shares, 6) + PadRight(symbol, 8) + price
    + [display] + participant + [customer]
  }

  /** The line of an Order Executed. */
  function ExecutedLine(time: string, orderId: string, shares: nat, executionId: string): string {
    "S" + time + "E" + orderId + Digits(shares, 6) + executionId
  }

  /** The line of an Order Cancel. */
  function CanceledLine(time: string, orderId: string, shares: nat): string {
    "S" + time + "X" + orderId + Digits(shares, 6)
  }

  /** The line of a Trade (short). */
  function TradeLine(time: string, orderId: string, side: char, shares: nat, symbol: string,
                     price: string, executionId: string): string
    requires |symbol| <= 6
  {
    "S" + time + "P" + orderId + [side] + Digits(shares, 6) + PadRight(symbol, 6) + price
    + executionId
  }

  /** The line that carries a record. */
  function Format(r: Record): string
    requires WellFormed(r)
  {
    match r
    case AddShort(time, orderId, side, shares, symbol, price, reserved) =>
      AddShortLine(time, orderId, side, shares, symbol, price, reserved)
    case AddLong(time, orderId, side, shares, symbol, price, display, participant, customer) =>
      AddLongLine(time, orderId, side, shares, symbol, price, display, participant, customer)
    case Executed(time, orderId, shares, executionId) =>
      ExecutedLine(time, orderId, shares, executionId)
    case Canceled(time, orderId, shares) =>
      CanceledLine(time, orderId, shares)
    case Trade(time, orderId, side, shares, symbol, price, executionId) =>
      TradeLine(time, orderId, side, shares, symbol, price, executionId)
  }

  /** The fields a record's line should decode to. */
  function Fields(r: Record): seq<string>
    requires WellFormed(r)
  {
    match r
    case AddShort(time, orderId, side, shares, symbol, price, reserved) =>
      [time, "A", orderId, [side], Digits(shares, 6), symbol, price, [reserved]]
    case AddLong(time, orderId, side, shares, symbol, price, display, participant, customer) =>
      [time, "1", orderId, [side], Digits(shares, 6), symbol, price, [display], participant, [customer]]
    case Executed(time, orderId, shares, executionId) =>
      [time, "E", orderId, Digits(shares, 6), executionId]
    case Canceled(time, orderId, shares) =>
      [time, "X", orderId, Digits(shares, 6)]
    case Trade(time, orderId, side, shares, symbol, price, executionId) =>
      [time, "P", orderId, [side], Digits(shares, 6), symbol, price, executionId]
  }

  /** The index of the shares field in a record's fields. */
  function SharesIndex(r: Record): nat {
    if r.Executed? || r.Canceled? then 3 else 4
  }

  /** The symbol a record's message reports. */
  function SymbolOf(r: Record): Option<string> {
    if r.Executed? || r.Canceled? then None else Some(r.symbol)
  }

  /** Decoding the line of a record gives back the record: its tag, its
      fields, its symbol and its share count. */
  lemma FormatDecodes(r: Record)
    requires WellFormed(r)
    ensures GetMessageType(Format(r)) == Ok(Tag(r))
    ensures ParseOrderMessage(Format(r), Tag(r)) == Ok(Fields(r))
  {
    match r
    case AddShort(time, orderId, side, shares, symbol, price, reserved) =>
      AddShortDecodes(time, orderId, side, shares, symbol, price, reserved);
    case AddLong(time, orderId, side, shares, symbol, price, display, participant, customer) =>
      AddLongDecodes(time, orderId, side, shares, symbol, price, display, participant, customer);
    case Executed(time, orderId, shares, executionId) =>
      ExecutedDecodes(time, orderId, shares, executionId);
    case Canceled(time, orderId, shares) =>
      CanceledDecodes(time, orderId, shares);
    case Trade(time, orderId, side, shares, symbol, price, executionId) =>
      TradeDecodes(time, orderId, side, shares, symbol, price, executionId);
  }

  /** The decoded fields of a record report its order id, its symbol (none
      for Order Executed and Order Cancel) and, through `int()`, its share
      count. */
  lemma FieldsReport(r: Record)
    requires WellFormed(r)
    ensures GetMessageSymbol(Fields(r), Tag(r)) == Ok(SymbolOf(r))
    ensures SharesIndex(r) < |Fields(r)| && Fields(r)[2] == r.orderId
    ensures ParseInt(Fields(r)[SharesIndex(r)]) == Some(r.shares)
  {
    ParseIntOfDigits(r.shares, 6);
  }

  lemma AddShortDecodes(time: string, orderId: string, side: char, shares: nat, symbol: string,
                        price: string, reserved: char)
    requires |time| == 8 && |orderId| == 12 && |symbol| <= 6 && Trimmed(symbol) && |price| == 10
    ensures var line := AddShortLine(time, orderId, side, shares, symbol, price, reserved);
            && GetMessageType(line) == Ok('A')
            && ParseOrderMessage(line, 'A')
               == Ok([time, "A", orderId, [side], Digits(shares, 6), symbol, price, [reserved]])
  {
    AddShortColumns(time, orderId, side, shares, symbol, price, reserved);
    StripPadRight(symbol, 6);
  }

  /** Where each field of an Add Order (short) lies in its line. */
  lemma AddShortColumns(time: string, orderId: string, side: char, shares: nat, symbol: string,
                        price: string, reserved: char)
    requires |time| == 8 && |orderId| == 12 && |symbol| <= 6 && |price| == 10
    ensures var line := AddShortLine(time, orderId, side, shares, symbol, price, reserved);
            && |line| == 46 && line[9] == 'A' && line[22] == side && line[45] == reserved
            && line[1..9] == time && line[10..22] == orderId && line[23..29] == Digits(shares, 6)
            && line[29..35] == PadRight(symbol, 6) && line[35..45] == price
  {
    var line := AddShortLine(time, orderId, side, shares, symbol, price, reserved);
    assert line[1..9] == time;
    assert line[10..22] == orderId;
    assert line[23..29] == Digits(shares, 6);
    assert line[29..35] == PadRight(symbol, 6);
    assert line[35..45] == price;
  }

  lemma AddLongDecodes(time: string, orderId: string, side: char, shares: nat, symbol: string,
                       price: string, display: char, participant: string, customer: char)
    requires |time| == 8 && |orderId| == 12 && |symbol| <= 8 && Trimmed(symbol) && |price| == 14
    requires |participant| == 4
    ensures var line := AddLongLine(time, orderId, side, shares, symbol, price, display,
                                    participant, customer);
            && GetMessageType(line) == Ok('1')
            && ParseOrderMessage(line, '1')
               == Ok([time, "1", orderId, [side], Digits(shares, 6), symbol, price, [display],
                      participant, [customer]])
  {
    AddLongColumns(time, orderId, side, shares, symbol, price, display, participant, customer);
    StripPadRight(symbol, 8);
  }

  /** Where each field of an Add Order (long) lies in its line. */
  lemma AddLongColumns(time: string, orderId: string, side: char, shares: nat, symbol: string,
                       price: string, display: char, participant: string, customer: char)
    requires |time| == 8 && |orderId| == 12 && |symbol| <= 8 && |price| == 14
    requires |participant| == 4
    ensures var line := AddLongLine(time, orderId, side, shares, symbol, price, display,
                                    participant, customer);
            && |line| == 57 && line[9] == '1' && line[22] == side && line[51] == display
            && line[56] == customer
            && line[1..9] == time && line[10..22] == orderId && line[23..29] == Digits(shares, 6)
            && line[29..37] == PadRight(symbol, 8) && line[37..51] == price
            && line[52..56] == participant
  {
    var line := AddLongLine(time, orderId, side, shares, symbol, price, display, participant,
                            customer);
    assert line[1..9] == time;
    assert line[10..22] == orderId;
    assert line[23..29] == Digits(shares, 6);
    assert line[29..37] == PadRight(symbol, 8);
    assert line[37..51] == price;
    assert line[52..56] == participant;
  }

  lemma ExecutedDecodes(time: string, orderId: string, shares: nat, executionId: string)
    requires |time| == 8 && |orderId| == 12 && |executionId| == 12
    ensures var line := ExecutedLine(time, orderId, shares, executionId);
            && GetMessageType(line) == Ok('E')
            && ParseOrderMessage(line, 'E')
               == Ok([time, "E", orderId, Digits(shares, 6), executionId])
  {
    var line := ExecutedLine(time, orderId, shares, executionId);
    assert line[1..9] == time;
    assert line[10..22] == orderId;
    assert line[22..28] == Digits(shares, 6);
    assert line[28..40] == executionId;
  }

  lemma CanceledDecodes(time: string, orderId: string, shares: nat)
    requires |time| == 8 && |orderId| == 12
    ensures var line := CanceledLine(time, orderId, shares);
            && GetMessageType(line) == Ok('X')
            && ParseOrderMessage(line, 'X') == Ok([time, "X", orderId, Digits(shares, 6)])
  {
    var line := CanceledLine(time, orderId, shares);
    assert line[1..9] == time;
    assert line[10..22] == orderId;
    assert line[22..28] == Digits(shares, 6);
  }

  lemma TradeDecodes(time: string, orderId: string, side: char, shares: nat, symbol: string,
                     price: string, executionId: string)
    requires |time| == 8 && |orderId| == 12 && |symbol| <= 6 && Trimmed(symbol) && |price| == 10
    requires |executionId| == 12
    ensures var line := TradeLine(time, orderId, side, shares, symbol, price, executionId);
            && GetMessageType(line) == Ok('P')
            && ParseOrderMessage(line, 'P')
               == Ok([time, "P", orderId, [side], Digits(shares, 6), symbol, price, executionId])
  {
    TradeColumns(time, orderId, side, shares, symbol, price, executionId);
    StripPadRight(symbol, 6);
  }

  /** Where each field of a Trade (short) lies in its line. */
  lemma TradeColumns(time: string, orderId: string, side: char, shares: nat, symbol: string,
                     price: string, executionId: string)
    requires |time| == 8 && |orderId| == 12 && |symbol| <= 6 && |price| == 10
    requires |executionId| == 12
    ensures var line := TradeLine(time, orderId, side, shares, symbol, price, executionId);
            && |line| == 57 && line[9] == 'P' && line[22] == side
            && line[1..9] == time && line[10..22] == orderId && line[23..29] == Digits(shares, 6)
            && line[29..35] == PadRight(symbol, 6) && line[35..45] == price
            && line[45..57] == executionId
  {
    var line := TradeLine(time, orderId, side, shares, symbol, price, executionId);
    assert line == "S" + time + "P" + orderId + [side] + Digits(shares, 6) + PadRight(symbol, 6)
                   + price + executionId;
    assert line[1..9] == time;
    assert line[10..22] == orderId;
    assert line[23..29] == Digits(shares, 6);
    assert line[29..35] == PadRight(symbol, 6);
    assert line[35..45] == price;
    assert line[45..57] == executionId;
  }

  /** A framed record's line has no whitespace at its ends, so `strip()`
      leaves it as it is. */
  lemma FormatSurvivesStrip(r: Record)
    requires WellFormed(r) && Framed(r)
    ensures Strip(Format(r)) == Format(r)
  {
    var line := Format(r);
    assert Trimmed(line) by {
      assert !IsSpace(line[0]);
      match r
      case AddShort(_, _, _, _, _, _, _) =>
      case AddLong(_, _, _, _, _, _, _, _, _) =>
      case Executed(_, _, _, executionId) =>
        assert line[|line| - 1] == executionId[11];
      case Canceled(_, _, shares) =>
        assert line[|line| - 1] == Digits(shares, 6)[5];
      case Trade(_, _, _, _, _, _, executionId) =>
        assert line[|line| - 1] == executionId[11];
    }
    StripTrimmed(line);
  }

  /** The line of a record decodes to its tag and its fields. */
  lemma FormatDecodesEntry(r: Record)
    requires WellFormed(r)
    ensures DecodeEntry(Format(r)) == Ok((Tag(r), Fields(r)))
  {
    FormatDecodes(r);
  }

  /** Reading the line of a framed record gives back its tag and its
      fields. */
  lemma FormatRoundTrip(r: Record)
    requires WellFormed(r) && Framed(r)
    ensures Decode(Format(r)) == Ok((Tag(r), Fields(r)))
  {
    FormatSurvivesStrip(r);
    FormatDecodesEntry(r);
  }
}
