/** The life of an order as the all-symbols analyzer follows it, line by
    line: lines written from records of the five supported types. */
module LedgerScenarios {
  import opened Python
  import opened Pitch
  import opened Orders
  import opened LedgerModel

  /** The line of a record is handled as the record's own tag and
      fields. */
  lemma LineOfRecord(b: Book, r: Record)
    requires WellFormed(r) && Framed(r)
    ensures ProcessLine(b, Format(r)) == Handle(b, Tag(r), Fields(r))
  {
    FormatRoundTrip(r);
  }

  /** The book once `symbol` is entered, if it was not there already. */
  function WithSymbol(b: Book, symbol: string): (c: Book)
    ensures c.ledger == b.ledger && symbol in c.volumes
    ensures forall s :: s in b.volumes ==> s in c.volumes && c.volumes[s] == b.volumes[s]
  {
    if symbol in b.volumes then b
    else b.(volumes := b.volumes[symbol := 0], symbols := b.symbols + [symbol])
  }

  /** The fields of a record that the ledger reads: the order id, the
      shares, and the symbol of a record that has one. */
  lemma FieldsOfRecord(r: Record)
    requires WellFormed(r)
    ensures |Fields(r)| == FieldCount(Tag(r)) && Fields(r)[2] == r.orderId
    ensures Fields(r)[SharesIndex(r)] == Digits(r.shares, 6)
    ensures !r.Executed? && !r.Canceled? ==> Fields(r)[5] == r.symbol
  {
  }

  /** A message of an add layout for an order not in the ledger is entered
      with its symbol. */
  lemma AddMessageEnters(b: Book, message: seq<string>, tag: char)
    requires tag != 'X' && tag != 'E' && tag != 'P' && |message| > 5
    requires message[2] !in b.ledger
    ensures Apply(b, message, tag, Some(message[5]))
      == Done(WithSymbol(b, message[5]).(ledger := b.ledger[message[2] := Stored(message)]))
  {
  }

  /** A cancel message for a stored order holding `m` shares, canceling
      `n`. */
  lemma CancelMessageDeducts(b: Book, message: seq<string>, m: int, n: nat)
    requires |message| > 3 && message[2] in b.ledger && IntText(message[3]) == Ok(n)
    requires |b.ledger[message[2]]| > 5 && IntField(b.ledger[message[2]][4]) == Ok(m)
    ensures Apply(b, message, 'X', None)
      == Done(b.(ledger := Deduct(b.ledger, message[2], b.ledger[message[2]], m - n)))
  {
  }
  /** An execution message of `n` shares of a stored order holding `m`. */
  lemma ExecuteMessageCredits(b: Book, message: seq<string>, m: int, n: nat)
    requires |message| > 3 && message[2] in b.ledger && IntText(message[3]) == Ok(n)
    requires var stored := b.ledger[message[2]];
      |stored| > 5 && stored[5].Text? && stored[5].text in b.volumes && IntField(stored[4]) == Ok(m)
    ensures var stored := b.ledger[message[2]];
      var s := stored[5].text;
      Apply(b, message, 'E', None)
        == Done(Book(Deduct(b.ledger, message[2], stored, m - n), b.volumes[s := b.volumes[s] + n],
                     b.symbols))
  {
  }
  /** A trade message of `n` shares for an order not in the ledger. */
  lemma TradeMessageCredits(b: Book, message: seq<string>, n: nat)
    requires |message| > 5 && message[2] !in b.ledger && IntText(message[4]) == Ok(n)
    ensures var c := WithSymbol(b, message[5]);
      Apply(b, message, 'P', Some(message[5]))
        == Done(c.(volumes := c.volumes[message[5] := c.volumes[message[5]] + n]))
  {
  }
  /** A stored order's share count, read back with `int()`, is the number
      the add order carried. */
  lemma StoredShares(a: Record)
    requires (a.AddShort? || a.AddLong?) && WellFormed(a)
    ensures |Stored(Fields(a))| > 5 && Stored(Fields(a))[5] == Text(a.symbol)
    ensures IntField(Stored(Fields(a))[4]) == Ok(a.shares)
  {
    FieldsReport(a);
  }

  /** A stored order whose share count was overwritten with `left`. */
  lemma PartlyStored(a: Record, left: int)
    requires (a.AddShort? || a.AddLong?) && WellFormed(a)
    ensures var e := Stored(Fields(a))[4 := Count(left)];
      |e| > 5 && e[5] == Text(a.symbol) && IntField(e[4]) == Ok(left)
  {
    StoredShares(a);
  }
  /** The add of a new order enters the order with its decoded message,
      and its symbol with no volume unless it is there. */
  lemma AddHandled(b: Book, a: Record)
    requires (a.AddShort? || a.AddLong?) && WellFormed(a) && a.orderId !in b.ledger
    ensures Handle(b, Tag(a), Fields(a))
      == Done(WithSymbol(b, a.symbol).(ledger := b.ledger[a.orderId := Stored(Fields(a))]))
  {
    FieldsReport(a);
    FieldsOfRecord(a);
    AddMessageEnters(b, Fields(a), Tag(a));
  }

  /** The cancel of a stored order holding `m` shares. */
  lemma CancelHandled(b: Book, c: Record, m: int)
    requires c.Canceled? && WellFormed(c) && c.orderId in b.ledger
    requires |b.ledger[c.orderId]| > 5 && IntField(b.ledger[c.orderId][4]) == Ok(m)
    ensures Handle(b, 'X', Fields(c))
      == Done(b.(ledger := Deduct(b.ledger, c.orderId, b.ledger[c.orderId], m - c.shares)))
  {
    FieldsOfRecord(c);
    ParseIntOfDigits(c.shares, 6);
    CancelMessageDeducts(b, Fields(c), m, c.shares);
  }

  /** The execution of a stored order holding `m` shares. */
  lemma ExecuteHandled(b: Book, e: Record, m: int)
    requires e.Executed? && WellFormed(e) && e.orderId in b.ledger
    requires var stored := b.ledger[e.orderId];
      |stored| > 5 && stored[5].Text? && stored[5].text in b.volumes && IntField(stored[4]) == Ok(m)
    ensures var stored := b.ledger[e.orderId];
      var s := stored[5].text;
      Handle(b, 'E', Fields(e))
        == Done(Book(Deduct(b.ledger, e.orderId, stored, m - e.shares),
                     b.volumes[s := b.volumes[s] + e.shares], b.symbols))
  {
    FieldsOfRecord(e);
    ParseIntOfDigits(e.shares, 6);
    ExecuteMessageCredits(b, Fields(e), m, e.shares);
  }

  /** The trade of an order not in the ledger. */
  lemma TradeHandled(b: Book, p: Record)
    requires p.Trade? && WellFormed(p) && p.orderId !in b.ledger
    ensures var c := WithSymbol(b, p.symbol);
      Handle(b, 'P', Fields(p)) == Done(c.(volumes := c.volumes[p.symbol := c.volumes[p.symbol] + p.shares]))
  {
    FieldsOfRecord(p);
    ParseIntOfDigits(p.shares, 6);
    TradeMessageCredits(b, Fields(p), p.shares);
  }

  /** A new order is entered into the ledger with its decoded message, and
      its symbol into the table with no volume unless it is there. */
  lemma AddEntersOrder(b: Book, a: Record)
    requires (a.AddShort? || a.AddLong?) && WellFormed(a) && Framed(a)
    requires a.orderId !in b.ledger
    ensures ProcessLine(b, Format(a))
      == Done(WithSymbol(b, a.symbol).(ledger := b.ledger[a.orderId := Stored(Fields(a))]))
  {
    LineOfRecord(b, a);
    AddHandled(b, a);
  }

  /** A cancel of `c.shares` shares of a stored order holding `m`: the order
      keeps `m - c.shares` shares, or is deleted when none remain. */
  lemma CancelDeducts(b: Book, c: Record, m: int)
    requires c.Canceled? && WellFormed(c) && Framed(c) && c.orderId in b.ledger
    requires |b.ledger[c.orderId]| > 5 && IntField(b.ledger[c.orderId][4]) == Ok(m)
    ensures ProcessLine(b, Format(c))
      == Done(b.(ledger := Deduct(b.ledger, c.orderId, b.ledger[c.orderId], m - c.shares)))
  {
    LineOfRecord(b, c);
    CancelHandled(b, c, m);
  }

  /** An execution of `e.shares` shares of a stored order holding `m`:
      the stored symbol's volume grows by `e.shares` and the order keeps
      the rest. */
  lemma ExecuteDeductsAndCredits(b: Book, e: Record, m: int)
    requires e.Executed? && WellFormed(e) && Framed(e) && e.orderId in b.ledger
    requires var stored := b.ledger[e.orderId];
      |stored| > 5 && stored[5].Text? && stored[5].text in b.volumes && IntField(stored[4]) == Ok(m)
    ensures var stored := b.ledger[e.orderId];
      var s := stored[5].text;
      ProcessLine(b, Format(e))
        == Done(Book(Deduct(b.ledger, e.orderId, stored, m - e.shares),
                     b.volumes[s := b.volumes[s] + e.shares], b.symbols))
  {
    LineOfRecord(b, e);
    ExecuteHandled(b, e, m);
  }

  /** A trade of an order not in the ledger: its symbol is entered if it is
      new and credited with the trade's shares; the ledger is untouched. */
  lemma TradeCredits(b: Book, p: Record)
    requires p.Trade? && WellFormed(p) && Framed(p) && p.orderId !in b.ledger
    ensures var c := WithSymbol(b, p.symbol);
      ProcessLine(b, Format(p))
        == Done(c.(volumes := c.volumes[p.symbol := c.volumes[p.symbol] + p.shares]))
  {
    LineOfRecord(b, p);
    TradeHandled(b, p);
  }

  /** A run that has not raised goes on with the next line. */
  lemma RunSnoc(b: Book, xs: seq<string>, z: string)
    requires Run(b, xs).fault.None?
    ensures Run(b, xs + [z]) == ProcessLine(Run(b, xs).state, z)
  {
    assert (xs + [z])[..|xs|] == xs;
  }
  lemma RunTwoLines(b: Book, x: string, y: string, b1: Book, b2: Book)
    requires ProcessLine(b, x) == Done(b1) && ProcessLine(b1, y) == Done(b2)
    ensures Run(b, [x, y]) == Done(b2)
  {
    RunSnoc(b, [], x);
    assert [] + [x] == [x];
    RunSnoc(b, [x], y);
    assert [x] + [y] == [x, y];
  }
  lemma RunThreeLines(b: Book, x: string, y: string, z: string, b1: Book, b2: Book, b3: Book)
    requires ProcessLine(b, x) == Done(b1) && ProcessLine(b1, y) == Done(b2)
    requires ProcessLine(b2, z) == Done(b3)
    ensures Run(b, [x, y]) == Done(b2)
    ensures Run(b, [x, y, z]) == Done(b3)
  {
    RunTwoLines(b, x, y, b1, b2);
    RunSnocDone(b, [x, y], z, b2, b3);
    assert [x, y] + [z] == [x, y, z];
  }
  lemma RunSnocDone(b: Book, xs: seq<string>, z: string, c: Book, d: Book)
    requires Run(b, xs) == Done(c) && ProcessLine(c, z) == Done(d)
    ensures Run(b, xs + [z]) == Done(d)
  {
    RunSnoc(b, xs, z);
  }
  /** The book after an add, from the definition. */
  function AfterAdd(b: Book, a: Record): Book
    requires a.AddShort? || a.AddLong?
    requires WellFormed(a)
  {
    WithSymbol(b, a.symbol).(ledger := b.ledger[a.orderId := Stored(Fields(a))])
  }

  /** The book after an add and a partial execution, from the definition. */
  function AfterPartial(b: Book, a: Record, k: nat): Book
    requires a.AddShort? || a.AddLong?
    requires WellFormed(a)
  {
    var c := WithSymbol(b, a.symbol);
    Book(b.ledger[a.orderId := Stored(Fields(a))[4 := Count(a.shares - k)]],
         c.volumes[a.symbol := c.volumes[a.symbol] + k], c.symbols)
  }

  /** Deducting all of a fresh order's shares gives back the ledger it was
      added to. */
  lemma DeductAllRestores(b: Book, a: Record)
    requires (a.AddShort? || a.AddLong?) && WellFormed(a) && a.orderId !in b.ledger
    ensures var b1 := AfterAdd(b, a);
      b1.(ledger := Deduct(b1.ledger, a.orderId, b1.ledger[a.orderId], a.shares - a.shares))
        == WithSymbol(b, a.symbol)
  {
    var b1 := AfterAdd(b, a);
    assert b1.ledger - {a.orderId} == b.ledger;
  }

  /** Adding an order the ledger does not know and then canceling all its
      shares leaves the ledger as it was and the symbol entered (with no
      volume, when it is new). */
  lemma AddThenCancelAll(b: Book, a: Record, time: string)
    requires (a.AddShort? || a.AddLong?) && WellFormed(a) && Framed(a) && |time| == 8
    requires a.orderId !in b.ledger
    ensures var c := Canceled(time, a.orderId, a.shares);
      Run(b, [Format(a), Format(c)]) == Done(WithSymbol(b, a.symbol))
  {
    var c := Canceled(time, a.orderId, a.shares);
    var b1 := AfterAdd(b, a);
    AddEntersOrder(b, a);
    StoredShares(a);
    CancelDeducts(b1, c, a.shares);
    DeductAllRestores(b, a);
    RunTwoLines(b, Format(a), Format(c), b1, WithSymbol(b, a.symbol));
  }

  /** The book once an added order is filled and gone, from the
      definition. */
  function AfterFill(b: Book, a: Record): Book
    requires a.AddShort? || a.AddLong?
  {
    var c := WithSymbol(b, a.symbol);
    c.(volumes := c.volumes[a.symbol := c.volumes[a.symbol] + a.shares])
  }

  /** A first execution `e1` of part of a fresh order, from the book after
      its add. */
  lemma FirstFillState(b: Book, a: Record, e1: Record)
    requires (a.AddShort? || a.AddLong?) && WellFormed(a) && a.orderId !in b.ledger
    requires e1.Executed? && e1.orderId == a.orderId && e1.shares < a.shares
    ensures var b1 := AfterAdd(b, a);
      var stored := b1.ledger[e1.orderId];
      && e1.orderId in b1.ledger && |stored| > 5 && stored[5].Text? && stored[5].text in b1.volumes
      && IntField(stored[4]) == Ok(a.shares)
      && Book(Deduct(b1.ledger, e1.orderId, stored, a.shares - e1.shares),
              b1.volumes[stored[5].text := b1.volumes[stored[5].text] + e1.shares], b1.symbols)
         == AfterPartial(b, a, e1.shares)
  {
    var id, fields := a.orderId, Stored(Fields(a));
    StoredShares(a);
    var b1, c := AfterAdd(b, a), WithSymbol(b, a.symbol);
    assert b1.ledger == b.ledger[id := fields] && b1.ledger[id] == fields;
    assert b1.volumes == c.volumes && fields[5].text == a.symbol;
    assert Deduct(b1.ledger, id, fields, a.shares - e1.shares) == b.ledger[id := fields[4 := Count(a.shares - e1.shares)]];
  }

  /** A second execution `e2` of the rest of a fresh order, from the book
      after the first part `e1`. */
  lemma SecondFillState(b: Book, a: Record, e1: Record, e2: Record)
    requires (a.AddShort? || a.AddLong?) && WellFormed(a) && a.orderId !in b.ledger
    requires e1.Executed? && 0 < e1.shares < a.shares
    requires e2.Executed? && e2.orderId == a.orderId && e2.shares == a.shares - e1.shares
    ensures var b2 := AfterPartial(b, a, e1.shares);
      var stored := b2.ledger[e2.orderId];
      && e2.orderId in b2.ledger && |stored| > 5 && stored[5].Text? && stored[5].text in b2.volumes
      && IntField(stored[4]) == Ok(a.shares - e1.shares)
      && Book(Deduct(b2.ledger, e2.orderId, stored, (a.shares - e1.shares) - e2.shares),
              b2.volumes[stored[5].text := b2.volumes[stored[5].text] + e2.shares], b2.symbols)
         == AfterFill(b, a)
  {
    var id, left := a.orderId, a.shares - e1.shares;
    var entry := Stored(Fields(a))[4 := Count(left)];
    PartlyStored(a, left);
    var b2, c := AfterPartial(b, a, e1.shares), WithSymbol(b, a.symbol);
    assert b2.ledger == b.ledger[id := entry] && b2.ledger[id] == entry;
    assert b2.volumes == c.volumes[a.symbol := c.volumes[a.symbol] + e1.shares];
    assert b2.ledger - {id} == b.ledger;
  }

  /** An execution line applied to a book whose outcome is known as `b2`. */
  lemma ExecuteLine(b1: Book, b2: Book, e: Record, m: int)
    requires e.Executed? && WellFormed(e) && Framed(e) && e.orderId in b1.ledger
    requires var stored := b1.ledger[e.orderId];
      |stored| > 5 && stored[5].Text? && stored[5].text in b1.volumes && IntField(stored[4]) == Ok(m)
    requires var stored := b1.ledger[e.orderId];
      Book(Deduct(b1.ledger, e.orderId, stored, m - e.shares),
           b1.volumes[stored[5].text := b1.volumes[stored[5].text] + e.shares], b1.symbols) == b2
    ensures ProcessLine(b1, Format(e)) == Done(b2)
  {
    ExecuteDeductsAndCredits(b1, e, m);
  }

  /** An order executed in part keeps the rest, and its symbol gains the
      part's volume. */
  lemma PartialExecution(b: Book, a: Record, e1: Record)
    requires (a.AddShort? || a.AddLong?) && WellFormed(a)
    requires e1.Executed? && WellFormed(e1) && Framed(e1) && e1.orderId == a.orderId
    requires 0 < e1.shares < a.shares
    requires a.orderId !in b.ledger
    ensures ProcessLine(AfterAdd(b, a), Format(e1)) == Done(AfterPartial(b, a, e1.shares))
  {
    var b1, b2 := AfterAdd(b, a), AfterPartial(b, a, e1.shares);
    FirstFillState(b, a, e1);
    ExecuteLine(b1, b2, e1, a.shares);
  }

  /** The execution of the rest of a partly executed order removes it and
      credits its symbol with the rest. */
  lemma RestExecution(b: Book, a: Record, e1: Record, e2: Record)
    requires (a.AddShort? || a.AddLong?) && WellFormed(a) && a.orderId !in b.ledger
    requires e1.Executed? && 0 < e1.shares < a.shares
    requires e2.Executed? && WellFormed(e2) && Framed(e2) && e2.orderId == a.orderId
    requires e2.shares == a.shares - e1.shares
    ensures ProcessLine(AfterPartial(b, a, e1.shares), Format(e2)) == Done(AfterFill(b, a))
  {
    var b2, b3 := AfterPartial(b, a, e1.shares), AfterFill(b, a);
    SecondFillState(b, a, e1, e2);
    ExecuteLine(b2, b3, e2, a.shares - e1.shares);
  }

  /** An order executed in two parts that together fill it: after the first
      part the order keeps the rest and its symbol has gained the first
      part's volume; after the second the ledger is as it was before the
      order and the symbol has gained the whole order's volume. */
  lemma PartialThenFullExecution(b: Book, a: Record, e1: Record, e2: Record)
    requires (a.AddShort? || a.AddLong?) && WellFormed(a) && Framed(a)
    requires e1.Executed? && WellFormed(e1) && Framed(e1) && e1.orderId == a.orderId
    requires e2.Executed? && WellFormed(e2) && Framed(e2) && e2.orderId == a.orderId
    requires 0 < e1.shares < a.shares && e2.shares == a.shares - e1.shares
    requires a.orderId !in b.ledger
    ensures Run(b, [Format(a), Format(e1)]) == Done(AfterPartial(b, a, e1.shares))
    ensures Run(b, [Format(a), Format(e1), Format(e2)]) == Done(AfterFill(b, a))
  {
    AddEntersOrder(b, a);
    PartialExecution(b, a, e1);
    RestExecution(b, a, e1, e2);
    RunThreeLines(b, Format(a), Format(e1), Format(e2), AfterAdd(b, a), AfterPartial(b, a, e1.shares),
                  AfterFill(b, a));
  }

  /** A trade of an order never added enters its symbol and credits it. */
  lemma TradeOfNewOrder(b: Book, p: Record)
    requires p.Trade? && WellFormed(p) && Framed(p) && p.orderId !in b.ledger
    ensures var c := WithSymbol(b, p.symbol);
      Run(b, [Format(p)]) == Done(c.(volumes := c.volumes[p.symbol := c.volumes[p.symbol] + p.shares]))
  {
    TradeCredits(b, p);
    RunSnoc(b, [], Format(p));
    assert [] + [Format(p)] == [Format(p)];
  }

  /** The Add Order of the analyzer's own tests. */
  function TestAdd(): Record {
    AddShort("28800011", "AK27GA0000DT", 'S', 100, "SH", "0000619200", 'Y')
  }

  /** The Order Cancel of the analyzer's own tests, for all 100 shares. */
  function TestCancel(): Record {
    Canceled("28858232", "AK27GA0000DT", 100)
  }

  lemma TestRecordsWellFormed()
    ensures WellFormed(TestAdd()) && Framed(TestAdd()) && WellFormed(TestCancel()) && Framed(TestCancel())
  {
  }

  /** The padded columns of the tests' lines: 100 shares and the symbol
      "SH". */
  lemma TestColumns()
    ensures Digits(100, 6) == "000100" && PadRight("SH", 6) == "SH    "
  {
    assert Spaces(4) == "    ";
  }

  /** The add line of the tests, column by column. */
  lemma TestAddColumns()
    ensures "S" + "28800011" + "A" + "AK27GA0000DT" + ['S'] + "000100" + "SH    " + "0000619200" + ['Y']
      == "S28800011AAK27GA0000DTS000100SH    0000619200Y"
  {
    assert "S" + "28800011" == "S28800011";
    assert "S28800011" + "A" == "S28800011A";
    assert "S28800011A" + "AK27GA0000DT" == "S28800011AAK27GA0000DT";
    assert "S28800011AAK27GA0000DT" + ['S'] == "S28800011AAK27GA0000DTS";
    assert "S28800011AAK27GA0000DTS" + "000100" == "S28800011AAK27GA0000DTS000100";
    assert "S28800011AAK27GA0000DTS000100" + "SH    " == "S28800011AAK27GA0000DTS000100SH    ";
    assert "S28800011AAK27GA0000DTS000100SH    " + "0000619200"
      == "S28800011AAK27GA0000DTS000100SH    0000619200";
  }

  /** The add line of the tests is the line of `TestAdd()`. */
  lemma TestAddLine()
    ensures WellFormed(TestAdd())
    ensures Format(TestAdd()) == "S28800011AAK27GA0000DTS000100SH    0000619200Y"
  {
    TestColumns();
    TestAddColumns();
  }

  /** The cancel line of the tests is the line of `TestCancel()`. */
  lemma TestCancelLine()
    ensures WellFormed(TestCancel())
    ensures Format(TestCancel()) == "S28858232XAK27GA0000DT000100"
  {
    TestColumns();
    assert "S" + "28858232" == "S28858232";
    assert "S28858232" + "X" == "S28858232X";
    assert "S28858232X" + "AK27GA0000DT" == "S28858232XAK27GA0000DT";
    assert "S28858232XAK27GA0000DT" + "000100" == "S28858232XAK27GA0000DT000100";
  }

  /** The fields the tests' add line decodes to (`FormatRoundTrip`): 8 of
      them, with order id "AK27GA0000DT" and symbol "SH". */
  lemma TestAddFields()
    ensures WellFormed(TestAdd())
    ensures Fields(TestAdd()) == ["28800011", "A", "AK27GA0000DT", "S", "000100", "SH", "0000619200", "Y"]
    ensures GetMessageSymbol(Fields(TestAdd()), 'A') == Ok(Some("SH"))
  {
    assert Digits(100, 6) == "000100";
  }

  /** The tests' add line itself: `parse_order_message` gives its eight
      fields, with symbol "SH", and so does the strip-and-decode of the
      event loop. */
  lemma TestAddLineParses()
    ensures ParseOrderMessage("S28800011AAK27GA0000DTS000100SH    0000619200Y", 'A')
      == Ok(["28800011", "A", "AK27GA0000DT", "S", "000100", "SH", "0000619200", "Y"])
    ensures Decode("S28800011AAK27GA0000DTS000100SH    0000619200Y")
      == Ok(('A', ["28800011", "A", "AK27GA0000DT", "S", "000100", "SH", "0000619200", "Y"]))
    ensures GetMessageSymbol(["28800011", "A", "AK27GA0000DT", "S", "000100", "SH", "0000619200", "Y"], 'A')
      == Ok(Some("SH"))
  {
    TestAddLine();
    TestAddFields();
    TestRecordsWellFormed();
    FormatDecodes(TestAdd());
    FormatRoundTrip(TestAdd());
  }

  /** The tests' add then cancel: the order is gone and "SH" is in the
      table, from any book that does not hold the order. */
  lemma TestAddThenCancel(b: Book)
    requires "AK27GA0000DT" !in b.ledger
    ensures Run(b, ["S28800011AAK27GA0000DTS000100SH    0000619200Y", "S28858232XAK27GA0000DT000100"])
      == Done(WithSymbol(b, "SH"))
  {
    TestRecordsWellFormed();
    TestAddLine();
    TestCancelLine();
    AddThenCancelAll(b, TestAdd(), "28858232");
  }
}
