# PITCH order-book volume analysis, modelled in Dafny

The repository reads a file of Cboe PITCH order messages, one per line. It keeps
a ledger of open orders and adds the executed and traded shares to the volume of
each stock symbol. It has two analyzers:

- **`Analyzer`** tracks every symbol in a volume table (`symbol_book`) and
  reports the ten symbols with the largest volume.
- **`SymbolAnalyzer`** tracks one chosen symbol and its cumulative volume
  (`stock_volume`).

Both analyzers share the same line decoder. `symbol_analyzer.py:50-135` is a
copy of `analyzer.py:69-153`. The decoder handles five message types: Add Order
short (`A`), Add Order long (`1`), Order Executed (`E`), Order Cancel (`X`) and
Trade short (`P`). A line is stripped, its type is the character at index 9,
and its fields are the fixed column slices of that type. Any other type decodes
to an empty message.

The project is organised as follows:

- `python.dfy` (`Python`) models the Python behaviour the source relies on:
  - the exceptions it raises (IndexError, KeyError, ValueError);
  - a `Result` for calls that may raise;
  - an `Outcome` for steps that may raise after they have already changed state;
  - clamped slicing, `str.strip()` and `int()` on decimal strings.
- `pitch.dfy` (`Pitch`) is the decoder: `get_message_type`,
  `parse_order_message` and `get_message_symbol`. It also defines a `Record`
  type with a line formatter, and proves that parsing the formatted line gives
  the record's fields back.
- `orders.dfy` (`Orders`) defines a stored ledger entry and the share
  deduction both analyzers perform. Field 4 of an entry starts as text and is
  replaced by an int once shares are deducted.
- `ranking.dfy` (`Ranking`) models `sorted(..., key=itemgetter(1), reverse=True)[:10]`.
  It is a stable descending sort by volume followed by a ten-element prefix.
- `ledger_model.dfy` (`LedgerModel`) models each step of `Analyzer.read_file`
  as a function on a `Book` value. A `Book` holds the ledger, the volume table
  and the table's insertion order.
- `ledger_facts.dfy` (`LedgerFacts`) proves what those steps guarantee:
  - volumes never decrease (share fields are unsigned digit runs, see
    `Python.ParseInt` under "Left out");
  - the symbol list stays the insertion order of the table;
  - the run stops at the first exception;
  - from a ledger whose stored symbols are all in the table, no KeyError is
    ever raised.
- `ledger_scenarios.dfy` (`LedgerScenarios`) proves whole scenarios on
  formatted lines: add, cancel, execute, partial followed by full execution,
  and a trade of an unknown order. It also covers the add and cancel lines of
  the repository's own tests.
- `analyzer.dfy` (`AnalyzerClass`) defines the `Analyzer` class. Its fields are
  updated in place, and each method is proved to produce the state and the
  exception that `LedgerModel` gives for the same step. `ReadFile` is the event
  loop, proved with a loop invariant.
- `symbol_model.dfy`, `symbol_facts.dfy` and `symbol_analyzer.dfy` do the same
  for `SymbolAnalyzer`. Its `compute_message` runs two blocks in sequence:
  1. enter an unknown order of the tracked symbol, or credit a trade of one;
  2. cancel, execute or trade an order that the ledger knows.

## Model

| member | source | states |
|---|---|---|
| Python.At | pitch_volume_analysis/core/analyzer.py:157 | `xs[i]` succeeds exactly when `i` is in range and gives that element; otherwise it raises IndexError |
| Python.CharAt | pitch_volume_analysis/core/analyzer.py:55 | `s[i]` on a string succeeds exactly when `i < len(s)` and gives that character; otherwise IndexError |
| Python.Slice | pitch_volume_analysis/core/analyzer.py:80-87 | `s[i:j]` never raises; it is the infix between the clamped bounds, of length `max(0, min(j, len(s)) - min(i, len(s)))` |
| Python.TrimLeft | pitch_volume_analysis/core/analyzer.py:23 | drops exactly the leading whitespace: the result is a suffix, everything dropped is whitespace, and the result does not start with whitespace |
| Python.TrimRight | pitch_volume_analysis/core/analyzer.py:23 | drops exactly the trailing whitespace: the result is a prefix, everything dropped is whitespace, and the result does not end with whitespace |
| Python.Strip | pitch_volume_analysis/core/analyzer.py:23 | `line.strip()` is the infix left once the whitespace at both ends is gone; the result has no whitespace at either end |
| Python.StripTrimmed | pitch_volume_analysis/core/analyzer.py:23 | a string with no whitespace at its ends is unchanged by `strip()` |
| Python.StripPadRight | pitch_volume_analysis/core/analyzer.py:85 | a symbol padded with spaces to its column width strips back to itself, so `entry[29:35].strip()` recovers it |
| Python.ParseInt | pitch_volume_analysis/core/analyzer.py:184 | `int(s)` succeeds exactly when `s` is a non-empty string of ASCII digits, and then gives their decimal value |
| Python.ParseIntOfDigits | pitch_volume_analysis/core/analyzer.py:84 | the six-digit zero-padded share column parses back to the share count |
| Pitch.GetMessageType | pitch_volume_analysis/core/analyzer.py:53-55 | `entry[9]`: succeeds exactly when the entry has more than nine characters, with that character; IndexError otherwise |
| Pitch.AddShortFields | pitch_volume_analysis/core/analyzer.py:79-97 | an Add Order (short) gives the eight fields at columns 1-9, 9, 10-22, 22, 23-29, 29-35 (stripped), 35-45 and 45 |
| Pitch.AddLongFields | pitch_volume_analysis/core/analyzer.py:98-120 | an Add Order (long) gives the ten fields at columns 1-9, 9, 10-22, 22, 23-29, 29-37 (stripped), 37-51, 51, 52-56 and 56 |
| Pitch.ExecutedFields | pitch_volume_analysis/core/analyzer.py:121-127 | an Order Executed gives the five fields at columns 1-9, 9, 10-22, 22-28 and 28-40 |
| Pitch.CanceledFields | pitch_volume_analysis/core/analyzer.py:128-133 | an Order Cancel gives the four fields at columns 1-9, 9, 10-22 and 22-28 |
| Pitch.TradeFields | pitch_volume_analysis/core/analyzer.py:134-152 | a Trade (short) gives the eight fields at columns 1-9, 9, 10-22, 22, 23-29, 29-35 (stripped), 35-45 and 45-57 |
| Pitch.ParseOrderMessage | pitch_volume_analysis/core/analyzer.py:69-153 | raises IndexError exactly when a single-character column lies beyond the entry (lengths 46, 57, 10, 10 and 23 for A, 1, E, X and P); otherwise the message has 8, 10, 5, 4 or 8 fields; an unknown type gives the empty message |
| Pitch.GetMessageSymbol | pitch_volume_analysis/core/analyzer.py:57-66 | E and X have no symbol (None); every other type gives `message[5]`, and IndexError when the message has six fields or fewer |
| Pitch.Decode | pitch_volume_analysis/core/analyzer.py:23-25 | stripping a line and then decoding it can fail only with IndexError |
| Pitch.DecodeEntry | pitch_volume_analysis/core/analyzer.py:24-25 | type reading and parsing succeed exactly when the entry is long enough for its type; the result's type is `entry[9]` and the field count is that type's |
| Pitch.FormatDecodes | pitch_volume_analysis/core/analyzer.py:69-153 | the line of every well-formed record has its type at index 9 and parses to the record's fields |
| Pitch.FieldsReport | pitch_volume_analysis/core/analyzer.py:57-66 | `get_message_symbol` of a record's fields gives its symbol (None for E and X), field 2 is its order id, and `int()` of its share field gives its share count |
| Pitch.AddShortDecodes | pitch_volume_analysis/core/analyzer.py:79-97 | an Add Order (short) line built from its fields parses to exactly those fields |
| Pitch.AddLongDecodes | pitch_volume_analysis/core/analyzer.py:98-120 | an Add Order (long) line built from its fields parses to exactly those fields |
| Pitch.ExecutedDecodes | pitch_volume_analysis/core/analyzer.py:121-127 | an Order Executed line built from its fields parses to exactly those fields |
| Pitch.CanceledDecodes | pitch_volume_analysis/core/analyzer.py:128-133 | an Order Cancel line built from its fields parses to exactly those fields |
| Pitch.TradeDecodes | pitch_volume_analysis/core/analyzer.py:134-152 | a Trade (short) line built from its fields parses to exactly those fields |
| Pitch.FormatSurvivesStrip | pitch_volume_analysis/core/analyzer.py:23 | a framed record's line has no whitespace at its ends, so `strip()` leaves it unchanged |
| Pitch.FormatDecodesEntry | pitch_volume_analysis/core/analyzer.py:24-25 | type reading and parsing of a record's line give back the record's type and fields |
| Pitch.FormatRoundTrip | pitch_volume_analysis/core/analyzer.py:23-25 | round trip: stripping, type reading and parsing the line of a framed record give back its type and fields |
| Orders.Stored | pitch_volume_analysis/core/analyzer.py:166 | a stored message keeps every field of the message, in order, as text |
| Orders.IntText | pitch_volume_analysis/core/analyzer.py:184 | `int(field)` on a text field succeeds exactly when `int()` accepts the text; otherwise it raises ValueError |
| Orders.IntField | pitch_volume_analysis/core/analyzer.py:181-184 | `int(old_message[4])` gives an int already stored there, and otherwise parses the text |
| Orders.SymbolKey | pitch_volume_analysis/core/analyzer.py:177 | a stored symbol is a key of the volume table only while it is text |
| Orders.Deduct | pitch_volume_analysis/core/analyzer.py:184-189 | the order is deleted exactly when no shares are left; otherwise its entry has field 4 set to the shares left; every other order is unchanged and no order is added |
| Orders.DeductKeepsOtherFields | pitch_volume_analysis/core/analyzer.py:188-189 | a partial deduction changes only field 4 of the stored message |
| Ranking.Insert | pitch_volume_analysis/core/analyzer.py:237-238 | inserting into a descending list keeps it descending and adds exactly that item |
| Ranking.SortByVolume | pitch_volume_analysis/core/analyzer.py:237-238 | the items sorted by volume, largest first, form a permutation of the input |
| Ranking.SortIsStable | pitch_volume_analysis/core/analyzer.py:237-238 | the sort is stable: the items of any one volume keep their input order |
| Ranking.TopTen | pitch_volume_analysis/core/analyzer.py:237-239 | the first `min(10, n)` items, descending, taken from the input without repeats |
| Ranking.TopTenLeavesNoLarger | pitch_volume_analysis/core/analyzer.py:237-239 | no item left out of the top ten has a larger volume than any item kept |
| Ranking.TopTenKeepsEarliest | pitch_volume_analysis/core/analyzer.py:237-239 | among items of equal volume, those kept are the earliest in insertion order |
| LedgerModel.Items | pitch_volume_analysis/core/analyzer.py:237 | `symbol_book.items()` lists every symbol once, in insertion order, with its volume |
| LedgerModel.Volume | pitch_volume_analysis/core/analyzer.py:195 | `symbol_book[key]` succeeds exactly when the key is a symbol of the table, with its volume; otherwise KeyError |
| LedgerModel.TrackSymbol | pitch_volume_analysis/core/analyzer.py:221-227 | `track_symbol` on the tables; specified by `LedgerFacts.TrackSymbolEnters` and `LedgerFacts.TrackSymbolIdempotent` |
| LedgerModel.Cancel | pitch_volume_analysis/core/analyzer.py:180-189 | the cancel branch of `update_ledger_shares`; specified by `LedgerFacts.CancelMovesNoVolume` and `LedgerScenarios.CancelMessageDeducts` |
| LedgerModel.Execute | pitch_volume_analysis/core/analyzer.py:191-215 | the execute and trade branches of `update_ledger_shares`; specified by `LedgerFacts.ExecutionCreditsStoredSymbol` and `LedgerFacts.TradeOfStoredOrderCredits` |
| LedgerModel.UpdateLedgerShares | pitch_volume_analysis/core/analyzer.py:172-215 | `update_ledger_shares`, choosing the branch by type letter; specified by the three lemmas above |
| LedgerModel.CreditTrade | pitch_volume_analysis/core/analyzer.py:160-164 | the trade of an unknown order; specified by `LedgerFacts.TradeOfUnknownOrderCredits` |
| LedgerModel.ComputeMessage | pitch_volume_analysis/core/analyzer.py:155-170 | `compute_message`; specified by `LedgerFacts.ComputeMessageKeepsTable`, `LedgerFacts.UnknownOrderUpdateIsStored` and `LedgerFacts.ComputeKeepsClosed` |
| LedgerModel.Apply | pitch_volume_analysis/core/analyzer.py:33-36 | `track_symbol` for types other than X and E, then `compute_message`; specified by `LedgerFacts.HandleGrows` and `LedgerFacts.HandleKeepsClosed` |
| LedgerModel.Handle | pitch_volume_analysis/core/analyzer.py:26-36 | skips a message whose symbol cannot be read, otherwise applies it; specified by `LedgerFacts.HandleGrows` and `LedgerFacts.HandleKeepsClosed` |
| LedgerModel.ProcessLine | pitch_volume_analysis/core/analyzer.py:22-36 | one line of the event loop; specified by `LedgerFacts.ProcessLineSkipsUnknown`, `LedgerFacts.ProcessLineGrows` and `LedgerFacts.ProcessLineKeepsClosed` |
| LedgerModel.Run | pitch_volume_analysis/core/analyzer.py:18-51 | the event loop over all lines, stopping at the first exception; specified by `LedgerFacts.RunGrows`, `LedgerFacts.RunAppend`, `LedgerFacts.RunHaltsAtFirstFault` and `LedgerFacts.RunNeverRaisesKeyError` |
| LedgerModel.TopTenSymbols | pitch_volume_analysis/core/analyzer.py:234-242 | the top ten holds `min(10, #symbols)` symbols of the table with their volumes, in descending order of volume |
| LedgerFacts.TrackSymbolEnters | pitch_volume_analysis/core/analyzer.py:221-227 | raises IndexError exactly when the message has six fields or fewer; a new symbol enters with volume 0 at the end of the insertion order; a known symbol changes nothing; the ledger and the existing volumes are unchanged |
| LedgerFacts.TrackSymbolIdempotent | pitch_volume_analysis/core/analyzer.py:221-227 | tracking the same symbol twice is the same as tracking it once |
| LedgerFacts.ComputeMessageKeepsTable | pitch_volume_analysis/core/analyzer.py:155-170 | `compute_message` never adds a symbol and never lowers a volume; IndexError when there is no order id; an unknown non-trade order is stored as it is; a known order whose stored message has no symbol raises IndexError; a known order with an A/1 message changes nothing |
| LedgerFacts.CancelMovesNoVolume | pitch_volume_analysis/core/analyzer.py:180-189 | a cancel never changes any volume |
| LedgerFacts.ExecutionCreditsStoredSymbol | pitch_volume_analysis/core/analyzer.py:191-202 | an execution credits its shares to the stored order's symbol, then deducts them from the order; the credit remains when the stored shares are not a number, which raises ValueError |
| LedgerFacts.TradeOfStoredOrderCredits | pitch_volume_analysis/core/analyzer.py:204-215 | a trade of a stored order credits the trade's own symbol, then deducts the shares from the order |
| LedgerFacts.TradeOfUnknownOrderCredits | pitch_volume_analysis/core/analyzer.py:160-164 | a trade of an unknown order credits its symbol and leaves the ledger alone |
| LedgerFacts.UnknownOrderUpdateIsStored | pitch_volume_analysis/core/analyzer.py:160-166 | an execution or cancel of an unknown order is stored as if it were an add, and any later message for that id raises IndexError |
| LedgerFacts.ProcessLineSkipsUnknown | pitch_volume_analysis/core/analyzer.py:23-30 | a line too short for its type raises IndexError; a line of an unrecognised type changes nothing |
| LedgerFacts.HandleGrows | pitch_volume_analysis/core/analyzer.py:26-36 | one decoded message never lowers a volume and keeps the symbol list in insertion order |
| LedgerFacts.ProcessLineGrows | pitch_volume_analysis/core/analyzer.py:22-36 | one line never lowers a volume and keeps the symbol list in insertion order |
| LedgerFacts.RunGrows | pitch_volume_analysis/core/analyzer.py:18-36 | over a whole run, no volume decreases and the symbol list stays in insertion order |
| LedgerFacts.RunAppend | pitch_volume_analysis/core/analyzer.py:20-48 | reading two stretches of lines in a row is reading their concatenation, unless the first raised |
| LedgerFacts.RunHaltsAtFirstFault | pitch_volume_analysis/core/analyzer.py:40-48 | once a line raises, the lines after it change nothing |
| LedgerFacts.ComputeKeepsClosed | pitch_volume_analysis/core/analyzer.py:155-215 | when every stored symbol and the message's symbol are in the table, `compute_message` raises no KeyError and keeps that property |
| LedgerFacts.HandleKeepsClosed | pitch_volume_analysis/core/analyzer.py:26-36 | after `track_symbol`, no decoded message raises KeyError, and every stored symbol stays in the table |
| LedgerFacts.ProcessLineKeepsClosed | pitch_volume_analysis/core/analyzer.py:22-36 | no line raises KeyError when every stored symbol is in the table, and that property is kept |
| LedgerFacts.RunNeverRaisesKeyError | pitch_volume_analysis/core/analyzer.py:18-51 | a run from tables where every stored symbol is known never raises KeyError |
| LedgerFacts.EmptyIsClosedAndValid | pitch_volume_analysis/core/analyzer.py:12-13 | the empty tables satisfy both invariants |
| LedgerScenarios.LineOfRecord | pitch_volume_analysis/core/analyzer.py:22-36 | the line of a framed record is processed as its decoded message |
| LedgerScenarios.AddMessageEnters | pitch_volume_analysis/core/analyzer.py:33-36 | an add of an unknown order tracks its symbol and stores the order |
| LedgerScenarios.CancelMessageDeducts | pitch_volume_analysis/core/analyzer.py:180-189 | a cancel of a stored order deducts its shares and moves no volume |
| LedgerScenarios.ExecuteMessageCredits | pitch_volume_analysis/core/analyzer.py:191-202 | an execution of a stored order deducts its shares and credits them to the stored symbol |
| LedgerScenarios.TradeMessageCredits | pitch_volume_analysis/core/analyzer.py:160-164 | a trade of an unknown order tracks its symbol and credits its shares |
| LedgerScenarios.AddHandled | pitch_volume_analysis/core/analyzer.py:27-36 | an add record's message tracks its symbol and stores the order |
| LedgerScenarios.CancelHandled | pitch_volume_analysis/core/analyzer.py:27-36 | a cancel record's message deducts the canceled shares from the order |
| LedgerScenarios.ExecuteHandled | pitch_volume_analysis/core/analyzer.py:27-36 | an execution record's message deducts its shares and credits the stored symbol |
| LedgerScenarios.TradeHandled | pitch_volume_analysis/core/analyzer.py:27-36 | a trade record's message tracks its symbol and credits its shares |
| LedgerScenarios.AddEntersOrder | pitch_volume_analysis/core/analyzer.py:22-36 | the line of an add enters its order with its fields and its symbol with volume 0 if new |
| LedgerScenarios.CancelDeducts | pitch_volume_analysis/core/analyzer.py:22-36 | the line of a cancel deducts its shares from the stored order |
| LedgerScenarios.ExecuteDeductsAndCredits | pitch_volume_analysis/core/analyzer.py:22-36 | the line of an execution deducts its shares and credits them to the stored symbol |
| LedgerScenarios.TradeCredits | pitch_volume_analysis/core/analyzer.py:22-36 | the line of a trade of an unknown order credits its symbol |
| LedgerScenarios.RunTwoLines | pitch_volume_analysis/core/analyzer.py:22-36 | two lines that raise nothing are processed one after the other |
| LedgerScenarios.RunThreeLines | pitch_volume_analysis/core/analyzer.py:22-36 | three lines that raise nothing are processed one after the other |
| LedgerScenarios.AddThenCancelAll | pitch_volume_analysis/core/analyzer.py:180-189 | an add followed by a cancel of all its shares leaves the ledger as it was, with the symbol tracked at volume 0 |
| LedgerScenarios.PartialExecution | pitch_volume_analysis/core/analyzer.py:191-202 | a partial execution of a stored add leaves the remainder stored and credits the executed shares |
| LedgerScenarios.RestExecution | pitch_volume_analysis/core/analyzer.py:191-202 | executing the rest removes the order, and the symbol's volume is then the whole order |
| LedgerScenarios.PartialThenFullExecution | pitch_volume_analysis/core/analyzer.py:18-36 | add, partial execution, then full execution: the order is gone and its symbol gained all its shares |
| LedgerScenarios.TradeOfNewOrder | pitch_volume_analysis/core/analyzer.py:160-164 | a run of one trade line credits its symbol with its shares |
| LedgerScenarios.TestRecordsWellFormed | pitch_volume_analysis/tests/test_analyzer.py:27 | the test's add and cancel records fit their columns |
| LedgerScenarios.TestAddLine | pitch_volume_analysis/tests/test_analyzer.py:20 | the add record formats to the test's add line |
| LedgerScenarios.TestCancelLine | pitch_volume_analysis/tests/test_analyzer.py:76 | the cancel record formats to the test's cancel line |
| LedgerScenarios.TestAddFields | pitch_volume_analysis/tests/test_analyzer.py:59-64 | the fields of the test's add record are the eight columns of its line, and its symbol is "SH" |
| LedgerScenarios.TestAddLineParses | pitch_volume_analysis/tests/test_analyzer.py:59-64 | `parse_order_message` of the test's literal add line gives eight fields with symbol "SH", and strip and decode give the same |
| LedgerScenarios.TestAddThenCancel | pitch_volume_analysis/tests/test_analyzer.py:73-85 | the test's add line followed by its cancel line leaves order "AK27GA0000DT" out of the ledger and "SH" in the volume table |
| AnalyzerClass.Analyzer.constructor | pitch_volume_analysis/core/analyzer.py:11-16 | a new analyzer has empty tables and the path it was given |
| AnalyzerClass.Analyzer.TrackSymbol | pitch_volume_analysis/core/analyzer.py:221-227 | updates the fields as `LedgerFacts.TrackSymbolEnters` describes; no volume decreases and the insertion order is kept |
| AnalyzerClass.Analyzer.SetSharesLeft | pitch_volume_analysis/core/analyzer.py:185-189 | the ledger becomes the deduction; the volume table is unchanged |
| AnalyzerClass.Analyzer.Cancel | pitch_volume_analysis/core/analyzer.py:180-189 | the cancel branch, with the model's state and exception |
| AnalyzerClass.Analyzer.Execute | pitch_volume_analysis/core/analyzer.py:191-215 | the execute and trade branches, with the model's state and exception, including the credit before a failing `int()` |
| AnalyzerClass.Analyzer.UpdateLedgerShares | pitch_volume_analysis/core/analyzer.py:172-215 | `update_ledger_shares`, with the model's state and exception |
| AnalyzerClass.Analyzer.CreditTrade | pitch_volume_analysis/core/analyzer.py:162-164 | the trade of an unknown order, with the model's state and exception |
| AnalyzerClass.Analyzer.ComputeMessage | pitch_volume_analysis/core/analyzer.py:155-170 | `compute_message`, with the model's state and exception |
| AnalyzerClass.Analyzer.ProcessLine | pitch_volume_analysis/core/analyzer.py:22-36 | one iteration of the event loop, with the model's state and exception; no volume decreases, the insertion order is kept, and from consistent tables no KeyError is raised |
| AnalyzerClass.Analyzer.ReadFile | pitch_volume_analysis/core/analyzer.py:18-51 | the event loop ends in the model run's state and exception; no volume decreases; the insertion order is kept; from consistent tables it never raises KeyError |
| AnalyzerClass.Analyzer.GetTopTenSymbols | pitch_volume_analysis/core/analyzer.py:234-242 | the ten symbols of largest volume, in descending order of volume, ties in insertion order |
| SymbolModel.SharesAt | pitch_volume_analysis/core/symbol_analyzer.py:146 | `int(message[k])`: IndexError when the field is missing, ValueError when it is not a number |
| SymbolModel.StoredShares | pitch_volume_analysis/core/symbol_analyzer.py:157 | `int(old_message[4])`: IndexError when the field is missing, otherwise the field's value |
| SymbolModel.Enter | pitch_volume_analysis/core/symbol_analyzer.py:142-150 | block one of `compute_message`; specified by `SymbolFacts.HandleEntersOnlyTracked`, `SymbolFacts.TrackedAddEnters` and `SymbolFacts.TrackedTradeCredits` |
| SymbolModel.Fill | pitch_volume_analysis/core/symbol_analyzer.py:167-190 | the execute and trade cases of block two; specified by `SymbolFacts.StoredExecutionFills` and `SymbolFacts.StoredTradeFills` |
| SymbolModel.Update | pitch_volume_analysis/core/symbol_analyzer.py:153-190 | block two of `compute_message`; specified by `SymbolFacts.StoredCancelDeducts` and the two lemmas above |
| SymbolModel.ComputeMessage | pitch_volume_analysis/core/symbol_analyzer.py:137-190 | both blocks in sequence; specified by `SymbolFacts.HandleGrows` and `SymbolFacts.HandleKeepsOwnOrders` |
| SymbolModel.Handle | pitch_volume_analysis/core/symbol_analyzer.py:24-33 | skips a message whose symbol cannot be read, otherwise computes it; specified by `SymbolFacts.HandleEntersOnlyTracked` and `SymbolFacts.UnknownOtherOrderIgnored` |
| SymbolModel.ProcessLine | pitch_volume_analysis/core/symbol_analyzer.py:24-33 | one line of the event loop; specified by `SymbolFacts.ProcessLineHandles` |
| SymbolModel.Run | pitch_volume_analysis/core/symbol_analyzer.py:19-33 | the event loop over all lines, stopping at the first exception; specified by `SymbolFacts.RunGrows`, `SymbolFacts.RunKeepsOwnOrders`, `SymbolFacts.RunAppend` and `SymbolFacts.RunHaltsAtFirstFault` |
| SymbolFacts.HandleEntersOnlyTracked | pitch_volume_analysis/core/symbol_analyzer.py:142-150 | only an add of the tracked symbol for an unknown order enters the ledger; no other order is touched |
| SymbolFacts.HandleKeepsOwnOrders | pitch_volume_analysis/core/symbol_analyzer.py:137-190 | the ledger holds only orders of the tracked symbol, and every message keeps it so |
| SymbolFacts.HandleGrows | pitch_volume_analysis/core/symbol_analyzer.py:137-190 | no message lowers the volume |
| SymbolFacts.UnknownOtherOrderIgnored | pitch_volume_analysis/core/symbol_analyzer.py:142-153 | a message for an unknown order of another symbol changes nothing |
| SymbolFacts.TrackedAddEnters | pitch_volume_analysis/core/symbol_analyzer.py:148-150 | an add of the tracked symbol stores the order and moves no volume |
| SymbolFacts.TrackedTradeCredits | pitch_volume_analysis/core/symbol_analyzer.py:144-147 | a trade of the tracked symbol for an unknown order credits its shares once, or raises ValueError |
| SymbolFacts.StoredExecutionFills | pitch_volume_analysis/core/symbol_analyzer.py:167-178 | an execution of a stored order credits its shares and deducts them; the credit remains when the stored shares are not a number |
| SymbolFacts.StoredTradeFills | pitch_volume_analysis/core/symbol_analyzer.py:179-190 | a trade of a stored order credits and deducts like an execution, whatever symbol it names |
| SymbolFacts.StoredCancelDeducts | pitch_volume_analysis/core/symbol_analyzer.py:156-166 | a cancel of a stored order deducts its shares and moves no volume |
| SymbolFacts.ProcessLineHandles | pitch_volume_analysis/core/symbol_analyzer.py:24-33 | a line too short for its type raises IndexError; otherwise its decoded message is handled |
| SymbolFacts.RunGrows | pitch_volume_analysis/core/symbol_analyzer.py:19-33 | over any run the volume never decreases |
| SymbolFacts.RunKeepsOwnOrders | pitch_volume_analysis/core/symbol_analyzer.py:19-33 | a run from a ledger holding only orders of the tracked symbol keeps it so |
| SymbolFacts.RunAppend | pitch_volume_analysis/core/symbol_analyzer.py:22-33 | reading two stretches of lines in a row is reading their concatenation, unless the first raised |
| SymbolFacts.RunHaltsAtFirstFault | pitch_volume_analysis/core/symbol_analyzer.py:22-33 | once a line raises, the lines after it change nothing |
| SymbolFacts.StartOwnsNothing | pitch_volume_analysis/core/symbol_analyzer.py:12-13 | the initial tracker has an empty ledger and volume 0 |
| SymbolAnalyzerClass.SymbolAnalyzer.constructor | pitch_volume_analysis/core/symbol_analyzer.py:10-17 | a new analyzer tracks the given symbol from an empty ledger and volume 0 |
| SymbolAnalyzerClass.SymbolAnalyzer.SetSharesLeft | pitch_volume_analysis/core/symbol_analyzer.py:158-166 | the ledger becomes the deduction; the volume is unchanged |
| SymbolAnalyzerClass.SymbolAnalyzer.Fill | pitch_volume_analysis/core/symbol_analyzer.py:167-190 | the execute and trade cases, with the model's state and exception |
| SymbolAnalyzerClass.SymbolAnalyzer.ComputeMessage | pitch_volume_analysis/core/symbol_analyzer.py:137-190 | both blocks of `compute_message`, with the model's state and exception |
| SymbolAnalyzerClass.SymbolAnalyzer.ProcessLine | pitch_volume_analysis/core/symbol_analyzer.py:24-33 | one iteration of the event loop, with the model's state and exception |
| SymbolAnalyzerClass.SymbolAnalyzer.ReadFile | pitch_volume_analysis/core/symbol_analyzer.py:19-33 | the event loop ends in the model run's state and exception; the volume never decreases; a ledger holding only orders of the tracked symbol keeps it so |

## Left out

- File I/O: `read_file` opens `dataset_path` and iterates over its lines. In the model the lines are a parameter of `ReadFile`, and `datasetPath` is a field that nothing reads. The FileNotFoundError re-raise at analyzer.py:38-39 is not modelled.
- Process exit: `Analyzer.read_file` handles IndexError and ValueError (and any other exception) by printing and calling `sys.exit(1)` (analyzer.py:40-51). The model ends the run with that exception as its fault. `SymbolAnalyzer.read_file` has no handler, and its exceptions end the run the same way.
- Console output: `print_ledger`, `print_symbols`, `print_stock_volume`, the prints inside `compute_message` and the one in `get_top_ten_symbols` write only to the console. `GetTopTenSymbols` returns the ranked items instead of printing them.
- `main.py`, the command-line driver, is not part of this model.
- AnalyzerClass.Analyzer.constructor: `ledger` and `symbol_book` are class attributes in the source, so every `Analyzer` shares the same two dicts. The model gives each object its own tables, starting empty.
- SymbolAnalyzerClass.SymbolAnalyzer.constructor: `ledger` is a class attribute shared by every `SymbolAnalyzer`. The model gives each object its own ledger and a volume starting at 0.
- Aliasing: the source stores the message list itself in the ledger and changes field 4 of that list in place. The model stores a copy, which is the same as long as the caller does not keep the list.
- Python.ParseInt: `int()` also accepts a sign, surrounding whitespace, underscores between digits and non-ASCII decimal digits. The model accepts only non-empty runs of ASCII digits and raises ValueError for everything else, so the monotonicity results hold only for unsigned share fields; in the source a signed share field such as `-00005` lowers a volume.
- Orders.IntText: inherits the same restriction from `Python.ParseInt`.
- SymbolAnalyzerClass.SymbolAnalyzer.constructor: the tracked symbol is a string. The class attribute's default of `None` is not modelled. With `None`, the source would enter every E and X message of an unknown order into the ledger, since their symbol is also `None`.
- Exceptions outside the three modelled ones (IndexError, KeyError, ValueError) cannot arise in the modelled code and are not modelled.
- Tests: the repository's tests appear only as the scenario lemmas `LedgerScenarios.Test*`. `test_get_top_ten_symbols` (test_analyzer.py:88-89) has an empty body and states nothing. `test_read_file_can_open_file_unsuccessfully` concerns file I/O. `get_entries` (test_analyzer.py:20-22) also lists the cancel line `S28800181X1K27GA00000Y000100`. No test reads it, so it has no scenario of its own.
- The test add line `S28800011AAK27GA0000DTS000100SH    0000619200Y` has order id `AK27GA0000DT` (columns 10-22), side `S` and 100 shares, as the code slices it. The model follows the code.
- Ranking ties: Python's `sorted` is stable, so symbols of equal volume keep the table's insertion order. The model proves exactly that (`Ranking.SortIsStable`, `Ranking.TopTenKeepsEarliest`) and adds no secondary key such as the symbol name.
