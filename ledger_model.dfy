/** The state of the all-symbols analyzer and the effect of each step of its
    event loop on it, as values: the order ledger, the volume of every
    symbol seen, and the order in which the symbols were first seen (the
    symbol dictionary's insertion order, which decides ties in the
    ranking). */
module LedgerModel {
  import opened Python
  import opened Pitch
  import opened Orders
  import Ranking

  /** `ledger` maps an order id to its stored message; `volumes` maps a
      symbol to its cumulative volume; `symbols` lists the symbols of
      `volumes` in the order they were entered. */
  datatype Book = Book(ledger: map<string, Message>, volumes: map<string, int>, symbols: seq<string>)

  function Empty(): Book {
    Book(map[], map[], [])
  }

  /** The symbol list is the insertion order of the volume table: it lists
      every key of the table exactly once. */
  predicate Valid(b: Book) {
    && (forall i, j :: 0 <= i < j < |b.symbols| ==> b.symbols[i] != b.symbols[j])
    && (forall s :: s in b.volumes ==> s in b.symbols)
    && (forall i :: 0 <= i < |b.symbols| ==> b.symbols[i] in b.volumes)
  }

  /** The volume table's items, in insertion order. */
  function Items(b: Book): (r: seq<Ranking.Item>)
    requires Valid(b)
    ensures |r| == |b.symbols|
    ensures forall i :: 0 <= i < |r| ==> r[i] == (b.symbols[i], b.volumes[b.symbols[i]])
  {
    seq(|b.symbols|, i requires 0 <= i < |b.symbols| && b.symbols[i] in b.volumes =>
      (b.symbols[i], b.volumes[b.symbols[i]]))
  }

  /** No symbol loses volume or disappears from `b` to `c`. */
  predicate Grows(b: Book, c: Book) {
    forall s :: s in b.volumes ==> s in c.volumes && c.volumes[s] >= b.volumes[s]
  }

  /** Every stored message that has a symbol field holds, as field 5, a
      symbol of the volume table. */
  predicate Closed(b: Book) {
    forall id :: id in b.ledger && |b.ledger[id]| > 5 ==>
      b.ledger[id][5].Text? && b.ledger[id][5].text in b.volumes
  }

  /** `symbol_book[key]`: KeyError unless `key` is a symbol of the table. */
  function Volume(volumes: map<string, int>, key: Option<string>): (r: Result<int>)
    ensures r.Ok? <==> key.Some? && key.value in volumes
    ensures r.Ok? ==> r.value == volumes[key.value]
    ensures r.Fail? ==> r.fault == KeyError
  {
    if key.Some? && key.value in volumes then Ok(volumes[key.value]) else Fail(KeyError)
  }

  /** `track_symbol`: enters the symbol of field 5 with volume zero unless it
      is already there; IndexError when the message has no field 5. */
  function TrackSymbol(b: Book, message: seq<string>): Outcome<Book>
  {
    match At(message, 5)
    case Fail(f) => Halt(b, f)
    case Ok(symbol) =>
      if symbol in b.volumes then Done(b)
      else Done(b.(volumes := b.volumes[symbol := 0], symbols := b.symbols + [symbol]))
  }

  /** The cancel branch of `update_ledger_shares` for order `id`, whose
      stored message is `stored`. */
  function Cancel(b: Book, message: seq<string>, id: string, stored: Message): Outcome<Book>
    requires |stored| > 5
  {
    match At(message, 3)
    case Fail(f) => Halt(b, f)
    case Ok(canceled) =>
      match IntField(stored[4])
      case Fail(f) => Halt(b, f)
      case Ok(shares) =>
        match IntText(canceled)
        case Fail(f) => Halt(b, f)
        case Ok(n) => Done(b.(ledger := Deduct(b.ledger, id, stored, shares - n)))
  }

  /** The execute and trade branches of `update_ledger_shares`: field `k` of
      the message holds the shares executed, `key` is the symbol to credit.
      The volume is credited before the stored shares are read, so a stored
      shares field that is not a number raises after the credit. */
  function Execute(b: Book, message: seq<string>, id: string, stored: Message, key: Option<string>, k: nat)
    : Outcome<Book>
    requires |stored| > 5
  {
    match At(message, k)
    case Fail(f) => Halt(b, f)
    case Ok(executed) =>
      match Volume(b.volumes, key)
      case Fail(f) => Halt(b, f)
      case Ok(current) =>
        match IntText(executed)
        case Fail(f) => Halt(b, f)
        case Ok(n) =>
          var credited := b.(volumes := b.volumes[key.value := current + n]);
          match IntField(stored[4])
          case Fail(f) => Halt(credited, f)
          case Ok(shares) => Done(credited.(ledger := Deduct(b.ledger, id, stored, shares - n)))
  }

  /** `update_ledger_shares` for an order already in the ledger: field 5 of
      the stored message is read first, so a stored message without one
      raises IndexError whatever the new message is. */
  function UpdateLedgerShares(b: Book, message: seq<string>, tag: char, symbol: Option<string>, id: string)
    : Outcome<Book>
    requires id in b.ledger
  {
    var stored := b.ledger[id];
    match At(stored, 5)
    case Fail(f) => Halt(b, f)
    case Ok(oldSymbol) =>
      if tag == 'X' then Cancel(b, message, id, stored)
      else if tag == 'E' then Execute(b, message, id, stored, SymbolKey(oldSymbol), 3)
      else if tag == 'P' then Execute(b, message, id, stored, symbol, 4)
      else Done(b)
  }

  /** A trade of an order not in the ledger adds its shares to the volume of
      its symbol and leaves the ledger alone. */
  function CreditTrade(b: Book, message: seq<string>, symbol: Option<string>): Outcome<Book>
  {
    match Volume(b.volumes, symbol)
    case Fail(f) => Halt(b, f)
    case Ok(current) =>
      match At(message, 4)
      case Fail(f) => Halt(b, f)
      case Ok(shares) =>
        match IntText(shares)
        case Fail(f) => Halt(b, f)
        case Ok(n) => Done(b.(volumes := b.volumes[symbol.value := current + n]))
  }

  /** `compute_message`: an order not yet in the ledger is entered, except a
      trade, which only credits volume; an order in the ledger is
      updated. */
  function ComputeMessage(b: Book, message: seq<string>, tag: char, symbol: Option<string>)
    : Outcome<Book>
  {
    match At(message, 2)
    case Fail(f) => Halt(b, f)
    case Ok(id) =>
      if id !in b.ledger then
        if tag == 'P' then CreditTrade(b, message, symbol)
        else Done(b.(ledger := b.ledger[id := Stored(message)]))
      else UpdateLedgerShares(b, message, tag, symbol, id)
  }

  /** The body of the event loop once the symbol of the message is known:
      every message with a symbol has it tracked before it is computed. */
  function Apply(b: Book, message: seq<string>, tag: char, symbol: Option<string>): Outcome<Book>
  {
    if tag != 'X' && tag != 'E' then
      var t := TrackSymbol(b, message);
      if t.fault.Some? then t else ComputeMessage(t.state, message, tag, symbol)
    else ComputeMessage(b, message, tag, symbol)
  }

  /** One decoded message of tag `tag`: a message whose symbol cannot be
      read is skipped, leaving everything as it was. */
  function Handle(b: Book, tag: char, message: seq<string>): Outcome<Book>
  {
    match GetMessageSymbol(message, tag)
    case Fail(_) => Done(b)
    case Ok(symbol) => Apply(b, message, tag, symbol)
  }

  /** One line of the input: stripped, its tag read, its message decoded,
      then handled. */
  function ProcessLine(b: Book, line: string): Outcome<Book>
  {
    match Decode(line)
    case Fail(f) => Halt(b, f)
    case Ok((tag, message)) => Handle(b, tag, message)
  }

  /** The event loop over the lines of a file: the first exception ends the
      run, keeping the state it left behind. */
  function Run(b: Book, lines: seq<string>): Outcome<Book>
  {
    if lines == [] then Done(b)
    else
      var prev := Run(b, lines[..|lines| - 1]);
      if prev.fault.Some? then prev else ProcessLine(prev.state, lines[|lines| - 1])
  }

  /** `get_top_ten_symbols`: the table's items sorted stably by descending
      volume, cut to ten. */
  function TopTenSymbols(b: Book): (r: seq<Ranking.Item>)
    requires Valid(b)
    ensures |r| == Min(10, |b.symbols|) && Ranking.Descending(r)
    ensures forall i :: 0 <= i < |r| ==> r[i].0 in b.volumes && r[i].1 == b.volumes[r[i].0]
  {
    var r := Ranking.TopTen(Items(b));
    assert forall i :: 0 <= i < |r| ==> r[i] in multiset(Items(b));
    r
  }
}
