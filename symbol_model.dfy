/** The single-symbol analyzer as values: the ledger of the orders of one
    symbol and that symbol's cumulative volume, and the effect of each step
    of its event loop on them. It shares the line decoder of the
    all-symbols analyzer but tracks no symbol table, and its message step
    runs two blocks one after the other: the first enters an order of the
    tracked symbol that the ledger does not know, the second updates an
    order the ledger knows, whatever its symbol. */
module SymbolModel {
  import opened Python
  import opened Pitch
  import opened Orders

  /** `ledger` maps an order id to its stored message; `volume` is the
      tracked symbol's cumulative volume (`stock_volume`). */
  datatype Tracker = Tracker(ledger: map<string, Message>, volume: int)

  function Start(): Tracker {
    Tracker(map[], 0)
  }

  /** Every stored order is an order of `symbol`. */
  predicate OwnOrders(t: Tracker, symbol: string) {
    forall id :: id in t.ledger ==> |t.ledger[id]| > 5 && t.ledger[id][5] == Text(symbol)
  }

  /** `int(message[k])`. */
  function SharesAt(message: seq<string>, k: nat): (r: Result<nat>)
    ensures r.Ok? ==> k < |message| && IntText(message[k]) == Ok(r.value)
    ensures r.Fail? ==> (k >= |message| && r.fault == IndexError) || (k < |message| && r == IntText(message[k]))
  {
    var s :- At(message, k);
    IntText(s)
  }

  /** `int(old_message[4])` for a stored message. */
  function StoredShares(stored: Message): (r: Result<int>)
    ensures r.Ok? ==> |stored| > 4 && IntField(stored[4]) == r
    ensures |stored| <= 4 ==> r == Fail(IndexError)
    ensures |stored| > 4 && IntField(stored[4]).Fail? ==> r == IntField(stored[4])
  {
    var f :- At(stored, 4);
    IntField(f)
  }

  /** The first block of `compute_message` for order `id`: an order the
      ledger does not know whose symbol is the tracked one is entered, or,
      for a trade, only credited. */
  function Enter(t: Tracker, symbol: string, message: seq<string>, tag: char, messageSymbol: Option<string>,
                 id: string): Outcome<Tracker>
  {
    if id !in t.ledger && messageSymbol == Some(symbol) then
      if tag == 'P' then
        match SharesAt(message, 4)
        case Fail(f) => Halt(t, f)
        case Ok(n) => Done(t.(volume := t.volume + n))
      else Done(t.(ledger := t.ledger[id := Stored(message)]))
    else Done(t)
  }

  /** The execute and trade cases of the second block: the volume is
      credited with field `k` of the message before the stored shares are
      read. */
  function Fill(t: Tracker, message: seq<string>, id: string, stored: Message, k: nat): Outcome<Tracker>
  {
    match SharesAt(message, k)
    case Fail(f) => Halt(t, f)
    case Ok(n) =>
      var credited := t.(volume := t.volume + n);
      match StoredShares(stored)
      case Fail(f) => Halt(credited, f)
      case Ok(shares) => Done(credited.(ledger := Deduct(t.ledger, id, stored, shares - n)))
  }

  /** The second block of `compute_message`: an order in the ledger is
      canceled, executed or traded; other messages leave it alone. */
  function Update(t: Tracker, message: seq<string>, tag: char, id: string): Outcome<Tracker>
  {
    if id !in t.ledger then Done(t)
    else
      var stored := t.ledger[id];
      if tag == 'X' then
        match StoredShares(stored)
        case Fail(f) => Halt(t, f)
        case Ok(shares) =>
          match SharesAt(message, 3)
          case Fail(f) => Halt(t, f)
          case Ok(n) => Done(t.(ledger := Deduct(t.ledger, id, stored, shares - n)))
      else if tag == 'E' then Fill(t, message, id, stored, 3)
      else if tag == 'P' then Fill(t, message, id, stored, 4)
      else Done(t)
  }

  /** `compute_message`: both blocks, the second seeing what the first
      did. */
  function ComputeMessage(t: Tracker, symbol: string, message: seq<string>, tag: char,
                          messageSymbol: Option<string>): Outcome<Tracker>
  {
    match At(message, 2)
    case Fail(f) => Halt(t, f)
    case Ok(id) =>
      var e := Enter(t, symbol, message, tag, messageSymbol, id);
      if e.fault.Some? then e else Update(e.state, message, tag, id)
  }

  /** One decoded message: a message whose symbol cannot be read is
      skipped. */
  function Handle(t: Tracker, symbol: string, tag: char, message: seq<string>): Outcome<Tracker>
  {
    match GetMessageSymbol(message, tag)
    case Fail(_) => Done(t)
    case Ok(messageSymbol) => ComputeMessage(t, symbol, message, tag, messageSymbol)
  }

  /** One line of the input. */
  function ProcessLine(t: Tracker, symbol: string, line: string): Outcome<Tracker>
  {
    match Decode(line)
    case Fail(f) => Halt(t, f)
    case Ok((tag, message)) => Handle(t, symbol, tag, message)
  }

  /** The event loop: the first exception ends the run. */
  function Run(t: Tracker, symbol: string, lines: seq<string>): Outcome<Tracker>
  {
    if lines == [] then Done(t)
    else
      var prev := Run(t, symbol, lines[..|lines| - 1]);
      if prev.fault.Some? then prev else ProcessLine(prev.state, symbol, lines[|lines| - 1])
  }
}
