/** What the single-symbol analyzer promises: only orders of its symbol
    enter its ledger, executions and trades are the only things that add
    volume, and the volume never decreases over a run. */
module SymbolFacts {
  import opened Python
  import opened Pitch
  import opened Orders
  import opened SymbolModel

  /** A message enters at most its own order, and only when it is an add
      of the tracked symbol; every other order keeps its stored message or
      is the message's own order. */
  lemma HandleEntersOnlyTracked(t: Tracker, symbol: string, tag: char, message: seq<string>)
    ensures var r := Handle(t, symbol, tag, message).state;
      && (forall id :: id in r.ledger && id !in t.ledger ==>
            |message| > 5 && id == message[2] && message[5] == symbol
            && tag != 'E' && tag != 'X' && tag != 'P' && r.ledger[id] == Stored(message))
      && (forall id :: id in t.ledger && (|message| <= 2 || id != message[2]) ==>
            id in r.ledger && r.ledger[id] == t.ledger[id])
  {
  }

  /** The ledger holds only orders of the tracked symbol, and a message
      keeps it so. */
  lemma HandleKeepsOwnOrders(t: Tracker, symbol: string, tag: char, message: seq<string>)
    requires OwnOrders(t, symbol)
    ensures OwnOrders(Handle(t, symbol, tag, message).state, symbol)
  {
    var r := Handle(t, symbol, tag, message).state;
    HandleEntersOnlyTracked(t, symbol, tag, message);
    forall id | id in r.ledger
      ensures |r.ledger[id]| > 5 && r.ledger[id][5] == Text(symbol)
    {
      if id in t.ledger && |message| > 2 && id == message[2] && r.ledger[id] != t.ledger[id] {
        assert |t.ledger[id]| > 5;
      }
    }
  }

  /** A message never takes volume away. */
  lemma HandleGrows(t: Tracker, symbol: string, tag: char, message: seq<string>)
    ensures Handle(t, symbol, tag, message).state.volume >= t.volume
  {
  }

  /** An order the ledger does not know, whose symbol is not the tracked
      one, changes nothing: in particular an execution or cancel of an
      unknown order is ignored. */
  lemma UnknownOtherOrderIgnored(t: Tracker, symbol: string, tag: char, message: seq<string>)
    requires |message| > 2 && message[2] !in t.ledger
    requires GetMessageSymbol(message, tag) != Ok(Some(symbol))
    ensures Handle(t, symbol, tag, message) == Done(t)
  {
  }

  /** An add of the tracked symbol for an order the ledger does not know
      enters it with its message, and the second block leaves it alone. */
  lemma TrackedAddEnters(t: Tracker, symbol: string, tag: char, message: seq<string>)
    requires tag != 'E' && tag != 'X' && tag != 'P'
    requires |message| > 5 && message[5] == symbol && message[2] !in t.ledger
    ensures Handle(t, symbol, tag, message) == Done(t.(ledger := t.ledger[message[2] := Stored(message)]))
  {
  }

  /** A trade of the tracked symbol for an order the ledger does not know
      adds its shares to the volume once, and leaves the ledger alone; a
      trade whose shares are not a number raises ValueError first. */
  lemma TrackedTradeCredits(t: Tracker, symbol: string, message: seq<string>)
    requires |message| > 5 && message[5] == symbol && message[2] !in t.ledger
    ensures var r := Handle(t, symbol, 'P', message);
      match IntText(message[4])
      case Ok(n) => r == Done(t.(volume := t.volume + n))
      case Fail(_) => r == Halt(t, ValueError)
  {
  }

  /** An execution of a stored order credits its shares and deducts them
      from the order, deleting it when none are left. The credit happens
      even when the stored shares are not a number, which then raises. */
  lemma StoredExecutionFills(t: Tracker, symbol: string, message: seq<string>, n: nat)
    requires |message| > 3 && message[2] in t.ledger && IntText(message[3]) == Ok(n)
    requires |t.ledger[message[2]]| > 4
    ensures var r := Handle(t, symbol, 'E', message);
      var id, stored := message[2], t.ledger[message[2]];
      match IntField(stored[4])
      case Ok(m) => r == Done(Tracker(Deduct(t.ledger, id, stored, m - n), t.volume + n))
      case Fail(f) => r == Halt(t.(volume := t.volume + n), f)
  {
  }

  /** A trade of a stored order credits and deducts like an execution,
      whatever symbol the trade names. */
  lemma StoredTradeFills(t: Tracker, symbol: string, message: seq<string>, n: nat, m: int)
    requires |message| > 5 && message[2] in t.ledger && IntText(message[4]) == Ok(n)
    requires |t.ledger[message[2]]| > 4 && IntField(t.ledger[message[2]][4]) == Ok(m)
    ensures var id, stored := message[2], t.ledger[message[2]];
      Handle(t, symbol, 'P', message) == Done(Tracker(Deduct(t.ledger, id, stored, m - n), t.volume + n))
  {
  }

  /** A cancel of a stored order deducts its shares and moves no volume. */
  lemma StoredCancelDeducts(t: Tracker, symbol: string, message: seq<string>, n: nat, m: int)
    requires |message| > 3 && message[2] in t.ledger && IntText(message[3]) == Ok(n)
    requires |t.ledger[message[2]]| > 4 && IntField(t.ledger[message[2]][4]) == Ok(m)
    ensures var id, stored := message[2], t.ledger[message[2]];
      Handle(t, symbol, 'X', message) == Done(t.(ledger := Deduct(t.ledger, id, stored, m - n)))
  {
  }

  /** One line: a line that does not decode raises IndexError; otherwise
      the decoded message is handled. */
  lemma ProcessLineHandles(t: Tracker, symbol: string, line: string)
    ensures Decode(line).Fail? ==> ProcessLine(t, symbol, line) == Halt(t, IndexError)
    ensures Decode(line).Ok? ==>
      ProcessLine(t, symbol, line) == Handle(t, symbol, Decode(line).value.0, Decode(line).value.1)
  {
  }

  /** Over a run the volume never decreases. */
  lemma {:induction false} RunGrows(t: Tracker, symbol: string, lines: seq<string>)
    ensures Run(t, symbol, lines).state.volume >= t.volume
  {
    if lines != [] {
      var prev := Run(t, symbol, lines[..|lines| - 1]);
      RunGrows(t, symbol, lines[..|lines| - 1]);
      if prev.fault.None? {
        var line := lines[|lines| - 1];
        if Decode(line).Ok? {
          HandleGrows(prev.state, symbol, Decode(line).value.0, Decode(line).value.1);
        }
      }
    }
  }

  /** Over a run the ledger holds only orders of the tracked symbol. */
  lemma {:induction false} RunKeepsOwnOrders(t: Tracker, symbol: string, lines: seq<string>)
    requires OwnOrders(t, symbol)
    ensures OwnOrders(Run(t, symbol, lines).state, symbol)
  {
    if lines != [] {
      var prev := Run(t, symbol, lines[..|lines| - 1]);
      RunKeepsOwnOrders(t, symbol, lines[..|lines| - 1]);
      if prev.fault.None? {
        var line := lines[|lines| - 1];
        if Decode(line).Ok? {
          HandleKeepsOwnOrders(prev.state, symbol, Decode(line).value.0, Decode(line).value.1);
        }
      }
    }
  }

  /** A run that has not raised after `i` lines goes on with line `i`. */
  lemma RunNext(t: Tracker, symbol: string, lines: seq<string>, i: nat)
    requires i < |lines| && Run(t, symbol, lines[..i]).fault.None?
    ensures Run(t, symbol, lines[..i + 1]) == ProcessLine(Run(t, symbol, lines[..i]).state, symbol, lines[i])
  {
    assert lines[..i + 1][..i] == lines[..i];
  }

  /** Running two stretches of input in a row is running their
      concatenation, unless the first raised. */
  lemma {:induction false} RunAppend(t: Tracker, symbol: string, xs: seq<string>, ys: seq<string>)
    ensures Run(t, symbol, xs + ys) ==
      if Run(t, symbol, xs).fault.Some? then Run(t, symbol, xs) else Run(Run(t, symbol, xs).state, symbol, ys)
  {
    if ys == [] {
      assert xs + ys == xs;
    } else {
      var zs := ys[..|ys| - 1];
      assert (xs + ys)[..|xs + ys| - 1] == xs + zs;
      assert (xs + ys)[|xs + ys| - 1] == ys[|ys| - 1];
      RunAppend(t, symbol, xs, zs);
    }
  }

  /** Once a run has raised, the lines after it change nothing. */
  lemma RunHaltsAtFirstFault(t: Tracker, symbol: string, xs: seq<string>, ys: seq<string>)
    requires Run(t, symbol, xs).fault.Some?
    ensures Run(t, symbol, xs + ys) == Run(t, symbol, xs)
  {
    RunAppend(t, symbol, xs, ys);
  }

  /** A run that raised within its first `i` lines ends there. */
  lemma {:induction false} RunStopsAt(t: Tracker, symbol: string, lines: seq<string>, i: nat)
    requires i <= |lines| && Run(t, symbol, lines[..i]).fault.Some?
    ensures Run(t, symbol, lines) == Run(t, symbol, lines[..i])
  {
    if i == |lines| {
      assert lines[..i] == lines;
    } else {
      var init := lines[..|lines| - 1];
      assert init[..i] == lines[..i];
      RunStopsAt(t, symbol, init, i);
    }
  }

  lemma StartOwnsNothing(symbol: string)
    ensures OwnOrders(Start(), symbol) && Start().volume == 0
  {
  }
}
