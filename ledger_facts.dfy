/** What the all-symbols analyzer guarantees: volumes only grow, the symbol
    order stays the table's insertion order, a run fed its own lines never
    looks up a missing symbol, the first exception ends the run, and the
    life of an order (added, executed in parts, canceled, traded) moves the
    volume table as the exchange reports it. */
module LedgerFacts {
  import opened Python
  import opened Pitch
  import opened Orders
  import opened LedgerModel

  lemma GrowsTransitive(a: Book, b: Book, c: Book)
    requires Grows(a, b) && Grows(b, c)
    ensures Grows(a, c)
  {
  }

  /** `track_symbol` enters the symbol of field 5 with volume zero unless
      it is already there, keeping the symbol list the table's insertion
      order; without a field 5 it raises IndexError and changes nothing. */
  lemma TrackSymbolEnters(b: Book, message: seq<string>)
    ensures var r := TrackSymbol(b, message);
      && (r.fault.None? <==> |message| > 5)
      && (r.fault.Some? ==> r == Halt(b, IndexError))
      && (r.fault.None? ==> message[5] in r.state.volumes)
      && (r.fault.None? && message[5] !in b.volumes ==>
            r.state.volumes == b.volumes[message[5] := 0] && r.state.symbols == b.symbols + [message[5]])
      && (r.fault.None? && message[5] in b.volumes ==> r.state == b)
      && r.state.ledger == b.ledger
      && Grows(b, r.state)
      && (Valid(b) ==> Valid(r.state))
  {
  }

  /** `compute_message` never enters a symbol and never takes volume away;
      it raises IndexError without a field 2; it enters an unknown order
      with its message unless the message is a trade; and for a known order
      whose stored message has no field 5 it raises IndexError. */
  lemma ComputeMessageKeepsTable(b: Book, message: seq<string>, tag: char, symbol: Option<string>)
    ensures var r := ComputeMessage(b, message, tag, symbol);
      && r.state.symbols == b.symbols && Grows(b, r.state)
      && r.state.volumes.Keys == b.volumes.Keys
      && (|message| <= 2 ==> r == Halt(b, IndexError))
      && (|message| > 2 && message[2] !in b.ledger && tag != 'P' ==>
            r == Done(b.(ledger := b.ledger[message[2] := Stored(message)])))
      && (|message| > 2 && message[2] in b.ledger && |b.ledger[message[2]]| <= 5 ==>
            r == Halt(b, IndexError))
      && ((|message| > 2 && message[2] in b.ledger && |b.ledger[message[2]]| > 5
           && tag != 'X' && tag != 'E' && tag != 'P') ==> r == Done(b))
  {
  }

  /** A line that does not decode raises IndexError; a line of no known
      layout is skipped. */
  lemma ProcessLineSkipsUnknown(b: Book, line: string)
    ensures Decode(line).Fail? ==> ProcessLine(b, line) == Halt(b, IndexError)
    ensures Decode(line).Ok? && !HasLayout(Decode(line).value.0) ==> ProcessLine(b, line) == Done(b)
  {
  }

  /** One message never takes volume away from a symbol, and keeps the
      symbol list the volume table's insertion order. */
  lemma HandleGrows(b: Book, tag: char, message: seq<string>)
    ensures Grows(b, Handle(b, tag, message).state)
    ensures Valid(b) ==> Valid(Handle(b, tag, message).state)
  {
    if GetMessageSymbol(message, tag).Ok? {
      var symbol := GetMessageSymbol(message, tag).value;
      if tag != 'X' && tag != 'E' {
        var t := TrackSymbol(b, message);
        TrackSymbolEnters(b, message);
        if t.fault.None? {
          ComputeMessageKeepsTable(t.state, message, tag, symbol);
          GrowsTransitive(b, t.state, ComputeMessage(t.state, message, tag, symbol).state);
        }
      } else {
        ComputeMessageKeepsTable(b, message, tag, symbol);
      }
    }
  }

  /** One line never takes volume away from a symbol, and keeps the symbol
      list the volume table's insertion order. */
  lemma ProcessLineGrows(b: Book, line: string)
    ensures Grows(b, ProcessLine(b, line).state)
    ensures Valid(b) ==> Valid(ProcessLine(b, line).state)
  {
    if Decode(line).Ok? {
      HandleGrows(b, Decode(line).value.0, Decode(line).value.1);
    }
  }

  /** Over a whole run the volume of every symbol only grows, and the symbol
      list stays the table's insertion order. */
  lemma {:induction false} RunGrows(b: Book, lines: seq<string>)
    ensures Grows(b, Run(b, lines).state)
    ensures Valid(b) ==> Valid(Run(b, lines).state)
  {
    if lines != [] {
      var prev := Run(b, lines[..|lines| - 1]);
      RunGrows(b, lines[..|lines| - 1]);
      if prev.fault.None? {
        ProcessLineGrows(prev.state, lines[|lines| - 1]);
        GrowsTransitive(b, prev.state, Run(b, lines).state);
      }
    }
  }

  /** Running two stretches of input in a row is running their
      concatenation: the second stretch starts from where the first left
      off, unless the first ended in an exception. */
  lemma {:induction false} RunAppend(b: Book, xs: seq<string>, ys: seq<string>)
    ensures Run(b, xs + ys) ==
      if Run(b, xs).fault.Some? then Run(b, xs) else Run(Run(b, xs).state, ys)
  {
    if ys == [] {
      assert xs + ys == xs;
    } else {
      assert (xs + ys)[..|xs + ys| - 1] == xs + ys[..|ys| - 1];
      assert (xs + ys)[|xs + ys| - 1] == ys[|ys| - 1];
      RunAppend(b, xs, ys[..|ys| - 1]);
    }
  }

  /** The first exception ends the program: nothing after it is read. */
  lemma RunHaltsAtFirstFault(b: Book, xs: seq<string>, ys: seq<string>)
    requires Run(b, xs).fault.Some?
    ensures Run(b, xs + ys) == Run(b, xs)
  {
    RunAppend(b, xs, ys);
  }

  /** A run that has not raised after `i` lines goes on with line `i`. */
  lemma RunNext(b: Book, lines: seq<string>, i: nat)
    requires i < |lines| && Run(b, lines[..i]).fault.None?
    ensures Run(b, lines[..i + 1]) == ProcessLine(Run(b, lines[..i]).state, lines[i])
  {
    assert lines[..i + 1][..i] == lines[..i];
  }

  /** A run that raised within its first `i` lines ends there. */
  lemma RunStopsAt(b: Book, lines: seq<string>, i: nat)
    requires i <= |lines| && Run(b, lines[..i]).fault.Some?
    ensures Run(b, lines) == Run(b, lines[..i])
  {
    var xs, ys := lines[..i], lines[i..];
    assert xs + ys == lines;
    RunHaltsAtFirstFault(b, xs, ys);
  }

  /** Entering the symbol of a message a second time changes nothing. */
  lemma TrackSymbolIdempotent(b: Book, message: seq<string>)
    requires TrackSymbol(b, message).fault.None?
    ensures TrackSymbol(TrackSymbol(b, message).state, message) == TrackSymbol(b, message)
  {
  }

  /** A cancel message never moves any volume, whether or not the order is
      known and whether or not it raises. */
  lemma CancelMovesNoVolume(b: Book, message: seq<string>, symbol: Option<string>)
    ensures ComputeMessage(b, message, 'X', symbol).state.volumes == b.volumes
  {
  }

  /** A stored message with a symbol and a share count, and an execution of
      `n` shares against it: the volume of the stored symbol grows by `n`
      and no other changes, even when the stored share count turns out not
      to be a number (which raises ValueError after the credit). Otherwise
      the order is deleted exactly when no shares remain, and keeps the
      remainder as its share count when some do. */
  lemma ExecutionCreditsStoredSymbol(b: Book, message: seq<string>, symbol: Option<string>)
    requires |message| > 3 && message[2] in b.ledger
    requires var stored := b.ledger[message[2]];
      |stored| > 5 && stored[5].Text? && stored[5].text in b.volumes
    requires IntText(message[3]).Ok?
    ensures var r := ComputeMessage(b, message, 'E', symbol);
      var id, stored, n := message[2], b.ledger[message[2]], IntText(message[3]).value;
      var s := stored[5].text;
      && r.state.volumes == b.volumes[s := b.volumes[s] + n]
      && (r.fault.None? <==> IntField(stored[4]).Ok?)
      && (r.fault.Some? ==> r.fault == Some(ValueError) && r.state.ledger == b.ledger)
      && (r.fault.None? ==>
            var left := IntField(stored[4]).value - n;
            && (id in r.state.ledger <==> left != 0)
            && (left != 0 ==> r.state.ledger[id] == stored[4 := Count(left)])
            && (forall o :: o in b.ledger && o != id ==> o in r.state.ledger && r.state.ledger[o] == b.ledger[o]))
  {
  }

  /** A trade against a stored order credits the trade's own symbol with its
      `n` shares, with the same ending as an execution. */
  lemma TradeOfStoredOrderCredits(b: Book, message: seq<string>, s: string)
    requires |message| > 4 && message[2] in b.ledger && |b.ledger[message[2]]| > 5
    requires s in b.volumes && IntText(message[4]).Ok?
    ensures var r := ComputeMessage(b, message, 'P', Some(s));
      var id, stored, n := message[2], b.ledger[message[2]], IntText(message[4]).value;
      && r.state.volumes == b.volumes[s := b.volumes[s] + n]
      && (r.fault.None? <==> IntField(stored[4]).Ok?)
      && (r.fault.Some? ==> r.fault == Some(ValueError) && r.state.ledger == b.ledger)
      && (r.fault.None? ==>
            var left := IntField(stored[4]).value - n;
            && (id in r.state.ledger <==> left != 0)
            && (left != 0 ==> r.state.ledger[id] == stored[4 := Count(left)])
            && (forall o :: o in b.ledger && o != id ==> o in r.state.ledger && r.state.ledger[o] == b.ledger[o]))
  {
  }

  /** A trade of an order the ledger does not know credits its symbol and
      does not enter the order. */
  lemma TradeOfUnknownOrderCredits(b: Book, message: seq<string>, s: string)
    requires |message| > 4 && message[2] !in b.ledger
    requires s in b.volumes && IntText(message[4]).Ok?
    ensures ComputeMessage(b, message, 'P', Some(s))
      == Done(b.(volumes := b.volumes[s := b.volumes[s] + IntText(message[4]).value]))
  {
  }

  /** An execution or a cancel of an order the ledger does not know is
      entered into the ledger as if it were a new order. Its message has no
      field 5, so every later message about the same order id raises
      IndexError. */
  lemma UnknownOrderUpdateIsStored(b: Book, message: seq<string>, tag: char, later: seq<string>,
                                   laterTag: char, laterSymbol: Option<string>)
    requires tag == 'E' || tag == 'X'
    requires |message| == FieldCount(tag) && message[2] !in b.ledger
    requires |later| > 2 && later[2] == message[2]
    ensures var c := ComputeMessage(b, message, tag, None);
      && c == Done(b.(ledger := b.ledger[message[2] := Stored(message)]))
      && ComputeMessage(c.state, later, laterTag, laterSymbol) == Halt(c.state, IndexError)
  {
  }

  /** Every message with a symbol field of the right layout, after its
      symbol is entered, keeps the ledger closed and never raises KeyError:
      a stored message's symbol and a trade's symbol are always in the
      table. */
  lemma ComputeKeepsClosed(b: Book, message: seq<string>, tag: char, symbol: Option<string>)
    requires Closed(b)
    requires |message| > 5 ==> message[5] in b.volumes
    requires tag == 'P' ==> symbol.Some? && symbol.value in b.volumes
    ensures ComputeMessage(b, message, tag, symbol).fault != Some(KeyError)
    ensures Closed(ComputeMessage(b, message, tag, symbol).state)
  {
    var r := ComputeMessage(b, message, tag, symbol);
    if |message| > 2 {
      var id := message[2];
      if id in b.ledger && |b.ledger[id]| > 5 && (tag == 'X' || tag == 'E' || tag == 'P') {
        var stored := b.ledger[id];
        assert r.state.volumes.Keys == b.volumes.Keys;
        forall o | o in r.state.ledger && |r.state.ledger[o]| > 5
          ensures r.state.ledger[o][5].Text? && r.state.ledger[o][5].text in r.state.volumes
        {
          if o != id {
            assert r.state.ledger[o] == b.ledger[o];
          } else {
            assert r.state.ledger[o][5] == stored[5];
          }
        }
      }
    }
  }

  /** A decoded message keeps the ledger closed and never raises
      KeyError. */
  lemma HandleKeepsClosed(b: Book, tag: char, message: seq<string>)
    requires Closed(b) && |message| == FieldCount(tag)
    ensures Handle(b, tag, message).fault != Some(KeyError)
    ensures Closed(Handle(b, tag, message).state)
  {
    if GetMessageSymbol(message, tag).Ok? {
      var symbol := GetMessageSymbol(message, tag).value;
      if tag != 'X' && tag != 'E' {
        var t := TrackSymbol(b, message);
        if t.fault.None? {
          ComputeKeepsClosed(t.state, message, tag, symbol);
        }
      } else {
        ComputeKeepsClosed(b, message, tag, symbol);
      }
    }
  }

  /** A line keeps the ledger closed and never raises KeyError. */
  lemma ProcessLineKeepsClosed(b: Book, line: string)
    requires Closed(b)
    ensures ProcessLine(b, line).fault != Some(KeyError)
    ensures Closed(ProcessLine(b, line).state)
  {
    if Decode(line).Ok? {
      HandleKeepsClosed(b, Decode(line).value.0, Decode(line).value.1);
    }
  }

  /** A run from a closed book, such as the empty one, never raises
      KeyError: every symbol the analyzer looks up was entered before. */
  lemma {:induction false} RunNeverRaisesKeyError(b: Book, lines: seq<string>)
    requires Closed(b)
    ensures Run(b, lines).fault != Some(KeyError)
    ensures Closed(Run(b, lines).state)
  {
    if lines != [] {
      RunNeverRaisesKeyError(b, lines[..|lines| - 1]);
      var prev := Run(b, lines[..|lines| - 1]);
      if prev.fault.None? {
        ProcessLineKeepsClosed(prev.state, lines[|lines| - 1]);
      }
    }
  }

  lemma EmptyIsClosedAndValid()
    ensures Closed(Empty()) && Valid(Empty())
  {
  }
}
