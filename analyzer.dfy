/** The all-symbols analyzer as an object: its ledger and volume table are
    fields that each step of the event loop updates in place. Every method
    is proved to leave the object in the state, and to raise the exception,
    that the value model of the same step gives. */
module AnalyzerClass {
  import opened Python
  import opened Pitch
  import opened Orders
  import opened LedgerModel
  import LedgerFacts
  import Ranking

  class Analyzer {
    /** The path of the input file; the file's lines are passed to
        `ReadFile`. */
    var datasetPath: string
    /** Order id to stored message. */
    var ledger: map<string, Message>
    /** Symbol to cumulative volume (`symbol_book`). */
    var volumes: map<string, int>
    /** The keys of `volumes` in insertion order. */
    var symbols: seq<string>

    /** The object's tables as a value of the model. */
    function State(): Book
      reads this
    {
      Book(ledger, volumes, symbols)
    }

    constructor(datasetPath: string)
      ensures this.datasetPath == datasetPath
      ensures State() == Empty() && Valid(State()) && Closed(State())
    {
      this.datasetPath := datasetPath;
      ledger := map[];
      volumes := map[];
      symbols := [];
      new;
      LedgerFacts.EmptyIsClosedAndValid();
    }

    /** `track_symbol`. */
    method TrackSymbol(message: seq<string>) returns (fault: Option<Fault>)
      modifies this
      ensures Outcome(State(), fault) == LedgerModel.TrackSymbol(old(State()), message)
      ensures Grows(old(State()), State())
      ensures Valid(old(State())) ==> Valid(State())
      ensures datasetPath == old(datasetPath)
    {
      LedgerFacts.TrackSymbolEnters(State(), message);
      if |message| <= 5 {
        return Some(IndexError);
      }
      var symbol := message[5];
      if symbol !in volumes {
        volumes := volumes[symbol := 0];
        symbols := symbols + [symbol];
      }
      return None;
    }

    /** Sets the shares left of order `id`, deleting it when none are
        left. */
    method SetSharesLeft(id: string, stored: Message, left: int)
      requires |stored| > 4
      modifies this
      ensures ledger == Deduct(old(ledger), id, stored, left)
      ensures volumes == old(volumes) && symbols == old(symbols) && datasetPath == old(datasetPath)
    {
      if left == 0 {
        ledger := ledger - {id};
      } else {
        ledger := ledger[id := stored[4 := Count(left)]];
      }
    }

    /** The cancel branch of `update_ledger_shares`. */
    method Cancel(message: seq<string>, id: string, stored: Message) returns (fault: Option<Fault>)
      requires |stored| > 5
      modifies this
      ensures Outcome(State(), fault) == LedgerModel.Cancel(old(State()), message, id, stored)
      ensures datasetPath == old(datasetPath)
    {
      if |message| <= 3 {
        return Some(IndexError);
      }
      var canceled := message[3];
      var shares := IntField(stored[4]);
      if shares.Fail? {
        return Some(shares.fault);
      }
      var n := IntText(canceled);
      if n.Fail? {
        return Some(n.fault);
      }
      SetSharesLeft(id, stored, shares.value - n.value);
      return None;
    }

    /** The execute and trade branches of `update_ledger_shares`: the volume
        of `key` is credited with field `k` of the message before the stored
        shares are read. */
    method Execute(message: seq<string>, id: string, stored: Message, key: Option<string>, k: nat)
      returns (fault: Option<Fault>)
      requires |stored| > 5
      modifies this
      ensures Outcome(State(), fault) == LedgerModel.Execute(old(State()), message, id, stored, key, k)
      ensures datasetPath == old(datasetPath)
    {
      if |message| <= k {
        return Some(IndexError);
      }
      var executed := message[k];
      if key.None? || key.value !in volumes {
        return Some(KeyError);
      }
      var current := volumes[key.value];
      var n := IntText(executed);
      if n.Fail? {
        return Some(n.fault);
      }
      volumes := volumes[key.value := current + n.value];
      var shares := IntField(stored[4]);
      if shares.Fail? {
        return Some(shares.fault);
      }
      SetSharesLeft(id, stored, shares.value - n.value);
      return None;
    }

    /** `update_ledger_shares` for an order in the ledger. */
    method UpdateLedgerShares(message: seq<string>, tag: char, symbol: Option<string>, id: string)
      returns (fault: Option<Fault>)
      requires id in ledger
      modifies this
      ensures Outcome(State(), fault)
        == LedgerModel.UpdateLedgerShares(old(State()), message, tag, symbol, id)
      ensures datasetPath == old(datasetPath)
    {
      var stored := ledger[id];
      if |stored| <= 5 {
        return Some(IndexError);
      }
      var oldSymbol := stored[5];
      if tag == 'X' {
        fault := Cancel(message, id, stored);
      } else if tag == 'E' {
        fault := Execute(message, id, stored, SymbolKey(oldSymbol), 3);
      } else if tag == 'P' {
        fault := Execute(message, id, stored, symbol, 4);
      } else {
        fault := None;
      }
    }

    /** The trade of an order not in the ledger. */
    method CreditTrade(message: seq<string>, symbol: Option<string>) returns (fault: Option<Fault>)
      modifies this
      ensures Outcome(State(), fault) == LedgerModel.CreditTrade(old(State()), message, symbol)
      ensures datasetPath == old(datasetPath)
    {
      if symbol.None? || symbol.value !in volumes {
        return Some(KeyError);
      }
      var current := volumes[symbol.value];
      if |message| <= 4 {
        return Some(IndexError);
      }
      var n := IntText(message[4]);
      if n.Fail? {
        return Some(n.fault);
      }
      volumes := volumes[symbol.value := current + n.value];
      return None;
    }

    /** `compute_message`. */
    method ComputeMessage(message: seq<string>, tag: char, symbol: Option<string>)
      returns (fault: Option<Fault>)
      modifies this
      ensures Outcome(State(), fault) == LedgerModel.ComputeMessage(old(State()), message, tag, symbol)
      ensures datasetPath == old(datasetPath)
    {
      if |message| <= 2 {
        return Some(IndexError);
      }
      var id := message[2];
      if id !in ledger {
        if tag == 'P' {
          fault := CreditTrade(message, symbol);
        } else {
          ledger := ledger[id := Stored(message)];
          fault := None;
        }
      } else {
        fault := UpdateLedgerShares(message, tag, symbol, id);
      }
    }

    /** The body of the event loop for one line. A message whose symbol
        cannot be read is skipped. No volume decreases, the symbol list
        stays the table's insertion order, and from consistent tables no
        KeyError is raised. */
    method ProcessLine(line: string) returns (fault: Option<Fault>)
      modifies this
      ensures Outcome(State(), fault) == LedgerModel.ProcessLine(old(State()), line)
      ensures Grows(old(State()), State())
      ensures Valid(old(State())) ==> Valid(State())
      ensures Closed(old(State())) ==> fault != Some(KeyError) && Closed(State())
      ensures datasetPath == old(datasetPath)
    {
      ghost var start := State();
      LedgerFacts.ProcessLineGrows(start, line);
      if Closed(start) {
        LedgerFacts.ProcessLineKeepsClosed(start, line);
      }
      var decoded := Decode(line);
      if decoded.Fail? {
        return Some(decoded.fault);
      }
      var (tag, message) := decoded.value;
      var symbol := GetMessageSymbol(message, tag);
      if symbol.Fail? {
        return None;
      }
      if tag != 'X' && tag != 'E' {
        fault := TrackSymbol(message);
        if fault.Some? {
          return;
        }
      }
      fault := ComputeMessage(message, tag, symbol.value);
    }

    /** `read_file` over the lines of the file: the loop stops at the first
        exception, leaving the tables as the lines before it left them. The
        volume of a symbol never decreases, the symbol list stays the
        table's insertion order, and a run from closed tables never raises
        KeyError. */
    method ReadFile(lines: seq<string>) returns (fault: Option<Fault>)
      modifies this
      ensures Outcome(State(), fault) == Run(old(State()), lines)
      ensures Grows(old(State()), State())
      ensures Valid(old(State())) ==> Valid(State())
      ensures Closed(old(State())) ==> fault != Some(KeyError) && Closed(State())
      ensures datasetPath == old(datasetPath)
    {
      ghost var start := State();
      fault := None;
      var i := 0;
      while i < |lines| && fault.None?
        invariant 0 <= i <= |lines|
        invariant Outcome(State(), fault) == Run(start, lines[..i])
        invariant datasetPath == old(datasetPath)
      {
        LedgerFacts.RunNext(start, lines, i);
        fault := ProcessLine(lines[i]);
        i := i + 1;
      }
      if fault.Some? {
        LedgerFacts.RunStopsAt(start, lines, i);
      } else {
        assert lines[..i] == lines;
      }
      LedgerFacts.RunGrows(start, lines);
      if Closed(start) {
        LedgerFacts.RunNeverRaisesKeyError(start, lines);
      }
    }

    /** `get_top_ten_symbols`: the ten symbols of largest volume, ties in
        order of first appearance. */
    method GetTopTenSymbols() returns (top: seq<Ranking.Item>)
      requires Valid(State())
      ensures top == TopTenSymbols(State())
      ensures |top| == Min(10, |symbols|) && Ranking.Descending(top)
      ensures forall i :: 0 <= i < |top| ==> top[i].0 in volumes && top[i].1 == volumes[top[i].0]
    {
      top := Ranking.TopTen(Items(State()));
    }
  }
}
