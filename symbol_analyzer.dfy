/** The single-symbol analyzer as an object whose ledger and volume are
    fields updated in place, proved against the value model of each step. */
module SymbolAnalyzerClass {
  import opened Python
  import opened Pitch
  import opened Orders
  import opened SymbolModel
  import SymbolFacts

  class SymbolAnalyzer {
    var datasetPath: string
    /** The tracked symbol. */
    var symbol: string
    /** The tracked symbol's cumulative volume (`stock_volume`). */
    var stockVolume: int
    /** Order id to stored message. */
    var ledger: map<string, Message>

    /** The object's ledger and volume as a value of the model. */
    function State(): Tracker
      reads this
    {
      Tracker(ledger, stockVolume)
    }

    constructor(symbol: string, datasetPath: string)
      ensures this.symbol == symbol && this.datasetPath == datasetPath
      ensures State() == Start() && OwnOrders(State(), symbol)
    {
      this.symbol := symbol;
      this.datasetPath := datasetPath;
      stockVolume := 0;
      ledger := map[];
      new;
      SymbolFacts.StartOwnsNothing(symbol);
    }

    /** Sets the shares left of order `id`, deleting it when none are
        left. */
    method SetSharesLeft(id: string, stored: Message, left: int)
      requires |stored| > 4
      modifies this
      ensures ledger == Deduct(old(ledger), id, stored, left)
      ensures stockVolume == old(stockVolume)
      ensures symbol == old(symbol) && datasetPath == old(datasetPath)
    {
      if left == 0 {
        ledger := ledger - {id};
      } else {
        ledger := ledger[id := stored[4 := Count(left)]];
      }
    }

    /** The execute and trade cases of the second block of
        `compute_message`. */
    method Fill(message: seq<string>, id: string, stored: Message, k: nat) returns (fault: Option<Fault>)
      modifies this
      ensures Outcome(State(), fault) == SymbolModel.Fill(old(State()), message, id, stored, k)
      ensures symbol == old(symbol) && datasetPath == old(datasetPath)
    {
      var n := SharesAt(message, k);
      if n.Fail? {
        return Some(n.fault);
      }
      stockVolume := stockVolume + n.value;
      var shares := StoredShares(stored);
      if shares.Fail? {
        return Some(shares.fault);
      }
      SetSharesLeft(id, stored, shares.value - n.value);
      return None;
    }

    /** `compute_message`: the first block enters an unknown order of the
        tracked symbol, the second updates a known order. */
    method ComputeMessage(message: seq<string>, tag: char, messageSymbol: Option<string>)
      returns (fault: Option<Fault>)
      modifies this
      ensures Outcome(State(), fault)
        == SymbolModel.ComputeMessage(old(State()), old(symbol), message, tag, messageSymbol)
      ensures symbol == old(symbol) && datasetPath == old(datasetPath)
    {
      if |message| <= 2 {
        return Some(IndexError);
      }
      var id := message[2];
      if id !in ledger && messageSymbol == Some(symbol) {
        if tag == 'P' {
          var n := SharesAt(message, 4);
          if n.Fail? {
            return Some(n.fault);
          }
          stockVolume := stockVolume + n.value;
        } else {
          ledger := ledger[id := Stored(message)];
        }
      }
      fault := None;
      if id in ledger {
        var stored := ledger[id];
        if tag == 'X' {
          var shares := StoredShares(stored);
          if shares.Fail? {
            return Some(shares.fault);
          }
          var n := SharesAt(message, 3);
          if n.Fail? {
            return Some(n.fault);
          }
          SetSharesLeft(id, stored, shares.value - n.value);
        } else if tag == 'E' {
          fault := Fill(message, id, stored, 3);
        } else if tag == 'P' {
          fault := Fill(message, id, stored, 4);
        }
      }
    }

    /** The body of the event loop for one line. */
    method ProcessLine(line: string) returns (fault: Option<Fault>)
      modifies this
      ensures Outcome(State(), fault) == SymbolModel.ProcessLine(old(State()), old(symbol), line)
      ensures symbol == old(symbol) && datasetPath == old(datasetPath)
    {
      var decoded := Decode(line);
      if decoded.Fail? {
        return Some(decoded.fault);
      }
      var (tag, message) := decoded.value;
      var messageSymbol := GetMessageSymbol(message, tag);
      if messageSymbol.Fail? {
        return None;
      }
      fault := ComputeMessage(message, tag, messageSymbol.value);
    }

    /** `read_file` over the lines of the file: the loop stops at the first
        exception. The volume never decreases, and a ledger holding only
        orders of the tracked symbol keeps doing so. */
    method ReadFile(lines: seq<string>) returns (fault: Option<Fault>)
      modifies this
      ensures Outcome(State(), fault) == Run(old(State()), symbol, lines)
      ensures stockVolume >= old(stockVolume)
      ensures OwnOrders(old(State()), symbol) ==> OwnOrders(State(), symbol)
      ensures symbol == old(symbol) && datasetPath == old(datasetPath)
    {
      ghost var start := State();
      fault := None;
      var i := 0;
      while i < |lines| && fault.None?
        invariant 0 <= i <= |lines|
        invariant Outcome(State(), fault) == Run(start, symbol, lines[..i])
        invariant symbol == old(symbol) && datasetPath == old(datasetPath)
      {
        SymbolFacts.RunNext(start, symbol, lines, i);
        fault := ProcessLine(lines[i]);
        i := i + 1;
      }
      if fault.Some? {
        SymbolFacts.RunStopsAt(start, symbol, lines, i);
      } else {
        assert lines[..i] == lines;
      }
      SymbolFacts.RunGrows(start, symbol, lines);
      if OwnOrders(start, symbol) {
        SymbolFacts.RunKeepsOwnOrders(start, symbol, lines);
      }
    }
  }
}
