/** Ledger entries, as both analyzers keep them: the decoded message of the
    order, a list whose field 4 (the shares) is overwritten by the number of
    shares left once the order is partly executed or canceled. */
module Orders {
  import opened Python

  /** One element of a stored message. The decoder yields strings; an update
      writes the remaining shares back into field 4 as an integer. */
  datatype Field = Text(text: string) | Count(count: int)

  type Message = seq<Field>

  /** A decoded message as the ledger stores it. */
  function Stored(message: seq<string>): (m: Message)
    ensures |m| == |message|
    ensures forall k :: 0 <= k < |m| ==> m[k] == Text(message[k])
  {
    seq(|message|, k requires 0 <= k < |message| => Text(message[k]))
  }

  /** `int(s)` for a string: ValueError unless it is a run of digits. */
  function IntText(s: string): (r: Result<nat>)
    ensures r.Ok? <==> ParseInt(s).Some?
    ensures r.Ok? ==> r.value == ParseInt(s).value
    ensures r.Fail? ==> r.fault == ValueError
  {
    match ParseInt(s)
    case Some(n) => Ok(n)
    case None => Fail(ValueError)
  }

  /** `int(f)` for a stored field: an integer is itself, a string is
      parsed. */
  function IntField(f: Field): (r: Result<int>)
    ensures f.Count? ==> r == Ok(f.count)
    ensures f.Text? ==> (r.Ok? <==> ParseInt(f.text).Some?)
    ensures f.Text? && r.Ok? ==> r.value == ParseInt(f.text).value
  {
    match f
    case Text(s) =>
      var n :- IntText(s);
      Ok(n)
    case Count(n) => Ok(n)
  }

  /** The key a field finds in a dictionary keyed by symbol strings: only a
      string field can be such a key. */
  function SymbolKey(f: Field): (r: Option<string>)
    ensures r.Some? <==> f.Text?
    ensures f.Text? ==> r.value == f.text
  {
    if f.Text? then Some(f.text) else None
  }

  /** The ledger once `left` shares remain of order `id`, whose entry is
      `entry`: the order is deleted exactly when nothing is left, and
      otherwise keeps its entry with field 4 replaced by the remainder, which
      may be negative; every other order is untouched. */
  function Deduct(ledger: map<string, Message>, id: string, entry: Message, left: int)
    : (r: map<string, Message>)
    requires |entry| > 4
    ensures id in r <==> left != 0
    ensures id in r ==> r[id] == entry[4 := Count(left)]
    ensures forall k :: k in ledger && k != id ==> k in r && r[k] == ledger[k]
    ensures forall k :: k in r ==> k == id || k in ledger
  {
    if left == 0 then ledger - {id} else ledger[id := entry[4 := Count(left)]]
  }

  /** Deducting keeps every field of the entry but field 4. */
  lemma DeductKeepsOtherFields(ledger: map<string, Message>, id: string, entry: Message, left: int, k: nat)
    requires |entry| > 4 && k < |entry| && k != 4 && left != 0
    ensures id in Deduct(ledger, id, entry, left)
    ensures |Deduct(ledger, id, entry, left)[id]| == |entry|
    ensures Deduct(ledger, id, entry, left)[id][k] == entry[k]
  {
  }
}
