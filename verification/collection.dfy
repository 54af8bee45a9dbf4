/** What `findAndUpdate` does to a record collection: every record the key
    filter selects is replaced by the callback's result, in place; every
    other record, the order and the count are kept. */
module Collection {

  function FindAndUpdate<T>(records: seq<T>, selected: T -> bool, update: T -> T): (r: seq<T>)
    ensures |r| == |records|
    ensures forall i :: 0 <= i < |records| && selected(records[i]) ==> r[i] == update(records[i])
    ensures forall i :: 0 <= i < |records| && !selected(records[i]) ==> r[i] == records[i]
  {
    if records == [] then []
    else [if selected(records[0]) then update(records[0]) else records[0]]
         + FindAndUpdate(records[1..], selected, update)
  }

  /** When the callback keeps the key and is idempotent on selected records,
      running the same update twice leaves the collection as running it once. */
  lemma FindAndUpdateTwice<T>(records: seq<T>, selected: T -> bool, update: T -> T)
    requires forall x :: selected(update(x)) == selected(x)
    requires forall x :: selected(x) ==> update(update(x)) == update(x)
    ensures FindAndUpdate(FindAndUpdate(records, selected, update), selected, update)
         == FindAndUpdate(records, selected, update)
  {
    var once := FindAndUpdate(records, selected, update);
    var twice := FindAndUpdate(once, selected, update);
    forall i | 0 <= i < |records|
      ensures twice[i] == once[i]
    {
      if selected(records[i]) {
        assert selected(once[i]);
      }
    }
  }

  /** A callback that changes no selected record leaves the collection as it was. */
  lemma FindAndUpdateNoop<T>(records: seq<T>, selected: T -> bool, update: T -> T)
    requires forall x :: selected(x) ==> update(x) == x
    ensures FindAndUpdate(records, selected, update) == records
  {
  }

  /** A property every record has, and that the callback preserves, still
      holds of every record afterwards. */
  lemma FindAndUpdatePreserves<T>(records: seq<T>, selected: T -> bool, update: T -> T, inv: T -> bool)
    requires forall i :: 0 <= i < |records| ==> inv(records[i])
    requires forall x :: inv(x) ==> inv(update(x))
    ensures forall i :: 0 <= i < |records| ==> inv(FindAndUpdate(records, selected, update)[i])
  {
  }
}
