/** The in-memory record store: an ordered, mutable list of records with
    append, update-by-index and delete-by-index. */
module Database {
  import opened Records

  /** The records a fresh store starts with. */
  const Seed: seq<Record> := ["record1", "record2", "record3"]

  /** What a successful delete gives: the removed record and the records left. */
  datatype Removal = Removal(removed: Record, rest: seq<Record>)

  /** The update-by-index the store performs, on its contents `s`: position
      `index` becomes `record` when the guard holds, the error otherwise. */
  function Update(s: seq<Record>, index: int, record: Record): (r: Result<seq<Record>>)
    ensures r.Ok? <==> InRange(index, |s|)
    ensures r.Err? ==> r.error == OutOfRange
    ensures r.Ok? ==> |r.value| == |s| && r.value[index] == record
    ensures r.Ok? ==> forall k :: 0 <= k < |s| && k != index ==> r.value[k] == s[k]
  {
    if 0 <= index < |s| then Ok(s[index := record]) else Err(OutOfRange)
  }

  /** The delete-by-index the store performs, on its contents `s`: the record
      at `index` is removed and returned, and the later records move one
      place to the left. */
  function Delete(s: seq<Record>, index: int): (r: Result<Removal>)
    ensures r.Ok? <==> InRange(index, |s|)
    ensures r.Err? ==> r.error == OutOfRange
    ensures r.Ok? ==> r.value.removed == s[index] && |r.value.rest| == |s| - 1
    ensures r.Ok? ==> forall k :: 0 <= k < index ==> r.value.rest[k] == s[k]
    ensures r.Ok? ==> forall k :: index <= k < |r.value.rest| ==> r.value.rest[k] == s[k + 1]
  {
    if 0 <= index < |s| then Ok(Removal(s[index], s[..index] + s[index + 1..])) else Err(OutOfRange)
  }

  /** Putting the removed record back at its position restores the store. */
  lemma DeleteThenReinsert(s: seq<Record>, index: int)
    requires InRange(index, |s|)
    ensures var d := Delete(s, index).value;
            d.rest[..index] + [d.removed] + d.rest[index..] == s
  {
  }

  /** A delete loses exactly the removed record: nothing else is dropped
      or duplicated. */
  lemma DeletePermutes(s: seq<Record>, index: int)
    requires InRange(index, |s|)
    ensures var d := Delete(s, index).value;
            multiset(d.rest) + multiset{d.removed} == multiset(s)
  {
    assert s == s[..index] + [s[index]] + s[index + 1..];
  }

  /** An update swaps one occurrence of the old record for the new one. */
  lemma UpdatePermutes(s: seq<Record>, index: int, record: Record)
    requires InRange(index, |s|)
    ensures multiset(Update(s, index, record).value) + multiset{s[index]}
            == multiset(s) + multiset{record}
  {
  }

  /** Writing the old record back at the same index undoes an update. */
  lemma UpdateThenRestore(s: seq<Record>, index: int, record: Record)
    requires InRange(index, |s|)
    ensures Update(Update(s, index, record).value, index, s[index]) == Ok(s)
  {
    var u := Update(Update(s, index, record).value, index, s[index]).value;
    assert u == s;
  }

  /** Deleting the last record after an append undoes the append. */
  lemma AppendThenDeleteLast(s: seq<Record>, record: Record)
    ensures Delete(s + [record], |s|) == Ok(Removal(record, s))
  {
    var t := s + [record];
    assert t[..|s|] + t[|s| + 1..] == s;
  }

  /** The store itself. Its contents are the field `data`; what a method
      returns is a snapshot of it, not an alias. */
  class DbModule {
    var data: seq<Record>

    constructor ()
      ensures data == Seed
    {
      data := Seed;
    }

    /** All records, in order. */
    method GetData() returns (r: seq<Record>)
      ensures r == data
    {
      r := data;
    }

    /** Appends `record` and returns the new contents. */
    method AddRecord(record: Record) returns (r: seq<Record>)
      modifies this
      ensures data == old(data) + [record]
      ensures r == data
    {
      data := data + [record];
      r := data;
    }

    /** Replaces the record at `index` and returns the new contents; an
        out-of-range index raises and changes nothing. */
    method UpdateRecord(index: int, record: Record) returns (r: Result<seq<Record>>)
      modifies this
      ensures r == Update(old(data), index, record)
      ensures data == if r.Ok? then r.value else old(data)
    {
      if 0 <= index < |data| {
        data := data[index := record];
        r := Ok(data);
      } else {
        r := Err(OutOfRange);
      }
    }

    /** Removes and returns the record at `index`; an out-of-range index
        raises and changes nothing. */
    method DeleteRecord(index: int) returns (r: Result<Record>)
      modifies this
      ensures match Delete(old(data), index)
              case Ok(d) => r == Ok(d.removed) && data == d.rest
              case Err(e) => r == Err(e) && data == old(data)
    {
      if 0 <= index < |data| {
        var removed := data[index];
        data := data[..index] + data[index + 1..];
        r := Ok(removed);
      } else {
        r := Err(OutOfRange);
      }
    }
  }
}
