/** The business logic: combines the local store with the remote stub,
    synchronises them, and updates a record on both sides. */
module UseCases {
  import opened Records
  import Decimal
  import opened Database
  import opened Network

  /** What `process_data` returns: local then remote records, and a summary. */
  datatype Processed = Processed(combinedData: seq<Record>, summary: string)

  /** What `update_record_both` returns: the store after the update and the
      remote acknowledgement. */
  datatype BothResult = BothResult(local: seq<Record>, remote: Response)

  /** The summary is this text followed by the decimal count of combined records. */
  const SummaryPrefix: string := "Combined data count: "

  /** A summary that starts with the prefix and continues with the canonical
      decimal text of `n` is exactly the prefix followed by the rendering of `n`. */
  lemma SummaryDeterminedByCount(summary: string, n: nat)
    requires |summary| > |SummaryPrefix| && summary[..|SummaryPrefix|] == SummaryPrefix
    requires Decimal.IsCanonical(summary[|SummaryPrefix|..])
    requires Decimal.ValueOf(summary[|SummaryPrefix|..]) == n
    ensures summary == SummaryPrefix + Decimal.Render(n)
  {
    Decimal.RenderValueOf(summary[|SummaryPrefix|..]);
    assert summary == summary[..|SummaryPrefix|] + summary[|SummaryPrefix|..];
  }

  /** The paired update on store contents `s`: the local update first, and
      the remote one only when the local one succeeded, with the local index
      used as the remote record id. */
  function UpdateBoth(s: seq<Record>, index: int, newRecord: Record): (r: Result<BothResult>)
    ensures r.Ok? <==> InRange(index, |s|)
    ensures r.Err? ==> Update(s, index, newRecord) == Err(r.error) && r.error == OutOfRange
    ensures r.Ok? ==> Update(s, index, newRecord) == Ok(r.value.local)
    ensures r.Ok? ==> r.value.local[index] == newRecord
    ensures r.Ok? ==> r.value.remote == UpdateRemote(index, newRecord) && r.value.remote.status == 200
  {
    match Update(s, index, newRecord)
    case Err(e) => Err(e)
    case Ok(local) => Ok(BothResult(local, UpdateRemote(index, newRecord)))
  }

  class UseCaseModule {
    const db: DbModule

    constructor (db: DbModule)
      ensures this.db == db
    {
      this.db := db;
    }

    /** Local records followed by the fetched remote records, and a summary
        naming their number. Reads the store and changes nothing. */
    function ProcessData(): (p: Processed)
      reads db
      ensures |p.combinedData| == |db.data| + |FetchData().data|
      ensures p.combinedData[..|db.data|] == db.data
      ensures p.combinedData[|db.data|..] == FetchData().data
      ensures |p.summary| > |SummaryPrefix| && p.summary[..|SummaryPrefix|] == SummaryPrefix
      ensures Decimal.IsCanonical(p.summary[|SummaryPrefix|..])
      ensures Decimal.ValueOf(p.summary[|SummaryPrefix|..]) == |p.combinedData|
    {
      var combined := db.data + FetchData().data;
      var summary := SummaryPrefix + Decimal.Render(|combined|);
      Decimal.ValueOfRender(|combined|);
      assert summary[|SummaryPrefix|..] == Decimal.Render(|combined|);
      Processed(combined, summary)
    }

    /** Posts the combined records and hands back the post's response. */
    function SyncData(): (r: Response)
      reads db
      ensures r == PostData(ProcessData().combinedData)
      ensures r.status == 201 && r.message == "Created"
    {
      var processed := ProcessData();
      PostData(processed.combinedData)
    }

    /** Updates the record at `index` locally and then remotely. When the
        local update raises, the error propagates, the store is unchanged
        and the remote update is not reached. */
    method UpdateRecordBoth(index: int, newRecord: Record) returns (r: Result<BothResult>)
      modifies db
      ensures r == UpdateBoth(old(db.data), index, newRecord)
      ensures db.data == if r.Ok? then r.value.local else old(db.data)
    {
      var updated := db.UpdateRecord(index, newRecord);
      if updated.Err? {
        r := Err(updated.error);
        return;
      }
      var remote := UpdateRemote(index, newRecord);
      r := Ok(BothResult(updated.value, remote));
    }
  }

  /** The values the demonstration script displays, in order. */
  datatype Transcript = Transcript(
    initial: Processed,
    afterAdd: Processed,
    update: Result<BothResult>,
    sync: Response,
    removed: Result<Record>,
    final: Processed)

  /** The demonstration script: wire the layers together, add "record4",
      update index 1 on both sides, synchronise, delete index 0, and collect
      every value it would display. */
  method RunMain() returns (t: Transcript)
    ensures t.initial == Processed(
      ["record1", "record2", "record3", "api_record1", "api_record2"],
      "Combined data count: 5")
    ensures t.afterAdd == Processed(
      ["record1", "record2", "record3", "record4", "api_record1", "api_record2"],
      "Combined data count: 6")
    ensures t.update == Ok(BothResult(
      ["record1", "updated_record2", "record3", "record4"], Response(200, "Updated")))
    ensures t.sync == Response(201, "Created")
    ensures t.removed == Ok("record1")
    ensures t.final == Processed(
      ["updated_record2", "record3", "record4", "api_record1", "api_record2"],
      "Combined data count: 5")
  {
    var db := new DbModule();
    var useCase := new UseCaseModule(db);
    var initial := useCase.ProcessData();
    SummaryDeterminedByCount(initial.summary, 5);
    assert initial.combinedData == initial.combinedData[..3] + initial.combinedData[3..];

    var _ := db.AddRecord("record4");
    var afterAdd := useCase.ProcessData();
    SummaryDeterminedByCount(afterAdd.summary, 6);
    assert afterAdd.combinedData == afterAdd.combinedData[..4] + afterAdd.combinedData[4..];

    var update := useCase.UpdateRecordBoth(1, "updated_record2");
    assert db.data == ["record1", "updated_record2", "record3", "record4"];
    var sync := useCase.SyncData();

    var removed := db.DeleteRecord(0);
    var final := useCase.ProcessData();
    SummaryDeterminedByCount(final.summary, 5);
    assert final.combinedData == final.combinedData[..3] + final.combinedData[3..];

    t := Transcript(initial, afterAdd, update, sync, removed, final);
  }
}
