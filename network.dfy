/** The simulated remote API. It holds no state and always answers with the
    same fixed responses; the lines it writes to the console are not modelled. */
module Network {
  import opened Records

  /** The answer to a fetch: a status code and the remote records. */
  datatype FetchResponse = FetchResponse(status: int, data: seq<Record>)

  /** The answer to a post or a remote update. */
  datatype Response = Response(status: int, message: string)

  /** The records the remote side always holds. */
  const ApiRecords: seq<Record> := ["api_record1", "api_record2"]

  /** A fetch always succeeds with status 200 and the two remote records. */
  function FetchData(): (r: FetchResponse)
    ensures r.status == 200 && r.data == ApiRecords && |r.data| == 2
  {
    FetchResponse(200, ApiRecords)
  }

  /** A post is always acknowledged with 201 "Created", whatever the payload. */
  function PostData(payload: seq<Record>): (r: Response)
    ensures r.status == 201 && r.message == "Created"
  {
    Response(201, "Created")
  }

  /** A remote update is always acknowledged with 200 "Updated"; the record
      id is not checked against any remote state. */
  function UpdateRemote(recordId: int, data: Record): (r: Response)
    ensures r.status == 200 && r.message == "Updated"
  {
    Response(200, "Updated")
  }
}
