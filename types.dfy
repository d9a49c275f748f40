/** Data shapes shared by the pages: the API envelope, paged listings,
    wanted-person summaries and field reports. */
module Types {

  datatype Option<+T> = None | Some(value: T)
  {
    function GetOr(default: T): T
    {
      match this
      case Some(v) => v
      case None => default
    }
  }

  /** How a page's load settled: the request threw, or it resolved and the
      page takes the envelope's `data`, which the server may send as null. */
  datatype Load<T> = Threw | Settled(data: Option<T>)

  /** The `type` field of every API envelope. */
  datatype ResponseType = Success | Warn | Error

  /** The API envelope: a payload, a list of human-readable messages and a kind. */
  datatype ApiResponse<T> = ApiResponse(data: T, message: seq<string>, kind: ResponseType)

  /** A page of a listing. The pages read the rows as `items`. */
  datatype PagedResult<T> = PagedResult(totalCount: nat, items: seq<T>)

  /** The fields of a listed wanted person that the pages use. */
  datatype WantedPersonSummary = WantedPersonSummary(id: int, title: string)

  /** Processing status of a field report, numbered 0, 1, 2 on the wire. */
  datatype ReportStatus = Pending | Completed | Failed

  /** A field report as listed on the reports dashboard. */
  datatype ReportItem = ReportItem(id: int, name: string, wantedId: int, status: ReportStatus)

  function StatusCode(s: ReportStatus): (code: nat)
    ensures code <= 2
  {
    match s
    case Pending => 0
    case Completed => 1
    case Failed => 2
  }

  function StatusOfCode(code: int): (s: Option<ReportStatus>)
    ensures s.Some? <==> 0 <= code <= 2
  {
    if code == 0 then Some(Pending)
    else if code == 1 then Some(Completed)
    else if code == 2 then Some(Failed)
    else None
  }

  /** The wire numbering is a bijection between the statuses and 0..2. */
  lemma StatusCodeRoundTrip(s: ReportStatus, code: int)
    ensures StatusOfCode(StatusCode(s)) == Some(s)
    ensures 0 <= code <= 2 ==> StatusCode(StatusOfCode(code).value) == code
  {
  }
}
