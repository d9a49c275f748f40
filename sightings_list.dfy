/** The live sightings feed of one wanted person: the history load, the
    handler for pushed location reports, and the "new" highlight. */
module SightingsList {
  import opened Types

  datatype Sighting = Sighting(
    id: int, lat: real, lng: real, details: string, reportedBy: string,
    timestamp: string, wantedPersonId: int)

  /** The body of the history request: either a bare array or an envelope
      whose `data` may be missing. */
  datatype HistoryResponse = BareList(list: seq<Sighting>) | Envelope(data: Option<seq<Sighting>>)

  /** `Array.isArray(res) ? res : res.data || []`. */
  function NormalizeHistory(res: HistoryResponse): (list: seq<Sighting>)
    ensures res.BareList? ==> list == res.list
    ensures res.Envelope? && res.data.Some? ==> list == res.data.value
    ensures res.Envelope? && res.data.None? ==> list == []
  {
    match res
    case BareList(l) => l
    case Envelope(d) => d.GetOr([])
  }

  /** The list after a pushed report: a report about this person goes in
      front of the others, any other report is ignored. */
  function Incoming(wantedId: int, list: seq<Sighting>, report: Sighting): (r: seq<Sighting>)
    ensures report.wantedPersonId == wantedId ==> |r| == |list| + 1 && r[0] == report && r[1..] == list
    ensures report.wantedPersonId != wantedId ==> r == list
    ensures multiset(r) == multiset(list) + (if report.wantedPersonId == wantedId then multiset{report} else multiset{})
  {
    if report.wantedPersonId == wantedId then [report] + list else list
  }

  /** Nothing is de-duplicated: a report pushed twice is listed twice. */
  lemma DeliveredTwiceListedTwice(wantedId: int, list: seq<Sighting>, report: Sighting)
    requires report.wantedPersonId == wantedId
    ensures multiset(Incoming(wantedId, Incoming(wantedId, list, report), report))[report] == multiset(list)[report] + 2
    ensures Incoming(wantedId, Incoming(wantedId, list, report), report)[..2] == [report, report]
  {
  }

  /** A row is marked new exactly when its id is the highlighted one. */
  predicate IsNew(row: Sighting, highlightId: Option<int>)
    ensures highlightId.None? ==> !IsNew(row, highlightId)
    ensures IsNew(row, highlightId) ==> highlightId == Some(row.id)
  {
    highlightId.Some? && row.id == highlightId.value
  }

  class SightingsFeed {
    const wantedId: int
    var sightings: seq<Sighting>
    var loading: bool
    var highlightId: Option<int>

    constructor (wantedId: int)
      ensures this.wantedId == wantedId && sightings == [] && loading && highlightId == None
    {
      this.wantedId := wantedId;
      sightings := [];
      loading := true;
      highlightId := None;
    }

    /** Outcome of the history request: `None` if it threw, in which case the
        list stays. Loading ends either way. */
    method HistoryLoaded(res: Option<HistoryResponse>)
      modifies this`sightings, this`loading
      ensures sightings == (if res.Some? then NormalizeHistory(res.value) else old(sightings))
      ensures !loading
    {
      if res.Some? {
        sightings := NormalizeHistory(res.value);
      }
      loading := false;
    }

    /** The "ReceiveLocation" handler. */
    method ReceiveLocation(report: Sighting)
      modifies this`sightings, this`highlightId
      ensures sightings == Incoming(wantedId, old(sightings), report)
      ensures highlightId == (if report.wantedPersonId == wantedId then Some(report.id) else old(highlightId))
      ensures report.wantedPersonId == wantedId ==> IsNew(sightings[0], highlightId)
    {
      if report.wantedPersonId == wantedId {
        sightings := [report] + sightings;
        highlightId := Some(report.id);
      }
    }

    /** The highlight timer fires. */
    method ClearHighlight()
      modifies this`highlightId
      ensures highlightId == None
      ensures forall i :: 0 <= i < |sightings| ==> !IsNew(sightings[i], highlightId)
    {
      highlightId := None;
    }
  }
}
