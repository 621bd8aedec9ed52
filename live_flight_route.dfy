/**
 * The server route that answers `GET /api/liveFlight?callsign=...`
 * (app/api/liveFlight/route.ts). It asks two fleet feeds, airplanes.live and
 * adsb.fi, for the upper-cased callsign, turns the first aircraft of each
 * successful answer into a record, and merges the two with a fixed priority:
 * airplanes.live wins over adsb.fi.
 *
 * The network is a parameter: `net` gives the outcome of a GET on each URL.
 * `Promise.allSettled` delivers both outcomes in request order whatever order
 * they settle in, so settle order is not an input of the model at all.
 */
module LiveFlightRoute {
  import opened JsValues
  import Text

  /** One element of a feed's `ac` list; every field is copied, never computed with. */
  datatype Aircraft = Aircraft(
    lat: JsValue, lon: JsValue, track: JsValue,
    alt_baro: JsValue, gs: JsValue, baro_rate: JsValue, hex: JsValue)

  /** The per-provider record the route returns (and the client displays). */
  datatype Record = Record(
    lat: JsValue, lon: JsValue, track: JsValue,
    altitude: JsValue, speed: JsValue, verticalRate: JsValue, hex: JsValue)

  /** What `data?.ac` turned out to be once the body parsed as JSON. */
  datatype Payload =
    | NoList                    // `data` is null, or has no `ac` array
    | List(ac: seq<Aircraft>)

  datatype Body = Malformed | Json(payload: Payload)

  /** The settled outcome of one `fetch`. */
  datatype FeedOutcome =
    | Rejected                               // transport failure
    | Fulfilled(status: int, body: Body)

  /** What one provider contributes to the merge. */
  datatype Extraction =
    | NoRecord
    | Extracted(record: Record)
    | ParseThrew                             // `.json()` threw on a 200 answer

  datatype Provider = AirplanesLive | AdsbFi

  /** The route's answer: an error body with its status, or the 200 body. */
  datatype LiveResponse =
    | Failed(status: int, message: string)
    | Live(best: Record, source: string, airplanes: Option<Record>, adsb: Option<Record>)

  function Status(r: LiveResponse): int
  {
    if r.Failed? then r.status else 200
  }

  const AirplanesSource := "Airplanes.live"
  const AdsbSource := "ADSB.fi"

  /**
   * The feed URL for a provider: the callsign is the path's last segment, and
   * the two providers' URLs already differ at their host (index 8), so they
   * never collide whatever the callsign.
   */
  function FeedUrl(p: Provider, upperCallsign: string): (u: string)
    ensures |u| > 8 + |upperCallsign|
    ensures u[8] == (if p.AirplanesLive? then 'a' else 'o')
    ensures u[|u| - |upperCallsign|..] == upperCallsign
  {
    match p
    case AirplanesLive => "https://api.airplanes.live/v2/callsign/" + upperCallsign
    case AdsbFi => "https://opendata.adsb.fi/api/v2/callsign/" + upperCallsign
  }

  /** The record built from a feed aircraft: three fields renamed, four copied. */
  function ToRecord(a: Aircraft): (r: Record)
    ensures r.altitude == a.alt_baro && r.speed == a.gs && r.verticalRate == a.baro_rate
    ensures r.lat == a.lat && r.lon == a.lon && r.track == a.track && r.hex == a.hex
  {
    Record(a.lat, a.lon, a.track, a.alt_baro, a.gs, a.baro_rate, a.hex)
  }

  /** The renaming loses nothing: different aircraft give different records. */
  lemma ToRecordInjective(a: Aircraft, b: Aircraft)
    ensures ToRecord(a) == ToRecord(b) ==> a == b
  {
  }

  /**
   * The per-provider success predicate: a record exists iff the fetch was
   * fulfilled with status exactly 200 and a non-empty `ac` list, and then it
   * is the first aircraft's record. The body is parsed only on a 200 answer,
   * so a malformed body is an error only there.
   */
  function Extract(f: FeedOutcome): (e: Extraction)
    ensures e.Extracted? <==>
      f.Fulfilled? && f.status == 200 && f.body.Json? && f.body.payload.List? && |f.body.payload.ac| > 0
    ensures e.Extracted? ==> e.record == ToRecord(f.body.payload.ac[0])
    ensures e.ParseThrew? <==> f.Fulfilled? && f.status == 200 && f.body.Malformed?
  {
    match f
    case Rejected => NoRecord
    case Fulfilled(status, body) =>
      if status != 200 then NoRecord
      else match body
        case Malformed => ParseThrew
        case Json(NoList) => NoRecord
        case Json(List(ac)) => if |ac| > 0 then Extracted(ToRecord(ac[0])) else NoRecord
  }

  function AsOption(e: Extraction): Option<Record>
  {
    if e.Extracted? then Some(e.record) else None
  }

  const MissingCallsign := "Missing callsign"
  const NoLiveData := "No live data available for this flight"
  const FetchFailed := "Failed to fetch live data"

  /**
   * The merge of the two providers' contributions. A parse error on either
   * escapes to the handler's catch (500). Otherwise airplanes.live is `best`
   * whenever it has a record, adsb.fi only when airplanes.live has none, and
   * without either the answer is 404.
   */
  function Merge(a: Extraction, b: Extraction): (r: LiveResponse)
    ensures Status(r) == 500 <==> a.ParseThrew? || b.ParseThrew?
    ensures Status(r) == 404 <==> !a.ParseThrew? && !b.ParseThrew? && !a.Extracted? && !b.Extracted?
    ensures Status(r) in {200, 404, 500}
    ensures Status(r) == 404 ==> r == Failed(404, NoLiveData)
    ensures Status(r) == 500 ==> r == Failed(500, FetchFailed)
    ensures r.Live? ==> r.airplanes == AsOption(a) && r.adsb == AsOption(b)
    ensures r.Live? && a.Extracted? ==> r.best == a.record && r.source == AirplanesSource
    ensures r.Live? && !a.Extracted? ==> b.Extracted? && r.best == b.record && r.source == AdsbSource
  {
    if a.ParseThrew? || b.ParseThrew? then Failed(500, FetchFailed)
    else
      var airplanes := AsOption(a);
      var adsb := AsOption(b);
      if airplanes.Some? then Live(airplanes.value, AirplanesSource, airplanes, adsb)
      else if adsb.Some? then Live(adsb.value, AdsbSource, airplanes, adsb)
      else Failed(404, NoLiveData)
  }

  /** Whether the `callsign` query parameter passes the `!callsign` guard. */
  predicate HasCallsign(callsign: Option<string>)
    ensures HasCallsign(callsign) <==> callsign.Some? && Truthy(Str(callsign.value))
  {
    callsign.Some? && callsign.value != ""
  }

  /** The outcome of asking provider `p` for the upper-cased callsign. */
  function Ask(net: string -> FeedOutcome, p: Provider, callsign: string): FeedOutcome
  {
    net(FeedUrl(p, Text.Upper(callsign)))
  }

  /** The route handler. `callsign` is `searchParams.get("callsign")`. */
  function Get(callsign: Option<string>, net: string -> FeedOutcome): (r: LiveResponse)
    ensures !HasCallsign(callsign) <==> r == Failed(400, MissingCallsign)
    ensures Status(r) in {200, 400, 404, 500}
    ensures Status(r) == 404 ==> r == Failed(404, NoLiveData)
    ensures Status(r) == 500 ==> r == Failed(500, FetchFailed)
  {
    if !HasCallsign(callsign) then Failed(400, MissingCallsign)
    else
      var airplanes := Extract(Ask(net, AirplanesLive, callsign.value));
      var adsb := Extract(Ask(net, AdsbFi, callsign.value));
      Merge(airplanes, adsb)
  }

  /** A missing or empty callsign is a 400 and no provider is asked: the network does not matter. */
  lemma MissingCallsignAsksNoProvider(callsign: Option<string>, net1: string -> FeedOutcome, net2: string -> FeedOutcome)
    requires !HasCallsign(callsign)
    ensures Get(callsign, net1) == Get(callsign, net2)
    ensures Status(Get(callsign, net1)) == 400
  {
  }

  /**
   * Both requests carry the upper-cased callsign: the answer depends on the
   * network only through the two feed URLs built from `Upper(callsign)`.
   */
  lemma AnswerDependsOnlyOnFeedUrls(c: string, net1: string -> FeedOutcome, net2: string -> FeedOutcome)
    requires net1(FeedUrl(AirplanesLive, Text.Upper(c))) == net2(FeedUrl(AirplanesLive, Text.Upper(c)))
    requires net1(FeedUrl(AdsbFi, Text.Upper(c))) == net2(FeedUrl(AdsbFi, Text.Upper(c)))
    ensures Get(Some(c), net1) == Get(Some(c), net2)
  {
  }

  /** Callsigns that differ only in letter case get the same answer. */
  lemma CaseInsensitive(c1: string, c2: string, net: string -> FeedOutcome)
    requires c1 != "" && c2 != ""
    requires Text.Upper(c1) == Text.Upper(c2)
    ensures Get(Some(c1), net) == Get(Some(c2), net)
  {
  }

  /**
   * Priority: when airplanes.live yields a record (and no parse error escapes)
   * it is `best` with source "Airplanes.live", whatever adsb.fi answered;
   * adsb.fi is `best` exactly when airplanes.live yields none.
   */
  lemma AirplanesLiveWins(c: string, net: string -> FeedOutcome)
    requires c != ""
    requires !Extract(Ask(net, AdsbFi, c)).ParseThrew?
    ensures Extract(Ask(net, AirplanesLive, c)).Extracted? ==>
      Get(Some(c), net) == Live(Extract(Ask(net, AirplanesLive, c)).record, AirplanesSource,
                               AsOption(Extract(Ask(net, AirplanesLive, c))), AsOption(Extract(Ask(net, AdsbFi, c))))
    ensures (Get(Some(c), net).Live? && Get(Some(c), net).source == AdsbSource) <==>
      Extract(Ask(net, AirplanesLive, c)).NoRecord? && Extract(Ask(net, AdsbFi, c)).Extracted?
  {
  }

  /**
   * Every 200 answer is consistent: `best` is the record of the provider
   * named by `source`, and airplanes.live is null whenever adsb.fi is the source.
   */
  lemma SourceConsistent(callsign: Option<string>, net: string -> FeedOutcome)
    ensures var r := Get(callsign, net);
      r.Live? ==>
        || (r.source == AirplanesSource && r.airplanes == Some(r.best))
        || (r.source == AdsbSource && r.airplanes == None && r.adsb == Some(r.best))
  {
  }

  /**
   * The answer is 404 "No live data available for this flight" exactly when
   * neither provider yields a record and no parse error escapes, and 500
   * "Failed to fetch live data" exactly when a 200 answer's body is malformed.
   */
  lemma NotFoundAndServerError(c: string, net: string -> FeedOutcome)
    requires c != ""
    ensures var a := Ask(net, AirplanesLive, c); var b := Ask(net, AdsbFi, c);
      && (Status(Get(Some(c), net)) == 500 <==>
            (a.Fulfilled? && a.status == 200 && a.body.Malformed?) || (b.Fulfilled? && b.status == 200 && b.body.Malformed?))
      && (Status(Get(Some(c), net)) == 404 <==> !Extract(a).Extracted? && !Extract(b).Extracted? && Status(Get(Some(c), net)) != 500)
      && (Status(Get(Some(c), net)) == 404 ==> Get(Some(c), net) == Failed(404, NoLiveData))
      && (Status(Get(Some(c), net)) == 500 ==> Get(Some(c), net) == Failed(500, FetchFailed))
  {
  }

  /**
   * A rejected fetch or a non-200 status nulls only that provider: the
   * adsb.fi record in the answer is the same as if airplanes.live had failed
   * in any other non-throwing way.
   */
  lemma FailureNullsOnlyItsProvider(a: FeedOutcome, b: FeedOutcome)
    requires a.Rejected? || (a.Fulfilled? && a.status != 200)
    ensures Extract(a) == NoRecord
    ensures Merge(Extract(a), Extract(b)).Live? ==>
      Merge(Extract(a), Extract(b)) == Live(Extract(b).record, AdsbSource, None, Some(Extract(b).record))
    ensures Extract(b).Extracted? <==> Merge(Extract(a), Extract(b)).Live?
  {
  }

  /**
   * The mirror case: a rejected adsb.fi fetch or a non-200 status nulls only
   * the adsb.fi slot, and airplanes.live alone decides the answer.
   */
  lemma AdsbFailureNullsOnlyItsProvider(a: FeedOutcome, b: FeedOutcome)
    requires b.Rejected? || (b.Fulfilled? && b.status != 200)
    ensures Extract(b) == NoRecord
    ensures Merge(Extract(a), Extract(b)).Live? ==>
      Merge(Extract(a), Extract(b)) == Live(Extract(a).record, AirplanesSource, Some(Extract(a).record), None)
    ensures Extract(a).Extracted? <==> Merge(Extract(a), Extract(b)).Live?
  {
  }
}
