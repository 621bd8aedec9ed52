/**
 * The route-lookup page (app/page.tsx): one search that leaves either a
 * route or an error message, and always ends with `loading` false.
 *
 * `fetchFlight` awaits the network between its synchronous prefix and its
 * continuation, and the page re-renders in between; the two halves are the
 * methods `BeginFetch` and `FinishFetch`, and `FetchFlight` runs both.
 */
module RoutePage {
  import opened JsValues
  import Text
  import AdsbDb

  /** What the lookup's body parsing gave. */
  datatype Body =
    | ParseFailed(message: string)                     // `res.json()` threw
    | Parsed(flightroute: Option<AdsbDb.FlightRoute>)  // `data?.response?.flightroute`

  /** The settled lookup: `fetch` threw, or a response with its `ok` flag. */
  datatype LookupOutcome =
    | FetchThrew(message: string)
    | Responded(ok: bool, body: Body)

  const NotFoundMessage := "Flight not found"
  const NoRouteMessage := "No route data available"

  /**
   * The route and error message one lookup leaves. A route is set exactly
   * when the response is ok and carries `response.flightroute`, and then the
   * error stays empty; otherwise the error is the message of whatever threw:
   * "Flight not found" for a non-ok response (whose body is never read),
   * "No route data available" for an ok body without a route, or the
   * runtime's own message.
   */
  function Settle(outcome: LookupOutcome): (r: (Option<AdsbDb.FlightRoute>, string))
    ensures r.0.Some? <==> outcome.Responded? && outcome.ok && outcome.body.Parsed? && outcome.body.flightroute.Some?
    ensures r.0.Some? ==> r.0 == outcome.body.flightroute && r.1 == ""
    ensures outcome.Responded? && !outcome.ok ==> r == (None, NotFoundMessage)
    ensures outcome.Responded? && outcome.ok && outcome.body.Parsed? && outcome.body.flightroute.None? ==>
      r == (None, NoRouteMessage)
    ensures outcome.FetchThrew? ==> r == (None, outcome.message)
    ensures outcome.Responded? && outcome.ok && outcome.body.ParseFailed? ==> r == (None, outcome.body.message)
  {
    match outcome
    case FetchThrew(message) => (None, message)
    case Responded(ok, body) =>
      if !ok then (None, NotFoundMessage)
      else match body
        case ParseFailed(message) => (None, message)
        case Parsed(flightroute) =>
          if flightroute.None? then (None, NoRouteMessage) else (flightroute, "")
  }

  /**
   * Exactly one of route and error is set, provided whatever the runtime
   * throws carries a non-empty message.
   */
  lemma ExactlyOneOfRouteOrError(outcome: LookupOutcome)
    requires outcome.FetchThrew? ==> outcome.message != ""
    requires outcome.Responded? && outcome.body.ParseFailed? ==> outcome.body.message != ""
    ensures Settle(outcome).0.Some? <==> Settle(outcome).1 == ""
  {
  }

  class RouteSearch {
    var callsign: string
    var route: Option<AdsbDb.FlightRoute>
    var loading: bool
    var error: string
    /** Every lookup URL requested, oldest first. */
    var queries: seq<string>

    constructor ()
      ensures callsign == "" && route == None && !loading && error == "" && queries == []
    {
      callsign, route, loading, error, queries := "", None, false, "", [];
    }

    /** The search input's `onChange`. */
    method SetCallsign(text: string)
      modifies this`callsign
      ensures callsign == text
    {
      callsign := text;
    }

    /**
     * The synchronous prefix of `fetchFlight`: a callsign that trims to empty
     * changes nothing; otherwise loading is set, the error and the route are
     * cleared, and the upper-cased callsign is requested.
     */
    method BeginFetch() returns (started: bool)
      modifies this
      ensures started <==> !Text.IsBlank(callsign)
      ensures callsign == old(callsign)
      ensures !started ==>
        route == old(route) && loading == old(loading) && error == old(error) && queries == old(queries)
      ensures started ==>
        && loading && error == "" && route == None
        && queries == old(queries) + [AdsbDb.LookupUrl(Text.Upper(callsign))]
    {
      if Text.Trim(callsign) == "" {
        return false;
      }
      loading := true;
      error := "";
      route := None;
      queries := queries + [AdsbDb.LookupUrl(Text.Upper(callsign))];
      return true;
    }

    /** The continuation after the network: try, catch and finally. */
    method FinishFetch(outcome: LookupOutcome)
      requires loading && route == None && error == ""
      modifies this`route, this`error, this`loading
      ensures (route, error) == Settle(outcome)
      ensures !loading
    {
      match outcome {
        case FetchThrew(message) =>
          error := message;
        case Responded(ok, body) =>
          if !ok {
            error := NotFoundMessage;
          } else {
            match body {
              case ParseFailed(message) =>
                error := message;
              case Parsed(flightroute) =>
                if flightroute.None? {
                  error := NoRouteMessage;
                } else {
                  route := flightroute;
                }
            }
          }
      }
      loading := false;
    }

    /**
     * `fetchFlight` end to end: a blank callsign changes nothing; any other
     * search ends with the route and error `Settle` gives and loading false.
     */
    method FetchFlight(outcome: LookupOutcome)
      modifies this
      ensures callsign == old(callsign)
      ensures Text.IsBlank(old(callsign)) ==>
        route == old(route) && loading == old(loading) && error == old(error) && queries == old(queries)
      ensures !Text.IsBlank(old(callsign)) ==>
        && (route, error) == Settle(outcome) && !loading
        && queries == old(queries) + [AdsbDb.LookupUrl(Text.Upper(old(callsign)))]
    {
      var started := BeginFetch();
      if started {
        FinishFetch(outcome);
      }
    }
  }
}
