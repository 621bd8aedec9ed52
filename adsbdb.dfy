/**
 * The one-shot route lookup both pages send to adsbdb
 * (`GET https://api.adsbdb.com/v0/callsign/<CALLSIGN>`), and the route
 * record it answers with in `response.flightroute`. The record is only
 * stored and displayed, so its airports are kept as plain names.
 */
module AdsbDb {

  datatype FlightRoute = FlightRoute(callsign: string, airline: string, origin: string, destination: string)

  /** The lookup URL: the callsign is the path's last segment, exactly as given. */
  function LookupUrl(upperCallsign: string): (u: string)
    ensures |u| == |"https://api.adsbdb.com/v0/callsign/"| + |upperCallsign|
    ensures u[|u| - |upperCallsign|..] == upperCallsign
  {
    "https://api.adsbdb.com/v0/callsign/" + upperCallsign
  }
}
