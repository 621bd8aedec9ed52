/**
 * The polling client of the live route (components/custom/mainpage/LiveFlightData.tsx).
 * Its React state slots are the fields of `LivePanel`; the effect's start and
 * cleanup, the 5000 ms refresh callback and the 1000 ms countdown callback are
 * its methods, run one at a time. The network answer of each fetch is a
 * parameter, and the `onAircraftUpdate` callback is recorded in `mapUpdates`.
 */
module LiveFlightPanel {
  import opened JsValues
  import LiveFlightRoute

  type Record = LiveFlightRoute.Record

  /** The fields the component reads from a parsed body; an absent or null field is `None`. */
  datatype LiveBody = LiveBody(
    airplanes: Option<Record>, openSky: Option<Record>, adsb: Option<Record>, best: Option<Record>)

  /** One `fetchLive` call: `fetch` or `res.json()` threw, or the body parsed. */
  datatype FetchOutcome = Threw | Parsed(body: LiveBody)

  /**
   * The countdown's start value. The refresh interval (5000 ms) and the
   * countdown interval (1000 ms) appear only as the methods `RefreshFires`
   * and `CountdownFires`; time is the order in which they are called.
   */
  const CountdownStart := 5

  /** The URL `fetchLive` requests; the callsign is sent as typed. */
  function RequestUrl(callsign: string, icao: string): (u: string)
    ensures |u| == |"/api/liveFlight?callsign="| + |callsign| + |"&icao="| + |icao|
    ensures u[|"/api/liveFlight?callsign="|..|"/api/liveFlight?callsign="| + |callsign|] == callsign
    ensures u[|u| - |icao|..] == icao
  {
    "/api/liveFlight?callsign=" + callsign + "&icao=" + icao
  }

  /** The body the live route sends, as this component reads it. */
  function BodyOf(r: LiveFlightRoute.LiveResponse): (b: LiveBody)
    ensures b.openSky == None
    ensures b.best.Some? <==> r.Live?
    ensures r.Live? ==> b.best == Some(r.best) && b.airplanes == r.airplanes && b.adsb == r.adsb
    ensures r.Failed? ==> b == LiveBody(None, None, None, None)
  {
    match r
    case Failed(_, _) => LiveBody(None, None, None, None)
    case Live(best, _, airplanes, adsb) => LiveBody(airplanes, None, adsb, Some(best))
  }

  /** A state slot after `if (x) setX(x)`: a present value replaces it, an absent one leaves it. */
  function Overwrite(slot: Option<Record>, incoming: Option<Record>): (r: Option<Record>)
    ensures r == slot || r == incoming
    ensures incoming.Some? ==> r == incoming
    ensures r.None? <==> slot.None? && incoming.None?
  {
    if incoming.Some? then incoming else slot
  }

  /** A slot after a series of responses, oldest first. */
  function Replay(slot: Option<Record>, incoming: seq<Option<Record>>): Option<Record>
    decreases |incoming|
  {
    if incoming == [] then slot else Replay(Overwrite(slot, incoming[0]), incoming[1..])
  }

  /**
   * "Latest non-null wins": after a series of responses a slot holds the last
   * value that was present, or its initial value when none was, so a stale
   * value persists through any number of responses that lack the field.
   */
  lemma {:induction false} ReplayKeepsLatestPresent(slot: Option<Record>, incoming: seq<Option<Record>>)
    ensures (forall i :: 0 <= i < |incoming| ==> incoming[i].None?) ==> Replay(slot, incoming) == slot
    ensures forall i :: 0 <= i < |incoming| && incoming[i].Some? && (forall j :: i < j < |incoming| ==> incoming[j].None?) ==>
      Replay(slot, incoming) == incoming[i]
    decreases |incoming|
  {
    if incoming != [] {
      var next := Overwrite(slot, incoming[0]);
      ReplayKeepsLatestPresent(next, incoming[1..]);
      forall i | 0 <= i < |incoming| && incoming[i].Some? && (forall j :: i < j < |incoming| ==> incoming[j].None?)
        ensures Replay(slot, incoming) == incoming[i]
      {
        if i == 0 {
          assert forall k :: 0 <= k < |incoming[1..]| ==> incoming[1..][k].None? by {
            forall k | 0 <= k < |incoming[1..]| ensures incoming[1..][k].None? { assert incoming[1..][k] == incoming[k + 1]; }
          }
        } else {
          assert incoming[1..][i - 1] == incoming[i];
          assert forall j :: i - 1 < j < |incoming[1..]| ==> incoming[1..][j].None? by {
            forall j | i - 1 < j < |incoming[1..]| ensures incoming[1..][j].None? { assert incoming[1..][j] == incoming[j + 1]; }
          }
        }
      }
      if forall i :: 0 <= i < |incoming| ==> incoming[i].None? {
        assert forall k :: 0 <= k < |incoming[1..]| ==> incoming[1..][k].None? by {
          forall k | 0 <= k < |incoming[1..]| ensures incoming[1..][k].None? { assert incoming[1..][k] == incoming[k + 1]; }
        }
      }
    }
  }

  /** One countdown tick: `prev > 0 ? prev - 1 : 0`. */
  function NextCountdown(prev: int): (c: int)
    ensures c >= 0
    ensures prev > 0 ==> c + 1 == prev
    ensures prev <= 0 ==> c == 0
  {
    if prev > 0 then prev - 1 else 0
  }

  /** The countdown after `n` ticks with no response in between. */
  function Ticks(c: int, n: nat): int
    decreases n
  {
    if n == 0 then c else Ticks(NextCountdown(c), n - 1)
  }

  /** Ticks count down by one to zero and stay there; the countdown is never negative. */
  lemma {:induction false} TicksCountDown(c: int, n: nat)
    requires c >= 0
    ensures Ticks(c, n) == if c - n > 0 then c - n else 0
    ensures Ticks(c, n) >= 0
  {
    if n > 0 {
      TicksCountDown(NextCountdown(c), n - 1);
    }
  }

  class LivePanel {
    var callsign: string
    var icao: string
    var airplanes: Option<Record>
    var openSky: Option<Record>
    var adsbFi: Option<Record>
    var best: Option<Record>
    var countdown: int
    /** Every value passed to `onAircraftUpdate`, oldest first. */
    var mapUpdates: seq<Record>
    /** Every URL fetched, oldest first. */
    var requests: seq<string>
    /** Whether the 5000 ms refresh interval is registered. */
    var refreshing: bool
    /** Whether the 1000 ms countdown interval is registered. */
    var ticking: bool

    /**
     * The countdown stays within [0, 5]; both intervals are registered
     * together and only for a non-empty callsign; `best` is exactly the last
     * value handed to the map callback.
     */
    ghost predicate Valid()
      reads this
    {
      && 0 <= countdown <= CountdownStart
      && refreshing == ticking
      && (refreshing ==> callsign != "")
      && (best.Some? <==> mapUpdates != [])
      && (best.Some? ==> best.value == mapUpdates[|mapUpdates| - 1])
    }

    /** The first render: every slot null and the countdown at 5, before the effect runs. */
    constructor (callsign: string, icao: string)
      ensures Valid()
      ensures this.callsign == callsign && this.icao == icao
      ensures airplanes == None && openSky == None && adsbFi == None && best == None
      ensures countdown == CountdownStart && mapUpdates == [] && requests == []
      ensures !refreshing && !ticking
    {
      this.callsign := callsign;
      this.icao := icao;
      airplanes, openSky, adsbFi, best := None, None, None, None;
      countdown := CountdownStart;
      mapUpdates, requests := [], [];
      refreshing, ticking := false, false;
    }

    /**
     * What one `fetchLive` does to the display: after a throw every slot, the
     * map log and the countdown are as before; after a parsed body each slot
     * is overwritten only by a present field, the map receives `best` exactly
     * when it is present, and the countdown is back at 5.
     */
    twostate predicate SlotsAfter(outcome: FetchOutcome)
      reads this
    {
      && (outcome.Threw? ==> SlotsUnchanged())
      && (outcome.Parsed? ==>
        && airplanes == Overwrite(old(airplanes), outcome.body.airplanes)
        && openSky == Overwrite(old(openSky), outcome.body.openSky)
        && adsbFi == Overwrite(old(adsbFi), outcome.body.adsb)
        && best == Overwrite(old(best), outcome.body.best)
        && mapUpdates == old(mapUpdates) + (if outcome.body.best.Some? then [outcome.body.best.value] else [])
        && countdown == CountdownStart)
    }

    /** The slots, the map log and the countdown are as they were. */
    twostate predicate SlotsUnchanged()
      reads this
    {
      && airplanes == old(airplanes) && openSky == old(openSky) && adsbFi == old(adsbFi)
      && best == old(best) && mapUpdates == old(mapUpdates) && countdown == old(countdown)
    }

    /** `if (!callsign) return null`: the component renders nothing for an empty callsign. */
    predicate Renders()
      reads this
    {
      callsign != ""
    }

    /**
     * `fetchLive`. Each slot is overwritten only by a present field of the
     * parsed body; `best` and the map callback change together, only when
     * `best` is present; every parsed body (a 404 body too) resets the
     * countdown to 5; a throw changes nothing but the request log.
     */
    method FetchLive(outcome: FetchOutcome)
      requires Valid()
      modifies this
      ensures Valid()
      ensures requests == old(requests) + [RequestUrl(callsign, icao)]
      ensures callsign == old(callsign) && icao == old(icao)
      ensures refreshing == old(refreshing) && ticking == old(ticking)
      ensures SlotsAfter(outcome)
    {
      requests := requests + [RequestUrl(callsign, icao)];
      match outcome
      case Threw =>
      case Parsed(data) =>
        ApplyBody(data);
    }

    /** The part of `fetchLive` after `res.json()` resolved. */
    method ApplyBody(data: LiveBody)
      requires Valid()
      modifies this`airplanes, this`openSky, this`adsbFi, this`best, this`mapUpdates, this`countdown
      ensures Valid()
      ensures SlotsAfter(Parsed(data))
    {
      if data.airplanes.Some? { airplanes := data.airplanes; }
      if data.openSky.Some? { openSky := data.openSky; }
      if data.adsb.Some? { adsbFi := data.adsb; }
      if data.best.Some? {
        best := data.best;
        mapUpdates := mapUpdates + [data.best.value];
      }
      countdown := CountdownStart;
    }

    /**
     * The effect: with an empty callsign nothing is fetched and no timer is
     * registered; otherwise one fetch runs at once and both intervals start.
     */
    method StartEffect(first: FetchOutcome)
      requires Valid() && !refreshing
      modifies this
      ensures Valid()
      ensures callsign == old(callsign) && icao == old(icao)
      ensures !Renders() ==>
        requests == old(requests) && !refreshing && !ticking && SlotsUnchanged()
      ensures Renders() ==>
        && requests == old(requests) + [RequestUrl(callsign, icao)]
        && refreshing && ticking && SlotsAfter(first)
    {
      if callsign == "" {
        return;
      }
      FetchLive(first);
      refreshing, ticking := true, true;
    }

    /** The effect's cleanup: both intervals are cleared. */
    method StopEffect()
      requires Valid()
      modifies this`refreshing, this`ticking
      ensures Valid()
      ensures !refreshing && !ticking
    {
      refreshing, ticking := false, false;
    }

    /** The refresh interval fires: one more `fetchLive`. */
    method RefreshFires(outcome: FetchOutcome)
      requires Valid() && refreshing
      modifies this
      ensures Valid() && refreshing && ticking
      ensures callsign == old(callsign) && icao == old(icao)
      ensures requests == old(requests) + [RequestUrl(callsign, icao)]
      ensures SlotsAfter(outcome)
    {
      FetchLive(outcome);
    }

    /** The countdown interval fires. */
    method CountdownFires()
      requires Valid() && ticking
      modifies this`countdown
      ensures Valid()
      ensures countdown == NextCountdown(old(countdown))
    {
      countdown := if countdown > 0 then countdown - 1 else 0;
    }

    /**
     * New props. The effect depends on `[callsign, icao]`: when either changes
     * the old intervals are cleared and the effect runs again; the display
     * slots are NOT reset, so values from the previous flight stay on screen
     * until a response replaces them.
     */
    method ChangeProps(newCallsign: string, newIcao: string, first: FetchOutcome)
      requires Valid()
      modifies this
      ensures Valid()
      ensures callsign == newCallsign && icao == newIcao
      ensures (newCallsign, newIcao) == (old(callsign), old(icao)) ==>
        && requests == old(requests) && refreshing == old(refreshing) && ticking == old(ticking)
        && SlotsUnchanged()
      ensures (newCallsign, newIcao) != (old(callsign), old(icao)) ==>
        (refreshing <==> newCallsign != "") && ticking == refreshing
      ensures (newCallsign, newIcao) != (old(callsign), old(icao)) && newCallsign == "" ==>
        requests == old(requests) && SlotsUnchanged()
      ensures (newCallsign, newIcao) != (old(callsign), old(icao)) && newCallsign != "" ==>
        requests == old(requests) + [RequestUrl(newCallsign, newIcao)] && SlotsAfter(first)
    {
      if newCallsign != callsign || newIcao != icao {
        StopEffect();
        callsign, icao := newCallsign, newIcao;
        StartEffect(first);
      }
    }

    /** Unmounting runs the cleanup. */
    method Unmount()
      requires Valid()
      modifies this`refreshing, this`ticking
      ensures Valid() && !refreshing && !ticking
    {
      StopEffect();
    }
  }

  /**
   * Fed by the live route, the `openSky` slot is never written (the route
   * has no such field), and a 404 or 500 answer leaves `best` and the map
   * untouched while still resetting the countdown.
   */
  method RouteAnswerReachesPanel(panel: LivePanel, answer: LiveFlightRoute.LiveResponse)
    requires panel.Valid()
    modifies panel
    ensures panel.Valid()
    ensures panel.openSky == old(panel.openSky)
    ensures panel.countdown == CountdownStart
    ensures answer.Failed? ==> panel.best == old(panel.best) && panel.mapUpdates == old(panel.mapUpdates)
    ensures answer.Live? ==> panel.best == Some(answer.best) && panel.mapUpdates == old(panel.mapUpdates) + [answer.best]
  {
    panel.FetchLive(Parsed(BodyOf(answer)));
  }
}
