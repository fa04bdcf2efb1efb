/** The stations dashboard page: which station is shown, with which time range
    and which aggregation settings, and the plot queries the page derives from
    that state. */
module StationsDashboardPage {
  import opened Js

  /** A station of the `/stations/` listing, with the fields the page reads. */
  datatype Station = Station(id: int, name: string)

  datatype Mode = Historic | Realtime

  /** `realtimeParams`: the captured current time (a millisecond timestamp; `None`
      until first captured) and the relative window such as "1-year". */
  datatype RealtimeParams = RealtimeParams(now: Option<int>, lastTime: string)

  /** `historicParams`: a fixed window given by two date-time strings. */
  datatype HistoricParams = HistoricParams(start: string, end: string)

  /** The parameter set handed to the plots (`timeRangeParams`). */
  datatype TimeRange = RealtimeRange(realtime: RealtimeParams) | HistoricRange(historic: HistoricParams)

  /** The handle `setInterval` returns. */
  type TimerHandle = nat

  /** The page's query string; `id` is absent when the URL carries none. */
  datatype Query = Query(id: Option<string>)

  /** The whole state of the page as one record: the component state together
      with the `rtInterval` instance field. */
  datatype DashboardState = DashboardState(
    loading: bool,
    station: Option<Station>,
    stations: Option<seq<Station>>,
    mode: Mode,
    realtimeParams: RealtimeParams,
    historicParams: HistoricParams,
    aggregationFunc: string,
    groupingInterval: string,
    rtInterval: Option<TimerHandle>)

  const DefaultStart: string := "2011-01-01T00:00"
  const DefaultEnd: string := "2012-01-01T00:00"

  /** The parameter every plot shows, in display order. */
  const PlotKeys: seq<string> :=
    ["temperature", "humidity", "wind_speed", "wind_direction", "pressure", "precipitation", "pm25"]

  /** The state a freshly constructed page starts from. `stations` is not part of
      it: the list stays undefined until a fetch succeeds. */
  const InitialState: DashboardState := DashboardState(
    true, None, None, Historic,
    RealtimeParams(None, "1-year"),
    HistoricParams(DefaultStart, DefaultEnd),
    "avg", "month", None)

  // ---------------------------------------------------------------------------
  // Array.prototype.find
  // ---------------------------------------------------------------------------

  /** The test the page passes to `find`: strict equality of the station's
      numeric identifier with a number, where `None` stands for NaN. */
  predicate IdMatches(st: Station, target: Option<int>)
  {
    target == Some(st.id)
  }

  /** The value a select control delivers in `e.target.value`: a number, or a
      string when the control passes its option values as text. */
  datatype SelectValue = NumberValue(n: int) | StringValue(s: string)

  /** The number `st.id === value` can match: a string is never strictly equal
      to a number, so it matches no station. */
  function StrictTarget(v: SelectValue): (r: Option<int>)
    ensures r.Some? <==> v.NumberValue?
    ensures v.NumberValue? ==> r == Some(v.n)
  {
    match v
    case NumberValue(n) => Some(n)
    case StringValue(_) => None
  }

  /** `stations.find(st => st.id === target)`: the first station whose identifier
      is `target`, or `undefined`. */
  function FirstWithId(stations: seq<Station>, target: Option<int>): (r: Option<Station>)
    ensures r.Some? ==> r.value in stations && IdMatches(r.value, target)
  {
    if |stations| == 0 then None
    else if IdMatches(stations[0], target) then Some(stations[0])
    else FirstWithId(stations[1..], target)
  }

  /** `FirstWithId` has the search semantics of `find`: it yields `undefined`
      exactly when no station matches, and otherwise a matching station that no
      earlier station matches. */
  lemma {:induction false} FirstWithIdSpec(stations: seq<Station>, target: Option<int>)
    ensures FirstWithId(stations, target).None? <==>
              forall k :: 0 <= k < |stations| ==> !IdMatches(stations[k], target)
    ensures FirstWithId(stations, target).Some? ==>
              exists k :: 0 <= k < |stations| && stations[k] == FirstWithId(stations, target).value
                          && IdMatches(stations[k], target)
                          && forall m :: 0 <= m < k ==> !IdMatches(stations[m], target)
  {
    if |stations| > 0 && !IdMatches(stations[0], target) {
      FirstWithIdSpec(stations[1..], target);
      var r := FirstWithId(stations, target);
      if r.Some? {
        var k :| 0 <= k < |stations[1..]| && stations[1..][k] == r.value
                 && IdMatches(stations[1..][k], target)
                 && forall m :: 0 <= m < k ==> !IdMatches(stations[1..][m], target);
        assert stations[k + 1] == r.value;
        assert forall m :: 0 <= m < k + 1 ==> !IdMatches(stations[m], target) by {
          forall m | 0 <= m < k + 1
            ensures !IdMatches(stations[m], target)
          {
            if m > 0 {
              assert stations[m] == stations[1..][m - 1];
            }
          }
        }
      } else {
        forall k | 0 <= k < |stations|
          ensures !IdMatches(stations[k], target)
        {
          if k > 0 {
            assert stations[k] == stations[1..][k - 1];
          }
        }
      }
    }
  }

  /** The linear search `find` performs. */
  method Find(stations: seq<Station>, target: Option<int>) returns (r: Option<Station>)
    ensures r == FirstWithId(stations, target)
  {
    var i := 0;
    while i < |stations|
      invariant 0 <= i <= |stations|
      invariant FirstWithId(stations, target) == FirstWithId(stations[i..], target)
    {
      if IdMatches(stations[i], target) {
        return Some(stations[i]);
      }
      assert stations[i..][1..] == stations[i + 1..];
      i := i + 1;
    }
    r := None;
  }

  // ---------------------------------------------------------------------------
  // Derived values
  // ---------------------------------------------------------------------------

  /** The station `componentDidMount` picks: with a truthy `query.id`, the first
      station whose identifier is `Number(query.id)` (none if nothing matches,
      with no fallback); without one, the first station of the list, if any. */
  function InitialStation(query: Query, stations: seq<Station>): (r: Option<Station>)
    ensures r.Some? ==> r.value in stations
    ensures |stations| == 0 ==> r.None?
  {
    if query.id.Some? && StringTruthy(query.id.value) then FirstWithId(stations, NumberOf(query.id.value))
    else if |stations| > 0 then Some(stations[0])
    else None
  }

  /** An identifier the query names but no station has selects nothing, even
      when the list is not empty. */
  lemma InitialStationNoFallback(query: Query, stations: seq<Station>)
    requires query.id.Some? && StringTruthy(query.id.value)
    requires forall k :: 0 <= k < |stations| ==> NumberOf(query.id.value) != Some(stations[k].id)
    ensures InitialStation(query, stations) == None
  {
    FirstWithIdSpec(stations, NumberOf(query.id.value));
  }

  /** A query naming a station's identifier in decimal selects the first
      station with that identifier. */
  lemma InitialStationByQuery(stations: seq<Station>, k: int)
    requires 0 <= k < |stations|
    requires forall m :: 0 <= m < k ==> stations[m].id != stations[k].id
    ensures InitialStation(Query(Some(IntToString(stations[k].id))), stations) == Some(stations[k])
  {
    var s := IntToString(stations[k].id);
    IntToStringRoundTrip(stations[k].id);
    NatToStringDigits(if stations[k].id < 0 then -stations[k].id else stations[k].id);
    assert StringTruthy(s);
    FirstWithIdSpec(stations, Some(stations[k].id));
  }

  /** A query naming in decimal an identifier that no station has selects
      nothing. */
  lemma InitialStationAbsentId(stations: seq<Station>, n: int)
    requires forall k :: 0 <= k < |stations| ==> stations[k].id != n
    ensures InitialStation(Query(Some(IntToString(n))), stations) == None
  {
    IntToStringRoundTrip(n);
    NatToStringDigits(if n < 0 then -n else n);
    assert StringTruthy(IntToString(n));
    InitialStationNoFallback(Query(Some(IntToString(n))), stations);
  }

  /** On the list [1 "A", 2 "B"], the query identifier "2" selects station 2. */
  lemma QueryTwoSelectsSecond()
    ensures InitialStation(Query(Some("2")), [Station(1, "A"), Station(2, "B")]) == Some(Station(2, "B"))
  {
    assert IntToString(2) == "2" by {
      assert DigitChar(2) == '2';
    }
    InitialStationByQuery([Station(1, "A"), Station(2, "B")], 1);
  }

  /** On the list [1 "A", 2 "B"], the query identifier "99" selects nothing:
      there is no fallback to station 1. */
  lemma AbsentQueryIdSelectsNothing()
    ensures InitialStation(Query(Some("99")), [Station(1, "A"), Station(2, "B")]) == None
  {
    assert IntToString(99) == "99" by {
      assert DigitChar(9) == '9';
      assert NatToString(99) == NatToString(9) + [DigitChar(9)];
    }
    InitialStationAbsentId([Station(1, "A"), Station(2, "B")], 99);
  }

  /** `timeRangeParams`: the realtime parameters in realtime mode, the historic
      ones otherwise. */
  function ActiveTimeRange(s: DashboardState): (r: TimeRange)
    ensures r.RealtimeRange? <==> s.mode == Realtime
    ensures r.RealtimeRange? ==> r.realtime == s.realtimeParams
    ensures r.HistoricRange? ==> r.historic == s.historicParams
  {
    if s.mode == Realtime then RealtimeRange(s.realtimeParams) else HistoricRange(s.historicParams)
  }

  /** What one `ParameterPlot` is given. */
  datatype PlotQuery = PlotQuery(
    station: Station,
    parameter: string,
    mode: Mode,
    timeRange: TimeRange,
    groupingInterval: string,
    aggregationFunc: string)

  /** The plots the page renders: one per parameter when it has finished loading
      and holds a station, none (a progress bar) otherwise. */
  function PlotQueries(s: DashboardState): (r: seq<PlotQuery>)
    ensures |r| == if !s.loading && s.station.Some? then |PlotKeys| else 0
    ensures forall k :: 0 <= k < |r| ==>
              r[k] == PlotQuery(s.station.value, PlotKeys[k], s.mode, ActiveTimeRange(s),
                                s.groupingInterval, s.aggregationFunc)
  {
    if !s.loading && s.station.Some? then
      seq(|PlotKeys|, k requires 0 <= k < |PlotKeys| =>
        PlotQuery(s.station.value, PlotKeys[k], s.mode, ActiveTimeRange(s),
                  s.groupingInterval, s.aggregationFunc))
    else []
  }

  /** The parameters of the inactive mode never reach a plot: in historic mode
      the realtime parameters can be anything, and in realtime mode the historic
      ones. */
  lemma {:induction false} InactiveParamsIgnored(s: DashboardState, rt: RealtimeParams, h: HistoricParams)
    ensures s.mode == Historic ==> PlotQueries(s.(realtimeParams := rt)) == PlotQueries(s)
    ensures s.mode == Realtime ==> PlotQueries(s.(historicParams := h)) == PlotQueries(s)
  {
    var a, b := PlotQueries(s.(realtimeParams := rt)), PlotQueries(s.(historicParams := h));
    var c := PlotQueries(s);
    if s.mode == Historic {
      assert |a| == |c| && forall k :: 0 <= k < |a| ==> a[k] == c[k];
    } else {
      assert |b| == |c| && forall k :: 0 <= k < |b| ==> b[k] == c[k];
    }
  }

  /** The invariant the page keeps: realtime mode always has a captured time,
      a timer handle is only held in realtime mode, and the page stops loading
      only once it has a station list. */
  predicate Consistent(s: DashboardState)
  {
    && (s.mode == Realtime ==> s.realtimeParams.now.Some?)
    && (s.rtInterval.Some? ==> s.mode == Realtime)
    && (!s.loading ==> s.stations.Some?)
  }

  /** What the invariant buys the plots: a page that shows plots has a station
      list, and a realtime plot always receives a captured current time. */
  lemma {:induction false} ConsistentPlots(s: DashboardState)
    requires Consistent(s)
    ensures PlotQueries(s) != [] ==> s.stations.Some?
    ensures forall q :: q in PlotQueries(s) && q.mode == Realtime ==>
              q.timeRange.RealtimeRange? && q.timeRange.realtime.now.Some?
  {
    var r := PlotQueries(s);
    forall q | q in r && q.mode == Realtime
      ensures q.timeRange.RealtimeRange? && q.timeRange.realtime.now.Some?
    {
      var k :| 0 <= k < |r| && r[k] == q;
    }
  }

  /** A select value delivered as a string selects no station, whatever the
      list holds. */
  lemma StringSelectionSelectsNothing(stations: seq<Station>, s: string)
    ensures FirstWithId(stations, StrictTarget(StringValue(s))) == None
  {
    FirstWithIdSpec(stations, None);
  }

  // ---------------------------------------------------------------------------
  // The component
  // ---------------------------------------------------------------------------

  class StationsDashboard {
    var loading: bool
    var station: Option<Station>
    var stations: Option<seq<Station>>
    var mode: Mode
    var realtimeParams: RealtimeParams
    var historicParams: HistoricParams
    var aggregationFunc: string
    var groupingInterval: string
    var rtInterval: Option<TimerHandle>

    function State(): DashboardState
      reads this
    {
      DashboardState(loading, station, stations, mode, realtimeParams, historicParams,
                     aggregationFunc, groupingInterval, rtInterval)
    }

    /** What every handler keeps: `Consistent` of the page state. */
    ghost predicate Valid()
      reads this
    {
      Consistent(State())
    }

    constructor ()
      ensures Valid()
      ensures State() == InitialState
      ensures mode == Historic && realtimeParams.lastTime == "1-year"
      ensures historicParams == HistoricParams(DefaultStart, DefaultEnd)
      ensures aggregationFunc == "avg" && groupingInterval == "month" && loading
    {
      loading := true;
      station := None;
      stations := None;
      mode := Historic;
      realtimeParams := RealtimeParams(None, "1-year");
      historicParams := HistoricParams(DefaultStart, DefaultEnd);
      aggregationFunc := "avg";
      groupingInterval := "month";
      rtInterval := None;
    }

    /** `fetchStations`: a successful response replaces the list; a failure is
        swallowed and leaves the state as it was. */
    method FetchStations(response: Option<seq<Station>>)
      requires Valid()
      modifies this
      ensures Valid()
      ensures State() == if response.Some? then old(State()).(stations := response) else old(State())
    {
      if response.Some? {
        stations := response;
      }
    }

    /** `componentDidMount`. After the fetch it picks the initial station, stops
        loading and switches to historic mode. When no list was ever fetched,
        reading `stations` throws, the rest of the handler does not run, and
        `completed` is false. */
    method ComponentDidMount(query: Query, response: Option<seq<Station>>) returns (completed: bool)
      requires Valid()
      modifies this
      ensures Valid()
      ensures completed <==> response.Some? || old(stations).Some?
      ensures var fetched := if response.Some? then response else old(stations);
              State() == if completed
                         then old(State()).(stations := fetched,
                                            station := InitialStation(query, fetched.value),
                                            loading := false, mode := Historic, rtInterval := None)
                         else old(State())
    {
      FetchStations(response);
      if stations.None? {
        return false;
      }
      var list := stations.value;
      var picked: Option<Station>;
      if query.id.Some? && StringTruthy(query.id.value) {
        picked := Find(list, NumberOf(query.id.value));
      } else if |list| > 0 {
        picked := Some(list[0]);
      } else {
        picked := None;
      }
      station := picked;
      loading := false;
      SetHistoricMode();
      completed := true;
    }

    /** `updateNow`, with the current time passed in: realtime mode with `now`
        captured, the relative window kept. */
    method UpdateNow(now: int)
      requires Valid()
      modifies this
      ensures Valid()
      ensures State() == old(State()).(mode := Realtime,
                                       realtimeParams := old(realtimeParams).(now := Some(now)))
    {
      mode := Realtime;
      realtimeParams := realtimeParams.(now := Some(now));
    }

    /** `setRealtimeMode`: capture the time now, then keep the handle of the new
        recurring refresh, overwriting any handle held before. */
    method SetRealtimeMode(now: int, handle: TimerHandle)
      requires Valid()
      modifies this
      ensures Valid()
      ensures State() == old(State()).(mode := Realtime,
                                       realtimeParams := old(realtimeParams).(now := Some(now)),
                                       rtInterval := Some(handle))
    {
      UpdateNow(now);
      rtInterval := Some(handle);
    }

    /** `setHistoricMode`: historic mode and the timer handle dropped; the timer
        itself is not cleared. */
    method SetHistoricMode()
      requires Valid()
      modifies this
      ensures Valid()
      ensures State() == old(State()).(mode := Historic, rtInterval := None)
    {
      mode := Historic;
      rtInterval := None;
    }

    /** `handleStationsSelectChange`: the first station with the chosen
        identifier, or none; a string value selects none. Without a fetched list
        the handler throws and nothing changes. */
    method HandleStationsSelectChange(newId: SelectValue) returns (completed: bool)
      requires Valid()
      modifies this
      ensures Valid()
      ensures completed <==> old(stations).Some?
      ensures State() == if completed
                         then old(State()).(station := FirstWithId(old(stations).value, StrictTarget(newId)))
                         else old(State())
    {
      if stations.None? {
        return false;
      }
      station := Find(stations.value, StrictTarget(newId));
      completed := true;
    }

    /** `handleTimeRangeLastTimeSelectChange`: only the relative window changes. */
    method HandleTimeRangeLastTimeSelectChange(value: string)
      requires Valid()
      modifies this
      ensures Valid()
      ensures State() == old(State()).(realtimeParams := old(realtimeParams).(lastTime := value))
    {
      realtimeParams := realtimeParams.(lastTime := value);
    }

    /** `handleAggregationFunctionSelectChange`. */
    method HandleAggregationFunctionSelectChange(value: string)
      requires Valid()
      modifies this
      ensures Valid()
      ensures State() == old(State()).(aggregationFunc := value)
    {
      aggregationFunc := value;
    }

    /** `handleGroupingIntervalSelectChange`. */
    method HandleGroupingIntervalSelectChange(value: string)
      requires Valid()
      modifies this
      ensures Valid()
      ensures State() == old(State()).(groupingInterval := value)
    {
      groupingInterval := value;
    }

    /** The plots `render` produces. */
    function Plots(): (r: seq<PlotQuery>)
      reads this
      ensures r != [] <==> !loading && station.Some?
      ensures forall q :: q in r ==> q.station == station.value && q.timeRange == ActiveTimeRange(State())
    {
      PlotQueries(State())
    }
  }
}
