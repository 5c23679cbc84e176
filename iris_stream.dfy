/** The SeedLink bridge, as sequential transitions on one stream object: start
    and stop guards on the status record, the stop flag that makes the data
    callback drop traces, the teardown of the streaming thread, and the relay
    loop that registers unknown stations, stores each trace as a waveform,
    queues a processing request, counts frames and keeps a downsampled copy of
    the latest trace for the dashboard. */
module IrisStream {
  import opened Models
  import opened Store
  import opened Pipeline

  datatype LiveStatus = LiveStatus(
    running: bool,
    frames: nat,
    network: Option<string>,
    station: Option<string>,
    location: Option<string>,
    channel: Option<string>,
    lastFrame: Option<Time>,
    error: Option<string>)

  const InitialStatus: LiveStatus := LiveStatus(false, 0, None, None, None, None, None, None)

  /** A decoded trace as the streaming client delivers it. */
  datatype Trace = Trace(
    network: string,
    station: string,
    location: string,
    channel: string,
    startTime: Time,
    samplingRate: real,
    data: seq<real>)

  /** The most recent trace, reduced for plotting. */
  datatype LiveFrame = LiveFrame(
    network: string,
    station: string,
    channel: string,
    startTime: Time,
    samplingRate: real,
    samples: seq<real>)

  /** What the outside world supplies while one trace is handled: where the
      raw bytes were stored and when, and the clock reading for `last_frame`. */
  datatype Arrival = Arrival(filePath: string, receivedAt: Time, now: Time)

  /** `max(1, n // 800)`. */
  function DownsampleStep(n: nat): (step: nat)
    ensures step >= 1
    ensures n < 1600 ==> step == 1
    ensures n >= 1600 ==> step == n / 800
    ensures step <= n / 800 + 1 && n / 800 <= step
  {
    if n / 800 > 1 then n / 800 else 1
  }

  /** `s[::step]`: every step-th element, starting with the first. */
  function Stride(s: seq<real>, step: nat): seq<real>
    requires step >= 1
    decreases |s|
  {
    if |s| == 0 then [] else [s[0]] + Stride(if step < |s| then s[step..] else [], step)
  }

  lemma DivOfSmall(x: nat, d: nat)
    requires x < d
    ensures x / d == 0
  {
  }

  lemma MulAtLeast(a: int, b: int)
    requires a >= 1 && b >= 1
    ensures a * b >= a
  {
    assert a * b == a * (b - 1) + a;
  }

  lemma MulMono(a: nat, b: nat, c: nat)
    requires b <= c
    ensures a * b <= a * c
  {
    assert a * c == a * b + a * (c - b);
  }

  lemma DivShift(x: nat, d: nat)
    requires d >= 1
    ensures (x + d) / d == x / d + 1
  {
    var q, r := x / d, x % d;
    var q', r' := (x + d) / d, (x + d) % d;
    assert d * q' + r' == d * (q + 1) + r;
    var k := q' - q - 1;
    assert d * k == r - r' by {
      assert d * q' == d * (q + 1) + d * k;
    }
    if k >= 1 {
      MulAtLeast(d, k);
      assert false;
    } else if k <= -1 {
      MulAtLeast(d, -k);
      assert false;
    }
  }

  lemma {:induction false} StrideLength(s: seq<real>, step: nat)
    requires step >= 1
    ensures |Stride(s, step)| == (|s| + step - 1) / step
    decreases |s|
  {
    if |s| == 0 {
      DivOfSmall(step - 1, step);
    } else if step < |s| {
      StrideLength(s[step..], step);
      DivShift(|s| - 1, step);
    } else {
      StrideLength([], step);
      DivOfSmall(|s| - 1, step);
      DivShift(|s| - 1, step);
    }
  }

  /** `i * step` as repeated addition, which keeps the index reasoning linear. */
  function Offset(i: nat, step: nat): nat
  {
    if i == 0 then 0 else Offset(i - 1, step) + step
  }

  lemma {:induction false} OffsetIsProduct(i: nat, step: nat)
    ensures Offset(i, step) == i * step
  {
    if i > 0 {
      OffsetIsProduct(i - 1, step);
      MulSucc(i - 1, step);
    }
  }

  lemma {:induction false} StrideAt(s: seq<real>, step: nat, i: nat)
    requires step >= 1 && i < |Stride(s, step)|
    ensures Offset(i, step) < |s| && Stride(s, step)[i] == s[Offset(i, step)]
    decreases i
  {
    if i > 0 {
      var rest := if step < |s| then s[step..] else [];
      assert Stride(s, step) == [s[0]] + Stride(rest, step);
      StrideAt(rest, step, i - 1);
      assert Offset(i, step) == step + Offset(i - 1, step);
    }
  }

  lemma MulSucc(a: nat, b: nat)
    ensures (a + 1) * b == a * b + b
  {
  }

  lemma StrideAll(s: seq<real>, step: nat)
    requires step >= 1
    ensures forall i :: 0 <= i < |Stride(s, step)| ==> i * step < |s| && Stride(s, step)[i] == s[i * step]
  {
    forall i | 0 <= i < |Stride(s, step)|
      ensures i * step < |s| && Stride(s, step)[i] == s[i * step]
    {
      StrideAt(s, step, i);
      OffsetIsProduct(i, step);
    }
  }

  /** Whatever the trace length, the plotted frame has fewer than 1600 points. */
  lemma DownsampleLengthBound(n: nat)
    ensures (n + DownsampleStep(n) - 1) / DownsampleStep(n) < 1600
  {
    var q := DownsampleStep(n);
    var x := n + q - 1;
    var len := x / q;
    assert q * len <= x by {
      assert x == q * len + x % q;
    }
    assert n < 800 * q + 800 by {
      assert n == 800 * (n / 800) + n % 800;
    }
    if len >= 1600 {
      MulMono(q, 1600, len);
      assert false;
    }
  }

  /** The dashboard copy of a trace: sample i is input sample i * step, the
      first sample is kept, and the length is the ceiling of n / step. */
  function Downsample(samples: seq<real>): (r: seq<real>)
    ensures |r| == (|samples| + DownsampleStep(|samples|) - 1) / DownsampleStep(|samples|)
    ensures |r| < 1600
    ensures forall i :: 0 <= i < |r| ==>
              i * DownsampleStep(|samples|) < |samples| && r[i] == samples[i * DownsampleStep(|samples|)]
    ensures |samples| > 0 ==> |r| > 0 && r[0] == samples[0]
  {
    var step := DownsampleStep(|samples|);
    StrideLength(samples, step);
    StrideAll(samples, step);
    DownsampleLengthBound(|samples|);
    Stride(samples, step)
  }

  function FrameOf(trace: Trace): (f: LiveFrame)
    ensures f.network == trace.network && f.station == trace.station && f.channel == trace.channel
    ensures f.startTime == trace.startTime && f.samplingRate == trace.samplingRate
    ensures f.samples == Downsample(trace.data)
  {
    LiveFrame(trace.network, trace.station, trace.channel, trace.startTime, trace.samplingRate,
              Downsample(trace.data))
  }

  /** The station registered for a streamed code nobody has registered yet. */
  function StreamedStation(network: string, code: string): (s: Station)
    ensures s.code == code && s.name == network + "-" + code
    ensures s.latitude == 0.0 && s.longitude == 0.0 && s.elevationM == 0.0
    ensures s.status == "streaming" && s.isActive
  {
    NewStation(code, network + "-" + code, 0.0, 0.0).(status := "streaming")
  }

  /** `_handle_trace`: find or register the station by code, store the trace
      as an unprocessed waveform, and queue a processing request for it. */
  method HandleTrace(db: Db, queue: RequestQueue, trace: Trace, arrival: Arrival)
    returns (request: ProcessingRequest)
    requires db.Valid() && queue.Valid()
    modifies db, queue
    ensures db.Valid() && queue.Valid()
    ensures request.stationId in db.stations && db.stations[request.stationId].code == trace.station
    ensures old(HasCode(db.stations, trace.station)) ==> db.stations == old(db.stations)
    ensures !old(HasCode(db.stations, trace.station)) ==>
              request.stationId !in old(db.stations) &&
              db.stations == old(db.stations)[request.stationId := StreamedStation(trace.network, trace.station)]
    ensures request.waveformId !in old(db.waveforms)
    ensures db.waveforms == old(db.waveforms)[request.waveformId :=
              NewWaveform(request.stationId, arrival.filePath, arrival.receivedAt)]
    ensures request.filePath == arrival.filePath && request.receivedAt == arrival.receivedAt
    ensures queue.items == old(queue.items) + [request]
    ensures db.picks == old(db.picks) && db.events == old(db.events)
  {
    var stationId := db.FindOrCreateStation(StreamedStation(trace.network, trace.station));
    var waveformId := db.AddWaveform(NewWaveform(stationId, arrival.filePath, arrival.receivedAt));
    request := ProcessingRequest(waveformId, stationId, arrival.filePath, arrival.receivedAt);
    queue.Put(request);
  }

  /** The request made for a trace and its arrival: for a station that
      `stations` holds under the trace's code, with the arrival's path and
      time. */
  ghost predicate RelayedOne(stations: map<nat, Station>, request: ProcessingRequest, trace: Trace, arrival: Arrival)
  {
    && request.stationId in stations
    && stations[request.stationId].code == trace.station
    && request.filePath == arrival.filePath
    && request.receivedAt == arrival.receivedAt
  }

  /** `requests[k]` is the request made for `traces[k]` and `arrivals[k]`. */
  ghost predicate Relayed(stations: map<nat, Station>, requests: seq<ProcessingRequest>, traces: seq<Trace>,
                          arrivals: seq<Arrival>)
  {
    |requests| <= |traces| && |requests| <= |arrivals| &&
    (requests == [] ||
     var n := |requests| - 1;
     Relayed(stations, requests[..n], traces, arrivals) && RelayedOne(stations, requests[n], traces[n], arrivals[n]))
  }

  /** What `Relayed` says of each request. */
  lemma {:induction false} RelayedMeans(stations: map<nat, Station>, requests: seq<ProcessingRequest>,
                                        traces: seq<Trace>, arrivals: seq<Arrival>)
    requires Relayed(stations, requests, traces, arrivals)
    ensures |requests| <= |traces| && |requests| <= |arrivals|
    ensures forall k :: 0 <= k < |requests| ==>
              && requests[k].stationId in stations
              && stations[requests[k].stationId].code == traces[k].station
              && requests[k].filePath == arrivals[k].filePath
              && requests[k].receivedAt == arrivals[k].receivedAt
  {
    if requests != [] {
      var n := |requests| - 1;
      var front := requests[..n];
      RelayedMeans(stations, front, traces, arrivals);
      forall k | 0 <= k < n
        ensures RelayedOne(stations, requests[k], traces[k], arrivals[k])
      {
        assert front[k] == requests[k];
      }
    }
  }

  /** Relayed requests stay relayed while stations are only added. */
  lemma {:induction false} RelayedKept(stations: map<nat, Station>, stations': map<nat, Station>,
                                       requests: seq<ProcessingRequest>, traces: seq<Trace>, arrivals: seq<Arrival>)
    requires Relayed(stations, requests, traces, arrivals) && KeepsStations(stations, stations')
    ensures Relayed(stations', requests, traces, arrivals)
  {
    if requests != [] {
      RelayedKept(stations, stations', requests[..|requests| - 1], traces, arrivals);
    }
  }

  lemma RelayedSnoc(stations: map<nat, Station>, stations': map<nat, Station>, requests: seq<ProcessingRequest>,
                    request: ProcessingRequest, traces: seq<Trace>, arrivals: seq<Arrival>)
    requires Relayed(stations, requests, traces, arrivals)
    requires |requests| < |traces| && |requests| < |arrivals|
    requires KeepsStations(stations, stations')
    requires RelayedOne(stations', request, traces[|requests|], arrivals[|requests|])
    ensures Relayed(stations', requests + [request], traces, arrivals)
  {
    RelayedKept(stations, stations', requests, traces, arrivals);
    assert (requests + [request])[..|requests|] == requests;
  }

  /** The counters, the latest frame and the pipeline queue after the first
      `|requests|` traces have been relayed. */
  ghost predicate Progressed(status: LiveStatus, latest: Option<LiveFrame>, items: seq<ProcessingRequest>,
                             status0: LiveStatus, latest0: Option<LiveFrame>, items0: seq<ProcessingRequest>,
                             requests: seq<ProcessingRequest>, traces: seq<Trace>, arrivals: seq<Arrival>)
  {
    && |requests| <= |traces| && |requests| <= |arrivals|
    && status == status0.(frames := status0.frames + |requests|,
                          lastFrame := if requests == [] then status0.lastFrame
                                       else Some(arrivals[|requests| - 1].now))
    && latest == (if requests == [] then latest0 else Some(FrameOf(traces[|requests| - 1])))
    && items == items0 + requests
  }

  lemma ProgressedStep(status: LiveStatus, latest: Option<LiveFrame>, items: seq<ProcessingRequest>,
                       status0: LiveStatus, latest0: Option<LiveFrame>, items0: seq<ProcessingRequest>,
                       requests: seq<ProcessingRequest>, request: ProcessingRequest,
                       traces: seq<Trace>, arrivals: seq<Arrival>)
    requires Progressed(status, latest, items, status0, latest0, items0, requests, traces, arrivals)
    requires |requests| < |traces| && |requests| < |arrivals|
    ensures Progressed(status.(frames := status.frames + 1, lastFrame := Some(arrivals[|requests|].now)),
                       Some(FrameOf(traces[|requests|])), items + [request],
                       status0, latest0, items0, requests + [request], traces, arrivals)
  {
    assert items0 + requests + [request] == items0 + (requests + [request]);
  }

  /** The waveform keys of the requests. */
  function WaveformKeys(requests: seq<ProcessingRequest>): (keys: set<nat>)
    ensures forall k :: 0 <= k < |requests| ==> requests[k].waveformId in keys
  {
    set k | 0 <= k < |requests| :: requests[k].waveformId
  }

  /** The stations the first `n` traces would register. */
  function StreamedStations(traces: seq<Trace>, n: nat): (r: set<Station>)
    requires n <= |traces|
  {
    set k | 0 <= k < n :: StreamedStation(traces[k].network, traces[k].station)
  }

  /** The station table after the relay loop handled `requests` for the
      first traces: a request whose station key is already present found
      its station by code; any other registered the trace's station under
      that key. */
  function RegisteredStations(stations0: map<nat, Station>, requests: seq<ProcessingRequest>, traces: seq<Trace>)
    : map<nat, Station>
    requires |requests| <= |traces|
  {
    if requests == [] then stations0
    else
      var n := |requests| - 1;
      var before := RegisteredStations(stations0, requests[..n], traces);
      if requests[n].stationId in before then before
      else before[requests[n].stationId := StreamedStation(traces[n].network, traces[n].station)]
  }

  /** The waveform table after the relay loop stored one waveform per
      request, under the request's key, with its arrival's path and time. */
  function StoredWaveforms(waveforms0: map<nat, Waveform>, requests: seq<ProcessingRequest>, arrivals: seq<Arrival>)
    : map<nat, Waveform>
    requires |requests| <= |arrivals|
  {
    if requests == [] then waveforms0
    else
      var n := |requests| - 1;
      StoredWaveforms(waveforms0, requests[..n], arrivals)[requests[n].waveformId :=
        NewWaveform(requests[n].stationId, arrivals[n].filePath, arrivals[n].receivedAt)]
  }

  /** Each request's waveform key was fresh when it was stored. */
  ghost predicate FreshKeys(waveforms0: map<nat, Waveform>, requests: seq<ProcessingRequest>, arrivals: seq<Arrival>)
    requires |requests| <= |arrivals|
  {
    requests == [] ||
    var n := |requests| - 1;
    FreshKeys(waveforms0, requests[..n], arrivals) &&
    requests[n].waveformId !in StoredWaveforms(waveforms0, requests[..n], arrivals)
  }

  /** Registration keeps every station already there, and every station it
      adds is the streamed station of one of the traces. */
  lemma {:induction false} RegisteredStationsFrame(stations0: map<nat, Station>, requests: seq<ProcessingRequest>,
                                                   traces: seq<Trace>)
    requires |requests| <= |traces|
    ensures KeepsStations(stations0, RegisteredStations(stations0, requests, traces))
    ensures forall id :: id in RegisteredStations(stations0, requests, traces) && id !in stations0 ==>
              RegisteredStations(stations0, requests, traces)[id] in StreamedStations(traces, |requests|)
    ensures forall k :: 0 <= k < |requests| ==> requests[k].stationId in RegisteredStations(stations0, requests, traces)
  {
    if requests != [] {
      var n := |requests| - 1;
      var front := requests[..n];
      RegisteredStationsFrame(stations0, front, traces);
      assert StreamedStations(traces, n + 1) ==
             StreamedStations(traces, n) + {StreamedStation(traces[n].network, traces[n].station)};
      forall k | 0 <= k < n
        ensures requests[k].stationId in RegisteredStations(stations0, requests, traces)
      {
        assert front[k] == requests[k];
      }
    }
  }

  /** Storing fresh keys keeps every waveform already there. */
  lemma {:induction false} StoredWaveformsKeep(waveforms0: map<nat, Waveform>, requests: seq<ProcessingRequest>,
                                               arrivals: seq<Arrival>)
    requires |requests| <= |arrivals| && FreshKeys(waveforms0, requests, arrivals)
    ensures forall id :: id in waveforms0 ==>
              id in StoredWaveforms(waveforms0, requests, arrivals) &&
              StoredWaveforms(waveforms0, requests, arrivals)[id] == waveforms0[id]
  {
    if requests != [] {
      StoredWaveformsKeep(waveforms0, requests[..|requests| - 1], arrivals);
    }
  }

  /** The relay loop adds no waveform key but the requests' own. */
  lemma {:induction false} StoredWaveformsKeys(waveforms0: map<nat, Waveform>, requests: seq<ProcessingRequest>,
                                               arrivals: seq<Arrival>)
    requires |requests| <= |arrivals|
    ensures forall id :: id in StoredWaveforms(waveforms0, requests, arrivals) ==>
              id in waveforms0 || id in WaveformKeys(requests)
  {
    if requests != [] {
      var n := |requests| - 1;
      var front := requests[..n];
      StoredWaveformsKeys(waveforms0, front, arrivals);
      forall id | id in WaveformKeys(front)
        ensures id in WaveformKeys(requests)
      {
        var k :| 0 <= k < n && front[k].waveformId == id;
        assert front[k] == requests[k];
      }
    }
  }

  /** Each request's key was not in the table before the loop, and holds
      that request's waveform, with its arrival's path and time, after it. */
  lemma {:induction false} StoredWaveformsContent(waveforms0: map<nat, Waveform>, requests: seq<ProcessingRequest>,
                                                  arrivals: seq<Arrival>)
    requires |requests| <= |arrivals| && FreshKeys(waveforms0, requests, arrivals)
    ensures forall k :: 0 <= k < |requests| ==>
              && requests[k].waveformId !in waveforms0
              && requests[k].waveformId in StoredWaveforms(waveforms0, requests, arrivals)
              && StoredWaveforms(waveforms0, requests, arrivals)[requests[k].waveformId] ==
                 NewWaveform(requests[k].stationId, arrivals[k].filePath, arrivals[k].receivedAt)
  {
    if requests != [] {
      var n := |requests| - 1;
      var front := requests[..n];
      StoredWaveformsContent(waveforms0, front, arrivals);
      StoredWaveformsKeep(waveforms0, front, arrivals);
      forall k | 0 <= k < n
        ensures requests[k].waveformId !in waveforms0 && requests[k].waveformId != requests[n].waveformId
      {
        assert front[k] == requests[k];
      }
    }
  }

  /** One relayed trace extends the history functions by one request. */
  lemma RelayStep(stations0: map<nat, Station>, stations: map<nat, Station>, stations': map<nat, Station>,
                  waveforms0: map<nat, Waveform>, waveforms: map<nat, Waveform>, waveforms': map<nat, Waveform>,
                  requests: seq<ProcessingRequest>, requests': seq<ProcessingRequest>, request: ProcessingRequest,
                  traces: seq<Trace>, arrivals: seq<Arrival>)
    requires |requests| < |traces| && |requests| < |arrivals| && requests' == requests + [request]
    requires stations == RegisteredStations(stations0, requests, traces)
    requires waveforms == StoredWaveforms(waveforms0, requests, arrivals) && FreshKeys(waveforms0, requests, arrivals)
    requires request.stationId in stations'
    requires stations' == stations ||
             (request.stationId !in stations &&
              stations' == stations[request.stationId := StreamedStation(traces[|requests|].network,
                                                                          traces[|requests|].station)])
    requires request.waveformId !in waveforms
    requires waveforms' == waveforms[request.waveformId :=
               NewWaveform(request.stationId, arrivals[|requests|].filePath, arrivals[|requests|].receivedAt)]
    ensures stations' == RegisteredStations(stations0, requests', traces)
    ensures waveforms' == StoredWaveforms(waveforms0, requests', arrivals) && FreshKeys(waveforms0, requests', arrivals)
  {
    assert requests'[..|requests|] == requests;
  }

  /** Every station of `before` is still in `after`, unchanged. */
  ghost predicate KeepsStations(before: map<nat, Station>, after: map<nat, Station>)
  {
    forall id :: id in before ==> id in after && after[id] == before[id]
  }

  class LiveStream {
    var status: LiveStatus
    var latestFrame: Option<LiveFrame>
    var stopRequested: bool
    var handoff: seq<Trace>

    constructor ()
      ensures status == InitialStatus && latestFrame == None && !stopRequested && handoff == []
    {
      status := InitialStatus;
      latestFrame := None;
      stopRequested := false;
      handoff := [];
    }

    /** `start_live_stream`: refused while running; otherwise clears the stop
        flag and resets the counters and selectors, keeping `last_frame`. */
    method Start(network: string, station: string, location: string, channel: string)
      returns (started: bool)
      modifies this
      ensures started <==> !old(status.running)
      ensures !started ==> status == old(status) && stopRequested == old(stopRequested)
      ensures started ==> !stopRequested
      ensures started ==> status == LiveStatus(true, 0, Some(network), Some(station), Some(location),
                                               Some(channel), old(status.lastFrame), None)
      ensures latestFrame == old(latestFrame) && handoff == old(handoff)
    {
      if status.running {
        return false;
      }
      stopRequested := false;
      status := status.(running := true, frames := 0, network := Some(network), station := Some(station),
                        location := Some(location), channel := Some(channel), error := None);
      started := true;
    }

    /** `stop_live_stream`: refused unless running; otherwise raises the stop
        flag and clears `running`. */
    method Stop() returns (stopped: bool)
      modifies this
      ensures stopped <==> old(status.running)
      ensures !stopped ==> status == old(status) && stopRequested == old(stopRequested)
      ensures stopped ==> stopRequested && status == old(status).(running := false)
      ensures latestFrame == old(latestFrame) && handoff == old(handoff)
    {
      if !status.running {
        return false;
      }
      stopRequested := true;
      status := status.(running := false);
      stopped := true;
    }

    /** `get_live_status`: the status as a value. */
    function GetLiveStatus(): (s: LiveStatus)
      reads this
      ensures s.running == status.running && s.frames == status.frames
      ensures s.network == status.network && s.station == status.station
      ensures s.location == status.location && s.channel == status.channel
      ensures s.lastFrame == status.lastFrame && s.error == status.error
    {
      status
    }

    /** `get_latest_frame`. */
    function GetLatestFrame(): Option<LiveFrame>
      reads this
    {
      latestFrame
    }

    /** `_on_trace`: once the stop flag is up, traces are dropped. */
    method OnTrace(trace: Trace) returns (forwarded: bool)
      modifies this`handoff
      ensures forwarded <==> !stopRequested
      ensures handoff == if forwarded then old(handoff) + [trace] else old(handoff)
    {
      if stopRequested {
        return false;
      }
      handoff := handoff + [trace];
      forwarded := true;
    }

    /** The end of `_pump_traces`: a failure is recorded, and however the
        streaming call ended the stop flag is up and `running` is cleared. */
    method PumpExit(failure: Option<string>)
      modifies this
      ensures stopRequested && !status.running
      ensures status == old(status).(running := false,
                                     error := if failure.Some? then failure else old(status.error))
      ensures latestFrame == old(latestFrame) && handoff == old(handoff)
    {
      if failure.Some? {
        status := status.(error := failure);
      }
      stopRequested := true;
      status := status.(running := false);
    }

    /** One turn of the relay loop: take the oldest trace, handle it, then
        add one frame, stamp `last_frame` and replace the latest frame. */
    method RelayOne(db: Db, queue: RequestQueue, arrival: Arrival) returns (request: ProcessingRequest)
      requires db.Valid() && queue.Valid() && handoff != []
      modifies this, db, queue
      ensures db.Valid() && queue.Valid()
      ensures handoff == old(handoff)[1..] && stopRequested == old(stopRequested)
      ensures status == old(status).(frames := old(status.frames) + 1, lastFrame := Some(arrival.now))
      ensures latestFrame == Some(FrameOf(old(handoff)[0]))
      ensures queue.items == old(queue.items) + [request]
      ensures request.stationId in db.stations && db.stations[request.stationId].code == old(handoff)[0].station
      ensures request.filePath == arrival.filePath && request.receivedAt == arrival.receivedAt
      ensures KeepsStations(old(db.stations), db.stations)
      ensures old(HasCode(db.stations, handoff[0].station)) ==> db.stations == old(db.stations)
      ensures !old(HasCode(db.stations, handoff[0].station)) ==>
                request.stationId !in old(db.stations) &&
                db.stations == old(db.stations)[request.stationId :=
                                 StreamedStation(old(handoff)[0].network, old(handoff)[0].station)]
      ensures db.stations == old(db.stations) ||
              (request.stationId !in old(db.stations) &&
               db.stations == old(db.stations)[request.stationId :=
                                StreamedStation(old(handoff)[0].network, old(handoff)[0].station)])
      ensures request.waveformId !in old(db.waveforms)
      ensures db.waveforms == old(db.waveforms)[request.waveformId :=
                NewWaveform(request.stationId, arrival.filePath, arrival.receivedAt)]
      ensures db.picks == old(db.picks) && db.events == old(db.events)
    {
      var trace := handoff[0];
      handoff := handoff[1..];
      request := HandleTrace(db, queue, trace, arrival);
      status := status.(frames := status.frames + 1, lastFrame := Some(arrival.now));
      latestFrame := Some(FrameOf(trace));
    }

    /** `_consume_traces`: while the stop flag is down, relay traces oldest
        first; `requests[k]` is what the k-th trace put on the pipeline queue. */
    method ConsumeTraces(db: Db, queue: RequestQueue, arrivals: seq<Arrival>)
      returns (requests: seq<ProcessingRequest>)
      requires db.Valid() && queue.Valid() && |arrivals| >= |handoff|
      modifies this, db, queue
      ensures db.Valid() && queue.Valid()
      ensures |requests| == if old(stopRequested) then 0 else |old(handoff)|
      ensures handoff == old(handoff)[|requests|..] && stopRequested == old(stopRequested)
      ensures status == old(status).(frames := old(status.frames) + |requests|,
                                     lastFrame := if requests == [] then old(status.lastFrame)
                                                  else Some(arrivals[|requests| - 1].now))
      ensures latestFrame == if requests == [] then old(latestFrame)
                             else Some(FrameOf(old(handoff)[|requests| - 1]))
      ensures queue.items == old(queue.items) + requests
      ensures Relayed(db.stations, requests, old(handoff), arrivals)
      ensures db.stations == RegisteredStations(old(db.stations), requests, old(handoff))
      ensures db.waveforms == StoredWaveforms(old(db.waveforms), requests, arrivals)
      ensures FreshKeys(old(db.waveforms), requests, arrivals)
      ensures db.picks == old(db.picks) && db.events == old(db.events)
    {
      ghost var traces, status0, latest0, items0, stations0 := handoff, status, latestFrame, queue.items, db.stations;
      ghost var waveforms0 := db.waveforms;
      requests := [];
      while !stopRequested && handoff != []
        invariant db.Valid() && queue.Valid()
        invariant stopRequested == old(stopRequested)
        invariant requests == [] || !stopRequested
        invariant |requests| <= |traces| && handoff == traces[|requests|..]
        invariant Progressed(status, latestFrame, queue.items, status0, latest0, items0, requests, traces, arrivals)
        invariant Relayed(db.stations, requests, traces, arrivals)
        invariant db.stations == RegisteredStations(stations0, requests, traces)
        invariant db.waveforms == StoredWaveforms(waveforms0, requests, arrivals)
        invariant FreshKeys(waveforms0, requests, arrivals)
        invariant db.picks == old(db.picks) && db.events == old(db.events)
        decreases |handoff|
      {
        ghost var stations, waveforms, status1, latest1, items1 := db.stations, db.waveforms, status, latestFrame, queue.items;
        assert handoff[0] == traces[|requests|];
        var request := RelayOne(db, queue, arrivals[|requests|]);
        ProgressedStep(status1, latest1, items1, status0, latest0, items0, requests, request, traces, arrivals);
        RelayedSnoc(stations, db.stations, requests, request, traces, arrivals);
        ghost var requests0 := requests;
        requests := requests + [request];
        RelayStep(stations0, stations, db.stations, waveforms0, waveforms, db.waveforms, requests0, requests, request,
                  traces, arrivals);
      }
      assert traces == old(handoff) && status0 == old(status) && latest0 == old(latestFrame) && items0 == old(queue.items);
      assert stations0 == old(db.stations) && waveforms0 == old(db.waveforms);
    }
  }
}
