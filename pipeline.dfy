/** The processing pipeline: a single worker drains a FIFO queue of processing
    requests; each request yields four simulated phase picks, one event whose
    origin is the earliest pick, the picks stamped with that event, and its
    waveform marked processed. Random draws are parameters constrained to the
    ranges the draws come from. */
module Pipeline {
  import opened Models
  import opened Store

  datatype ProcessingRequest = ProcessingRequest(
    waveformId: nat,
    stationId: nat,
    filePath: string,
    receivedAt: Time)

  const PhaseTypes: seq<string> := ["Pg", "Sg", "Pn", "Sn"]
  const InitialMotions: set<string> := {"up", "down"}
  const EarthquakeTypes: set<string> := {"tectonic", "explosion", "volcanic"}

  /** The draws behind one simulated pick: an offset from uniform(0.5, 6.0), a
      quality from uniform(0.7, 0.99) and two random choices. */
  datatype PickDraw = PickDraw(offset: real, quality: real, motion: string, kind: string)

  predicate PickDrawInRange(d: PickDraw)
  {
    0.5 <= d.offset <= 6.0 && 0.7 <= d.quality <= 0.99 &&
    d.motion in InitialMotions && d.kind in EarthquakeTypes
  }

  /** The draws behind one event: two location offsets from uniform(-0.05, 0.05),
      a Gaussian depth draw, and a magnitude from uniform(1.5, 4.5) already
      rounded to two decimals (rounding keeps it within the bounds). */
  datatype EventDraw = EventDraw(dLat: real, dLon: real, gauss: real, magnitude: real)

  predicate EventDrawInRange(d: EventDraw)
  {
    -0.05 <= d.dLat <= 0.05 && -0.05 <= d.dLon <= 0.05 && 1.5 <= d.magnitude <= 4.5
  }

  /** Everything random the handling of one request consumes. */
  datatype RequestDraws = RequestDraws(picks: seq<PickDraw>, event: EventDraw)

  predicate RequestDrawsInRange(d: RequestDraws)
  {
    |d.picks| == 4 && (forall i :: 0 <= i < 4 ==> PickDrawInRange(d.picks[i])) &&
    EventDrawInRange(d.event)
  }

  /** What every simulated pick of a request satisfies. */
  ghost predicate SimulatedFor(request: ProcessingRequest, picks: seq<PhasePick>)
  {
    && |picks| == 4
    && forall i :: 0 <= i < 4 ==>
         && picks[i].phaseType == PhaseTypes[i]
         && picks[i].stationId == request.stationId
         && picks[i].eventId == None
         && request.receivedAt + 0.5 <= picks[i].pickTime <= request.receivedAt + 6.0
         && 0.7 <= picks[i].quality <= 0.99
         && picks[i].initialMotion.Some? && picks[i].initialMotion.value in InitialMotions
         && picks[i].earthquakeType.Some? && picks[i].earthquakeType.value in EarthquakeTypes
  }

  /** The pick made for label `i` from its draws. */
  function SimulatedPick(request: ProcessingRequest, i: nat, d: PickDraw): PhasePick
    requires i < |PhaseTypes|
  {
    PhasePick(request.stationId, None, PhaseTypes[i], request.receivedAt + d.offset, d.quality,
              Some(d.motion), Some(d.kind))
  }

  /** The batch `_simulate_phase_picks` makes: one pick per phase label, in
      label order, each offset from the request's arrival by its own draw. */
  function SimulatedPicks(request: ProcessingRequest, draws: seq<PickDraw>): (picks: seq<PhasePick>)
    requires |draws| == 4 && forall i :: 0 <= i < 4 ==> PickDrawInRange(draws[i])
    ensures SimulatedFor(request, picks)
    ensures forall i :: 0 <= i < 4 ==>
              picks[i].pickTime == request.receivedAt + draws[i].offset &&
              picks[i].quality == draws[i].quality
  {
    var picks := seq(4, i requires 0 <= i < 4 => SimulatedPick(request, i, draws[i]));
    forall i | 0 <= i < 4
      ensures picks[i] == SimulatedPick(request, i, draws[i]) && PickDrawInRange(draws[i])
    {
    }
    picks
  }

  /** `_simulate_phase_picks`, the loop over the phase labels. */
  method SimulatePhasePicks(request: ProcessingRequest, draws: seq<PickDraw>) returns (picks: seq<PhasePick>)
    requires |draws| == 4 && forall i :: 0 <= i < 4 ==> PickDrawInRange(draws[i])
    ensures picks == SimulatedPicks(request, draws)
  {
    picks := [];
    for i := 0 to |PhaseTypes|
      invariant |picks| == i
      invariant forall k :: 0 <= k < i ==> picks[k] == SimulatedPick(request, k, draws[k])
    {
      var d := draws[i];
      var pick := PhasePick(request.stationId, None, PhaseTypes[i], request.receivedAt + d.offset,
                            d.quality, Some(d.motion), Some(d.kind));
      picks := picks + [pick];
    }
  }

  /** `min(p.pick_time for p in picks)`. */
  function EarliestPickTime(picks: seq<PhasePick>): (t: Time)
    requires |picks| > 0
    ensures forall i :: 0 <= i < |picks| ==> t <= picks[i].pickTime
    ensures exists i :: 0 <= i < |picks| && t == picks[i].pickTime
  {
    if |picks| == 1 then picks[0].pickTime
    else
      var rest := EarliestPickTime(picks[1..]);
      assert forall i :: 1 <= i < |picks| ==> picks[i] == picks[1..][i - 1];
      if picks[0].pickTime <= rest then picks[0].pickTime else rest
  }

  /** The event `_associate_event` builds for a batch of picks at a station. */
  function AssociatedEvent(station: Station, stationId: nat, picks: seq<PhasePick>, draw: EventDraw): (e: Event)
    requires |picks| > 0 && EventDrawInRange(draw)
    ensures forall i :: 0 <= i < |picks| ==> e.originTime <= picks[i].pickTime
    ensures exists i :: 0 <= i < |picks| && e.originTime == picks[i].pickTime
    ensures e.preferredStationId == Some(stationId) && e.eventType == "earthquake"
    ensures 1.5 <= e.magnitude <= 4.5 && e.depthKm >= 0.0
    ensures Abs(e.latitude - station.latitude) <= 0.05
    ensures Abs(e.longitude - station.longitude) <= 0.05
  {
    Event(EarliestPickTime(picks), station.latitude + draw.dLat, station.longitude + draw.dLon,
          Abs(draw.gauss), draw.magnitude, "earthquake", Some(stationId))
  }

  /** `_associate_event`: the station lookup (`.one()`) fails for an unknown
      station and `min` fails for an empty batch, in that order; either failure
      writes nothing. Otherwise one event is inserted and its key returned. */
  method AssociateEvent(db: Db, stationId: nat, picks: seq<PhasePick>, draw: EventDraw) returns (r: Result<nat>)
    requires db.Valid() && EventDrawInRange(draw)
    modifies db
    ensures db.Valid()
    ensures r.Err? <==> stationId !in old(db.stations) || |picks| == 0
    ensures r.Err? ==> db.events == old(db.events) && db.nextId == old(db.nextId)
    ensures r.Ok? ==> r.value == old(db.nextId) && db.nextId == old(db.nextId) + 1 &&
                      db.events == old(db.events)[r.value := AssociatedEvent(old(db.stations)[stationId], stationId, picks, draw)]
    ensures db.stations == old(db.stations) && db.waveforms == old(db.waveforms) && db.picks == old(db.picks)
  {
    if stationId !in db.stations {
      return Err("no station with this id");
    }
    if |picks| == 0 {
      return Err("min() of an empty batch");
    }
    var event := AssociatedEvent(db.stations[stationId], stationId, picks, draw);
    var id := db.AddEvent(event);
    r := Ok(id);
  }

  /** The picks with the event key set and every other field as it was. */
  function StampEvent(picks: seq<PhasePick>, eventId: nat): (r: seq<PhasePick>)
    ensures |r| == |picks|
    ensures forall i :: 0 <= i < |r| ==>
              && r[i].eventId == Some(eventId)
              && r[i].stationId == picks[i].stationId
              && r[i].phaseType == picks[i].phaseType
              && r[i].pickTime == picks[i].pickTime
              && r[i].quality == picks[i].quality
              && r[i].initialMotion == picks[i].initialMotion
              && r[i].earthquakeType == picks[i].earthquakeType
  {
    seq(|picks|, i requires 0 <= i < |picks| => picks[i].(eventId := Some(eventId)))
  }

  /** The pick table holds `before` unchanged plus `stamped[..n]` under the
      keys `base` to `base + n - 1`, and nothing else. */
  ghost predicate PicksPlaced(picks: map<nat, PhasePick>, before: map<nat, PhasePick>, base: nat,
                              stamped: seq<PhasePick>, n: nat)
    requires n <= |stamped|
  {
    && (forall id :: base <= id < base + n ==> id in picks && picks[id] == stamped[id - base])
    && (forall id :: id in before ==> id in picks && picks[id] == before[id])
    && (forall id :: id in picks ==> id in before || base <= id < base + n)
  }

  lemma PicksPlacedStep(picks: map<nat, PhasePick>, before: map<nat, PhasePick>, base: nat,
                        stamped: seq<PhasePick>, n: nat)
    requires n < |stamped| && PicksPlaced(picks, before, base, stamped, n)
    requires forall id :: id in before ==> id < base
    ensures PicksPlaced(picks[base + n := stamped[n]], before, base, stamped, n + 1)
  {
  }

  /** `_attach_picks_to_event`: each pick gets the event key and is saved, in
      batch order, under consecutive fresh keys. */
  method AttachPicksToEvent(db: Db, eventId: nat, picks: seq<PhasePick>)
    requires db.Valid()
    modifies db
    ensures db.Valid()
    ensures db.nextId == old(db.nextId) + |picks|
    ensures forall id :: old(db.nextId) <= id < db.nextId ==>
              id in db.picks && db.picks[id] == StampEvent(picks, eventId)[id - old(db.nextId)]
    ensures forall id :: id in old(db.picks) ==> id in db.picks && db.picks[id] == old(db.picks)[id]
    ensures forall id :: id in db.picks ==> id in old(db.picks) || old(db.nextId) <= id < db.nextId
    ensures db.stations == old(db.stations) && db.waveforms == old(db.waveforms) && db.events == old(db.events)
  {
    var stamped := StampEvent(picks, eventId);
    ghost var base := db.nextId;
    ghost var before := db.picks;
    for i := 0 to |picks|
      invariant db.Valid()
      invariant db.nextId == base + i
      invariant PicksPlaced(db.picks, before, base, stamped, i)
      invariant db.stations == old(db.stations) && db.waveforms == old(db.waveforms) && db.events == old(db.events)
    {
      PicksPlacedStep(db.picks, before, base, stamped, i);
      var _ := db.AddPick(stamped[i]);
    }
  }

  /** The waveform table after `_update_waveform_processed(id)`. */
  function MarkProcessed(waveforms: map<nat, Waveform>, id: nat): (r: map<nat, Waveform>)
    ensures r.Keys == waveforms.Keys
    ensures forall k :: k in r && k != id ==> r[k] == waveforms[k]
    ensures id in r ==> r[id].processed
    ensures id in r ==> r[id].stationId == waveforms[id].stationId &&
                        r[id].filePath == waveforms[id].filePath &&
                        r[id].receivedAt == waveforms[id].receivedAt
  {
    if id in waveforms then waveforms[id := waveforms[id].(processed := true)] else waveforms
  }

  /** An unknown key leaves the table as it is. */
  lemma MarkProcessedUnknownIsNoOp(waveforms: map<nat, Waveform>, id: nat)
    requires id !in waveforms
    ensures MarkProcessed(waveforms, id) == waveforms
  {
    var r := MarkProcessed(waveforms, id);
    assert forall k :: k in r ==> r[k] == waveforms[k];
  }

  /** Marking twice is marking once. */
  lemma MarkProcessedIdempotent(waveforms: map<nat, Waveform>, id: nat)
    ensures MarkProcessed(MarkProcessed(waveforms, id), id) == MarkProcessed(waveforms, id)
  {
    var once := MarkProcessed(waveforms, id);
    var twice := MarkProcessed(once, id);
    if id in waveforms {
      assert twice[id] == once[id];
    }
    assert forall k :: k in twice ==> twice[k] == once[k];
  }

  /** `_update_waveform_processed`: a no-op when the key is unknown. */
  method UpdateWaveformProcessed(db: Db, waveformId: nat)
    requires db.Valid()
    modifies db
    ensures db.Valid()
    ensures db.waveforms == MarkProcessed(old(db.waveforms), waveformId)
    ensures db.stations == old(db.stations) && db.picks == old(db.picks) &&
            db.events == old(db.events) && db.nextId == old(db.nextId)
  {
    if waveformId in db.waveforms {
      db.waveforms := db.waveforms[waveformId := db.waveforms[waveformId].(processed := true)];
    }
  }

  /** The pick stored under `id` is the `(id - eventId)`-th pick of the event
      saved under `eventId`, for the request's station, no earlier than the
      event's origin time and inside the window the draws allow. */
  ghost predicate PickOfEvent(picks: map<nat, PhasePick>, id: nat, eventId: nat, event: Event,
                              request: ProcessingRequest)
  {
    && eventId < id <= eventId + 4
    && id in picks
    && picks[id].eventId == Some(eventId)
    && picks[id].phaseType == PhaseTypes[id - eventId - 1]
    && picks[id].stationId == request.stationId
    && event.originTime <= picks[id].pickTime
    && request.receivedAt + 0.5 <= picks[id].pickTime <= request.receivedAt + 6.0
  }

  /** The store holds what handling `request` with `draws` created under
      `eventId`: the associated event of the simulated batch, and the batch
      stamped with the event under the next four keys, in label order. */
  ghost predicate RequestRecorded(request: ProcessingRequest, draws: RequestDraws, stations: map<nat, Station>,
                                  events: map<nat, Event>, picks: map<nat, PhasePick>, eventId: nat)
  {
    && RequestDrawsInRange(draws) && request.stationId in stations
    && eventId in events
    && events[eventId] == AssociatedEvent(stations[request.stationId], request.stationId,
                                          SimulatedPicks(request, draws.picks), draws.event)
    && forall id :: eventId < id <= eventId + 4 ==>
         id in picks && picks[id] == StampEvent(SimulatedPicks(request, draws.picks), eventId)[id - eventId - 1]
  }

  /** `_handle_request`: simulate, associate, attach, mark, in that order. Only
      the association can fail (unknown station), and it fails before anything
      is written, so a failed request leaves the store unchanged and its
      waveform unprocessed. */
  method HandleRequest(db: Db, request: ProcessingRequest, draws: RequestDraws) returns (r: Result<nat>)
    requires db.Valid() && RequestDrawsInRange(draws)
    modifies db
    ensures db.Valid()
    ensures r.Err? <==> request.stationId !in old(db.stations)
    ensures r.Err? ==> db.stations == old(db.stations) && db.waveforms == old(db.waveforms) &&
                       db.picks == old(db.picks) && db.events == old(db.events) && db.nextId == old(db.nextId)
    ensures r.Ok? ==> r.value == old(db.nextId) && db.nextId == old(db.nextId) + 5
    ensures r.Ok? ==> r.value in db.events && db.events == old(db.events)[r.value := db.events[r.value]]
    ensures r.Ok? ==> db.events[r.value].preferredStationId == Some(request.stationId)
    ensures r.Ok? ==> forall id :: r.value < id < db.nextId ==> PickOfEvent(db.picks, id, r.value, db.events[r.value], request)
    ensures r.Ok? ==> RequestRecorded(request, draws, db.stations, db.events, db.picks, r.value)
    ensures r.Ok? ==> forall id :: id in db.picks ==> id in old(db.picks) || r.value < id <= r.value + 4
    ensures r.Ok? ==> db.waveforms == MarkProcessed(old(db.waveforms), request.waveformId)
    ensures db.stations == old(db.stations)
    ensures forall id :: id in old(db.picks) ==> id in db.picks && db.picks[id] == old(db.picks)[id]
  {
    var picks := SimulatePhasePicks(request, draws.picks);
    r := AssociateEvent(db, request.stationId, picks, draws.event);
    if r.Err? {
      return;
    }
    ghost var event := db.events[r.value];
    ghost var stamped := StampEvent(picks, r.value);
    AttachPicksToEvent(db, r.value, picks);
    UpdateWaveformProcessed(db, request.waveformId);
    forall id | r.value < id <= r.value + 4
      ensures id in db.picks && db.picks[id] == stamped[id - r.value - 1]
      ensures PickOfEvent(db.picks, id, r.value, event, request)
    {
      var k := id - r.value - 1;
      assert db.picks[id] == stamped[k];
      assert event.originTime <= picks[k].pickTime;
    }
    assert db.events[r.value] == event;
  }

  /** The asyncio queue between the producers and the worker: pending items in
      arrival order and the count of items not yet marked done. */
  class RequestQueue {
    var items: seq<ProcessingRequest>
    var unfinished: nat

    ghost predicate Valid()
      reads this
    {
      |items| <= unfinished
    }

    constructor ()
      ensures Valid() && items == [] && unfinished == 0
    {
      items, unfinished := [], 0;
    }

    /** `enqueue_waveform`. */
    method Put(request: ProcessingRequest)
      requires Valid()
      modifies this
      ensures Valid()
      ensures items == old(items) + [request] && unfinished == old(unfinished) + 1
    {
      items := items + [request];
      unfinished := unfinished + 1;
    }

    /** `get` on a non-empty queue: the oldest item. */
    method Get() returns (request: ProcessingRequest)
      requires Valid() && items != []
      modifies this
      ensures request == old(items)[0] && items == old(items)[1..]
      ensures unfinished == old(unfinished) && unfinished > |items|
    {
      request := items[0];
      items := items[1..];
    }

    /** `task_done` for an item already taken. */
    method TaskDone()
      requires |items| < unfinished
      modifies this
      ensures Valid()
      ensures items == old(items) && unfinished == old(unfinished) - 1
    {
      unfinished := unfinished - 1;
    }
  }

  /** The waveform keys named by the first `n` requests. */
  function Named(pending: seq<ProcessingRequest>, n: nat): (ids: set<nat>)
    requires n <= |pending|
    ensures forall k :: 0 <= k < n ==> pending[k].waveformId in ids
    ensures forall id :: id in ids ==> exists k :: 0 <= k < n && pending[k].waveformId == id
  {
    set k | 0 <= k < n :: pending[k].waveformId
  }

  /** The waveform table after the first `n` requests were marked, oldest first. */
  function WaveformsAfter(pending: seq<ProcessingRequest>, n: nat, waveforms: map<nat, Waveform>): (r: map<nat, Waveform>)
    requires n <= |pending|
    ensures r.Keys == waveforms.Keys
    ensures forall id :: id in r ==>
              r[id] == waveforms[id].(processed := waveforms[id].processed || id in Named(pending, n))
  {
    if n == 0 then waveforms
    else
      var before := WaveformsAfter(pending, n - 1, waveforms);
      assert Named(pending, n) == Named(pending, n - 1) + {pending[n - 1].waveformId};
      MarkProcessed(before, pending[n - 1].waveformId)
  }

  lemma WaveformsAfterStep(pending: seq<ProcessingRequest>, n: nat, waveforms0: map<nat, Waveform>,
                           waveforms: map<nat, Waveform>)
    requires n < |pending| && waveforms == WaveformsAfter(pending, n, waveforms0)
    ensures MarkProcessed(waveforms, pending[n].waveformId) == WaveformsAfter(pending, n + 1, waveforms0)
  {
  }

  /** Request k, handled with `draws[k]`, is recorded under `eventIds[k]`. */
  ghost predicate Recorded(pending: seq<ProcessingRequest>, draws: seq<RequestDraws>, eventIds: seq<nat>,
                           stations: map<nat, Station>, events: map<nat, Event>, picks: map<nat, PhasePick>)
    requires |eventIds| <= |pending| && |eventIds| <= |draws|
  {
    eventIds == [] ||
    var n := |eventIds| - 1;
    Recorded(pending, draws, eventIds[..n], stations, events, picks) &&
    RequestRecorded(pending[n], draws[n], stations, events, picks, eventIds[n])
  }

  /** `Recorded` holds request `k`'s record. */
  lemma {:induction false} RecordedAt(pending: seq<ProcessingRequest>, draws: seq<RequestDraws>, eventIds: seq<nat>,
                                      stations: map<nat, Station>, events: map<nat, Event>,
                                      picks: map<nat, PhasePick>, k: nat,
                                      request: ProcessingRequest, draw: RequestDraws, eventId: nat)
    requires |eventIds| <= |pending| && |eventIds| <= |draws| && k < |eventIds|
    requires request == pending[k] && draw == draws[k] && eventId == eventIds[k]
    requires Recorded(pending, draws, eventIds, stations, events, picks)
    ensures RequestRecorded(request, draw, stations, events, picks, eventId)
  {
    var n := |eventIds| - 1;
    if k < n {
      var front := eventIds[..n];
      assert front[k] == eventIds[k];
      RecordedAt(pending, draws, front, stations, events, picks, k, request, draw, eventId);
    } else {
      assert k == n;
    }
  }

  /** What `Recorded` says of each handled request. */
  lemma RecordedMeans(pending: seq<ProcessingRequest>, draws: seq<RequestDraws>, eventIds: seq<nat>,
                      stations: map<nat, Station>, events: map<nat, Event>, picks: map<nat, PhasePick>)
    requires |eventIds| <= |pending| && |eventIds| <= |draws|
    requires Recorded(pending, draws, eventIds, stations, events, picks)
    ensures forall k :: 0 <= k < |eventIds| ==>
              RequestRecorded(pending[k], draws[k], stations, events, picks, eventIds[k])
  {
    forall k | 0 <= k < |eventIds|
      ensures RequestRecorded(pending[k], draws[k], stations, events, picks, eventIds[k])
    {
      RecordedAt(pending, draws, eventIds, stations, events, picks, k, pending[k], draws[k], eventIds[k]);
    }
  }

  /** A record survives adding keys past its picks. */
  lemma RequestRecordedKept(request: ProcessingRequest, draws: RequestDraws, stations: map<nat, Station>,
                            events: map<nat, Event>, events': map<nat, Event>,
                            picks: map<nat, PhasePick>, picks': map<nat, PhasePick>, eventId: nat, next: nat)
    requires RequestRecorded(request, draws, stations, events, picks, eventId)
    requires eventId + 4 < next && next in events' && events' == events[next := events'[next]]
    requires forall id :: id in picks ==> id in picks' && picks'[id] == picks[id]
    ensures RequestRecorded(request, draws, stations, events', picks', eventId)
  {
  }

  /** Earlier records survive adding keys past all their picks. */
  lemma {:induction false} RecordedKept(pending: seq<ProcessingRequest>, draws: seq<RequestDraws>, eventIds: seq<nat>,
                                        stations: map<nat, Station>, events: map<nat, Event>,
                                        events': map<nat, Event>, picks: map<nat, PhasePick>,
                                        picks': map<nat, PhasePick>, next: nat)
    requires |eventIds| <= |pending| && |eventIds| <= |draws|
    requires Recorded(pending, draws, eventIds, stations, events, picks)
    requires forall k :: 0 <= k < |eventIds| ==> eventIds[k] + 4 < next
    requires next in events' && events' == events[next := events'[next]]
    requires forall id :: id in picks ==> id in picks' && picks'[id] == picks[id]
    ensures Recorded(pending, draws, eventIds, stations, events', picks')
  {
    if eventIds != [] {
      var n := |eventIds| - 1;
      RecordedKept(pending, draws, eventIds[..n], stations, events, events', picks, picks', next);
      RequestRecordedKept(pending[n], draws[n], stations, events, events', picks, picks', eventIds[n], next);
    }
  }

  /** Every earlier record survives one more handled request. */
  lemma RecordsKept(pending: seq<ProcessingRequest>, draws: seq<RequestDraws>, eventIds: seq<nat>,
                    stations: map<nat, Station>, events: map<nat, Event>, events': map<nat, Event>,
                    picks: map<nat, PhasePick>, picks': map<nat, PhasePick>, next: nat)
    requires |eventIds| < |pending| && |eventIds| < |draws|
    requires Recorded(pending, draws, eventIds, stations, events, picks)
    requires forall k :: 0 <= k < |eventIds| ==> eventIds[k] + 4 < next
    requires RequestRecorded(pending[|eventIds|], draws[|eventIds|], stations, events', picks', next)
    requires next in events' && events' == events[next := events'[next]]
    requires forall id :: id in picks ==> id in picks' && picks'[id] == picks[id]
    ensures Recorded(pending, draws, eventIds + [next], stations, events', picks')
  {
    RecordedKept(pending, draws, eventIds, stations, events, events', picks, picks', next);
    assert (eventIds + [next])[..|eventIds|] == eventIds;
  }

  /** The event keys are `base`, `base + 5`, ... up to `next`; the tables
      kept what they held before (`events0`, `picks0`, all below `base`),
      gained events only under those keys and picks only between them. */
  ghost predicate KeysPlaced(eventIds: seq<nat>, events0: map<nat, Event>, events: map<nat, Event>,
                             picks0: map<nat, PhasePick>, picks: map<nat, PhasePick>, base: nat, next: nat)
  {
    && next == base + 5 * |eventIds|
    && (forall k :: 0 <= k < |eventIds| ==> eventIds[k] == base + 5 * k && eventIds[k] !in events0)
    && (forall id :: id in events0 ==> id in events && events[id] == events0[id])
    && (forall id :: id in events ==> id in events0 || id in eventIds)
    && (forall id :: id in picks0 ==> id in picks && picks[id] == picks0[id])
    && (forall id :: id in picks ==> id in picks0 || (base <= id < next && id !in eventIds))
  }

  lemma KeysPlacedStep(eventIds: seq<nat>, events0: map<nat, Event>, events: map<nat, Event>,
                       events': map<nat, Event>, picks0: map<nat, PhasePick>, picks: map<nat, PhasePick>,
                       picks': map<nat, PhasePick>, base: nat, next: nat)
    requires KeysPlaced(eventIds, events0, events, picks0, picks, base, next)
    requires forall id :: id in events0 ==> id < base
    requires forall id :: id in events ==> id < next
    requires next in events' && events' == events[next := events'[next]]
    requires forall id :: id in picks ==> id in picks' && picks'[id] == picks[id]
    requires forall id :: id in picks' ==> id in picks || next < id <= next + 4
    ensures KeysPlaced(eventIds + [next], events0, events', picks0, picks', base, next + 5)
  {
    var ids := eventIds + [next];
    forall k | 0 <= k < |ids|
      ensures ids[k] == base + 5 * k && ids[k] !in events0
    {
    }
    forall id | id in events'
      ensures id in events0 || id in ids
    {
      if id != next {
        assert id in events;
      }
    }
    forall id | id in picks'
      ensures id in picks0 || (base <= id < next + 5 && id !in ids)
    {
    }
  }

  /** The first `|eventIds|` pending requests were handled in order, request k
      with `draws[k]`: its event and four picks are recorded under
      `eventIds[k] == base + 5k` and the next four keys, the tables gained
      nothing else, and the waveform table is `waveforms0` with the waveforms
      of those requests marked. */
  ghost predicate Handled(pending: seq<ProcessingRequest>, draws: seq<RequestDraws>, eventIds: seq<nat>,
                          stations: map<nat, Station>, events0: map<nat, Event>, events: map<nat, Event>,
                          picks0: map<nat, PhasePick>, picks: map<nat, PhasePick>,
                          waveforms0: map<nat, Waveform>, waveforms: map<nat, Waveform>, base: nat, next: nat)
    requires |eventIds| <= |pending| && |eventIds| <= |draws|
  {
    && Recorded(pending, draws, eventIds, stations, events, picks)
    && KeysPlaced(eventIds, events0, events, picks0, picks, base, next)
    && waveforms == WaveformsAfter(pending, |eventIds|, waveforms0)
  }

  /** Handling request `|eventIds|` under key `next` extends `Handled` to
      `eventIds' == eventIds + [next]`. */
  lemma HandledStep(pending: seq<ProcessingRequest>, draws: seq<RequestDraws>, eventIds: seq<nat>, eventIds': seq<nat>,
                    stations: map<nat, Station>, events0: map<nat, Event>, events: map<nat, Event>,
                    events': map<nat, Event>, picks0: map<nat, PhasePick>, picks: map<nat, PhasePick>,
                    picks': map<nat, PhasePick>, waveforms0: map<nat, Waveform>, waveforms: map<nat, Waveform>,
                    waveforms': map<nat, Waveform>, base: nat, next: nat, next': nat)
    requires |eventIds| < |pending| && |eventIds| < |draws| && eventIds' == eventIds + [next] && next' == next + 5
    requires Handled(pending, draws, eventIds, stations, events0, events, picks0, picks, waveforms0, waveforms, base, next)
    requires forall id :: id in events0 ==> id < base
    requires forall id :: id in events ==> id < next
    requires RequestRecorded(pending[|eventIds|], draws[|eventIds|], stations, events', picks', next)
    requires events' == events[next := events'[next]]
    requires forall id :: id in picks ==> id in picks' && picks'[id] == picks[id]
    requires forall id :: id in picks' ==> id in picks || next < id <= next + 4
    requires waveforms' == MarkProcessed(waveforms, pending[|eventIds|].waveformId)
    ensures Handled(pending, draws, eventIds', stations, events0, events', picks0, picks', waveforms0, waveforms',
                    base, next')
  {
    assert forall k :: 0 <= k < |eventIds| ==> eventIds[k] + 4 < next;
    RecordsKept(pending, draws, eventIds, stations, events, events', picks, picks', next);
    KeysPlacedStep(eventIds, events0, events, events', picks0, picks, picks', base, next);
    WaveformsAfterStep(pending, |eventIds|, waveforms0, waveforms);
    assert |eventIds'| == |eventIds| + 1;
  }

  /** What `Handled` means request by request: each handled request has its
      own new earthquake event at its station, the keys grow with the queue
      order, every handled waveform is processed and every other waveform is
      as it was. */
  lemma HandledMeans(pending: seq<ProcessingRequest>, draws: seq<RequestDraws>, eventIds: seq<nat>,
                     stations: map<nat, Station>, events0: map<nat, Event>, events: map<nat, Event>,
                     picks0: map<nat, PhasePick>, picks: map<nat, PhasePick>,
                     waveforms0: map<nat, Waveform>, waveforms: map<nat, Waveform>, base: nat, next: nat)
    requires |eventIds| <= |pending| && |eventIds| <= |draws|
    requires Handled(pending, draws, eventIds, stations, events0, events, picks0, picks, waveforms0, waveforms, base, next)
    ensures forall k :: 0 <= k < |eventIds| ==>
              && pending[k].stationId in stations
              && eventIds[k] in events && eventIds[k] !in events0
              && events[eventIds[k]].preferredStationId == Some(pending[k].stationId)
              && events[eventIds[k]].eventType == "earthquake"
    ensures forall k, l :: 0 <= k < l < |eventIds| ==> eventIds[k] < eventIds[l]
    ensures forall k :: 0 <= k < |eventIds| && pending[k].waveformId in waveforms ==>
              waveforms[pending[k].waveformId].processed
    ensures waveforms.Keys == waveforms0.Keys
    ensures forall id :: id in waveforms && (forall k :: 0 <= k < |eventIds| ==> pending[k].waveformId != id) ==>
              waveforms[id] == waveforms0[id]
  {
    forall k | 0 <= k < |eventIds|
      ensures pending[k].stationId in stations && eventIds[k] in events
      ensures events[eventIds[k]].preferredStationId == Some(pending[k].stationId)
      ensures events[eventIds[k]].eventType == "earthquake"
    {
      RecordedAt(pending, draws, eventIds, stations, events, picks, k, pending[k], draws[k], eventIds[k]);
    }
  }

  /** `process_waveforms`: take requests oldest first and handle each fully
      before the next; `task_done` follows every handling, failed or not. The
      loop does not catch the failure, so the first failing request ends it.
      The model returns where the real loop would block on an empty queue.
      `eventIds[k]` is the event created for the k-th request. */
  method ProcessWaveforms(db: Db, queue: RequestQueue, draws: seq<RequestDraws>)
    returns (eventIds: seq<nat>, crashed: bool)
    requires db.Valid() && queue.Valid()
    requires |draws| >= |queue.items| && forall k :: 0 <= k < |draws| ==> RequestDrawsInRange(draws[k])
    modifies db, queue
    ensures db.Valid() && queue.Valid()
    ensures |eventIds| <= |old(queue.items)|
    ensures crashed <==> |eventIds| < |old(queue.items)|
    ensures !crashed ==> queue.items == []
    ensures crashed ==> queue.items == old(queue.items)[|eventIds| + 1..] &&
                        old(queue.items)[|eventIds|].stationId !in db.stations
    ensures queue.unfinished == old(queue.unfinished) - |eventIds| - (if crashed then 1 else 0)
    ensures db.stations == old(db.stations)
    ensures Handled(old(queue.items), draws, eventIds, db.stations, old(db.events), db.events,
                    old(db.picks), db.picks, old(db.waveforms), db.waveforms, old(db.nextId), db.nextId)
  {
    ghost var pending := queue.items;
    eventIds, crashed := [], false;
    assert forall id :: id in db.picks ==> id < db.nextId;
    while queue.items != []
      invariant db.Valid() && queue.Valid()
      invariant |eventIds| <= |pending| && queue.items == pending[|eventIds|..]
      invariant queue.unfinished == old(queue.unfinished) - |eventIds|
      invariant db.stations == old(db.stations)
      invariant Handled(pending, draws, eventIds, db.stations, old(db.events), db.events,
                        old(db.picks), db.picks, old(db.waveforms), db.waveforms, old(db.nextId), db.nextId)
      invariant forall id :: id in old(db.events) ==> id < old(db.nextId)
      invariant forall id :: id in old(db.picks) ==> id < old(db.nextId)
      decreases |queue.items|
    {
      var request := queue.Get();
      assert request == pending[|eventIds|] && queue.items == pending[|eventIds| + 1..];
      ghost var events, picks, waveforms, next := db.events, db.picks, db.waveforms, db.nextId;
      assert forall id :: id in picks ==> id < next;
      assert forall id :: id in events ==> id < next;
      var r := HandleRequest(db, request, draws[|eventIds|]);
      queue.TaskDone();
      if r.Err? {
        assert pending == old(queue.items);
        crashed := true;
        return;
      }
      ghost var eventIds0 := eventIds;
      eventIds := eventIds + [r.value];
      HandledStep(pending, draws, eventIds0, eventIds, db.stations, old(db.events), events, db.events, old(db.picks),
                  picks, db.picks, old(db.waveforms), waveforms, db.waveforms, old(db.nextId), next, db.nextId);
    }
  }
}
