/** The USGS feed importer: a poll task that pulls the hourly GeoJSON summary,
    skips feature ids it has already seen in this process or already finds in
    the store, and turns every other feature into an event tagged
    "usgs:<id>", four virtual picks at the virtual "USGS" station and one
    already-processed waveform. Fetching and JSON decoding are outside the
    model: a pull receives the decoded features, or the failure, as a value. */
module Usgs {
  import opened Models
  import opened Store
  import opened Pipeline

  const UsgsFeedUrl: string := "https://earthquake.usgs.gov/earthquakes/feed/v1.0/summary/all_hour.geojson"
  const EventPrefix: string := "usgs:"

  /** The event type (and waveform path) that marks a USGS feature id. */
  function UsgsTag(usgsId: string): (t: string)
    ensures |t| == |EventPrefix| + |usgsId| && t[..|EventPrefix|] == EventPrefix
    ensures t[|EventPrefix|..] == usgsId
  {
    EventPrefix + usgsId
  }

  predicate IsUsgsTag(t: string)
  {
    |t| >= |EventPrefix| && t[..|EventPrefix|] == EventPrefix
  }

  /** Distinct feature ids give distinct tags, so a tag names one feature. */
  lemma UsgsTagInjective(a: string, b: string)
    requires UsgsTag(a) == UsgsTag(b)
    ensures a == b
  {
    calc {
      a;
      UsgsTag(a)[|EventPrefix|..];
      UsgsTag(b)[|EventPrefix|..];
      b;
    }
  }

  /** The part of a GeoJSON feature the importer reads. `coordinates` is
      `[lon, lat, depth]` with possibly null entries; the empty sequence stands
      for a missing or empty list, which the importer replaces by three nulls.
      `time` is in milliseconds since the epoch. */
  datatype Feature = Feature(
    id: Option<string>,
    time: Option<real>,
    mag: Option<real>,
    coordinates: seq<Option<real>>)

  /** `feature.get("id")` when it passes `if not usgs_id`. */
  function UsableId(f: Feature): (r: Option<string>)
    ensures r.Some? <==> f.id.Some? && f.id.value != ""
    ensures r.Some? ==> r == f.id
  {
    if f.id.Some? && f.id.value != "" then f.id else None
  }

  /** A non-empty coordinate list shorter than three raises on `coords[2]`. */
  predicate MalformedCoordinates(f: Feature)
  {
    0 < |f.coordinates| < 3
  }

  function ValueOr(c: Option<real>, default: real): real
  {
    if c.Some? then c.value else default
  }

  /** The event `_materialize_usgs_event` builds for a feature, preferring the
      station `stationId`; `now` is the clock reading used when the feature has
      no (or a zero) time. */
  function MaterializedEvent(usgsId: string, f: Feature, now: Time, stationId: nat): (r: Result<Event>)
    ensures r.Err? <==> MalformedCoordinates(f)
    ensures r.Ok? ==> r.value.eventType == UsgsTag(usgsId) && r.value.preferredStationId == Some(stationId)
    ensures r.Ok? ==> r.value.depthKm >= 0.0
    ensures r.Ok? && (f.coordinates == [] || f.coordinates[2].None?) ==> r.value.depthKm == 10.0
    ensures r.Ok? && f.coordinates != [] && f.coordinates[2].Some? ==>
              r.value.depthKm == Abs(f.coordinates[2].value)
    ensures r.Ok? && (f.coordinates == [] || f.coordinates[1].None?) ==> r.value.latitude == 0.0
    ensures r.Ok? && (f.coordinates == [] || f.coordinates[0].None?) ==> r.value.longitude == 0.0
    ensures r.Ok? && f.coordinates != [] && f.coordinates[1].Some? ==> r.value.latitude == f.coordinates[1].value
    ensures r.Ok? && f.coordinates != [] && f.coordinates[0].Some? ==> r.value.longitude == f.coordinates[0].value
    ensures r.Ok? ==> r.value.magnitude == if f.mag.Some? then f.mag.value else 0.0
    ensures r.Ok? ==> r.value.originTime ==
                        if f.time.Some? && f.time.value != 0.0 then f.time.value / 1000.0 else now
  {
    if MalformedCoordinates(f) then Err("list index out of range")
    else
      var coords := if f.coordinates == [] then [None, None, None] else f.coordinates;
      var origin := if f.time.Some? && f.time.value != 0.0 then f.time.value / 1000.0 else now;
      var depth := if coords[2].Some? then Abs(coords[2].value) else 10.0;
      Ok(Event(origin, ValueOr(coords[1], 0.0), ValueOr(coords[0], 0.0), depth,
               ValueOr(f.mag, 0.0), UsgsTag(usgsId), Some(stationId)))
  }

  /** The station `_ensure_usgs_station` creates when none has code "USGS". */
  function UsgsStation(): (s: Station)
    ensures s.code == "USGS" && s.status == "virtual" && s.isActive
    ensures s.latitude == 0.0 && s.longitude == 0.0 && s.elevationM == 0.0
  {
    Station("USGS", "USGS Virtual Network", 0.0, 0.0, 0.0, true, "virtual")
  }

  /** `_ensure_usgs_station`: the existing "USGS" station, or a new virtual one. */
  method EnsureUsgsStation(db: Db) returns (stationId: nat)
    requires db.Valid()
    modifies db
    ensures db.Valid()
    ensures stationId in db.stations && db.stations[stationId].code == "USGS"
    ensures old(HasCode(db.stations, "USGS")) ==> db.stations == old(db.stations) && db.nextId == old(db.nextId)
    ensures !old(HasCode(db.stations, "USGS")) ==>
              stationId == old(db.nextId) && db.nextId == old(db.nextId) + 1 &&
              db.stations == old(db.stations)[stationId := UsgsStation()]
    ensures db.waveforms == old(db.waveforms) && db.picks == old(db.picks) && db.events == old(db.events)
  {
    stationId := db.FindOrCreateStation(UsgsStation());
  }

  /** The draws behind one virtual pick: a quality from uniform(0.75, 0.98)
      and a first-motion choice. */
  datatype VirtualDraw = VirtualDraw(quality: real, motion: string)

  predicate VirtualDrawInRange(d: VirtualDraw)
  {
    0.75 <= d.quality <= 0.98 && d.motion in InitialMotions
  }

  /** `_virtual_picks`: one pick per phase label, the k-th one k+1 seconds after
      the origin, all linked to the event. */
  method VirtualPicks(originTime: Time, eventId: nat, stationId: nat, draws: seq<VirtualDraw>)
    returns (picks: seq<PhasePick>)
    requires |draws| == |PhaseTypes| && forall i :: 0 <= i < |draws| ==> VirtualDrawInRange(draws[i])
    ensures |picks| == |PhaseTypes|
    ensures forall i :: 0 <= i < |picks| ==>
              && picks[i].phaseType == PhaseTypes[i]
              && picks[i].stationId == stationId
              && picks[i].eventId == Some(eventId)
              && picks[i].pickTime == originTime + (i + 1) as real
              && 0.75 <= picks[i].quality <= 0.98
              && picks[i].initialMotion.Some? && picks[i].initialMotion.value in InitialMotions
              && picks[i].earthquakeType == Some("usgs-feed")
    ensures forall i :: 0 <= i < |picks| ==> originTime < picks[i].pickTime
    ensures forall i, j :: 0 <= i < j < |picks| ==> picks[i].pickTime < picks[j].pickTime
  {
    picks := [];
    for i := 0 to |PhaseTypes|
      invariant |picks| == i
      invariant forall k :: 0 <= k < i ==>
                  && picks[k].phaseType == PhaseTypes[k]
                  && picks[k].stationId == stationId
                  && picks[k].eventId == Some(eventId)
                  && picks[k].pickTime == originTime + (k + 1) as real
                  && picks[k].quality == draws[k].quality
                  && picks[k].initialMotion == Some(draws[k].motion)
                  && picks[k].earthquakeType == Some("usgs-feed")
    {
      var pick := PhasePick(stationId, Some(eventId), PhaseTypes[i], originTime + (i + 1) as real,
                            draws[i].quality, Some(draws[i].motion), Some("usgs-feed"));
      picks := picks + [pick];
    }
  }

  /** Everything random or clock-dependent one materialisation consumes. */
  datatype FeatureDraws = FeatureDraws(now: Time, picks: seq<VirtualDraw>)

  predicate FeatureDrawsInRange(d: FeatureDraws)
  {
    |d.picks| == |PhaseTypes| && forall i :: 0 <= i < |d.picks| ==> VirtualDrawInRange(d.picks[i])
  }

  /** The pick stored under `id` is the `(id - eventId)`-th virtual pick of
      the event saved under `eventId`: its phase label, at the event's station,
      `id - eventId` seconds after the origin, with a drawn quality and first
      motion and the "usgs-feed" type. */
  ghost predicate VirtualPickOf(picks: map<nat, PhasePick>, id: nat, eventId: nat, event: Event)
  {
    && eventId < id <= eventId + 4
    && id in picks
    && picks[id].eventId == Some(eventId)
    && picks[id].phaseType == PhaseTypes[id - eventId - 1]
    && picks[id].pickTime == event.originTime + (id - eventId) as real
    && Some(picks[id].stationId) == event.preferredStationId
    && 0.75 <= picks[id].quality <= 0.98
    && picks[id].initialMotion.Some? && picks[id].initialMotion.value in InitialMotions
    && picks[id].earthquakeType == Some("usgs-feed")
  }

  /** The four virtual picks of an event just stored under `eventId`, saved
      under the next four keys. */
  method AddVirtualPicks(db: Db, eventId: nat, event: Event, stationId: nat, draws: seq<VirtualDraw>)
    requires db.Valid() && db.nextId == eventId + 1
    requires |draws| == |PhaseTypes| && forall i :: 0 <= i < |draws| ==> VirtualDrawInRange(draws[i])
    requires event.preferredStationId == Some(stationId)
    modifies db
    ensures db.Valid() && db.nextId == eventId + 5
    ensures forall id :: eventId < id <= eventId + 4 ==> VirtualPickOf(db.picks, id, eventId, event)
    ensures forall id :: id in old(db.picks) ==> id in db.picks && db.picks[id] == old(db.picks)[id]
    ensures forall id :: id in db.picks ==> id in old(db.picks) || eventId < id <= eventId + 4
    ensures db.stations == old(db.stations) && db.waveforms == old(db.waveforms) && db.events == old(db.events)
  {
    var picks := VirtualPicks(event.originTime, eventId, stationId, draws);
    AttachPicksToEvent(db, eventId, picks);
    forall id | eventId < id <= eventId + 4
      ensures VirtualPickOf(db.picks, id, eventId, event)
    {
      var k := id - eventId - 1;
      assert db.picks[id] == StampEvent(picks, eventId)[k];
    }
  }

  /** `str()` of the IndexError a short coordinate list raises. */
  const CoordinatesError: string := "list index out of range"

  /** Every station of `stations0` is kept, and every station added is the
      virtual one. */
  ghost predicate StationsGrown(stations0: map<nat, Station>, stations: map<nat, Station>)
  {
    && (forall id :: id in stations0 ==> id in stations && stations[id] == stations0[id])
    && (forall id :: id in stations && id !in stations0 ==> stations[id] == UsgsStation())
  }

  /** What materialising feature `f` with id `usgsId` wrote, from the tables
      `stations0` .. `waveforms0` to `stations` .. `waveforms`: the event built
      from the feature at the "USGS" station under the fresh key `key`, its
      four virtual picks under the next four keys, and the processed waveform
      "usgs:<id>" at the origin time under `key + 5`; nothing else changed
      but a possibly new virtual station. */
  ghost predicate Materialized(usgsId: string, f: Feature, now: Time,
                               stations0: map<nat, Station>, stations: map<nat, Station>,
                               events0: map<nat, Event>, events: map<nat, Event>,
                               picks0: map<nat, PhasePick>, picks: map<nat, PhasePick>,
                               waveforms0: map<nat, Waveform>, waveforms: map<nat, Waveform>, key: nat)
  {
    && key !in events0 && key in events && events == events0[key := events[key]]
    && events[key].preferredStationId.Some?
    && events[key].preferredStationId.value in stations
    && stations[events[key].preferredStationId.value].code == "USGS"
    && MaterializedEvent(usgsId, f, now, events[key].preferredStationId.value) == Ok(events[key])
    && StationsGrown(stations0, stations)
    && (forall id :: key < id <= key + 4 ==> VirtualPickOf(picks, id, key, events[key]))
    && (forall id :: id in picks0 ==> id in picks && picks[id] == picks0[id])
    && (forall id :: id in picks ==> id in picks0 || key < id <= key + 4)
    && key + 5 !in waveforms0
    && waveforms == waveforms0[key + 5 := Waveform(events[key].preferredStationId.value, UsgsTag(usgsId),
                                                    events[key].originTime, true)]
  }

  /** `_materialize_usgs_event`: a malformed coordinate list raises before
      anything is written. Otherwise the virtual station is found or created,
      then the event, its four picks and a processed waveform "usgs:<id>" are
      stored; the key of the event is returned. */
  method MaterializeUsgsEvent(db: Db, usgsId: string, f: Feature, draw: FeatureDraws) returns (r: Result<nat>)
    requires db.Valid() && FeatureDrawsInRange(draw)
    modifies db
    ensures db.Valid()
    ensures r.Err? <==> MalformedCoordinates(f)
    ensures r.Err? ==> r.reason == CoordinatesError && unchanged(db)
    ensures r.Ok? ==> Materialized(usgsId, f, draw.now, old(db.stations), db.stations, old(db.events), db.events,
                                   old(db.picks), db.picks, old(db.waveforms), db.waveforms, r.value)
  {
    if MalformedCoordinates(f) {
      return Err(CoordinatesError);
    }
    var stationId := EnsureUsgsStation(db);
    var event := MaterializedEvent(usgsId, f, draw.now, stationId).value;
    var eventId := db.AddEvent(event);
    ghost var stations, events, waveforms := db.stations, db.events, db.waveforms;
    assert events == old(db.events)[eventId := event];
    AddVirtualPicks(db, eventId, event, stationId, draw.picks);
    var _ := db.AddWaveform(Waveform(stationId, UsgsTag(usgsId), event.originTime, true));
    assert db.stations == stations && db.events == events;
    r := Ok(eventId);
  }

  /** Ids seen this process are stored as events, and no two events carry the
      same USGS tag. */
  ghost predicate Consistent(seen: set<string>, events: map<nat, Event>)
  {
    && (forall usgsId :: usgsId in seen ==> HasEventType(events, UsgsTag(usgsId)))
    && (forall i, j ::
          (i in events && j in events && IsUsgsTag(events[i].eventType) &&
           events[i].eventType == events[j].eventType) ==> i == j)
  }

  /** Storing a new event keeps the store consistent when its tag, if a USGS
      one, is not stored yet. */
  lemma {:induction false} AddEventKeepsConsistent(seen: set<string>, events: map<nat, Event>, key: nat, e: Event)
    requires Consistent(seen, events) && key !in events
    requires IsUsgsTag(e.eventType) ==> !HasEventType(events, e.eventType)
    ensures Consistent(seen, events[key := e])
  {
    var events' := events[key := e];
    forall usgsId | usgsId in seen
      ensures HasEventType(events', UsgsTag(usgsId))
    {
      var w :| w in events && events[w].eventType == UsgsTag(usgsId);
      assert w in events' && events'[w].eventType == UsgsTag(usgsId);
    }
    forall i, j | i in events' && j in events' && IsUsgsTag(events'[i].eventType) &&
                  events'[i].eventType == events'[j].eventType
      ensures i == j
    {
    }
  }

  /** The events the processing worker creates are typed "earthquake", which
      is no USGS tag, so handling requests keeps the store consistent. */
  lemma HandledKeepsConsistent(seen: set<string>, pending: seq<ProcessingRequest>, draws: seq<RequestDraws>,
                               eventIds: seq<nat>, stations: map<nat, Station>,
                               events0: map<nat, Event>, events: map<nat, Event>,
                               picks0: map<nat, PhasePick>, picks: map<nat, PhasePick>,
                               waveforms0: map<nat, Waveform>, waveforms: map<nat, Waveform>, base: nat, next: nat)
    requires |eventIds| <= |pending| && |eventIds| <= |draws|
    requires Handled(pending, draws, eventIds, stations, events0, events, picks0, picks, waveforms0, waveforms,
                     base, next)
    requires Consistent(seen, events0)
    ensures Consistent(seen, events)
  {
    HandledMeans(pending, draws, eventIds, stations, events0, events, picks0, picks, waveforms0, waveforms,
                 base, next);
    assert !IsUsgsTag("earthquake") by {
      assert "earthquake"[..|EventPrefix|] == "earth";
    }
    forall usgsId | usgsId in seen
      ensures HasEventType(events, UsgsTag(usgsId))
    {
      var w :| w in events0 && events0[w].eventType == UsgsTag(usgsId);
      assert w in events && events[w].eventType == UsgsTag(usgsId);
    }
  }

  /** The usable ids among a list of features. */
  function FeedIds(fs: seq<Feature>): set<string>
  {
    if fs == [] then {}
    else
      var last := UsableId(fs[|fs| - 1]);
      FeedIds(fs[..|fs| - 1]) + if last.Some? then {last.value} else {}
  }

  /** `FeedIds` holds exactly the usable ids of the features, never "". */
  lemma {:induction false} FeedIdsMembers(fs: seq<Feature>)
    ensures "" !in FeedIds(fs)
    ensures forall k :: 0 <= k < |fs| && UsableId(fs[k]).Some? ==> UsableId(fs[k]).value in FeedIds(fs)
    ensures forall usgsId :: usgsId in FeedIds(fs) ==> exists k :: 0 <= k < |fs| && UsableId(fs[k]) == Some(usgsId)
  {
    if fs != [] {
      var init := fs[..|fs| - 1];
      FeedIdsMembers(init);
      assert forall k :: 0 <= k < |init| ==> init[k] == fs[k];
      forall usgsId | usgsId in FeedIds(fs)
        ensures exists k :: 0 <= k < |fs| && UsableId(fs[k]) == Some(usgsId)
      {
        if usgsId in FeedIds(init) {
          var k :| 0 <= k < |init| && UsableId(init[k]) == Some(usgsId);
          assert UsableId(fs[k]) == Some(usgsId);
        } else {
          assert UsableId(fs[|fs| - 1]) == Some(usgsId);
        }
      }
    }
  }

  /** One more feature in the prefix adds its usable id, if any. */
  lemma FeedIdsStep(fs: seq<Feature>, k: nat)
    requires k < |fs|
    ensures FeedIds(fs[..k + 1]) == FeedIds(fs[..k]) + if UsableId(fs[k]).Some? then {UsableId(fs[k]).value} else {}
  {
    assert fs[..k + 1][..k] == fs[..k];
  }

  /** After the first `n` features of a pull, the seen ids are those from
      before plus the usable ids of those features. */
  ghost predicate SeenAfter(seen: set<string>, base: set<string>, fs: seq<Feature>, n: nat)
    requires n <= |fs|
  {
    seen == base + FeedIds(fs[..n])
  }

  /** Importing the next feature of the feed records its usable id, if any. */
  lemma SeenStep(base: set<string>, seen0: set<string>, seen1: set<string>, fs: seq<Feature>, k: nat)
    requires k < |fs| && SeenAfter(seen0, base, fs, k)
    requires UsableId(fs[k]).None? ==> seen1 == seen0
    requires UsableId(fs[k]).Some? ==> seen1 == seen0 + {UsableId(fs[k]).value}
    ensures SeenAfter(seen1, base, fs, k + 1)
  {
    FeedIdsStep(fs, k);
  }

  /** Between two states of a pull: stored events are kept, and every new
      event carries the tag of an id first seen in between. */
  ghost predicate Imported(events0: map<nat, Event>, events: map<nat, Event>, seen0: set<string>, seen: set<string>)
  {
    && (forall id :: id in events0 ==> id in events && events[id] == events0[id])
    && (forall id :: id in events && id !in events0 ==>
          exists usgsId :: usgsId in seen && usgsId !in seen0 && events[id].eventType == UsgsTag(usgsId))
  }

  lemma ImportedStep(events0: map<nat, Event>, events1: map<nat, Event>, events2: map<nat, Event>,
                     seen0: set<string>, seen1: set<string>, seen2: set<string>, key: nat)
    requires Imported(events0, events1, seen0, seen1) && seen0 <= seen1 <= seen2
    requires key !in events1 && key in events2 && events2 == events1[key := events2[key]]
    requires exists usgsId :: usgsId in seen2 && usgsId !in seen1 && events2[key].eventType == UsgsTag(usgsId)
    ensures Imported(events0, events2, seen0, seen2)
  {
    forall id | id in events2 && id !in events0
      ensures exists usgsId :: usgsId in seen2 && usgsId !in seen0 && events2[id].eventType == UsgsTag(usgsId)
    {
      if id != key {
        var usgsId :| usgsId in seen1 && usgsId !in seen0 && events1[id].eventType == UsgsTag(usgsId);
        assert usgsId in seen2;
      }
    }
  }

  /** What happened to one feature during a pull. */
  datatype ImportOutcome =
    | Skipped                          // no usable id, or already seen
    | AlreadyStored                    // stored by an earlier process
    | Created(eventKey: nat)           // materialised now
    | Failed(reason: string)           // materialisation raised

  /** One imported feature advances both pull invariants, whatever the
      (non-failing) outcome. */
  lemma PullStep(fs: seq<Feature>, k: nat, seenBefore: set<string>, eventsBefore: map<nat, Event>,
                 seen0: set<string>, seen1: set<string>, events0: map<nat, Event>, events1: map<nat, Event>,
                 outcome: ImportOutcome)
    requires k < |fs| && !outcome.Failed?
    requires SeenAfter(seen0, seenBefore, fs, k) && Imported(eventsBefore, events0, seenBefore, seen0)
    requires outcome.Skipped? <==> UsableId(fs[k]).None? || UsableId(fs[k]).value in seen0
    requires outcome.Skipped? ==> seen1 == seen0 && events1 == events0
    requires outcome.AlreadyStored? ==> seen1 == seen0 + {UsableId(fs[k]).value} && events1 == events0
    requires outcome.Created? ==>
               && seen1 == seen0 + {UsableId(fs[k]).value}
               && outcome.eventKey !in events0 && outcome.eventKey in events1
               && events1 == events0[outcome.eventKey := events1[outcome.eventKey]]
               && events1[outcome.eventKey].eventType == UsgsTag(UsableId(fs[k]).value)
    ensures SeenAfter(seen1, seenBefore, fs, k + 1) && Imported(eventsBefore, events1, seenBefore, seen1)
  {
    if UsableId(fs[k]).Some? && outcome.Skipped? {
      assert seen1 == seen0 + {UsableId(fs[k]).value};
    }
    SeenStep(seenBefore, seen0, seen1, fs, k);
    if outcome.Created? {
      var usgsId := UsableId(fs[k]).value;
      assert usgsId in seen1 && usgsId !in seen0;
      ImportedStep(eventsBefore, events0, events1, seenBefore, seen0, seen1, outcome.eventKey);
    }
  }

  /** Between two states of a pull: every pick is kept, and every new pick is
      a virtual pick of a new event. */
  ghost predicate PicksImported(events0: map<nat, Event>, events: map<nat, Event>,
                                picks0: map<nat, PhasePick>, picks: map<nat, PhasePick>)
  {
    && (forall id :: id in picks0 ==> id in picks && picks[id] == picks0[id])
    && (forall id :: id in picks && id !in picks0 ==>
          && picks[id].eventId.Some?
          && picks[id].eventId.value in events && picks[id].eventId.value !in events0
          && VirtualPickOf(picks, id, picks[id].eventId.value, events[picks[id].eventId.value]))
  }

  /** Between two states of a pull: every waveform is kept, and every new
      waveform is the processed "usgs:" waveform of the new event five keys
      below it. */
  ghost predicate WaveformsImported(events0: map<nat, Event>, events: map<nat, Event>,
                                    waveforms0: map<nat, Waveform>, waveforms: map<nat, Waveform>)
  {
    && (forall id :: id in waveforms0 ==> id in waveforms && waveforms[id] == waveforms0[id])
    && (forall id :: id in waveforms && id !in waveforms0 ==>
          && id >= 5 && id - 5 in events && id - 5 !in events0
          && events[id - 5].preferredStationId.Some?
          && waveforms[id] == Waveform(events[id - 5].preferredStationId.value, events[id - 5].eventType,
                                       events[id - 5].originTime, true))
  }

  /** Between two states of a pull: stations, picks and waveforms are kept,
      and whatever was added belongs to a new event or is the virtual station. */
  ghost predicate StoreImported(stations0: map<nat, Station>, stations: map<nat, Station>,
                                events0: map<nat, Event>, events: map<nat, Event>,
                                picks0: map<nat, PhasePick>, picks: map<nat, PhasePick>,
                                waveforms0: map<nat, Waveform>, waveforms: map<nat, Waveform>)
  {
    && StationsGrown(stations0, stations)
    && PicksImported(events0, events, picks0, picks)
    && WaveformsImported(events0, events, waveforms0, waveforms)
  }

  lemma PicksImportedStep(usgsId: string, f: Feature, now: Time, key: nat,
                          stations1: map<nat, Station>, stations2: map<nat, Station>,
                          events0: map<nat, Event>, events1: map<nat, Event>, events2: map<nat, Event>,
                          picks0: map<nat, PhasePick>, picks1: map<nat, PhasePick>, picks2: map<nat, PhasePick>,
                          waveforms1: map<nat, Waveform>, waveforms2: map<nat, Waveform>)
    requires PicksImported(events0, events1, picks0, picks1)
    requires forall id :: id in events0 ==> id in events1
    requires Materialized(usgsId, f, now, stations1, stations2, events1, events2, picks1, picks2,
                          waveforms1, waveforms2, key)
    ensures PicksImported(events0, events2, picks0, picks2)
  {
    forall id | id in picks2 && id !in picks0
      ensures && picks2[id].eventId.Some?
              && picks2[id].eventId.value in events2 && picks2[id].eventId.value !in events0
              && VirtualPickOf(picks2, id, picks2[id].eventId.value, events2[picks2[id].eventId.value])
    {
      if id in picks1 {
        var eid := picks1[id].eventId.value;
        assert VirtualPickOf(picks1, id, eid, events1[eid]);
        assert events2[eid] == events1[eid];
      } else {
        assert VirtualPickOf(picks2, id, key, events2[key]);
      }
    }
  }

  lemma WaveformsImportedStep(usgsId: string, f: Feature, now: Time, key: nat,
                              stations1: map<nat, Station>, stations2: map<nat, Station>,
                              events0: map<nat, Event>, events1: map<nat, Event>, events2: map<nat, Event>,
                              picks1: map<nat, PhasePick>, picks2: map<nat, PhasePick>,
                              waveforms0: map<nat, Waveform>, waveforms1: map<nat, Waveform>,
                              waveforms2: map<nat, Waveform>)
    requires WaveformsImported(events0, events1, waveforms0, waveforms1)
    requires forall id :: id in events0 ==> id in events1
    requires Materialized(usgsId, f, now, stations1, stations2, events1, events2, picks1, picks2,
                          waveforms1, waveforms2, key)
    ensures WaveformsImported(events0, events2, waveforms0, waveforms2)
  {
    assert events2[key].eventType == UsgsTag(usgsId);
    forall id | id in waveforms2 && id !in waveforms0
      ensures && id >= 5 && id - 5 in events2 && id - 5 !in events0
              && events2[id - 5].preferredStationId.Some?
              && waveforms2[id] == Waveform(events2[id - 5].preferredStationId.value, events2[id - 5].eventType,
                                            events2[id - 5].originTime, true)
    {
      if id in waveforms1 {
        assert events2[id - 5] == events1[id - 5];
      }
    }
  }

  /** One imported feature extends `StoreImported`: by its event when it was
      materialised, by nothing otherwise. */
  lemma StoreImportedStep(outcome: ImportOutcome, usgsId: Option<string>, f: Feature, now: Time,
                          stations0: map<nat, Station>, stations1: map<nat, Station>, stations2: map<nat, Station>,
                          events0: map<nat, Event>, events1: map<nat, Event>, events2: map<nat, Event>,
                          picks0: map<nat, PhasePick>, picks1: map<nat, PhasePick>, picks2: map<nat, PhasePick>,
                          waveforms0: map<nat, Waveform>, waveforms1: map<nat, Waveform>,
                          waveforms2: map<nat, Waveform>)
    requires StoreImported(stations0, stations1, events0, events1, picks0, picks1, waveforms0, waveforms1)
    requires forall id :: id in events0 ==> id in events1
    requires outcome.Created? ==>
               usgsId.Some? && Materialized(usgsId.value, f, now, stations1, stations2, events1, events2, picks1, picks2,
                            waveforms1, waveforms2, outcome.eventKey)
    requires !outcome.Created? ==>
               stations2 == stations1 && events2 == events1 && picks2 == picks1 && waveforms2 == waveforms1
    ensures StoreImported(stations0, stations2, events0, events2, picks0, picks2, waveforms0, waveforms2)
  {
    if outcome.Created? {
      var key := outcome.eventKey;
      PicksImportedStep(usgsId.value, f, now, key, stations1, stations2, events0, events1, events2, picks0, picks1, picks2,
                        waveforms1, waveforms2);
      WaveformsImportedStep(usgsId.value, f, now, key, stations1, stations2, events0, events1, events2, picks1, picks2,
                            waveforms0, waveforms1, waveforms2);
    }
  }

  datatype UsgsStatus = UsgsStatus(
    running: bool,
    lastFetch: Option<Time>,
    lastError: Option<string>,
    eventsSeen: nat,
    feed: string)

  /** The state of a poll task: none, still live, or finished (cancelled). */
  datatype TaskState = NoTask | Live | Done

  class UsgsFeed {
    var pollTask: TaskState
    var lastFetch: Option<Time>
    var lastError: Option<string>
    var seen: set<string>

    constructor ()
      ensures pollTask == NoTask && lastFetch == None && lastError == None && seen == {}
    {
      pollTask := NoTask;
      lastFetch := None;
      lastError := None;
      seen := {};
    }

    /** `start_usgs_stream`: refused while a poll task is live. */
    method Start() returns (started: bool)
      modifies this`pollTask
      ensures started <==> old(pollTask) != Live
      ensures pollTask == Live
    {
      if pollTask == Live {
        return false;
      }
      pollTask := Live;
      started := true;
    }

    /** `stop_usgs_stream`: a live task is cancelled and awaited, which always
        leaves it done, so no task is left running and the answer is true. */
    method Stop() returns (stopped: bool)
      modifies this`pollTask
      ensures stopped && pollTask == NoTask
    {
      if pollTask == Live {
        pollTask := Done;
      }
      stopped := pollTask == NoTask || pollTask == Done;
      pollTask := NoTask;
    }

    /** `get_usgs_status`. */
    function Status(): (s: UsgsStatus)
      reads this
      ensures s.running <==> pollTask == Live
      ensures s.eventsSeen == |seen| && s.feed == UsgsFeedUrl
      ensures s.lastFetch == lastFetch && s.lastError == lastError
    {
      UsgsStatus(pollTask == Live, lastFetch, lastError, |seen|, UsgsFeedUrl)
    }

    /** One iteration of the `_pull_once` loop. */
    method ImportFeature(db: Db, f: Feature, draw: FeatureDraws) returns (outcome: ImportOutcome)
      requires db.Valid() && FeatureDrawsInRange(draw) && Consistent(seen, db.events)
      modifies this`seen, db
      ensures db.Valid() && Consistent(seen, db.events)
      ensures outcome.Skipped? <==> UsableId(f).None? || UsableId(f).value in old(seen)
      ensures outcome.AlreadyStored? <==>
                !outcome.Skipped? && old(HasEventType(db.events, UsgsTag(UsableId(f).value)))
      ensures outcome.Failed? <==>
                !outcome.Skipped? && !outcome.AlreadyStored? && MalformedCoordinates(f)
      ensures outcome.Skipped? || outcome.Failed? ==> seen == old(seen) && unchanged(db)
      ensures outcome.AlreadyStored? ==> seen == old(seen) + {UsableId(f).value} && unchanged(db)
      ensures outcome.Failed? ==> outcome.reason == CoordinatesError
      ensures outcome.Created? ==>
                && seen == old(seen) + {UsableId(f).value}
                && Materialized(UsableId(f).value, f, draw.now, old(db.stations), db.stations, old(db.events),
                                db.events, old(db.picks), db.picks, old(db.waveforms), db.waveforms,
                                outcome.eventKey)
                && db.events[outcome.eventKey].eventType == UsgsTag(UsableId(f).value)
    {
      var usgsId := UsableId(f);
      if usgsId.None? || usgsId.value in seen {
        return Skipped;
      }
      var tag := UsgsTag(usgsId.value);
      if HasEventType(db.events, tag) {
        seen := seen + {usgsId.value};
        return AlreadyStored;
      }
      ghost var before := db.events;
      var r := MaterializeUsgsEvent(db, usgsId.value, f, draw);
      if r.Err? {
        return Failed(r.reason);
      }
      AddEventKeepsConsistent(seen, before, r.value, db.events[r.value]);
      assert db.events[r.value].eventType == tag;
      assert HasEventType(db.events, tag);
      seen := seen + {usgsId.value};
      outcome := Created(r.value);
    }

    /** `_pull_once` over the decoded features: features are imported in feed
        order and the first failure ends the pull, keeping what was done
        before it. `consumed` is how many features were fully imported. */
    method PullOnce(db: Db, features: seq<Feature>, draws: seq<FeatureDraws>)
      returns (r: Result<()>, consumed: nat)
      requires db.Valid() && Consistent(seen, db.events)
      requires |draws| == |features| && forall k :: 0 <= k < |draws| ==> FeatureDrawsInRange(draws[k])
      modifies this`seen, db
      ensures db.Valid() && Consistent(seen, db.events)
      ensures consumed <= |features| && (r.Ok? <==> consumed == |features|)
      ensures r.Err? ==> && MalformedCoordinates(features[consumed]) && r.reason == CoordinatesError
                         && UsableId(features[consumed]).Some? && UsableId(features[consumed]).value !in seen
      ensures seen == old(seen) + FeedIds(features[..consumed])
      ensures Imported(old(db.events), db.events, old(seen), seen)
      ensures StoreImported(old(db.stations), db.stations, old(db.events), db.events, old(db.picks), db.picks,
                            old(db.waveforms), db.waveforms)
    {
      ghost var seenBefore, eventsBefore := seen, db.events;
      ghost var stationsBefore, picksBefore, waveformsBefore := db.stations, db.picks, db.waveforms;
      consumed := 0;
      r := Ok(());
      while consumed < |features|
        invariant consumed <= |features|
        invariant db.Valid() && Consistent(seen, db.events)
        invariant SeenAfter(seen, seenBefore, features, consumed)
        invariant Imported(eventsBefore, db.events, seenBefore, seen)
        invariant StoreImported(stationsBefore, db.stations, eventsBefore, db.events, picksBefore, db.picks,
                                waveformsBefore, db.waveforms)
        decreases |features| - consumed
      {
        ghost var events0, seen0 := db.events, seen;
        ghost var stations0, picks0, waveforms0 := db.stations, db.picks, db.waveforms;
        var outcome := ImportFeature(db, features[consumed], draws[consumed]);
        if outcome.Failed? {
          return Err(outcome.reason), consumed;
        }
        StoreImportedStep(outcome, UsableId(features[consumed]), features[consumed], draws[consumed].now,
                          stationsBefore, stations0, db.stations, eventsBefore, events0, db.events,
                          picksBefore, picks0, db.picks, waveformsBefore, waveforms0, db.waveforms);
        PullStep(features, consumed, seenBefore, eventsBefore, seen0, seen, events0, db.events, outcome);
        consumed := consumed + 1;
      }
    }

    /** One turn of `_poll_loop`: pull, record the error (or clear it), and
        stamp the fetch time. `fetched` is the decoded feed, or the failure of
        the request, the status check or the decoding. */
    method PollRound(db: Db, fetched: Result<seq<Feature>>, draws: seq<FeatureDraws>, now: Time)
      requires db.Valid() && Consistent(seen, db.events)
      requires fetched.Ok? ==> |draws| == |fetched.value|
      requires forall k :: 0 <= k < |draws| ==> FeatureDrawsInRange(draws[k])
      modifies this, db
      ensures db.Valid() && Consistent(seen, db.events)
      ensures lastFetch == Some(now) && pollTask == old(pollTask)
      ensures fetched.Err? ==> lastError == Some(fetched.reason) && seen == old(seen) && unchanged(db)
      ensures old(seen) <= seen
      ensures lastError.None? <==> fetched.Ok? && seen == old(seen) + FeedIds(fetched.value)
      ensures fetched.Ok? && lastError.Some? ==>
                && lastError == Some(CoordinatesError)
                && exists k :: 0 <= k < |fetched.value| && MalformedCoordinates(fetched.value[k])
      ensures fetched.Ok? ==> StoreImported(old(db.stations), db.stations, old(db.events), db.events,
                                            old(db.picks), db.picks, old(db.waveforms), db.waveforms)
      ensures fetched.Ok? ==> Imported(old(db.events), db.events, old(seen), seen)
      ensures fetched.Ok? ==>
                exists n :: && 0 <= n <= |fetched.value| && seen == old(seen) + FeedIds(fetched.value[..n])
                            && (lastError.Some? ==> n < |fetched.value| && MalformedCoordinates(fetched.value[n]))
    {
      if fetched.Err? {
        lastError := Some(fetched.reason);
      } else {
        var r, consumed := PullOnce(db, fetched.value, draws);
        assert fetched.value[..|fetched.value|] == fetched.value;
        if r.Err? {
          FeedIdsMembers(fetched.value);
          assert UsableId(fetched.value[consumed]).value in FeedIds(fetched.value);
        }
        lastError := if r.Ok? then None else Some(r.reason);
      }
      lastFetch := Some(now);
    }
  }
}
