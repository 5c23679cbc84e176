/** Record types of the catalogue: stations, waveforms, phase picks and events,
    with the defaults their declarations give to the fields a caller may omit. */
module Models {

  datatype Option<T> = None | Some(value: T)

  /** An operation that either yields a value or raises; the reason stands for
      the exception. */
  datatype Result<T> = Ok(value: T) | Err(reason: string)

  /** Instants as seconds on one continuous time line. */
  type Time = real

  function Abs(x: real): (r: real)
    ensures r >= 0.0 && (r == x || r == -x)
  {
    if x < 0.0 then -x else x
  }

  /** A seismic station. The database key is not part of the record: the store
      maps keys to records. */
  datatype Station = Station(
    code: string,
    name: string,
    latitude: real,
    longitude: real,
    elevationM: real,
    isActive: bool,
    status: string)

  /** A raw waveform submission and whether the pipeline has handled it. */
  datatype Waveform = Waveform(
    stationId: nat,
    filePath: string,
    receivedAt: Time,
    processed: bool)

  /** One detected arrival of a named phase at a station. */
  datatype PhasePick = PhasePick(
    stationId: nat,
    eventId: Option<nat>,
    phaseType: string,
    pickTime: Time,
    quality: real,
    initialMotion: Option<string>,
    earthquakeType: Option<string>)

  /** A provisional event that groups picks. */
  datatype Event = Event(
    originTime: Time,
    latitude: real,
    longitude: real,
    depthKm: real,
    magnitude: real,
    eventType: string,
    preferredStationId: Option<nat>)

  /** A station built from the four fields without a default. */
  function NewStation(code: string, name: string, latitude: real, longitude: real): (s: Station)
    ensures s.code == code && s.name == name
    ensures s.latitude == latitude && s.longitude == longitude
    ensures s.elevationM == 0.0 && s.isActive && s.status == "healthy"
  {
    Station(code, name, latitude, longitude, 0.0, true, "healthy")
  }

  /** A waveform built without saying whether it is processed. */
  function NewWaveform(stationId: nat, filePath: string, receivedAt: Time): (w: Waveform)
    ensures w.stationId == stationId && w.filePath == filePath && w.receivedAt == receivedAt
    ensures !w.processed
  {
    Waveform(stationId, filePath, receivedAt, false)
  }

  /** A pick built from its station, phase and time only. */
  function NewPick(stationId: nat, phaseType: string, pickTime: Time): (p: PhasePick)
    ensures p.stationId == stationId && p.phaseType == phaseType && p.pickTime == pickTime
    ensures p.eventId == None && p.quality == 0.0
    ensures p.initialMotion == None && p.earthquakeType == None
  {
    PhasePick(stationId, None, phaseType, pickTime, 0.0, None, None)
  }

  /** An event built from its origin and location only. */
  function NewEvent(originTime: Time, latitude: real, longitude: real): (e: Event)
    ensures e.originTime == originTime && e.latitude == latitude && e.longitude == longitude
    ensures e.depthKm == 10.0 && e.magnitude == 0.0
    ensures e.eventType == "earthquake" && e.preferredStationId == None
  {
    Event(originTime, latitude, longitude, 10.0, 0.0, "earthquake", None)
  }

  /** The code of the station stored under `id`. */
  function CodeOf(stations: map<nat, Station>, id: nat): string
    requires id in stations
  {
    stations[id].code
  }

  /** The unique index on station codes: no two keys hold the same code. */
  ghost predicate CodesUnique(stations: map<nat, Station>)
  {
    forall i, j {:trigger CodeOf(stations, i), CodeOf(stations, j)} ::
      i in stations && j in stations && CodeOf(stations, i) == CodeOf(stations, j) ==> i == j
  }

  predicate HasCode(stations: map<nat, Station>, code: string)
  {
    exists id :: id in stations && stations[id].code == code
  }

  /** Adding a station whose code is not yet taken keeps the codes unique. */
  lemma AddKeepsCodesUnique(stations: map<nat, Station>, id: nat, s: Station)
    requires CodesUnique(stations)
    requires id !in stations && !HasCode(stations, s.code)
    ensures CodesUnique(stations[id := s])
  {
    var after := stations[id := s];
    forall i, j | i in after && j in after && CodeOf(after, i) == CodeOf(after, j)
      ensures i == j
    {
      if i != id && j != id {
        assert CodeOf(stations, i) == CodeOf(stations, j);
      }
    }
  }

  predicate HasEventType(events: map<nat, Event>, tag: string)
  {
    exists id :: id in events && events[id].eventType == tag
  }
}
