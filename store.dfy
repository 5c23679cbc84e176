/** The database behind the catalogue, reduced to one map per table from
    primary key to record. Keys are handed out from one counter, so every key
    ever used is below nextId. */
module Store {
  import opened Models

  class Db {
    var stations: map<nat, Station>
    var waveforms: map<nat, Waveform>
    var picks: map<nat, PhasePick>
    var events: map<nat, Event>
    var nextId: nat

    ghost predicate Valid()
      reads this
    {
      && (forall id :: id in stations ==> id < nextId)
      && (forall id :: id in waveforms ==> id < nextId)
      && (forall id :: id in picks ==> id < nextId)
      && (forall id :: id in events ==> id < nextId)
      && CodesUnique(stations)
    }

    constructor ()
      ensures Valid()
      ensures stations == map[] && waveforms == map[] && picks == map[] && events == map[]
    {
      stations, waveforms, picks, events := map[], map[], map[], map[];
      nextId := 0;
    }

    /** `select(Station).where(Station.code == code).first()`. */
    method FindStationByCode(code: string) returns (r: Option<nat>)
      ensures r.Some? ==> r.value in stations && stations[r.value].code == code
      ensures r.None? <==> !HasCode(stations, code)
    {
      if exists id :: id in stations && stations[id].code == code {
        var id :| id in stations && stations[id].code == code;
        r := Some(id);
      } else {
        r := None;
      }
    }

    /** Find-or-create on the station code: an existing station is returned
        untouched, otherwise the candidate is inserted under a fresh key. */
    method FindOrCreateStation(candidate: Station) returns (id: nat)
      requires Valid()
      modifies this
      ensures Valid()
      ensures id in stations && stations[id].code == candidate.code
      ensures old(HasCode(stations, candidate.code)) ==>
                stations == old(stations) && nextId == old(nextId)
      ensures !old(HasCode(stations, candidate.code)) ==>
                id == old(nextId) && nextId == old(nextId) + 1 &&
                stations == old(stations)[id := candidate]
      ensures waveforms == old(waveforms) && picks == old(picks) && events == old(events)
    {
      var found := FindStationByCode(candidate.code);
      if found.Some? {
        id := found.value;
      } else {
        id := nextId;
        AddKeepsCodesUnique(stations, id, candidate);
        stations := stations[id := candidate];
        nextId := nextId + 1;
      }
    }

    method AddWaveform(w: Waveform) returns (id: nat)
      requires Valid()
      modifies this
      ensures Valid()
      ensures id == old(nextId) && nextId == old(nextId) + 1
      ensures waveforms == old(waveforms)[id := w] && id !in old(waveforms)
      ensures stations == old(stations) && picks == old(picks) && events == old(events)
    {
      id := nextId;
      waveforms := waveforms[id := w];
      nextId := nextId + 1;
    }

    method AddPick(p: PhasePick) returns (id: nat)
      requires Valid()
      modifies this
      ensures Valid()
      ensures id == old(nextId) && nextId == old(nextId) + 1
      ensures picks == old(picks)[id := p] && id !in old(picks)
      ensures stations == old(stations) && waveforms == old(waveforms) && events == old(events)
    {
      id := nextId;
      picks := picks[id := p];
      nextId := nextId + 1;
    }

    method AddEvent(e: Event) returns (id: nat)
      requires Valid()
      modifies this
      ensures Valid()
      ensures id == old(nextId) && nextId == old(nextId) + 1
      ensures events == old(events)[id := e] && id !in old(events)
      ensures stations == old(stations) && waveforms == old(waveforms) && picks == old(picks)
    {
      id := nextId;
      events := events[id := e];
      nextId := nextId + 1;
    }
  }
}
