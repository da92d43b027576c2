/**
 * The live-feed ingestor of the dashboard: the latest reading per station, kept in
 * `currentData`, and the station whose card is on screen, `currentStation`.
 */
module LiveFeed {
  import opened Optional
  import opened Freshness

  /** The `sensors` object of a live message. */
  datatype Sensors = Sensors(temperature: real, humidity: real, pressure: real, windSpeed: real, windDirection: int)

  /**
   * A live message as decoded from JSON, plus `receivedAt`, the receipt time the
   * ingestor stamps on the stored copy (`None` when absent, as it is in a payload).
   */
  datatype Reading = Reading(
    stationId: string,
    timestamp: string,
    sensors: Sensors,
    batteryVoltage: real,
    signalStrength: int,
    receivedAt: Option<int>)

  /** `{...data, receivedAt: now}`: the payload with the ingestor's clock as receipt time. */
  function Stamp(d: Reading, now: int): (r: Reading)
    ensures r.receivedAt == Some(now)
    ensures r.(receivedAt := d.receivedAt) == d
  {
    d.(receivedAt := Some(now))
  }

  /** The store after a reading arrives: its station's entry replaced, all others kept. */
  function Ingest(store: map<string, Reading>, d: Reading, now: int): (r: map<string, Reading>)
    ensures r.Keys == store.Keys + {d.stationId}
    ensures r[d.stationId] == Stamp(d, now)
    ensures forall s :: s in store && s != d.stationId ==> r[s] == store[s]
  {
    store[d.stationId := Stamp(d, now)]
  }

  /** Two successive messages for one station leave only the second. */
  lemma IngestOverwrites(store: map<string, Reading>, d1: Reading, t1: int, d2: Reading, t2: int)
    requires d1.stationId == d2.stationId
    ensures Ingest(Ingest(store, d1, t1), d2, t2) == Ingest(store, d2, t2)
  {
  }

  /** Messages for different stations do not interfere: their order does not matter. */
  lemma IngestCommutes(store: map<string, Reading>, d1: Reading, t1: int, d2: Reading, t2: int)
    requires d1.stationId != d2.stationId
    ensures Ingest(Ingest(store, d1, t1), d2, t2) == Ingest(Ingest(store, d2, t2), d1, t1)
    ensures Ingest(Ingest(store, d1, t1), d2, t2)[d1.stationId] == Stamp(d1, t1)
  {
  }

  /** The current-reading card: the reading it shows and the status computed from it. */
  datatype View = View(reading: Reading, status: Status)

  /** `updateCurrentView(data)` at time `now`. */
  function Render(data: Reading, now: int): (v: View)
    ensures v.reading == data
    ensures v.status.freshness == Classify(Age(data.receivedAt, now))
    ensures v.status.timeText == TimeText(Age(data.receivedAt, now))
  {
    View(data, StatusAt(data.receivedAt, now))
  }

  /**
   * The live refresh renders the payload as received, not the stamped copy, so a payload
   * without its own `receivedAt` is shown as fresh, "0s temu".
   */
  lemma LiveRefreshShowsJustReceived(d: Reading, now: int)
    requires d.receivedAt == None
    ensures Render(d, now).status == Status(Fresh, "0s temu")
  {
    UnstampedIsFresh(now);
  }

  /** A stored reading shown later carries the age since the ingestor stamped it. */
  lemma StoredReadingAge(d: Reading, stampedAt: int, now: int)
    requires stampedAt != 0
    ensures Render(Stamp(d, stampedAt), now).status.freshness == Classify(now - stampedAt)
  {
  }

  /** The dashboard's shared state. */
  class Dashboard {
    var currentData: map<string, Reading>
    var currentStation: Option<string>

    /** Start-up: nothing received, no station selected. */
    constructor ()
      ensures currentData == map[] && currentStation == None
    {
      currentData := map[];
      currentStation := None;
    }

    /**
     * `handleDataUpdate(data)`: store the stamped reading for its station and, when that
     * station is on screen, refresh the card from the payload.
     */
    method HandleDataUpdate(data: Reading, now: int) returns (view: Option<View>)
      modifies this
      ensures currentData == Ingest(old(currentData), data, now)
      ensures currentStation == old(currentStation)
      ensures view.Some? <==> currentStation == Some(data.stationId)
      ensures view.Some? ==> view.value == Render(data, now)
    {
      currentData := currentData[data.stationId := Stamp(data, now)];
      view := None;
      if currentStation == Some(data.stationId) {
        view := Some(Render(data, now));
      }
    }

    /**
     * The MQTT message handler: a payload that is not valid JSON (`None`) is discarded
     * and changes nothing; a decoded one goes to `HandleDataUpdate`.
     */
    method OnMessage(payload: Option<Reading>, now: int) returns (view: Option<View>)
      modifies this
      ensures payload.None? ==> currentData == old(currentData) && view == None
      ensures payload.Some? ==> currentData == Ingest(old(currentData), payload.value, now)
      ensures payload.Some? ==> (view.Some? <==> currentStation == Some(payload.value.stationId))
      ensures view.Some? ==> payload.Some? && view.value == Render(payload.value, now)
      ensures currentStation == old(currentStation)
    {
      match payload
      case None => view := None;
      case Some(data) => view := HandleDataUpdate(data, now);
    }

    /**
     * `selectStation(id)`: the card shows the stored reading at once, or a loading state
     * (`None`) until the station's next message arrives.
     */
    method SelectStation(stationId: string, now: int) returns (view: Option<View>)
      modifies this
      ensures currentStation == Some(stationId)
      ensures currentData == old(currentData)
      ensures view.Some? <==> stationId in currentData
      ensures view.Some? ==> view.value == Render(currentData[stationId], now)
    {
      currentStation := Some(stationId);
      if stationId in currentData {
        view := Some(Render(currentData[stationId], now));
      } else {
        view := None;
      }
    }
  }
}
