/**
 * The driver's journey page: per-driver live tracking while a duty is active.
 *
 * The page keeps a watch handle (`watchId`), the last recorded position
 * (`lastPosition`), the displayed position, an append-only route, a running
 * distance total, the current duty row and a status line, and it writes this
 * driver's entry of the shared live-location table. `Session` is that state as
 * a value; the `*Spec` functions give each transition, and the class
 * `JourneySession` performs the same transitions step by step on its fields
 * and on the shared table.
 *
 * Platform inputs are parameters: `geo` (is `navigator.geolocation` present),
 * `watch` (the id `watchPosition` hands out, greater than zero), and the
 * results of `getCurrentPosition` and of the store calls.
 */
module Journey {
  import opened Wrappers
  import opened Geo
  import opened Duties
  import opened Live

  const Requesting := "Requesting location permission..."
  const GettingLocation := "Getting location..."
  const GeoUnsupported := "Geolocation not supported"
  const DutyStarted := "Duty started! Live tracking active."
  const DutyEnded := "Duty ended successfully!"
  const EndLocationError := "Location error on end"

  datatype Session = Session(
    watchId: Option<nat>,       // the watch handle ref
    watches: set<nat>,          // watches registered with the platform for this page
    position: Option<Coord>,
    route: seq<Coord>,
    distance: real,
    lastPosition: Option<Coord>,
    currentDuty: Option<Duty>,
    status: string)

  const Initial := Session(None, {}, None, [], 0.0, None, None, "")

  /** JavaScript truthiness of the watch handle: set and not 0. */
  predicate Held(w: Option<nat>) {
    w.Some? && w.value != 0
  }

  /** The platform has exactly the watch the handle names registered, and no other. */
  predicate WellFormed(s: Session) {
    if s.watchId.Some? then s.watchId.value > 0 && s.watches == {s.watchId.value}
    else s.watches == {}
  }

  lemma AtMostOneWatch(s: Session)
    requires WellFormed(s)
    ensures |s.watches| <= 1
    ensures |s.watches| == 1 <==> Held(s.watchId)
  {
  }

  // ---------------------------------------------------------------------------
  // Transitions
  // ---------------------------------------------------------------------------

  /** `startTracking`: returns at once while a watch is held or without geolocation; otherwise arms one watch. */
  function StartTrackingSpec(s: Session, geo: bool, watch: nat): (r: Session)
    requires watch > 0
    ensures WellFormed(s) ==> WellFormed(r)
    ensures Held(s.watchId) || !geo ==> r == s
    ensures !Held(s.watchId) && geo ==> r.watchId == Some(watch) && r.status == Requesting
    ensures r.(watchId := s.watchId, watches := s.watches, status := s.status) == s
  {
    if Held(s.watchId) || !geo then s
    else s.(status := Requesting, watchId := Some(watch), watches := s.watches + {watch})
  }

  /** The watch callback for one delivered sample `p` (the table side is `LiveLocations.Upsert`). */
  function SampleSpec(dist: Distance, s: Session, p: Coord): (r: Session)
    ensures r.position == Some(p) && r.lastPosition == Some(p)
    ensures r.route == s.route + [p]
    ensures IsDistance(dist) ==> r.distance >= s.distance
    ensures r.distance == s.distance + Travelled(dist, s.lastPosition, [p])
    ensures r.watchId == s.watchId && r.watches == s.watches
    ensures r.currentDuty == s.currentDuty && r.status == s.status
  {
    var added := if s.lastPosition.Some? then dist(s.lastPosition.value, p) else 0.0;
    s.(position := Some(p), route := s.route + [p], distance := s.distance + added, lastPosition := Some(p))
  }

  /** The watch error callback: only the status line changes; the watch stays armed. */
  function WatchErrorSpec(s: Session, message: string): (r: Session)
    ensures r.status == "Location error: " + message
    ensures r.(status := s.status) == s
  {
    s.(status := "Location error: " + message)
  }

  /** `stopTracking` (the table side deletes this driver's entry): clears the watch and the recorded point. */
  function StopSpec(s: Session): (r: Session)
    ensures WellFormed(s) ==> WellFormed(r) && r.watches == {}
    ensures r.watchId.None? && r.lastPosition.None?
    ensures r.route == s.route && r.distance == s.distance && r.position == s.position
    ensures r.currentDuty == s.currentDuty && r.status == s.status
  {
    var watches := if Held(s.watchId) then s.watches - {s.watchId.value} else s.watches;
    s.(watchId := None, watches := watches, lastPosition := None)
  }

  /**
   * `startDuty`: without geolocation only a message; a location error or an
   * insert error changes only the message; on success the route restarts at
   * the start point and tracking is armed.
   */
  function StartDutySpec(s: Session, geo: bool, located: Result<Coord, string>,
                         inserted: Result<Duty, string>, watch: nat): (r: Session)
    requires watch > 0
    ensures WellFormed(s) ==> WellFormed(r)
  {
    if !geo then s.(status := GeoUnsupported)
    else match located
      case Err(m) => s.(status := "Location access denied: " + m)
      case Ok(p) =>
        match inserted
        case Err(m) => s.(status := "Error starting duty: " + m)
        case Ok(duty) =>
          var started := s.(status := DutyStarted, currentDuty := Some(duty), position := Some(p),
                            route := [p], distance := 0.0, lastPosition := Some(p));
          StartTrackingSpec(started, geo, watch)
  }

  /**
   * `endDuty`: tracking is stopped first, unconditionally; then a location
   * error or an update error only sets the message (the duty row stays), and
   * success clears the duty, route, distance and position. A missing duty row
   * makes the callback throw before the update, leaving the stopped state.
   */
  function EndDutySpec(s: Session, geo: bool, located: Result<Coord, string>, updated: Outcome<string>): (r: Session)
    ensures WellFormed(s) ==> WellFormed(r)
    ensures r.watchId.None? && r.lastPosition.None?
  {
    var stopped := StopSpec(s);
    if !geo then stopped
    else match located
      case Err(_) => stopped.(status := EndLocationError)
      case Ok(_) =>
        if stopped.currentDuty.None? then stopped
        else match updated
          case Fail(m) => stopped.(status := "Error ending duty: " + m)
          case Pass =>
            stopped.(status := DutyEnded, currentDuty := None, route := [], distance := 0.0, position := None)
  }

  /** The end-of-duty update the page sends: the duty's id and the caller's end coordinate. */
  function EndDutyRequest(s: Session, geo: bool, located: Result<Coord, string>): (req: Option<(string, Coord)>)
    ensures req.Some? <==> geo && located.Ok? && s.currentDuty.Some?
    ensures req.Some? ==> req.value == (s.currentDuty.value.id, located.value)
  {
    if geo && located.Ok? && s.currentDuty.Some? then Some((s.currentDuty.value.id, located.value)) else None
  }

  /**
   * `fetchCurrentDuty` on load: a row for today becomes the current duty; if
   * it is active, the start location (when present) seeds the position, the
   * route and the recorded point, and tracking is resumed. No row: nothing changes.
   */
  function ResumeSpec(s: Session, row: Option<Duty>, geo: bool, watch: nat): (r: Session)
    requires watch > 0
    ensures WellFormed(s) ==> WellFormed(r)
    ensures row.None? ==> r == s
    ensures row.Some? ==> r.currentDuty == row
  {
    if row.None? then s
    else
      var withDuty := s.(currentDuty := row);
      if IsActive(row) then
        var seeded := match row.value.startLocation
          case Some(p) => withDuty.(position := Some(p), lastPosition := Some(p), route := [p])
          case None => withDuty;
        StartTrackingSpec(seeded, geo, watch)
      else withDuty
  }

  /** Samples delivered one at a time, in arrival order. */
  function Replay(dist: Distance, s: Session, ps: seq<Coord>): Session
    decreases |ps|
  {
    if ps == [] then s else Replay(dist, SampleSpec(dist, s, ps[0]), ps[1..])
  }

  // ---------------------------------------------------------------------------
  // Properties
  // ---------------------------------------------------------------------------

  /** Re-arming is refused while a watch is held, so a second start changes nothing. */
  lemma StartTrackingTwice(s: Session, geo: bool, w1: nat, w2: nat)
    requires w1 > 0 && w2 > 0
    ensures StartTrackingSpec(StartTrackingSpec(s, geo, w1), geo, w2) == StartTrackingSpec(s, geo, w1)
  {
  }

  /** Stopping twice leaves the same state as stopping once. */
  lemma StopIdempotent(s: Session)
    ensures StopSpec(StopSpec(s)) == StopSpec(s)
  {
  }

  /** The first sample after a stop records the point and adds no distance. */
  lemma FirstSampleAfterStop(dist: Distance, s: Session, p: Coord)
    ensures SampleSpec(dist, StopSpec(s), p).distance == s.distance
    ensures SampleSpec(dist, StopSpec(s), p).lastPosition == Some(p)
  {
  }

  /** Repeating the recorded point adds nothing. */
  lemma RepeatedPointAddsNothing(dist: Distance, s: Session, p: Coord)
    requires IsDistance(dist)
    requires s.lastPosition == Some(p)
    ensures SampleSpec(dist, s, p).distance == s.distance
  {
  }

  /** A run of samples extends the route by exactly those samples and adds their travelled distance. */
  lemma {:induction false} ReplayEffect(dist: Distance, s: Session, ps: seq<Coord>)
    ensures Replay(dist, s, ps).route == s.route + ps
    ensures Replay(dist, s, ps).distance == s.distance + Travelled(dist, s.lastPosition, ps)
    ensures ps != [] ==> Replay(dist, s, ps).lastPosition == Some(ps[|ps| - 1])
    ensures ps != [] ==> Replay(dist, s, ps).position == Some(ps[|ps| - 1])
    ensures Replay(dist, s, ps).watchId == s.watchId && Replay(dist, s, ps).currentDuty == s.currentDuty
    decreases |ps|
  {
    if ps != [] {
      var next := SampleSpec(dist, s, ps[0]);
      ReplayEffect(dist, next, ps[1..]);
      assert s.route + [ps[0]] + ps[1..] == s.route + ps;
      if |ps| > 1 {
        assert ps[1..][|ps| - 2] == ps[|ps| - 1];
      }
    }
  }

  /** The running distance never decreases while samples arrive. */
  lemma DistanceNeverDecreases(dist: Distance, s: Session, ps: seq<Coord>)
    requires IsDistance(dist)
    ensures Replay(dist, s, ps).distance >= s.distance
  {
    ReplayEffect(dist, s, ps);
    TravelledNonNegative(dist, s.lastPosition, ps);
  }

  /**
   * After a successful start at `p0` and the samples `ps`, the route is
   * `p0, ps` and the distance is the length of that path.
   */
  lemma StartThenSamples(dist: Distance, s: Session, p0: Coord, duty: Duty, watch: nat, ps: seq<Coord>)
    requires watch > 0
    ensures var started := StartDutySpec(s, true, Ok(p0), Ok(duty), watch);
            && Replay(dist, started, ps).route == [p0] + ps
            && Replay(dist, started, ps).distance == PathLength(dist, [p0] + ps)
            && Replay(dist, started, ps).currentDuty == Some(duty)
  {
    var started := StartDutySpec(s, true, Ok(p0), Ok(duty), watch);
    ReplayEffect(dist, started, ps);
    TravelledFrom(dist, p0, ps);
  }

  /** A successful start seeds the route and arms tracking when no watch was held. */
  lemma StartDutySucceeds(s: Session, p: Coord, duty: Duty, watch: nat)
    requires watch > 0 && !Held(s.watchId)
    ensures var r := StartDutySpec(s, true, Ok(p), Ok(duty), watch);
            && r.route == [p] && r.distance == 0.0 && r.lastPosition == Some(p) && r.position == Some(p)
            && r.currentDuty == Some(duty) && r.watchId == Some(watch) && r.status == Requesting
  {
  }

  /** An insert error changes only the status line. */
  lemma StartDutyInsertError(s: Session, p: Coord, message: string, watch: nat)
    requires watch > 0
    ensures StartDutySpec(s, true, Ok(p), Err(message), watch) == s.(status := "Error starting duty: " + message)
  {
  }

  /** A failed end update leaves the duty row current but tracking already stopped. */
  lemma EndDutyUpdateError(s: Session, p: Coord, message: string)
    requires s.currentDuty.Some?
    ensures var r := EndDutySpec(s, true, Ok(p), Fail(message));
            && r.currentDuty == s.currentDuty && IsActive(r.currentDuty) == IsActive(s.currentDuty)
            && r.watchId.None? && r.route == s.route && r.distance == s.distance
  {
  }

  /** A successful end clears the duty, route, distance and position. */
  lemma EndDutySucceeds(s: Session, p: Coord)
    requires s.currentDuty.Some?
    ensures var r := EndDutySpec(s, true, Ok(p), Pass);
            && r.currentDuty.None? && !IsActive(r.currentDuty) && r.route == [] && r.distance == 0.0
            && r.position.None? && r.lastPosition.None? && r.watchId.None? && r.status == DutyEnded
  {
  }

  /** On load, an active row with a start location resumes tracking from that point. */
  lemma ResumeActive(s: Session, row: Duty, p: Coord, watch: nat)
    requires watch > 0 && !Held(s.watchId)
    requires IsActive(Some(row)) && row.startLocation == Some(p)
    ensures var r := ResumeSpec(s, Some(row), true, watch);
            && r.route == [p] && r.position == Some(p) && r.lastPosition == Some(p)
            && r.watchId == Some(watch) && r.currentDuty == Some(row)
  {
  }

  /** On load, a row that is not active is shown but tracking is left as it was. */
  lemma ResumeInactive(s: Session, row: Duty, geo: bool, watch: nat)
    requires watch > 0 && !IsActive(Some(row))
    ensures ResumeSpec(s, Some(row), geo, watch) == s.(currentDuty := Some(row))
  {
  }

  // ---------------------------------------------------------------------------
  // The page's state, updated in place
  // ---------------------------------------------------------------------------

  class JourneySession {
    const driver: DriverId
    const dist: Distance
    const table: LiveLocations

    var watchId: Option<nat>
    var watches: set<nat>
    var position: Option<Coord>
    var route: seq<Coord>
    var distance: real
    var lastPosition: Option<Coord>
    var currentDuty: Option<Duty>
    var status: string

    function State(): Session
      reads this
    {
      Session(watchId, watches, position, route, distance, lastPosition, currentDuty, status)
    }

    ghost predicate Valid()
      reads this
    {
      WellFormed(State()) && IsDistance(dist)
    }

    constructor (driver: DriverId, dist: Distance, table: LiveLocations)
      requires IsDistance(dist)
      ensures Valid() && State() == Initial
      ensures this.driver == driver && this.dist == dist && this.table == table
    {
      this.driver, this.dist, this.table := driver, dist, table;
      watchId, watches := None, {};
      position, route, distance, lastPosition := None, [], 0.0, None;
      currentDuty, status := None, "";
    }

    method StartTracking(geo: bool, watch: nat)
      requires Valid() && watch > 0
      modifies this
      ensures Valid()
      ensures State() == StartTrackingSpec(old(State()), geo, watch)
    {
      if Held(watchId) || !geo {
        return;
      }
      status := Requesting;
      watches := watches + {watch};
      watchId := Some(watch);
    }

    /** One position sample delivered to the armed watch. */
    method OnSample(p: Coord)
      requires Valid() && Held(watchId)
      modifies this, table
      ensures Valid()
      ensures State() == SampleSpec(dist, old(State()), p)
      ensures distance >= old(distance)
      ensures table.entries == old(table.entries)[driver := p]
    {
      position := Some(p);
      route := route + [p];
      if lastPosition.Some? {
        distance := distance + dist(lastPosition.value, p);
      }
      lastPosition := Some(p);
      table.Upsert(driver, p);
    }

    method OnWatchError(message: string)
      requires Valid()
      modifies this
      ensures Valid()
      ensures State() == WatchErrorSpec(old(State()), message)
    {
      status := "Location error: " + message;
    }

    method StopTracking()
      requires Valid()
      modifies this, table
      ensures Valid()
      ensures State() == StopSpec(old(State()))
      ensures table.entries == old(table.entries) - {driver}
    {
      if Held(watchId) {
        watches := watches - {watchId.value};
        watchId := None;
      }
      table.Delete(driver);
      lastPosition := None;
    }

    /**
     * `stopTracking` exactly as written: the delete request is built but never
     * awaited, and a query builder of the store client sends its request only
     * when awaited, so this driver's entry stays in the table.
     */
    method StopTrackingAsWritten()
      requires Valid()
      modifies this
      ensures Valid()
      ensures State() == StopSpec(old(State()))
      ensures table.entries == old(table.entries)
    {
      if Held(watchId) {
        watches := watches - {watchId.value};
        watchId := None;
      }
      lastPosition := None;
    }

    method StartDuty(geo: bool, located: Result<Coord, string>, inserted: Result<Duty, string>, watch: nat)
      requires Valid() && watch > 0
      modifies this
      ensures Valid()
      ensures State() == StartDutySpec(old(State()), geo, located, inserted, watch)
    {
      if !geo {
        status := GeoUnsupported;
        return;
      }
      status := GettingLocation;
      match located
      case Err(m) =>
        status := "Location access denied: " + m;
      case Ok(p) =>
        match inserted
        case Err(m) =>
          status := "Error starting duty: " + m;
        case Ok(duty) =>
          status := DutyStarted;
          currentDuty := Some(duty);
          position := Some(p);
          route := [p];
          distance := 0.0;
          lastPosition := Some(p);
          StartTracking(geo, watch);
    }

    method EndDuty(geo: bool, located: Result<Coord, string>, updated: Outcome<string>)
      returns (request: Option<(string, Coord)>)
      requires Valid()
      modifies this, table
      ensures Valid()
      ensures State() == EndDutySpec(old(State()), geo, located, updated)
      ensures request == EndDutyRequest(old(State()), geo, located)
      ensures table.entries == old(table.entries) - {driver}
    {
      request := EndDutyRequest(State(), geo, located);
      StopTracking();
      if !geo {
        return;
      }
      match located
      case Err(_) =>
        status := EndLocationError;
      case Ok(_) =>
        if currentDuty.None? {
          return;
        }
        match updated
        case Fail(m) =>
          status := "Error ending duty: " + m;
        case Pass =>
          status := DutyEnded;
          currentDuty := None;
          route := [];
          distance := 0.0;
          position := None;
    }

    method Resume(row: Option<Duty>, geo: bool, watch: nat)
      requires Valid() && watch > 0
      modifies this
      ensures Valid()
      ensures State() == ResumeSpec(old(State()), row, geo, watch)
    {
      if row.Some? {
        currentDuty := row;
        if IsActive(row) {
          if row.value.startLocation.Some? {
            var p := row.value.startLocation.value;
            position := Some(p);
            lastPosition := Some(p);
            route := [p];
          }
          StartTracking(geo, watch);
        }
      }
    }
  }

  /**
   * A driver who is tracked and then stops, with `stopTracking` as written,
   * is still listed in the live table afterwards.
   */
  method StopLeavesEntryAsWritten(p: Coord) returns (stillListed: bool)
    ensures stillListed
  {
    var table := new LiveLocations();
    var session := new JourneySession("driver-1", (a: Coord, b: Coord) => 0.0, table);
    session.StartTracking(true, 1);
    session.OnSample(p);
    session.StopTrackingAsWritten();
    stillListed := "driver-1" in table.entries;
  }

  /**
   * Two drivers tracked over one shared table keep independent entries and
   * totals; after one of them stops, only the other is listed.
   */
  method TwoDriversTracked(dist: Distance, a0: Coord, a1: Coord, b0: Coord)
    returns (listed: map<DriverId, Coord>, distanceA: real, distanceB: real)
    requires IsDistance(dist)
    ensures listed == map["B" := b0]
    ensures distanceA == dist(a0, a1) && distanceB == 0.0
  {
    var table := new LiveLocations();
    var a := new JourneySession("A", dist, table);
    var b := new JourneySession("B", dist, table);
    a.StartTracking(true, 1);
    b.StartTracking(true, 2);
    a.OnSample(a0);
    b.OnSample(b0);
    a.OnSample(a1);
    a.StopTracking();
    listed, distanceA, distanceB := table.entries, a.distance, b.distance;
  }
}
