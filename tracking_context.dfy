/**
 * The tracking provider: a second, reconciling version of the tracking state
 * machine. Whenever it is notified, it re-reads today's duty row and arms or
 * disarms the position watch to match. Each sample only upserts the driver's
 * live entry; no route or distance is kept.
 *
 * `Provider` is the provider's state as a value and the `*Spec` functions its
 * transitions; the class `TrackingProvider` performs them step by step.
 */
module TrackingContext {
  import opened Wrappers
  import opened Geo
  import opened Duties
  import opened Live

  datatype Provider = Provider(
    watchId: Option<nat>,   // the watch handle ref
    watches: set<nat>,      // watches registered with the platform
    isTracking: bool,
    currentDuty: Option<Duty>)

  const Initial := Provider(None, {}, false, None)

  predicate Held(w: Option<nat>) {
    w.Some? && w.value != 0
  }

  /** One watch at most, the one the handle names, and `isTracking` says whether it is armed. */
  predicate WellFormed(p: Provider) {
    (if p.watchId.Some? then p.watchId.value > 0 && p.watches == {p.watchId.value} else p.watches == {})
    && p.isTracking == Held(p.watchId)
  }

  /** `startLocationWatch`: a no-op while a watch is held or without geolocation. */
  function StartWatchSpec(p: Provider, geo: bool, watch: nat): (r: Provider)
    requires watch > 0
    ensures WellFormed(p) ==> WellFormed(r)
    ensures Held(p.watchId) || !geo ==> r == p
    ensures !Held(p.watchId) && geo ==> r.isTracking && r.watchId == Some(watch)
    ensures r.currentDuty == p.currentDuty
  {
    if Held(p.watchId) || !geo then p
    else p.(watchId := Some(watch), watches := p.watches + {watch}, isTracking := true)
  }

  /** `stopLocationWatch` (the table side deletes the driver's entry). */
  function StopWatchSpec(p: Provider): (r: Provider)
    ensures WellFormed(p) ==> WellFormed(r) && r.watches == {}
    ensures r.watchId.None? && !r.isTracking
    ensures r.currentDuty == p.currentDuty
  {
    var watches := if Held(p.watchId) then p.watches - {p.watchId.value} else p.watches;
    p.(watchId := None, watches := watches, isTracking := false)
  }

  /**
   * `fetchCurrentDuty`: an active row becomes the current duty and, unless
   * `isTracking` reads true, the watch is started; anything else clears the
   * current duty and stops the watch. `seenTracking` is the value of
   * `isTracking` the calling closure sees, which may be older than the state.
   */
  function ReconcileSpec(p: Provider, row: Option<Duty>, seenTracking: bool, geo: bool, watch: nat): (r: Provider)
    requires watch > 0
    ensures WellFormed(p) ==> WellFormed(r)
    ensures IsActive(row) ==> r.currentDuty == row
    ensures !IsActive(row) ==> r.currentDuty.None? && r.watchId.None? && !r.isTracking
  {
    if IsActive(row) then
      var withDuty := p.(currentDuty := row);
      if !seenTracking then StartWatchSpec(withDuty, geo, watch) else withDuty
    else
      StopWatchSpec(p.(currentDuty := None))
  }

  /** What reconciling does to the live table: an inactive outcome deletes the driver's entry. */
  function ReconcileTable(live: map<DriverId, Coord>, driver: DriverId, row: Option<Duty>): (r: map<DriverId, Coord>)
    ensures IsActive(row) ==> r == live
    ensures !IsActive(row) ==> driver !in r && forall d :: d in live && d != driver ==> d in r && r[d] == live[d]
  {
    if IsActive(row) then live else live - {driver}
  }

  /** `stopTracking`: stops the watch and forgets the duty. */
  function StopTrackingSpec(p: Provider): (r: Provider)
    ensures WellFormed(p) ==> WellFormed(r)
    ensures r.currentDuty.None? && r.watchId.None? && !r.isTracking
  {
    StopWatchSpec(p).(currentDuty := None)
  }

  // ---------------------------------------------------------------------------
  // Properties
  // ---------------------------------------------------------------------------

  lemma AtMostOneWatch(p: Provider)
    requires WellFormed(p)
    ensures |p.watches| <= 1
    ensures p.isTracking <==> |p.watches| == 1
  {
  }

  /** Once armed, further starts change nothing. */
  lemma StartWatchTwice(p: Provider, geo: bool, w1: nat, w2: nat)
    requires w1 > 0 && w2 > 0
    ensures StartWatchSpec(StartWatchSpec(p, geo, w1), geo, w2) == StartWatchSpec(p, geo, w1)
  {
  }

  lemma StopWatchIdempotent(p: Provider)
    ensures StopWatchSpec(StopWatchSpec(p)) == StopWatchSpec(p)
  {
  }

  lemma StopTrackingIdempotent(p: Provider)
    ensures StopTrackingSpec(StopTrackingSpec(p)) == StopTrackingSpec(p)
  {
  }

  /**
   * An active row leaves the watch armed (when geolocation exists) whether the
   * closure saw the current `isTracking` or the `false` of an earlier render.
   */
  lemma ReconcileActiveArms(p: Provider, row: Option<Duty>, seenTracking: bool, watch: nat)
    requires watch > 0 && WellFormed(p)
    requires IsActive(row)
    requires seenTracking ==> p.isTracking
    ensures var r := ReconcileSpec(p, row, seenTracking, true, watch);
            r.isTracking && Held(r.watchId) && |r.watches| == 1
  {
  }

  /**
   * A repeated notification with the same row settles: reconciling again
   * changes nothing, whatever `isTracking` the second closure sees.
   */
  lemma ReconcileSettles(p: Provider, row: Option<Duty>, seen1: bool, seen2: bool, geo: bool, w1: nat, w2: nat)
    requires w1 > 0 && w2 > 0 && WellFormed(p)
    requires seen1 ==> p.isTracking
    ensures var r := ReconcileSpec(p, row, seen1, geo, w1);
            ReconcileSpec(r, row, seen2, geo, w2) == r
  {
  }

  // ---------------------------------------------------------------------------
  // The provider's state, updated in place
  // ---------------------------------------------------------------------------

  class TrackingProvider {
    const driver: DriverId
    const table: LiveLocations

    var watchId: Option<nat>
    var watches: set<nat>
    var isTracking: bool
    var currentDuty: Option<Duty>

    function State(): Provider
      reads this
    {
      Provider(watchId, watches, isTracking, currentDuty)
    }

    ghost predicate Valid()
      reads this
    {
      WellFormed(State())
    }

    constructor (driver: DriverId, table: LiveLocations)
      ensures Valid() && State() == Initial
      ensures this.driver == driver && this.table == table
    {
      this.driver, this.table := driver, table;
      watchId, watches, isTracking, currentDuty := None, {}, false, None;
    }

    method StartLocationWatch(geo: bool, watch: nat)
      requires Valid() && watch > 0
      modifies this
      ensures Valid()
      ensures State() == StartWatchSpec(old(State()), geo, watch)
    {
      if Held(watchId) || !geo {
        return;
      }
      watches := watches + {watch};
      watchId := Some(watch);
      isTracking := true;
    }

    /** One sample: only the driver's live entry is written. */
    method OnSample(p: Coord)
      requires Valid() && Held(watchId)
      modifies table
      ensures table.entries == old(table.entries)[driver := p]
    {
      table.Upsert(driver, p);
    }

    method StopLocationWatch()
      requires Valid()
      modifies this, table
      ensures Valid()
      ensures State() == StopWatchSpec(old(State()))
      ensures table.entries == old(table.entries) - {driver}
    {
      if Held(watchId) {
        watches := watches - {watchId.value};
        watchId := None;
      }
      table.Delete(driver);
      isTracking := false;
    }

    /** `stopLocationWatch` exactly as written: the delete is never awaited, so it is never sent. */
    method StopLocationWatchAsWritten()
      requires Valid()
      modifies this
      ensures Valid()
      ensures State() == StopWatchSpec(old(State()))
      ensures table.entries == old(table.entries)
    {
      if Held(watchId) {
        watches := watches - {watchId.value};
        watchId := None;
      }
      isTracking := false;
    }

    method FetchCurrentDuty(row: Option<Duty>, seenTracking: bool, geo: bool, watch: nat)
      requires Valid() && watch > 0
      modifies this, table
      ensures Valid()
      ensures State() == ReconcileSpec(old(State()), row, seenTracking, geo, watch)
      ensures table.entries == ReconcileTable(old(table.entries), driver, row)
    {
      if IsActive(row) {
        currentDuty := row;
        if !seenTracking {
          StartLocationWatch(geo, watch);
        }
      } else {
        currentDuty := None;
        StopLocationWatch();
      }
    }

    /**
     * A change notification on this driver's duty rows: the subscribed
     * callback re-runs `fetchCurrentDuty`, whose closure dates from the render
     * that subscribed, when `isTracking` was still false.
     */
    method OnDutyChange(row: Option<Duty>, geo: bool, watch: nat)
      requires Valid() && watch > 0
      modifies this, table
      ensures Valid()
      ensures State() == ReconcileSpec(old(State()), row, false, geo, watch)
      ensures table.entries == ReconcileTable(old(table.entries), driver, row)
    {
      FetchCurrentDuty(row, false, geo, watch);
    }

    /** The exported `startTracking` is an empty stub. */
    method StartTracking()
      ensures unchanged(this)
    {
    }

    method StopTracking()
      requires Valid()
      modifies this, table
      ensures Valid()
      ensures State() == StopTrackingSpec(old(State()))
      ensures table.entries == old(table.entries) - {driver}
    {
      StopLocationWatch();
      currentDuty := None;
    }
  }

  /** With `stopLocationWatch` as written, a driver whose duty has ended stays listed. */
  method EndedDutyLeavesEntryAsWritten(p: Coord) returns (stillListed: bool)
    ensures stillListed
  {
    var table := new LiveLocations();
    var provider := new TrackingProvider("driver-1", table);
    provider.StartLocationWatch(true, 1);
    provider.OnSample(p);
    provider.StopLocationWatchAsWritten();
    stillListed := "driver-1" in table.entries;
  }
}
