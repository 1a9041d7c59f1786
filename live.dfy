/**
 * The shared `live_locations` table: at most one entry per driver, written by
 * upsert on each position sample and removed when tracking stops.
 */
module Live {
  import opened Geo

  type DriverId = string

  class LiveLocations {
    /** driver id -> last reported location */
    var entries: map<DriverId, Coord>

    constructor ()
      ensures entries == map[]
    {
      entries := map[];
    }

    /** `upsert({ driver_id, location })`: insert or overwrite this driver's entry only. */
    method Upsert(driver: DriverId, location: Coord)
      modifies this
      ensures entries == old(entries)[driver := location]
      ensures forall d :: d != driver ==> (d in entries <==> d in old(entries))
    {
      entries := entries[driver := location];
    }

    /** `delete().eq('driver_id', driver)`: remove this driver's entry if present, no-op otherwise. */
    method Delete(driver: DriverId)
      modifies this
      ensures entries == old(entries) - {driver}
      ensures driver !in entries
    {
      entries := entries - {driver};
    }
  }
}
