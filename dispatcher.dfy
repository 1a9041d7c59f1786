/**
 * The dispatcher's live-tracking view: on load and on every change of the
 * live-location table it re-reads the whole snapshot, joins each entry with
 * the driver, profile and vehicle rows, fills in default labels, and centres
 * the map on the first entry.
 */
module Dispatcher {
  import opened Wrappers
  import opened Geo

  datatype LiveRow = LiveRow(driverId: string, location: Coord)

  /** A `drivers` row; `userId` is `None` when the query did not select `user_id`. */
  datatype DriverRow = DriverRow(id: string, userId: Option<string>, assignedVehicle: Option<string>)

  datatype ProfileRow = ProfileRow(id: string, fullName: string)

  datatype VehicleRow = VehicleRow(id: string, registrationNumber: string)

  datatype ActiveDriver = ActiveDriver(driverId: string, location: Coord, fullName: string, vehicleReg: string)

  const UnknownName := "Unknown"
  const NotAssigned := "Not Assigned"

  /** The map's initial centre. */
  const DefaultCenter := Coord(19.0760, 72.8777)

  /** The id column of each kind of row, the field the page's `find` callbacks compare. */
  function DriverKey(d: DriverRow): string { d.id }
  function ProfileKey(p: ProfileRow): string { p.id }
  function VehicleKey(v: VehicleRow): string { v.id }

  /**
   * The position `rows.find(r => id(r) === key)` stops at: the first row whose
   * id is the key, or `|rows|` when there is none. An absent key (`undefined`)
   * equals no id.
   */
  function FindAt<R>(rows: seq<R>, key: Option<string>, id: R -> string): (i: nat)
    ensures i <= |rows|
    ensures i < |rows| ==> Some(id(rows[i])) == key
    ensures forall j :: 0 <= j < i ==> Some(id(rows[j])) != key
  {
    if rows == [] || key.None? then |rows|
    else if id(rows[0]) == key.value then 0
    else 1 + FindAt(rows[1..], key, id)
  }

  /** `rows?.find(r => id(r) === key)`: the first row whose id is the key. */
  function Find<R(==)>(rows: seq<R>, key: Option<string>, id: R -> string): (r: Option<R>)
    ensures key.None? ==> r.None?
    ensures r.Some? ==> exists k :: 0 <= k < |rows| && rows[k] == r.value && Some(id(rows[k])) == key
                                      && forall j :: 0 <= j < k ==> Some(id(rows[j])) != key
    ensures r.None? ==> forall k :: 0 <= k < |rows| ==> Some(id(rows[k])) != key
  {
    var i := FindAt(rows, key, id);
    if i < |rows| then Some(rows[i]) else None
  }

  /** The driver row for a live entry, when the driver rows were read. */
  function DetailOf(item: LiveRow, details: Option<seq<DriverRow>>): Option<DriverRow> {
    if details.Some? then Find(details.value, Some(item.driverId), DriverKey) else None
  }

  /**
   * `(profiles?.find(...) || { full_name: 'Unknown' }).full_name`, the profile
   * looked up by the driver row's `user_id`: the default applies only when no
   * row is found, so a found profile with an empty name shows ''.
   */
  function NameOf(item: LiveRow, details: Option<seq<DriverRow>>, profiles: Option<seq<ProfileRow>>): string {
    var detail := DetailOf(item, details);
    var profile := if profiles.Some? then Find(profiles.value, if detail.Some? then detail.value.userId else None, ProfileKey) else None;
    if profile.Some? then profile.value.fullName else UnknownName
  }

  /**
   * `(vehicles?.find(...) || { registration_number: 'Not Assigned' }).registration_number`,
   * the vehicle looked up by `assigned_vehicle`; as for the name, the default
   * applies only when no row is found.
   */
  function VehicleOf(item: LiveRow, details: Option<seq<DriverRow>>, vehicles: Option<seq<VehicleRow>>): string {
    var detail := DetailOf(item, details);
    var vehicle := if vehicles.Some? then Find(vehicles.value, if detail.Some? then detail.value.assignedVehicle else None, VehicleKey) else None;
    if vehicle.Some? then vehicle.value.registrationNumber else NotAssigned
  }

  /** One formatted entry of the dispatcher's list. */
  function Entry(item: LiveRow, details: Option<seq<DriverRow>>, profiles: Option<seq<ProfileRow>>,
                 vehicles: Option<seq<VehicleRow>>): ActiveDriver
  {
    ActiveDriver(item.driverId, item.location, NameOf(item, details, profiles), VehicleOf(item, details, vehicles))
  }

  /** `liveData.map(...)`: one entry per live row, in the snapshot's order. */
  function Join(live: seq<LiveRow>, details: Option<seq<DriverRow>>, profiles: Option<seq<ProfileRow>>,
                vehicles: Option<seq<VehicleRow>>): (r: seq<ActiveDriver>)
    ensures |r| == |live|
    ensures forall i :: 0 <= i < |r| ==> r[i].driverId == live[i].driverId && r[i].location == live[i].location
  {
    seq(|live|, i requires 0 <= i < |live| => Entry(live[i], details, profiles, vehicles))
  }

  /** The `drivers` rows as the query selects them: `id, assigned_vehicle`, so no `user_id`. */
  function AsSelected(rows: seq<DriverRow>): (r: seq<DriverRow>)
    ensures |r| == |rows|
    ensures forall k :: 0 <= k < |r| ==> r[k] == rows[k].(userId := None)
  {
    seq(|rows|, k requires 0 <= k < |rows| => rows[k].(userId := None))
  }

  // ---------------------------------------------------------------------------
  // Properties of the join
  // ---------------------------------------------------------------------------

  /**
   * The vehicle label falls back to 'Not Assigned' when the driver row, its
   * assignment or the assigned vehicle's row is missing, and is otherwise the
   * registration of the first vehicle row with the assigned id.
   */
  lemma VehicleLabel(item: LiveRow, details: seq<DriverRow>, profiles: Option<seq<ProfileRow>>, vehicles: seq<VehicleRow>)
    ensures var detail := Find(details, Some(item.driverId), DriverKey);
            var e := Entry(item, Some(details), profiles, Some(vehicles));
            && (detail.None? || detail.value.assignedVehicle.None? ==> e.vehicleReg == NotAssigned)
            && (detail.Some? && detail.value.assignedVehicle.Some? &&
                (forall k :: 0 <= k < |vehicles| ==> vehicles[k].id != detail.value.assignedVehicle.value)
                ==> e.vehicleReg == NotAssigned)
            && (detail.Some? && detail.value.assignedVehicle.Some? &&
                (exists k :: 0 <= k < |vehicles| && vehicles[k].id == detail.value.assignedVehicle.value)
                ==> exists k :: 0 <= k < |vehicles| && vehicles[k].id == detail.value.assignedVehicle.value
                               && e.vehicleReg == vehicles[k].registrationNumber
                               && forall j :: 0 <= j < k ==> vehicles[j].id != detail.value.assignedVehicle.value)
  {
  }

  /** A profile row whose id is unique in the list is what the lookup finds. */
  lemma ProfileFound(profiles: seq<ProfileRow>, p: ProfileRow)
    requires p in profiles
    requires forall k :: 0 <= k < |profiles| ==> profiles[k].id == p.id ==> profiles[k] == p
    ensures Find(profiles, Some(p.id), ProfileKey) == Some(p)
  {
    var k :| 0 <= k < |profiles| && profiles[k] == p;
    var found := Find(profiles, Some(p.id), ProfileKey);
    var j :| 0 <= j < |profiles| && profiles[j] == found.value;
  }

  /** With the `user_id` column present, a driver whose profile exists is shown under that profile's name. */
  lemma NameFromProfile(item: LiveRow, details: seq<DriverRow>, profiles: seq<ProfileRow>, p: ProfileRow)
    requires Find(details, Some(item.driverId), DriverKey).Some?
    requires Find(details, Some(item.driverId), DriverKey).value.userId == Some(p.id)
    requires forall k :: 0 <= k < |profiles| ==> profiles[k].id == p.id ==> profiles[k] == p
    requires p in profiles
    ensures NameOf(item, Some(details), Some(profiles)) == p.fullName
  {
    ProfileFound(profiles, p);
  }

  /**
   * As written, the driver rows are read without `user_id`, so the profile
   * lookup key is always undefined and every entry is labelled 'Unknown'.
   */
  lemma AsWrittenEveryNameUnknown(live: seq<LiveRow>, details: Option<seq<DriverRow>>,
                                  profiles: Option<seq<ProfileRow>>, vehicles: Option<seq<VehicleRow>>)
    ensures var selected := if details.Some? then Some(AsSelected(details.value)) else None;
            forall i :: 0 <= i < |live| ==> Join(live, selected, profiles, vehicles)[i].fullName == UnknownName
  {
    var selected := if details.Some? then Some(AsSelected(details.value)) else None;
    forall i | 0 <= i < |live|
      ensures Join(live, selected, profiles, vehicles)[i].fullName == UnknownName
    {
      if selected.Some? {
        var found := Find(selected.value, Some(live[i].driverId), DriverKey);
        if found.Some? {
          var k :| 0 <= k < |selected.value| && selected.value[k] == found.value;
          assert found.value.userId.None?;
        }
      }
    }
  }

  /** A concrete case: a driver with a profile row is still shown as 'Unknown'. */
  lemma AsWrittenHidesKnownDriver()
    ensures var details := [DriverRow("d1", Some("u1"), None)];
            var profiles := [ProfileRow("u1", "Asha")];
            var live := [LiveRow("d1", Coord(19.1, 72.9))];
            && Join(live, Some(AsSelected(details)), Some(profiles), None)[0].fullName == UnknownName
            && Join(live, Some(details), Some(profiles), None)[0].fullName == "Asha"
  {
    var details := [DriverRow("d1", Some("u1"), None)];
    assert AsSelected(details)[0].userId.None?;
  }

  // ---------------------------------------------------------------------------
  // The view's state
  // ---------------------------------------------------------------------------

  class TrackingView {
    var drivers: seq<ActiveDriver>
    var center: Coord

    constructor ()
      ensures drivers == [] && center == DefaultCenter
    {
      drivers, center := [], DefaultCenter;
    }

    /**
     * `fetchActiveDrivers`: an error or an empty snapshot empties the list and
     * keeps the centre; otherwise the list is the join of the fresh snapshot
     * (nothing of the previous list survives) and the centre moves to the
     * first entry. `details` are the `drivers` rows including `user_id`.
     */
    method FetchActiveDrivers(live: Option<seq<LiveRow>>, details: Option<seq<DriverRow>>,
                              profiles: Option<seq<ProfileRow>>, vehicles: Option<seq<VehicleRow>>)
      modifies this
      ensures live.None? || live.value == [] ==> drivers == [] && center == old(center)
      ensures live.Some? && live.value != [] ==>
                drivers == Join(live.value, details, profiles, vehicles) && center == live.value[0].location
    {
      if live.None? || |live.value| == 0 {
        drivers := [];
        return;
      }
      var formatted := Join(live.value, details, profiles, vehicles);
      drivers := formatted;
      if |formatted| > 0 {
        center := formatted[0].location;
      }
    }

    /** Any change on the live table: the whole snapshot is fetched again, with no diffing. */
    method OnLiveChange(live: Option<seq<LiveRow>>, details: Option<seq<DriverRow>>,
                        profiles: Option<seq<ProfileRow>>, vehicles: Option<seq<VehicleRow>>)
      modifies this
      ensures live.None? || live.value == [] ==> drivers == [] && center == old(center)
      ensures live.Some? && live.value != [] ==>
                drivers == Join(live.value, details, profiles, vehicles) && center == live.value[0].location
    {
      FetchActiveDrivers(live, details, profiles, vehicles);
    }
  }
}
