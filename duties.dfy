/** The `daily_duties` row as the driver pages read it. */
module Duties {
  import opened Wrappers
  import opened Geo

  /** One duty row; nullable columns are `Option`s. */
  datatype Duty = Duty(
    id: string,
    startTime: Option<string>,
    endTime: Option<string>,
    startLocation: Option<Coord>,
    totalCollection: Option<real>)

  /** JavaScript truthiness of a nullable text column: present and not empty. */
  predicate Truthy(o: Option<string>) {
    o.Some? && o.value != ""
  }

  /** `currentDuty?.start_time && !currentDuty?.end_time`. */
  predicate IsActive(duty: Option<Duty>) {
    duty.Some? && Truthy(duty.value.startTime) && !Truthy(duty.value.endTime)
  }
}
