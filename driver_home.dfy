/**
 * The driver's home page: a greeting, the assigned vehicle, whether the
 * documents are approved, and the state of today's duty row.
 */
module DriverHome {
  import opened Wrappers
  import opened Duties

  datatype DutyStatus = NotStarted | Completed | Active

  const ApprovedLabel := "Approved ✓"
  const PendingLabel := "Pending Approval"
  const UploadHint := "Upload all documents to start duty"

  /** The words shown for a status. */
  function StatusLabel(s: DutyStatus): string {
    match s
    case NotStarted => "Not Started"
    case Completed => "Completed ✓"
    case Active => "Active"
  }

  /**
   * `todayDuty ? (todayDuty.end_time ? 'Completed ✓' : 'Active') : 'Not Started'`;
   * `start_time` is not looked at.
   */
  function StatusOf(today: Option<Duty>): (r: DutyStatus)
    ensures r == NotStarted <==> today.None?
    ensures r == Completed <==> today.Some? && Truthy(today.value.endTime)
    ensures r == Active <==> today.Some? && !Truthy(today.value.endTime)
  {
    if today.None? then NotStarted
    else if Truthy(today.value.endTime) then Completed
    else Active
  }

  /** `text || fallback`: the text when it is present and not empty. */
  function OrDefault(text: Option<string>, fallback: string): (r: string)
    ensures Truthy(text) ==> r == text.value
    ensures !Truthy(text) ==> r == fallback
    ensures fallback != "" ==> r != ""
  {
    if Truthy(text) then text.value else fallback
  }

  /** `profile?.full_name || 'Driver'`. */
  function WelcomeName(fullName: Option<string>): string {
    OrDefault(fullName, "Driver")
  }

  /** `vehicle?.registration_number || 'Not Assigned'`. */
  function VehicleLabel(registration: Option<string>): string {
    OrDefault(registration, "Not Assigned")
  }

  /** The document card: its label, and the upload hint when one is shown. `approved` is `driver?.documents_approved`. */
  function DocumentCard(approved: Option<bool>): (r: (string, Option<string>))
    ensures r.0 == ApprovedLabel <==> approved == Some(true)
    ensures r.1.Some? <==> r.0 == PendingLabel
    ensures r.1.Some? ==> r.1.value == UploadHint
  {
    if approved == Some(true) then (ApprovedLabel, None) else (PendingLabel, Some(UploadHint))
  }

  // ---------------------------------------------------------------------------
  // Properties
  // ---------------------------------------------------------------------------

  /** The three labels are distinct, so the status shown tells the three cases apart. */
  lemma StatusLabelsDistinct(s: DutyStatus, t: DutyStatus)
    ensures StatusLabel(s) == StatusLabel(t) <==> s == t
  {
    if s != t {
      assert StatusLabel(s)[0] != StatusLabel(t)[0] || |StatusLabel(s)| != |StatusLabel(t)|;
    }
  }

  /** A duty the journey page treats as active is shown as 'Active'; an ended one never is. */
  lemma ActiveDutyShownActive(today: Option<Duty>)
    ensures IsActive(today) ==> StatusLabel(StatusOf(today)) == "Active"
    ensures today.Some? && Truthy(today.value.endTime) ==> StatusLabel(StatusOf(today)) == "Completed ✓"
  {
  }

  /** The converse fails: a row that was never started is still shown as 'Active'. */
  lemma ActiveWithoutStart()
    ensures var d := Some(Duty("d1", None, None, None, None));
            StatusOf(d) == Active && !IsActive(d)
  {
  }

  /** The greeting and the vehicle line are never empty, and show the stored text whenever there is some. */
  lemma FallbackLabels(fullName: Option<string>, registration: Option<string>)
    ensures WelcomeName(fullName) != "" && VehicleLabel(registration) != ""
    ensures Truthy(fullName) ==> WelcomeName(fullName) == fullName.value
    ensures fullName.None? ==> WelcomeName(fullName) == "Driver"
    ensures registration.None? ==> VehicleLabel(registration) == "Not Assigned"
  {
  }
}
