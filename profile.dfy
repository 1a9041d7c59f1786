/**
 * The driver's own profile page: the form is filled from the stored
 * `profiles` and `drivers` rows, and "save" sends only the fields that differ
 * from what was stored, at most one update per table.
 *
 * `ProfileForm` is the page's state as a value and `SaveSpec` the outcome of
 * one save; the class `ProfilePage` builds the queued updates step by step.
 */
module Profile {
  import opened Wrappers

  /** The `drivers` columns the form edits; a `null` column is `None`. */
  datatype DriverRecord = DriverRecord(phone: Option<string>, licenseNumber: Option<string>, aadhaarNumber: Option<string>)

  datatype ProfileRecord = ProfileRecord(fullName: Option<string>)

  /** A key of the `driverUpdates` object. */
  datatype DriverField = Phone | LicenseNumber | AadhaarNumber

  datatype Table = Profiles | Drivers

  /** One queued update, keyed by the signed-in user's id. */
  datatype Update =
    | ProfileUpdate(userId: string, fullName: string)
    | DriversUpdate(userId: string, changes: map<DriverField, string>)

  datatype ProfileForm = ProfileForm(
    driver: Option<DriverRecord>,
    profile: Option<ProfileRecord>,
    fullName: string,
    phone: string,
    licenseNumber: string,
    aadhaarNumber: string,
    saving: bool,
    message: string)

  const NoChangesMessage := "No changes to save"
  const SaveErrorMessage := "Error saving profile"
  const SavedMessage := "Profile updated successfully!"

  /** The table an update writes to. */
  function TableOf(u: Update): Table {
    if u.ProfileUpdate? then Profiles else Drivers
  }

  /** `driver?.<field>`: `None` when there is no driver row or the column is `null`. */
  function Stored(driver: Option<DriverRecord>, k: DriverField): Option<string> {
    if driver.None? then None
    else match k
      case Phone => driver.value.phone
      case LicenseNumber => driver.value.licenseNumber
      case AadhaarNumber => driver.value.aadhaarNumber
  }

  /** The form's text for a driver column. */
  function Typed(p: ProfileForm, k: DriverField): string {
    match k
    case Phone => p.phone
    case LicenseNumber => p.licenseNumber
    case AadhaarNumber => p.aadhaarNumber
  }

  /** `typed !== stored`: a string never equals `null` or `undefined`. */
  predicate Differs(typed: string, stored: Option<string>) {
    stored != Some(typed)
  }

  /** `fullName !== profile?.full_name`. */
  predicate NameDiffers(p: ProfileForm) {
    Differs(p.fullName, if p.profile.Some? then p.profile.value.fullName else None)
  }

  /** The `driverUpdates` object: each differing column, with the typed value. */
  function DriverChanges(p: ProfileForm): map<DriverField, string> {
    var m1: map<DriverField, string> := if Differs(p.phone, Stored(p.driver, Phone)) then map[Phone := p.phone] else map[];
    var m2 := if Differs(p.licenseNumber, Stored(p.driver, LicenseNumber)) then m1[LicenseNumber := p.licenseNumber] else m1;
    if Differs(p.aadhaarNumber, Stored(p.driver, AadhaarNumber)) then m2[AadhaarNumber := p.aadhaarNumber] else m2
  }

  /** The updates a save sends: the profile's first, then the drivers'. */
  function PlanUpdates(p: ProfileForm, userId: string): seq<Update> {
    var changes := DriverChanges(p);
    (if NameDiffers(p) then [ProfileUpdate(userId, p.fullName)] else []) +
    (if |changes| > 0 then [DriversUpdate(userId, changes)] else [])
  }

  /** `results.some(r => r.error)`, `failing` being the tables whose update the store rejects. */
  predicate AnyFails(updates: seq<Update>, failing: set<Table>) {
    exists i :: 0 <= i < |updates| && TableOf(updates[i]) in failing
  }

  datatype SaveOutcome = SaveOutcome(form: ProfileForm, sent: seq<Update>, refetch: bool)

  /** `handleSave`. */
  function SaveSpec(p: ProfileForm, userId: string, failing: set<Table>): SaveOutcome {
    var updates := PlanUpdates(p, userId);
    if updates == [] then SaveOutcome(p.(saving := false, message := NoChangesMessage), [], false)
    else if AnyFails(updates, failing) then SaveOutcome(p.(saving := false, message := SaveErrorMessage), updates, false)
    else SaveOutcome(p.(saving := false, message := SavedMessage), updates, true)
  }

  /** `fetchProfileData`: each row that was found replaces the stored row and loads its fields, `null` as ''. */
  function LoadSpec(p: ProfileForm, driverData: Option<DriverRecord>, profileData: Option<ProfileRecord>): ProfileForm {
    var q := if driverData.Some? then
               p.(driver := driverData, phone := driverData.value.phone.GetOr(""),
                  licenseNumber := driverData.value.licenseNumber.GetOr(""),
                  aadhaarNumber := driverData.value.aadhaarNumber.GetOr(""))
             else p;
    if profileData.Some? then q.(profile := profileData, fullName := profileData.value.fullName.GetOr("")) else q
  }

  // ---------------------------------------------------------------------------
  // Properties
  // ---------------------------------------------------------------------------

  /** `driverUpdates` holds exactly the differing columns, each with the typed value. */
  lemma DriverChangesExact(p: ProfileForm, k: DriverField)
    ensures k in DriverChanges(p) <==> Differs(Typed(p, k), Stored(p.driver, k))
    ensures k in DriverChanges(p) ==> DriverChanges(p)[k] == Typed(p, k)
  {
  }

  /**
   * At most one update per table: the profile's exactly when the name
   * differs, the drivers' exactly when some column differs, carrying all of
   * them.
   */
  lemma PlanIsDiff(p: ProfileForm, userId: string)
    ensures var u := PlanUpdates(p, userId);
            && |u| <= 2
            && ((exists i :: 0 <= i < |u| && u[i] == ProfileUpdate(userId, p.fullName)) <==> NameDiffers(p))
            && ((exists i :: 0 <= i < |u| && u[i] == DriversUpdate(userId, DriverChanges(p))) <==> |DriverChanges(p)| > 0)
            && (forall i :: 0 <= i < |u| && u[i].DriversUpdate? ==> u[i].changes == DriverChanges(p) && |u[i].changes| > 0)
            && (u == [] <==> !NameDiffers(p) && forall k :: !Differs(Typed(p, k), Stored(p.driver, k)))
  {
    var u := PlanUpdates(p, userId);
    var changes := DriverChanges(p);
    if NameDiffers(p) {
      assert u[0] == ProfileUpdate(userId, p.fullName);
    }
    if |changes| > 0 {
      assert u[|u| - 1] == DriversUpdate(userId, changes);
    }
    forall k
      ensures k in DriverChanges(p) <==> Differs(Typed(p, k), Stored(p.driver, k))
    {
      DriverChangesExact(p, k);
    }
    if |DriverChanges(p)| > 0 {
      var k :| k in DriverChanges(p);
      assert Differs(Typed(p, k), Stored(p.driver, k));
    }
    if !(forall k :: !Differs(Typed(p, k), Stored(p.driver, k))) {
      var k :| Differs(Typed(p, k), Stored(p.driver, k));
      assert k in DriverChanges(p);
    }
  }

  /**
   * A save with nothing to send reports so and sends nothing; otherwise the
   * message says whether any update failed, and only full success reloads.
   * The typed fields are kept either way and `saving` ends false.
   */
  lemma SaveOutcomes(p: ProfileForm, userId: string, failing: set<Table>)
    ensures var o := SaveSpec(p, userId, failing);
            && !o.form.saving
            && o.form.fullName == p.fullName && o.form.phone == p.phone
            && o.form.licenseNumber == p.licenseNumber && o.form.aadhaarNumber == p.aadhaarNumber
            && (o.form.message == NoChangesMessage <==> o.sent == [])
            && (o.form.message == SaveErrorMessage <==> o.sent != [] && AnyFails(o.sent, failing))
            && (o.refetch <==> o.form.message == SavedMessage)
            && (o.sent != [] ==> o.sent == PlanUpdates(p, userId))
  {
    var o := SaveSpec(p, userId, failing);
    assert NoChangesMessage[0] != SaveErrorMessage[0] && NoChangesMessage[0] != SavedMessage[0];
    assert SaveErrorMessage[0] != SavedMessage[0];
  }

  /**
   * After loading the stored rows, saving without edits still queues every
   * column that is `null` in the store (it loads as '' and '' is not `null`),
   * and only those.
   */
  lemma LoadedNullsQueued(p: ProfileForm, d: DriverRecord, pr: ProfileRecord, userId: string, k: DriverField)
    ensures var q := LoadSpec(p, Some(d), Some(pr));
            && (k in DriverChanges(q) <==> Stored(Some(d), k).None?)
            && (NameDiffers(q) <==> pr.fullName.None?)
  {
    var q := LoadSpec(p, Some(d), Some(pr));
    DriverChangesExact(q, k);
  }

  /** A concrete case: a driver without a phone on file saves with no edits and still writes '' over `null`. */
  lemma NullPhoneRewritten()
    ensures var p0 := ProfileForm(None, None, "", "", "", "", false, "");
            var q := LoadSpec(p0, Some(DriverRecord(None, Some("MH01"), Some("1234"))), Some(ProfileRecord(Some("Asha"))));
            PlanUpdates(q, "u1") == [DriversUpdate("u1", map[Phone := ""])]
  {
    var p0 := ProfileForm(None, None, "", "", "", "", false, "");
    var q := LoadSpec(p0, Some(DriverRecord(None, Some("MH01"), Some("1234"))), Some(ProfileRecord(Some("Asha"))));
    assert DriverChanges(q) == map[Phone := ""];
  }

  // ---------------------------------------------------------------------------
  // The page's state, updated in place
  // ---------------------------------------------------------------------------

  class ProfilePage {
    var driver: Option<DriverRecord>
    var profile: Option<ProfileRecord>
    var fullName: string
    var phone: string
    var licenseNumber: string
    var aadhaarNumber: string
    var saving: bool
    var message: string

    function Form(): ProfileForm
      reads this
    {
      ProfileForm(driver, profile, fullName, phone, licenseNumber, aadhaarNumber, saving, message)
    }

    constructor ()
      ensures Form() == ProfileForm(None, None, "", "", "", "", false, "")
    {
      driver, profile, fullName, phone, licenseNumber, aadhaarNumber := None, None, "", "", "", "";
      saving, message := false, "";
    }

    /** `fetchProfileData`; each argument is the row the store found, if any. */
    method FetchProfileData(driverData: Option<DriverRecord>, profileData: Option<ProfileRecord>)
      modifies this
      ensures Form() == LoadSpec(old(Form()), driverData, profileData)
    {
      if driverData.Some? {
        driver := driverData;
        phone := driverData.value.phone.GetOr("");
        licenseNumber := driverData.value.licenseNumber.GetOr("");
        aadhaarNumber := driverData.value.aadhaarNumber.GetOr("");
      }
      if profileData.Some? {
        profile := profileData;
        fullName := profileData.value.fullName.GetOr("");
      }
    }

    /** `handleSave`. Returns the updates sent and whether the data is loaded again. */
    method HandleSave(userId: string, failing: set<Table>) returns (updates: seq<Update>, refetch: bool)
      modifies this
      ensures SaveOutcome(Form(), updates, refetch) == SaveSpec(old(Form()), userId, failing)
    {
      saving := true;
      message := "";
      updates := [];
      refetch := false;
      if Differs(fullName, if profile.Some? then profile.value.fullName else None) {
        updates := updates + [ProfileUpdate(userId, fullName)];
      }
      var driverUpdates: map<DriverField, string> := map[];
      if Differs(phone, Stored(driver, Phone)) {
        driverUpdates := driverUpdates[Phone := phone];
      }
      if Differs(licenseNumber, Stored(driver, LicenseNumber)) {
        driverUpdates := driverUpdates[LicenseNumber := licenseNumber];
      }
      if Differs(aadhaarNumber, Stored(driver, AadhaarNumber)) {
        driverUpdates := driverUpdates[AadhaarNumber := aadhaarNumber];
      }
      assert driverUpdates == DriverChanges(old(Form()));
      if |driverUpdates| > 0 {
        updates := updates + [DriversUpdate(userId, driverUpdates)];
      }
      assert updates == PlanUpdates(old(Form()), userId);
      if |updates| == 0 {
        message := NoChangesMessage;
        saving := false;
        return;
      }
      var hasError := exists i :: 0 <= i < |updates| && TableOf(updates[i]) in failing;
      if hasError {
        message := SaveErrorMessage;
      } else {
        message := SavedMessage;
        refetch := true;
      }
      saving := false;
    }
  }
}
