/**
 * The admin's vehicle register: a form that adds a vehicle or edits one,
 * normalising what was typed before it is stored, and a list that is read
 * back after every change.
 *
 * `VehicleForm` is the page's state as a value; `ResetSpec`, `EditSpec` and
 * `SubmitSpec` are what the buttons do to it, and the class `VehiclesPage`
 * performs them field by field.
 */
module Vehicles {
  import opened Wrappers
  import opened Text

  /** A `vehicles` row. */
  datatype Vehicle = Vehicle(id: string, registrationNumber: string, model: string, cngFitted: bool,
                             insuranceExpiry: Option<string>, pucExpiry: Option<string>)

  /** The record `handleSubmit` sends. */
  datatype VehicleData = VehicleData(registrationNumber: string, model: string, cngFitted: bool,
                                     insuranceExpiry: Option<string>, pucExpiry: Option<string>)

  /** What a submit asks the store to do. */
  datatype Request = Update(id: string, data: VehicleData) | Insert(data: VehicleData)

  datatype NoticeKind = Success | Failure
  datatype Notice = Notice(kind: NoticeKind, text: string)

  /** An error the store replies with: its code and its message. */
  datatype StoreError = StoreError(code: string, message: string)

  datatype VehicleForm = VehicleForm(
    vehicles: seq<Vehicle>,
    showForm: bool,
    editing: Option<Vehicle>,
    message: Option<Notice>,
    regNo: string,
    model: string,
    cngFitted: bool,
    insuranceExpiry: string,   // the date field's text, '' when empty
    pucExpiry: string)

  /** The store's code for a unique-key violation. */
  const UniqueViolation := "23505"
  const DuplicateMessage := "Registration number already exists."
  const UpdatedMessage := "Vehicle updated!"
  const AddedMessage := "Vehicle added successfully!"
  const DeletedMessage := "Vehicle deleted!"

  // ---------------------------------------------------------------------------
  // Normalisation
  // ---------------------------------------------------------------------------

  /** `regNo.toUpperCase().trim()`. */
  function Normalise(s: string): string {
    Trim(Upper(s))
  }

  /** Normalising an already normalised registration number changes nothing. */
  lemma NormaliseIdempotent(s: string)
    ensures Normalise(Normalise(s)) == Normalise(s)
  {
    var u := Upper(s);
    UpperTrim(u);
    UpperTwice(s);
    TrimTwice(u);
  }

  /** A normalised registration number has no surrounding blanks and no lower-case letter. */
  lemma NormalisedShape(s: string)
    ensures var r := Normalise(s);
            && (|r| > 0 ==> !IsSpace(r[0]) && !IsSpace(r[|r| - 1]))
            && Upper(r) == r
  {
    NormaliseIdempotent(s);
    UpperTrim(Upper(s));
    UpperTwice(s);
  }

  /** `vehicleData`: the typed fields, normalised, with empty dates stored as `null`. */
  function DataOf(f: VehicleForm): VehicleData {
    VehicleData(Normalise(f.regNo), Trim(f.model), f.cngFitted, OrNull(f.insuranceExpiry), OrNull(f.pucExpiry))
  }

  /** What is sent is normalised however the fields were typed, and a date is `null` exactly when left empty. */
  lemma DataIsNormalised(f: VehicleForm)
    ensures var d := DataOf(f);
            && Normalise(d.registrationNumber) == d.registrationNumber
            && Trim(d.model) == d.model
            && d.cngFitted == f.cngFitted
            && (d.insuranceExpiry.None? <==> f.insuranceExpiry == "")
            && (d.pucExpiry.None? <==> f.pucExpiry == "")
            && (d.insuranceExpiry.Some? ==> d.insuranceExpiry.value == f.insuranceExpiry)
            && (d.pucExpiry.Some? ==> d.pucExpiry.value == f.pucExpiry)
  {
    NormaliseIdempotent(f.regNo);
    TrimTwice(f.model);
  }

  /** An edited vehicle is updated by its id; a new one is inserted. */
  function RequestOf(f: VehicleForm): (r: Request)
    ensures r.Update? <==> f.editing.Some?
    ensures r.Update? ==> r.id == f.editing.value.id
    ensures r.data == DataOf(f)
  {
    if f.editing.Some? then Update(f.editing.value.id, DataOf(f)) else Insert(DataOf(f))
  }

  /** The text shown for a failed save: a duplicate registration gets its own message, anything else the store's. */
  function ErrorText(e: StoreError): (r: string)
    ensures e.code == UniqueViolation ==> r == DuplicateMessage
    ensures e.code != UniqueViolation ==> r == e.message
  {
    if e.code == UniqueViolation then DuplicateMessage else e.message
  }

  // ---------------------------------------------------------------------------
  // The form's transitions
  // ---------------------------------------------------------------------------

  /** `resetForm`. */
  function ResetSpec(f: VehicleForm): VehicleForm {
    f.(regNo := "", model := "", cngFitted := true, insuranceExpiry := "", pucExpiry := "",
       editing := None, showForm := false, message := None)
  }

  /** `openAddForm`: a reset followed by showing the form. */
  function OpenAddSpec(f: VehicleForm): VehicleForm {
    ResetSpec(f).(showForm := true)
  }

  /** `handleEdit`: the vehicle's fields are loaded, a `null` date as ''. */
  function EditSpec(f: VehicleForm, v: Vehicle): VehicleForm {
    f.(editing := Some(v), regNo := v.registrationNumber, model := v.model, cngFitted := v.cngFitted,
       insuranceExpiry := v.insuranceExpiry.GetOr(""), pucExpiry := v.pucExpiry.GetOr(""),
       showForm := true, message := None)
  }

  /** The message a successful save reports. */
  function SavedMessage(f: VehicleForm): Notice {
    Notice(Success, if f.editing.Some? then UpdatedMessage else AddedMessage)
  }

  /** The outcome of a submit: the new state, the request sent, and whether the list is read again. */
  datatype SubmitOutcome = SubmitOutcome(form: VehicleForm, request: Request, refetch: bool)

  /**
   * `handleSubmit` as written: on success the message is set and then
   * `resetForm` clears it again, so the final message is `null`.
   */
  function SubmitAsWritten(f: VehicleForm, reply: Outcome<StoreError>): SubmitOutcome {
    var request := RequestOf(f);
    match reply
    case Fail(e) => SubmitOutcome(f.(message := Some(Notice(Failure, ErrorText(e)))), request, false)
    case Pass => SubmitOutcome(ResetSpec(f.(message := Some(SavedMessage(f)))), request, true)
  }

  /** `handleSubmit` with the success message set after the reset, so that it is shown. */
  function SubmitSpec(f: VehicleForm, reply: Outcome<StoreError>): SubmitOutcome {
    var request := RequestOf(f);
    match reply
    case Fail(e) => SubmitOutcome(f.(message := Some(Notice(Failure, ErrorText(e)))), request, false)
    case Pass => SubmitOutcome(ResetSpec(f).(message := Some(SavedMessage(f))), request, true)
  }

  // ---------------------------------------------------------------------------
  // Properties
  // ---------------------------------------------------------------------------

  /** After a reset the form is blank and closed, whatever it held, and resetting again changes nothing. */
  lemma ResetIsBlank(f: VehicleForm, g: VehicleForm)
    ensures var r := ResetSpec(f);
            && r.regNo == "" && r.model == "" && r.cngFitted && r.insuranceExpiry == "" && r.pucExpiry == ""
            && r.editing.None? && !r.showForm && r.message.None? && r.vehicles == f.vehicles
            && ResetSpec(r) == r
            && (g.vehicles == f.vehicles ==> ResetSpec(g) == r)
  {
  }

  /** The add form starts blank, and its submit is an insert of blank text with no dates. */
  lemma AddFormInserts(f: VehicleForm)
    ensures RequestOf(OpenAddSpec(f)) == Insert(VehicleData("", "", true, None, None))
    ensures OpenAddSpec(f).showForm
  {
    assert Upper("") == "";
  }

  /**
   * Editing a stored vehicle whose fields are already in normal form and
   * saving it unchanged sends back exactly its fields, as an update of that
   * vehicle.
   */
  lemma EditSaveRoundTrip(f: VehicleForm, v: Vehicle)
    requires Normalise(v.registrationNumber) == v.registrationNumber
    requires Trim(v.model) == v.model
    requires v.insuranceExpiry != Some("") && v.pucExpiry != Some("")
    ensures RequestOf(EditSpec(f, v)) ==
            Update(v.id, VehicleData(v.registrationNumber, v.model, v.cngFitted, v.insuranceExpiry, v.pucExpiry))
  {
    if v.insuranceExpiry.Some? {
      assert v.insuranceExpiry.value != "";
    }
    if v.pucExpiry.Some? {
      assert v.pucExpiry.value != "";
    }
  }

  /** Saving an edited vehicle twice without touching the form sends the same record the second time. */
  lemma EditSaveStable(f: VehicleForm, v: Vehicle)
    ensures var d := DataOf(EditSpec(f, v));
            var v2 := Vehicle(v.id, d.registrationNumber, d.model, d.cngFitted, d.insuranceExpiry, d.pucExpiry);
            RequestOf(EditSpec(f, v2)) == Update(v.id, d)
  {
    var d := DataOf(EditSpec(f, v));
    DataIsNormalised(EditSpec(f, v));
    var v2 := Vehicle(v.id, d.registrationNumber, d.model, d.cngFitted, d.insuranceExpiry, d.pucExpiry);
    EditSaveRoundTrip(f, v2);
  }

  /**
   * A failed save keeps the typed fields, the open form and the vehicle being
   * edited, and reports the mapped error; a successful one resets the form and
   * reads the list again.
   */
  lemma SubmitOutcomes(f: VehicleForm, reply: Outcome<StoreError>)
    ensures var o := SubmitSpec(f, reply);
            && o.request == RequestOf(f)
            && (reply.Fail? ==>
                  o.form == f.(message := Some(Notice(Failure, ErrorText(reply.error)))) && !o.refetch)
            && (reply.Pass? ==>
                  o.refetch && o.form.editing.None? && !o.form.showForm && o.form.regNo == "" &&
                  o.form.message == Some(Notice(Success, if f.editing.Some? then UpdatedMessage else AddedMessage)))
  {
  }

  /** As written, a successful save ends with no message at all: the success text is never shown. */
  lemma AsWrittenSuccessUnseen(f: VehicleForm)
    ensures SubmitAsWritten(f, Pass).form.message.None?
    ensures SubmitSpec(f, Pass).form.message.Some?
    ensures SubmitAsWritten(f, Pass).form == SubmitSpec(f, Pass).form.(message := None)
  {
  }

  /**
   * The handler as written and the corrected one send the same request and
   * agree on failure; on success they differ only in the message.
   */
  lemma AsWrittenDiffersOnlyInMessage(f: VehicleForm, reply: Outcome<StoreError>)
    ensures var w := SubmitAsWritten(f, reply);
            var c := SubmitSpec(f, reply);
            && w.request == c.request && w.refetch == c.refetch
            && (reply.Fail? ==> w == c)
            && (reply.Pass? ==> w.form == c.form.(message := None) && c.form.message.Some?)
  {
  }

  // ---------------------------------------------------------------------------
  // The page's state, updated in place
  // ---------------------------------------------------------------------------

  class VehiclesPage {
    var vehicles: seq<Vehicle>
    var showForm: bool
    var editing: Option<Vehicle>
    var message: Option<Notice>
    var regNo: string
    var model: string
    var cngFitted: bool
    var insuranceExpiry: string
    var pucExpiry: string

    function Form(): VehicleForm
      reads this
    {
      VehicleForm(vehicles, showForm, editing, message, regNo, model, cngFitted, insuranceExpiry, pucExpiry)
    }

    constructor ()
      ensures Form() == VehicleForm([], false, None, None, "", "", true, "", "")
    {
      vehicles, showForm, editing, message := [], false, None, None;
      regNo, model, cngFitted, insuranceExpiry, pucExpiry := "", "", true, "", "";
    }

    /** `fetchVehicles`: an error is reported and keeps the list; a reply replaces it, `null` reading as empty. */
    method FetchVehicles(reply: Result<Option<seq<Vehicle>>, string>)
      modifies this
      ensures reply.Err? ==> Form() == old(Form()).(message := Some(Notice(Failure, "Error loading vehicles: " + reply.error)))
      ensures reply.Ok? ==> Form() == old(Form()).(vehicles := reply.value.GetOr([]))
    {
      if reply.Err? {
        message := Some(Notice(Failure, "Error loading vehicles: " + reply.error));
      } else {
        vehicles := reply.value.GetOr([]);
      }
    }

    method ResetForm()
      modifies this
      ensures Form() == ResetSpec(old(Form()))
    {
      regNo := "";
      model := "";
      cngFitted := true;
      insuranceExpiry := "";
      pucExpiry := "";
      editing := None;
      showForm := false;
      message := None;
    }

    method OpenAddForm()
      modifies this
      ensures Form() == OpenAddSpec(old(Form()))
    {
      ResetForm();
      showForm := true;
    }

    method HandleEdit(v: Vehicle)
      modifies this
      ensures Form() == EditSpec(old(Form()), v)
    {
      editing := Some(v);
      regNo := v.registrationNumber;
      model := v.model;
      cngFitted := v.cngFitted;
      insuranceExpiry := v.insuranceExpiry.GetOr("");
      pucExpiry := v.pucExpiry.GetOr("");
      showForm := true;
      message := None;
    }

    /**
     * `handleSubmit` as written; `reply` is what the update or insert returns.
     * The success message is set before `resetForm`, which clears it.
     */
    method HandleSubmit(reply: Outcome<StoreError>) returns (request: Request, refetch: bool)
      modifies this
      ensures SubmitOutcome(Form(), request, refetch) == SubmitAsWritten(old(Form()), reply)
    {
      message := None;
      var data := VehicleData(Normalise(regNo), Trim(model), cngFitted, OrNull(insuranceExpiry), OrNull(pucExpiry));
      if editing.Some? {
        request := Update(editing.value.id, data);
      } else {
        request := Insert(data);
      }
      refetch := false;
      if reply.Fail? {
        message := Some(Notice(Failure, ErrorText(reply.error)));
      } else {
        message := Some(Notice(Success, if editing.Some? then UpdatedMessage else AddedMessage));
        ResetForm();
        refetch := true;
      }
    }

    /**
     * `handleDelete`: nothing happens unless the admin confirms; then the row
     * is deleted by id and the outcome reported. Returns the id deleted and
     * whether the list is read again.
     */
    method HandleDelete(id: string, confirmed: bool, reply: Outcome<string>) returns (deleted: Option<string>, refetch: bool)
      modifies this
      ensures !confirmed ==> Form() == old(Form()) && deleted.None? && !refetch
      ensures confirmed ==> deleted == Some(id)
      ensures confirmed && reply.Fail? ==>
                Form() == old(Form()).(message := Some(Notice(Failure, "Error deleting: " + reply.error))) && !refetch
      ensures confirmed && reply.Pass? ==>
                Form() == old(Form()).(message := Some(Notice(Success, DeletedMessage))) && refetch
    {
      deleted, refetch := None, false;
      if !confirmed {
        return;
      }
      deleted := Some(id);
      if reply.Fail? {
        message := Some(Notice(Failure, "Error deleting: " + reply.error));
      } else {
        message := Some(Notice(Success, DeletedMessage));
        refetch := true;
      }
    }
  }
}
