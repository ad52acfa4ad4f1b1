/**
 * The contact form's state and event handlers, shared by the two forms of the
 * site. ContactPage.tsx collects a first and a last name and adds a combined
 * `name` to what it sends; Contact.tsx collects one `name` and sends its
 * record as it is. Everything else — the phone check on change, on blur and
 * on submit, the request, the outcome handling and the reset to idle — is
 * the same code in both, so one class parameterised by `Variant` models both.
 *
 * Each React handler is one sequential update of the state. The network call
 * is split at its `await`: `HandleSubmit` runs up to and including the call
 * to `fetch` and records the request body; `ResolveRequest` runs the rest
 * with the outcome as input. The 5-second timer is the event
 * `ResetTimerFires`.
 */
module ContactForm {
  import opened JsString
  import opened PhoneNumber

  /** Which form: ContactPage.tsx splits the name, Contact.tsx does not. */
  datatype Variant = SplitName | SingleName

  datatype SubmitStatus = Idle | Success | Error

  /** What `await fetch(...)` gives: a response with its HTTP status, or a rejection. */
  datatype FetchOutcome = Responded(status: int) | Rejected

  /** `response.ok`: the status is in the range 200-299. */
  predicate IsOk(status: int) {
    200 <= status <= 299
  }

  predicate Succeeded(outcome: FetchOutcome) {
    outcome.Responded? && IsOk(outcome.status)
  }

  /** A form record: field name to current value. The request body has the same shape. */
  type FormData = map<string, string>

  const ChangeErrorMessage := "Please enter a valid Indian phone number"
  const SubmitErrorMessage := "Please enter a valid Indian phone number (10 digits)"

  /** The fields each form declares. */
  function FieldNames(v: Variant): set<string> {
    match v
    case SplitName => {"firstName", "lastName", "email", "phone", "service", "serviceArea", "message"}
    case SingleName => {"name", "email", "phone", "service", "serviceArea", "message"}
  }

  predicate HasFields(v: Variant, f: FormData) {
    FieldNames(v) <= f.Keys
  }

  /** The initial record, also the one a successful submission resets to. */
  function EmptyForm(v: Variant): (f: FormData)
    ensures f.Keys == FieldNames(v)
    ensures forall k :: k in f ==> f[k] == ""
  {
    match v
    case SplitName =>
      map["firstName" := "", "lastName" := "", "email" := "", "phone" := "",
          "service" := "", "serviceArea" := "", "message" := ""]
    case SingleName =>
      map["name" := "", "email" := "", "phone" := "", "service" := "", "serviceArea" := "", "message" := ""]
  }

  /**
   * The phone error that `handleChange` leaves after a change to the phone
   * field: none while the value is shorter than ten UTF-16 code units, and
   * otherwise an error exactly when the value fails the validator.
   */
  function PhoneErrorOnChange(value: string): (e: string)
    ensures Utf16Length(value) < 10 ==> e == ""
    ensures Utf16Length(value) >= 10 ==> (e != "" <==> !ValidatePhoneNumber(value))
    ensures e == "" || e == ChangeErrorMessage
    ensures ValidatePhoneNumber(value) ==> e == ""
  {
    if value != "" && Utf16Length(value) >= 10 then
      if !ValidatePhoneNumber(value) then ChangeErrorMessage else ""
    else ""
  }

  /**
   * The body of the request. ContactPage.tsx sends every field plus `name`,
   * the trimmed first and last name joined by a space; Contact.tsx sends
   * its record unchanged.
   */
  function Payload(v: Variant, f: FormData): (body: FormData)
    requires HasFields(v, f)
    ensures v == SplitName ==> body.Keys == f.Keys + {"name"}
    ensures v == SplitName ==> forall k :: k in f && k != "name" ==> body[k] == f[k]
    ensures v == SplitName ==> body["name"] == Trim(f["firstName"] + " " + f["lastName"])
    ensures v == SingleName ==> body == f
  {
    match v
    case SplitName => f["name" := Trim(f["firstName"] + " " + f["lastName"])]
    case SingleName => f
  }

  /** With both names filled in and trimmed, ContactPage.tsx sends them joined by one space. */
  lemma FullNameJoined(f: FormData)
    requires HasFields(SplitName, f)
    requires f["firstName"] != [] && IsTrimmed(f["firstName"])
    requires f["lastName"] != [] && IsTrimmed(f["lastName"])
    ensures Payload(SplitName, f)["name"] == f["firstName"] + " " + f["lastName"]
  {
    var joined := f["firstName"] + " " + f["lastName"];
    assert joined[0] == f["firstName"][0];
    assert joined[|joined| - 1] == f["lastName"][|f["lastName"]| - 1];
    TrimOfTrimmed(joined);
  }

  /** With an empty last name, the trailing space is trimmed away and `name` is the first name. */
  lemma FirstNameOnly(f: FormData)
    requires HasFields(SplitName, f)
    requires f["firstName"] != [] && IsTrimmed(f["firstName"])
    requires f["lastName"] == ""
    ensures Payload(SplitName, f)["name"] == f["firstName"]
  {
    assert f["firstName"] + " " + f["lastName"] == f["firstName"] + " ";
    TrimDropsTrailingWhitespace(f["firstName"], " ");
  }

  class Form {
    const variant: Variant
    var formData: FormData
    var phoneError: string
    var isSubmitting: bool
    var submitStatus: SubmitStatus
    /** Every request body handed to `fetch`, oldest first. */
    var requests: seq<FormData>
    /** Reset-to-idle timers scheduled and not yet fired. */
    var pendingResets: nat

    ghost predicate Valid()
      reads this
    {
      HasFields(variant, formData)
    }

    /** The initial state when the component mounts. */
    constructor (variant: Variant)
      ensures Valid() && this.variant == variant
      ensures formData == EmptyForm(variant) && phoneError == ""
      ensures !isSubmitting && submitStatus == Idle
      ensures requests == [] && pendingResets == 0
    {
      this.variant := variant;
      formData := EmptyForm(variant);
      phoneError := "";
      isSubmitting := false;
      submitStatus := Idle;
      requests := [];
      pendingResets := 0;
    }

    /**
     * `handleChange`: the field called `name` takes `value`, and no other
     * field changes; a change to `phone` also recomputes the phone error.
     */
    method HandleChange(name: string, value: string)
      requires Valid()
      modifies this
      ensures Valid()
      ensures formData == old(formData)[name := value]
      ensures phoneError == if name == "phone" then PhoneErrorOnChange(value) else old(phoneError)
      ensures isSubmitting == old(isSubmitting) && submitStatus == old(submitStatus)
      ensures requests == old(requests) && pendingResets == old(pendingResets)
    {
      if name == "phone" {
        if value != "" && Utf16Length(value) >= 10 {
          if !ValidatePhoneNumber(value) {
            phoneError := ChangeErrorMessage;
          } else {
            phoneError := "";
          }
        } else {
          phoneError := "";
        }
      }
      formData := formData[name := value];
    }

    /** The phone field's `onBlur`: reports a non-empty invalid number, and never clears an error. */
    method PhoneBlur()
      requires Valid()
      modifies this`phoneError
      ensures phoneError ==
        if formData["phone"] != "" && !ValidatePhoneNumber(formData["phone"]) then ChangeErrorMessage
        else old(phoneError)
      ensures old(phoneError) != "" ==> phoneError != ""
    {
      if formData["phone"] != "" && !ValidatePhoneNumber(formData["phone"]) {
        phoneError := ChangeErrorMessage;
      }
    }

    /** The submit button's `disabled` attribute. */
    predicate SubmitDisabled()
      reads this
    {
      isSubmitting
    }

    /**
     * What `handleSubmit` does up to its `await`: with an invalid phone it
     * sets the error and returns, issuing no request and changing nothing
     * else; with a valid phone it marks the form as submitting and issues
     * exactly one request, whose body is `Payload` of the current record.
     */
    twostate predicate Submitted()
      reads this
      requires old(Valid())
    {
      && formData == old(formData)
      && submitStatus == old(submitStatus)
      && pendingResets == old(pendingResets)
      && if ValidatePhoneNumber(old(formData)["phone"]) then
           && phoneError == old(phoneError)
           && isSubmitting
           && requests == old(requests) + [Payload(variant, old(formData))]
         else
           && phoneError == SubmitErrorMessage
           && isSubmitting == old(isSubmitting)
           && requests == old(requests)
    }

    /** `handleSubmit` up to the `await` of `fetch`; reachable only while the button is enabled. */
    method HandleSubmit()
      requires Valid() && !SubmitDisabled()
      modifies this
      ensures Valid() && Submitted()
    {
      if !ValidatePhoneNumber(formData["phone"]) {
        phoneError := SubmitErrorMessage;
        return;
      }
      isSubmitting := true;
      requests := requests + [Payload(variant, formData)];
    }

    /** A click on the submit button: ignored while it is disabled, `handleSubmit` otherwise. */
    method ClickSubmit()
      requires Valid()
      modifies this
      ensures Valid()
      ensures old(SubmitDisabled()) ==>
        && formData == old(formData) && phoneError == old(phoneError) && isSubmitting
        && submitStatus == old(submitStatus) && requests == old(requests)
        && pendingResets == old(pendingResets)
      ensures !old(SubmitDisabled()) ==> Submitted()
    {
      if !SubmitDisabled() {
        HandleSubmit();
      }
    }

    /**
     * The rest of `handleSubmit` once the request settles: a 2xx response
     * gives success and an empty record; any other response, or a rejected
     * request, gives error and keeps the record. In every case the form stops
     * submitting and one more reset-to-idle timer is scheduled.
     */
    method ResolveRequest(outcome: FetchOutcome)
      requires Valid() && isSubmitting
      modifies this
      ensures Valid()
      ensures submitStatus == if Succeeded(outcome) then Success else Error
      ensures formData == if Succeeded(outcome) then EmptyForm(variant) else old(formData)
      ensures !isSubmitting && pendingResets == old(pendingResets) + 1
      ensures phoneError == old(phoneError) && requests == old(requests)
    {
      match outcome {
        case Responded(status) =>
          if IsOk(status) {
            submitStatus := Success;
            formData := EmptyForm(variant);
          } else {
            submitStatus := Error;
          }
        case Rejected =>
          submitStatus := Error;
      }
      isSubmitting := false;
      pendingResets := pendingResets + 1;
    }

    /** The scheduled `setSubmitStatus('idle')`, which does not look at the current status. */
    method ResetTimerFires()
      requires pendingResets > 0
      modifies this`submitStatus, this`pendingResets
      ensures submitStatus == Idle && pendingResets == old(pendingResets) - 1
    {
      submitStatus := Idle;
      pendingResets := pendingResets - 1;
    }
  }

  // ----- Clients: a submission from each form, followed through to idle -----

  /**
   * ContactPage.tsx with any valid phone number and a server error: one
   * request carrying the joined name is issued, the status becomes error with
   * the record kept, and the timer brings the status back to idle.
   */
  method SplitNameServerError(first: string, last: string, phone: string, status: int)
      returns (sent: seq<FormData>, outcome: SubmitStatus, kept: FormData, after: SubmitStatus)
    requires first != [] && IsTrimmed(first) && last != [] && IsTrimmed(last)
    requires ValidatePhoneNumber(phone)
    requires !IsOk(status)
    ensures |sent| == 1 && "name" in sent[0] && "phone" in sent[0]
    ensures sent[0]["name"] == first + " " + last && sent[0]["phone"] == phone
    ensures outcome == Error && after == Idle
    ensures "firstName" in kept && "lastName" in kept && "phone" in kept
    ensures kept["firstName"] == first && kept["lastName"] == last && kept["phone"] == phone
  {
    var form := new Form(SplitName);
    form.HandleChange("firstName", first);
    form.HandleChange("lastName", last);
    form.HandleChange("phone", phone);
    var record := form.formData;
    assert record["firstName"] == first && record["lastName"] == last && record["phone"] == phone;
    FullNameJoined(record);
    form.HandleSubmit();
    sent := form.requests;
    form.ResolveRequest(Responded(status));
    outcome, kept := form.submitStatus, form.formData;
    form.ResetTimerFires();
    after := form.submitStatus;
  }

  /**
   * Contact.tsx: an invalid number is refused without a request and with the
   * submit error; once corrected, the record is sent as it is, a 2xx response
   * empties the form, and the timer brings the status back to idle.
   */
  method SingleNameSuccess(name: string, bad: string, good: string, status: int)
      returns (refused: seq<FormData>, error: string, sent: seq<FormData>,
               outcome: SubmitStatus, cleared: FormData, after: SubmitStatus)
    requires !ValidatePhoneNumber(bad) && ValidatePhoneNumber(good)
    requires IsOk(status)
    ensures refused == [] && error == SubmitErrorMessage
    ensures |sent| == 1 && "name" in sent[0] && "phone" in sent[0]
    ensures sent[0]["name"] == name && sent[0]["phone"] == good
    ensures outcome == Success && cleared == EmptyForm(SingleName) && after == Idle
  {
    var form := new Form(SingleName);
    form.HandleChange("name", name);
    form.HandleChange("phone", bad);
    assert form.formData["phone"] == bad && !form.isSubmitting && form.requests == [];
    form.HandleSubmit();
    refused, error := form.requests, form.phoneError;
    form.HandleChange("phone", good);
    var record := form.formData;
    assert record["name"] == name && record["phone"] == good && !form.isSubmitting;
    form.HandleSubmit();
    sent := form.requests;
    assert sent == [record];
    form.ResolveRequest(Responded(status));
    outcome, cleared := form.submitStatus, form.formData;
    form.ResetTimerFires();
    after := form.submitStatus;
  }
}
