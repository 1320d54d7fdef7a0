/**
 * The contact form: three text fields, a status line and an "in progress"
 * flag that disables the submit button. Validation is a pure, ordered,
 * short-circuiting chain of four checks; submission runs the validation and,
 * when it passes, two e-mail relay dispatches one after the other.
 */
module Contact {
  import opened Wrappers
  import opened JsString
  import opened EmailPattern

  /** The three inputs of the form, by their `name` attribute. */
  datatype Field = Name | Email | Message

  datatype FormData = FormData(name: string, email: string, message: string) {
    function Get(f: Field): string {
      match f
      case Name => name
      case Email => email
      case Message => message
    }

    /** `{ ...prev, [field]: value }`: the named field takes the new value. */
    function With(f: Field, value: string): (r: FormData)
      ensures r.Get(f) == value
      ensures forall g :: g != f ==> r.Get(g) == Get(g)
    {
      match f
      case Name => this.(name := value)
      case Email => this.(email := value)
      case Message => this.(message := value)
    }
  }

  const EmptyForm := FormData("", "", "")

  /** The `type` of the status line: `null`, `"success"` or `"error"`. */
  datatype StatusKind = Unset | Success | Error
  datatype Status = Status(kind: StatusKind, message: string)

  const ClearedStatus := Status(Unset, "")
  const SentStatus := Status(Success, "Message sent successfully! I'll get back to you soon.")
  const FailedStatus := Status(Error, "Failed to send message. Please try again later.")

  /** The four checks, named by what they reject. */
  datatype ValidationError = NameMissing | EmailMissing | EmailMalformed | MessageMissing

  function ErrorText(e: ValidationError): string {
    match e
    case NameMissing => "Please enter your name"
    case EmailMissing => "Please enter your email"
    case EmailMalformed => "Please enter a valid email address"
    case MessageMissing => "Please enter your message"
  }

  /** The position of a check in the order the validator runs them. */
  function Rank(e: ValidationError): nat {
    match e
    case NameMissing => 0
    case EmailMissing => 1
    case EmailMalformed => 2
    case MessageMissing => 3
  }

  /** Whether the data fails check `e` on its own. Only the shape check looks
      at the address as typed; the other three trim first. */
  predicate Fails(d: FormData, e: ValidationError) {
    match e
    case NameMissing => IsBlank(d.name)
    case EmailMissing => IsBlank(d.email)
    case EmailMalformed => !IsValidEmail(d.email)
    case MessageMissing => IsBlank(d.message)
  }

  /** `validateForm`: the error of the first failing check, or none when all pass. */
  function ValidateForm(d: FormData): Option<ValidationError> {
    if IsBlank(d.name) then Some(NameMissing)
    else if IsBlank(d.email) then Some(EmailMissing)
    else if !IsValidEmail(d.email) then Some(EmailMalformed)
    else if IsBlank(d.message) then Some(MessageMissing)
    else None
  }

  /** Validation passes exactly when no check fails; otherwise it reports a
      failing check, and no check that runs earlier fails. */
  lemma ValidateFormReportsFirstFailure(d: FormData)
    ensures ValidateForm(d).None? <==> forall e :: !Fails(d, e)
    ensures ValidateForm(d).Some? ==>
      Fails(d, ValidateForm(d).value) && forall e :: Rank(e) < Rank(ValidateForm(d).value) ==> !Fails(d, e)
  {
    match ValidateForm(d)
    case None =>
      forall e ensures !Fails(d, e) {
        match e
        case NameMissing =>
        case EmailMissing =>
        case EmailMalformed =>
        case MessageMissing =>
      }
    case Some(first) =>
      assert Fails(d, first);
      forall e | Rank(e) < Rank(first) ensures !Fails(d, e) {
        match e
        case NameMissing =>
        case EmailMissing =>
        case EmailMalformed =>
        case MessageMissing =>
      }
  }

  /** A name or a message of white space alone is rejected. */
  lemma BlankNameRejected(d: FormData)
    requires AllWhitespace(d.name)
    ensures ValidateForm(d) == Some(NameMissing)
  {
    BlankIffAllWhitespace(d.name);
  }

  lemma BlankMessageRejected(d: FormData)
    requires !IsBlank(d.name) && DescribedShape(d.email) && AllWhitespace(d.message)
    ensures ValidateForm(d) == Some(MessageMissing)
  {
    IsValidEmailIffDescribedShape(d.email);
    NotBlank(d.email, 0);
    BlankIffAllWhitespace(d.message);
  }

  /** The shape test sees the untrimmed address: an address with white space
      anywhere in it (padding included) passes the emptiness check and then
      fails the shape check. */
  lemma SpacedEmailRejected(d: FormData, k: nat)
    requires !IsBlank(d.name) && !IsBlank(d.email)
    requires k < |d.email| && IsWhitespace(d.email[k])
    ensures ValidateForm(d) == Some(EmailMalformed)
  {
    IsValidEmailIffDescribedShape(d.email);
  }

  lemma PaddedEmailRejected()
    ensures ValidateForm(FormData("Jo", " a@b.com", "hi")) == Some(EmailMalformed)
  {
    SpacedEmailRejected(FormData("Jo", " a@b.com", "hi"), 0);
  }

  /** An address with white space inside is rejected even though it trims to a valid one. */
  lemma PaddedEmailTrimsToValid()
    ensures Trim(" a@b.com") == "a@b.com"
    ensures IsValidEmail("a@b.com") && !IsValidEmail(" a@b.com")
  {
    assert SplitsAt("a@b.com", 1, 3);
    IsValidEmailIffMatches("a@b.com");
    assert IsWhitespace(" a@b.com"[0]);
    IsValidEmailIffDescribedShape(" a@b.com");
  }

  lemma MalformedEmailScenario()
    ensures ValidateForm(FormData("Jo", "not-an-email", "hi")) == Some(EmailMalformed)
  {
    var email := "not-an-email";
    NotBlank("Jo", 0);
    NotBlank(email, 0);
    assert forall k :: 0 <= k < |email| ==> email[k] != '@';
    IsValidEmailIffDescribedShape(email);
  }

  lemma ValidScenario()
    ensures ValidateForm(FormData("Jo", "a@b.com", "hi")) == None
  {
    NotBlank("Jo", 0);
    NotBlank("a@b.com", 0);
    NotBlank("hi", 0);
    PaddedEmailTrimsToValid();
  }

  lemma EmptyNameScenario()
    ensures ValidateForm(FormData("", "a@b.com", "hi")) == Some(NameMissing)
  {
  }



  /** The two relay templates: the acknowledgement to the sender and the
      notification to the site owner. */
  datatype Template = Acknowledgement | OwnerNotification

  /** The template parameters `{from_name, from_email, message}`. */
  datatype Payload = Payload(fromName: string, fromEmail: string, message: string)

  function PayloadOf(d: FormData): Payload {
    Payload(d.name, d.email, d.message)
  }

  /** What the relay reports for one dispatch: resolved, or rejected (thrown). */
  datatype Outcome = Delivered | Rejected

  /** One relay dispatch, with what the form showed while it was in flight. */
  datatype Dispatch = Dispatch(template: Template, payload: Payload, submitting: bool, shown: Status)

  /** A dispatch of `d` made while the submit button is disabled and the status line is empty. */
  function InFlight(t: Template, d: FormData): Dispatch {
    Dispatch(t, PayloadOf(d), true, ClearedStatus)
  }

  class ContactForm {
    var formData: FormData
    var status: Status
    var isSubmitting: bool

    constructor ()
      ensures formData == EmptyForm && status == ClearedStatus && !isSubmitting
    {
      formData := EmptyForm;
      status := ClearedStatus;
      isSubmitting := false;
    }

    /** `handleChange`: a keystroke in one input. */
    method HandleChange(field: Field, value: string)
      modifies this
      ensures formData == old(formData).With(field, value)
      ensures status == old(status) && isSubmitting == old(isSubmitting)
    {
      formData := formData.With(field, value);
    }

    /** `handleSubmit`, with the relay's answers to the two dispatches given
        as `ack` and `notify`; returns the dispatches made, in order. */
    method HandleSubmit(ack: Outcome, notify: Outcome) returns (sent: seq<Dispatch>)
      modifies this
      // Validation failure: the first failing check's message, nothing else changes, nothing is sent.
      ensures ValidateForm(old(formData)).Some? ==>
        && sent == []
        && status == Status(Error, ErrorText(ValidateForm(old(formData)).value))
        && formData == old(formData) && isSubmitting == old(isSubmitting)
      // Validation success: the acknowledgement first, the notification only once it was delivered,
      // both with the form's payload, both while submitting with the status cleared.
      ensures ValidateForm(old(formData)).None? ==>
        && sent == (if ack == Delivered then [InFlight(Acknowledgement, old(formData)), InFlight(OwnerNotification, old(formData))]
                    else [InFlight(Acknowledgement, old(formData))])
        && !isSubmitting
      // Both delivered: success message and an emptied form; otherwise the failure message and the input kept.
      ensures ValidateForm(old(formData)).None? && ack == Delivered && notify == Delivered ==>
        status == SentStatus && formData == EmptyForm
      ensures ValidateForm(old(formData)).None? && (ack == Rejected || notify == Rejected) ==>
        status == FailedStatus && formData == old(formData)
    {
      var invalid := ValidateForm(formData);
      if invalid.Some? {
        status := Status(Error, ErrorText(invalid.value));
        return [];
      }
      isSubmitting := true;
      status := ClearedStatus;
      var payload := PayloadOf(formData);
      var acknowledgement := Dispatch(Acknowledgement, payload, isSubmitting, status);
      sent := [acknowledgement];
      var delivered := ack == Delivered;
      if delivered {
        var notification := Dispatch(OwnerNotification, payload, isSubmitting, status);
        sent := [acknowledgement, notification];
        delivered := notify == Delivered;
      }
      if delivered {
        status := SentStatus;
        formData := EmptyForm;
      } else {
        status := FailedStatus;
      }
      isSubmitting := false;
    }
  }

  /** A valid message whose acknowledgement is delivered and whose notification
      is rejected: both dispatches are made, the failure message is shown, the
      input is kept and the button is enabled again. */
  method PartialFailureScenario() returns (form: ContactForm, sent: seq<Dispatch>)
    ensures form.status == FailedStatus
    ensures form.formData == FormData("Jo", "a@b.com", "hi")
    ensures !form.isSubmitting
    ensures sent == [InFlight(Acknowledgement, FormData("Jo", "a@b.com", "hi")),
                     InFlight(OwnerNotification, FormData("Jo", "a@b.com", "hi"))]
  {
    form := new ContactForm();
    form.HandleChange(Name, "Jo");
    form.HandleChange(Email, "a@b.com");
    form.HandleChange(Message, "hi");
    assert form.formData == FormData("Jo", "a@b.com", "hi");
    ValidScenario();
    sent := form.HandleSubmit(Delivered, Rejected);
  }
}
