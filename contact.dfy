/**
 * The contact form of src/components/Contact.tsx: four fields checked by a schema,
 * a submission that succeeds only for valid data, and a "sent" acknowledgement that
 * replaces the form until a timer brings the form back.
 *
 * Whether a string is a well-formed e-mail address is the schema library's business;
 * it is the parameter `isEmail` here. The e-mail input is also `type="email"`, so the
 * browser checks it against its own address grammar before the form's submit handler
 * runs; that grammar is the parameter `htmlEmail`.
 */
module Contact {
  import opened Options

  datatype Field = Name | Email | Subject | Message

  datatype FormData = FormData(name: string, email: string, subject: string, message: string)

  /** What `reset()` puts back into the four inputs. */
  const Empty := FormData("", "", "", "")

  const NameError := "Name must be at least 2 characters"
  const EmailError := "Please enter a valid email address"
  const SubjectError := "Subject must be at least 3 characters"
  const MessageError := "Message must be at least 20 characters"

  function Value(d: FormData, f: Field): string
  {
    match f
    case Name => d.name
    case Email => d.email
    case Subject => d.subject
    case Message => d.message
  }

  /** The schema's rule for one field: the message it reports, or `None` when the value passes. */
  function Rule(f: Field, v: string, isEmail: string -> bool): Option<string>
  {
    match f
    case Name => if |v| < 2 then Some(NameError) else None
    case Email => if !isEmail(v) then Some(EmailError) else None
    case Subject => if |v| < 3 then Some(SubjectError) else None
    case Message => if |v| < 20 then Some(MessageError) else None
  }

  /**
   * Validation of a whole form: every field is checked on its own, and each failing
   * field gets its own message, so one submission can report all four.
   */
  function Validate(d: FormData, isEmail: string -> bool): (errors: map<Field, string>)
    ensures Name in errors <==> |d.name| < 2
    ensures Email in errors <==> !isEmail(d.email)
    ensures Subject in errors <==> |d.subject| < 3
    ensures Message in errors <==> |d.message| < 20
    ensures Name in errors ==> errors[Name] == "Name must be at least 2 characters"
    ensures Email in errors ==> errors[Email] == "Please enter a valid email address"
    ensures Subject in errors ==> errors[Subject] == "Subject must be at least 3 characters"
    ensures Message in errors ==> errors[Message] == "Message must be at least 20 characters"
  {
    map f | f in {Name, Email, Subject, Message} && Rule(f, Value(d, f), isEmail).Some? :: Rule(f, Value(d, f), isEmail).value
  }

  /** A field's error depends on that field's value alone. */
  lemma FieldsIndependent(d: FormData, e: FormData, f: Field, isEmail: string -> bool)
    requires Value(d, f) == Value(e, f)
    ensures f in Validate(d, isEmail) <==> f in Validate(e, isEmail)
    ensures f in Validate(d, isEmail) ==> Validate(d, isEmail)[f] == Validate(e, isEmail)[f]
  {
  }

  /** A well-formed message passes with no error at all. */
  lemma ValidExample(isEmail: string -> bool)
    requires isEmail("jo@x.com")
    ensures Validate(FormData("Jo", "jo@x.com", "Hi there", "This message is definitely twenty chars."), isEmail) == map[]
  {
    var errors := Validate(FormData("Jo", "jo@x.com", "Hi there", "This message is definitely twenty chars."), isEmail);
    assert errors.Keys == {} by {
      forall f | f in errors ensures false {
        match f
        case Name =>
        case Email =>
        case Subject =>
        case Message =>
      }
    }
  }

  /**
   * The browser's constraint check on the `type="email"` input: an empty value passes
   * (the input is not `required`), any other value has to be a valid address. When it
   * fails, the `submit` event never reaches the form's handler.
   */
  predicate BrowserAllowsSubmit(d: FormData, htmlEmail: string -> bool)
  {
    d.email == "" || htmlEmail(d.email)
  }

  /**
   * A submission that breaks every rule reports four errors, one per field. With the
   * e-mail left empty the browser lets it through whatever its address grammar is.
   */
  lemma FourErrorsExample(isEmail: string -> bool, htmlEmail: string -> bool)
    requires !isEmail("")
    ensures BrowserAllowsSubmit(FormData("J", "", "Hi", "short"), htmlEmail)
    ensures Validate(FormData("J", "", "Hi", "short"), isEmail).Keys == {Name, Email, Subject, Message}
  {
  }

  /**
   * The schema's e-mail message can only ever be shown for an address the browser
   * accepts: the empty one, or one its grammar allows but the schema rejects.
   */
  lemma EmailErrorNeedsBrowserPass(d: FormData, isEmail: string -> bool, htmlEmail: string -> bool)
    requires BrowserAllowsSubmit(d, htmlEmail) && Email in Validate(d, isEmail)
    ensures d.email == "" || (htmlEmail(d.email) && !isEmail(d.email))
  {
  }

  /** What the card shows: the acknowledgement, or the form with the errors under their fields. */
  datatype View = Acknowledgement | Form(values: FormData, errors: map<Field, string>, buttonDisabled: bool)

  /**
   * The form's state: the values typed in, the errors shown, the submission in
   * flight (the 900 ms wait of `onSubmit`), whether the acknowledgement is up and
   * whether the timer that takes it down is pending; `sent` records what reached
   * the submission stub.
   */
  class ContactForm {
    var values: FormData
    var errors: map<Field, string>
    var isSubmitting: bool
    var inFlight: Option<FormData>
    var submitted: bool
    var hideTimerPending: bool
    var sent: seq<FormData>

    /** A submission is in flight exactly while submitting, and the hide timer runs exactly while acknowledged. */
    ghost predicate Valid()
      reads this
    {
      (isSubmitting <==> inFlight.Some?) && (hideTimerPending <==> submitted) && !(submitted && isSubmitting)
    }

    function Shown(): View
      reads this
    {
      if submitted then Acknowledgement else Form(values, errors, isSubmitting)
    }

    constructor ()
      ensures Valid()
      ensures values == Empty && errors == map[] && !isSubmitting && !submitted && sent == []
      ensures Shown() == Form(Empty, map[], false)
    {
      values := Empty;
      errors := map[];
      isSubmitting := false;
      inFlight := None;
      submitted := false;
      hideTimerPending := false;
      sent := [];
    }

    /** Typing into a field; only possible while the form is shown. */
    method Edit(f: Field, v: string)
      requires Valid()
      modifies this
      ensures Valid()
      ensures !old(submitted) ==> Value(values, f) == v && forall g :: g != f ==> Value(values, g) == Value(old(values), g)
      ensures old(submitted) ==> values == old(values)
      ensures errors == old(errors) && submitted == old(submitted) && isSubmitting == old(isSubmitting)
      ensures inFlight == old(inFlight) && sent == old(sent) && hideTimerPending == old(hideTimerPending)
    {
      if submitted {
        return;
      }
      values := match f
        case Name => values.(name := v)
        case Email => values.(email := v)
        case Subject => values.(subject := v)
        case Message => values.(message := v);
    }

    /**
     * Pressing the submit button: nothing while the acknowledgement is shown or the
     * button is disabled, and nothing when the browser rejects the e-mail input (the
     * schema's errors then stay as they were); otherwise the values are validated,
     * and `onSubmit` starts only when no field fails.
     */
    method Submit(isEmail: string -> bool, htmlEmail: string -> bool)
      requires Valid()
      modifies this
      ensures Valid()
      ensures old(submitted) || old(isSubmitting) || !BrowserAllowsSubmit(old(values), htmlEmail) ==>
        errors == old(errors) && isSubmitting == old(isSubmitting) && inFlight == old(inFlight)
      ensures !old(submitted) && !old(isSubmitting) && BrowserAllowsSubmit(old(values), htmlEmail) ==>
        errors == Validate(old(values), isEmail) &&
        (isSubmitting <==> errors == map[]) &&
        (isSubmitting ==> inFlight == Some(old(values)))
      ensures values == old(values) && submitted == old(submitted) && sent == old(sent)
      ensures hideTimerPending == old(hideTimerPending)
    {
      if submitted || isSubmitting || !BrowserAllowsSubmit(values, htmlEmail) {
        return;
      }
      errors := Validate(values, isEmail);
      if errors == map[] {
        isSubmitting := true;
        inFlight := Some(values);
      }
    }

    /**
     * The rest of `onSubmit` after its wait: the data reaches the stub, the
     * acknowledgement replaces the form, the form is reset and the hide timer starts.
     */
    method SubmitCompleted()
      requires Valid() && isSubmitting
      modifies this
      ensures Valid()
      ensures sent == old(sent) + [old(inFlight).value]
      ensures submitted && hideTimerPending && !isSubmitting
      ensures values == Empty && errors == map[]
      ensures Shown() == Acknowledgement
    {
      sent := sent + [inFlight.value];
      submitted := true;
      values := Empty;
      errors := map[];
      hideTimerPending := true;
      isSubmitting := false;
      inFlight := None;
    }

    /** 5000 ms after a submission the form comes back, reset. */
    method HideTimerFired()
      requires Valid() && hideTimerPending
      modifies this
      ensures Valid()
      ensures !submitted && !hideTimerPending
      ensures values == old(values) && errors == old(errors) && sent == old(sent) && isSubmitting == old(isSubmitting)
      ensures Shown() == Form(old(values), old(errors), false)
    {
      submitted := false;
      hideTimerPending := false;
    }
  }
}
