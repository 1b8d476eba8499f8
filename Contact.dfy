/**
 * The contact form: three bound fields, a submission the browser lets
 * through only when every field is filled and the button is enabled, and
 * a simulated delivery that notifies success and clears the form.
 */
module Contact {

  datatype FormData = FormData(name: string, email: string, message: string)

  const EmptyForm: FormData := FormData("", "", "")

  /** A notification shown to the visitor. */
  datatype Toast = Toast(title: string, description: string)

  /** The notification a completed submission shows. */
  const SentToast: Toast :=
    Toast("Message sent! \U{1F389}", "Thank you for reaching out. I'll get back to you soon.")

  /** Every required field has a value. */
  predicate Filled(f: FormData) {
    f.name != "" && f.email != "" && f.message != ""
  }

  /** The contact form component's state. */
  class ContactForm {
    var formData: FormData
    var isSubmitting: bool
    /** The notifications shown so far, oldest first. */
    var toasts: seq<Toast>

    /** First render: empty fields, idle. */
    constructor ()
      ensures formData == EmptyForm && !isSubmitting && toasts == []
    {
      formData := EmptyForm;
      isSubmitting := false;
      toasts := [];
    }

    /** Typing in the name field. */
    method EditName(value: string)
      modifies this
      ensures formData == old(formData).(name := value)
      ensures isSubmitting == old(isSubmitting) && toasts == old(toasts)
    {
      formData := formData.(name := value);
    }

    /** Typing in the email field. */
    method EditEmail(value: string)
      modifies this
      ensures formData == old(formData).(email := value)
      ensures isSubmitting == old(isSubmitting) && toasts == old(toasts)
    {
      formData := formData.(email := value);
    }

    /** Typing in the message field. */
    method EditMessage(value: string)
      modifies this
      ensures formData == old(formData).(message := value)
      ensures isSubmitting == old(isSubmitting) && toasts == old(toasts)
    {
      formData := formData.(message := value);
    }

    /** The submit button is disabled while a submission is in flight. */
    function SubmitDisabled(): (b: bool)
      reads this
      ensures b <==> isSubmitting
    {
      isSubmitting
    }

    /**
     * A submit request. The browser runs the handler only when every field is
     * filled, the address passes its email syntax check (`emailAccepted`) and
     * the button is enabled; the handler's synchronous part marks the form busy.
     */
    method Submit(emailAccepted: bool) returns (started: bool)
      modifies this
      ensures started <==> Filled(old(formData)) && emailAccepted && !old(SubmitDisabled())
      ensures isSubmitting == (old(isSubmitting) || started)
      ensures formData == old(formData) && toasts == old(toasts)
    {
      started := Filled(formData) && emailAccepted && !SubmitDisabled();
      if started {
        isSubmitting := true;
      }
    }

    /** The simulated delay elapses: notify success, clear the fields, go idle. */
    method CompleteSubmit()
      requires isSubmitting
      modifies this
      ensures formData == EmptyForm && !isSubmitting
      ensures toasts == old(toasts) + [SentToast]
    {
      toasts := toasts + [SentToast];
      formData := EmptyForm;
      isSubmitting := false;
    }
  }

  /** A full submission of a filled form ends idle, with empty fields and one more notification. */
  method SubmitRoundTrip(form: ContactForm, emailAccepted: bool) returns (started: bool)
    requires !form.isSubmitting
    modifies form
    ensures started <==> Filled(old(form.formData)) && emailAccepted
    ensures started ==> form.formData == EmptyForm && !form.isSubmitting && form.toasts == old(form.toasts) + [SentToast]
    ensures !started ==> form.formData == old(form.formData) && !form.isSubmitting && form.toasts == old(form.toasts)
  {
    started := form.Submit(emailAccepted);
    if started {
      form.CompleteSubmit();
    }
  }
}
