/**
 * The web landing page's waitlist form. `handleSubmit` is split at its
 * `await`: StartSubmit makes the updates before the request, FinishSubmit the
 * ones after the response (or the failure) arrives.
 */
module WaitlistForm {
  datatype Status = Idle | Loading | Success | Error

  const SuccessMessage: string := "You're on the list! We'll be in touch soon."
  const ErrorMessage: string := "Something went wrong. Please try again."

  /** How the `fetch` to `/api/waitlist` ended: it threw, or answered with `response.ok`. */
  datatype SubmitOutcome = RequestThrew | Answered(ok: bool)

  /** The submit button's `disabled={status === 'loading' || !email}`. */
  predicate SubmitDisabled(status: Status, email: string) {
    status == Loading || email == ""
  }

  /** The JSON body the form posts: the e-mail as typed. */
  function RequestBody(email: string): (r: map<string, string>)
    ensures r.Keys == {"email"} && r["email"] == email
  {
    map["email" := email]
  }

  class Form {
    var email: string
    var status: Status
    var message: string
    /** The bodies posted to `/api/waitlist`, in order. */
    var sent: seq<map<string, string>>

    constructor ()
      ensures email == "" && status == Idle && message == "" && sent == []
    {
      email := "";
      status := Idle;
      message := "";
      sent := [];
    }

    /** The input's `onChange`. */
    method SetEmail(value: string)
      modifies this
      ensures email == value
      ensures status == old(status) && message == old(message) && sent == old(sent)
    {
      email := value;
    }

    /** `handleSubmit` up to its `await`; `started` is false when the e-mail is empty and nothing changed. */
    method StartSubmit() returns (started: bool)
      modifies this
      ensures started <==> old(email) != ""
      ensures !started ==> status == old(status) && sent == old(sent)
      ensures started ==> status == Loading && sent == old(sent) + [RequestBody(old(email))]
      ensures email == old(email) && message == old(message)
    {
      if email == "" {
        return false;
      }
      status := Loading;
      sent := sent + [RequestBody(email)];
      started := true;
    }

    /** `handleSubmit` after the request settles: a non-ok answer is thrown and caught like a failure. */
    method FinishSubmit(outcome: SubmitOutcome)
      modifies this
      ensures outcome == Answered(true) ==> status == Success && message == SuccessMessage && email == ""
      ensures outcome != Answered(true) ==> status == Error && message == ErrorMessage && email == old(email)
      ensures sent == old(sent)
    {
      if outcome == Answered(true) {
        status := Success;
        message := SuccessMessage;
        email := "";
      } else {
        status := Error;
        message := ErrorMessage;
      }
    }

    /** The whole of `handleSubmit`. */
    method HandleSubmit(outcome: SubmitOutcome)
      modifies this
      ensures old(email) == "" ==>
                email == old(email) && status == old(status) && message == old(message) && sent == old(sent)
      ensures old(email) != "" ==> sent == old(sent) + [RequestBody(old(email))]
      ensures old(email) != "" && outcome == Answered(true) ==>
                status == Success && message == SuccessMessage && email == ""
      ensures old(email) != "" && outcome != Answered(true) ==>
                status == Error && message == ErrorMessage && email == old(email)
    {
      var started := StartSubmit();
      if started {
        FinishSubmit(outcome);
      }
    }

    /** Whether the submit button is disabled right now. */
    predicate ButtonDisabled()
      reads this
    {
      SubmitDisabled(status, email)
    }
  }

  /**
   * The button cannot start a request twice: once a submit has started it is
   * disabled until the request settles, and after a success it stays disabled
   * until something is typed.
   */
  lemma NoDoubleSubmit(email: string)
    ensures SubmitDisabled(Loading, email)
    ensures SubmitDisabled(Success, "")
    ensures email != "" ==> !SubmitDisabled(Error, email) && !SubmitDisabled(Idle, email)
  {
  }
}
