/** The two pages reached from an e-mailed link, src/pages/ActivationPage/ActivationPage.tsx
    and src/pages/PasswordResetPage/PasswordResetPage.tsx. Both submit handlers are
    the same sequence over `error`, `success` and `loading` and differ only in their
    two messages and in which service they call. The handler is async: it is split
    at its `await` into `BeginSubmit`, which runs up to the service call and says
    which request it sends, and `CompleteSubmit`, which runs the `catch` or the rest
    of the `try`, then the `finally`. The service's answer is a parameter. */
module TokenForm {
  import opened Common

  /** The page's two messages. */
  datatype Messages = Messages(invalidLink: string, failure: string)

  const ActivationMessages := Messages("Invalid activation link.", "Activation error")
  const ResetMessages := Messages("Invalid reset link.", "Reset error")
  const PasswordMismatch := "Passwords do not match"

  /** `activateAccount(token, password)` or `resetPassword(token, password)`. */
  datatype Request = Request(token: string, password: string)

  /** The service's answer and the `detail` its body carries, if any. */
  datatype Outcome = Succeeded(detail: Option<string>) | Failed(detail: Option<string>)

  /** The error a submit stops with before calling the service, if any: the link
      check comes first, then the password match. */
  function RefusalError(messages: Messages, token: Option<string>, password: string, confirm: string): (r: Option<string>)
    ensures r.None? <==> Truthy(token) && password == confirm
    ensures !Truthy(token) ==> r == Some(messages.invalidLink)
    ensures Truthy(token) && password != confirm ==> r == Some(PasswordMismatch)
  {
    if !Truthy(token) then Some(messages.invalidLink)
    else if password != confirm then Some(PasswordMismatch)
    else None
  }

  /** The error a failed call shows: the server's `detail`, or the page's own text. */
  function FailureError(messages: Messages, detail: Option<string>): (r: string)
    ensures r != "" || messages.failure == ""
    ensures Truthy(detail) ==> r == detail.value
    ensures !Truthy(detail) ==> r == messages.failure
  {
    OrElse(detail, messages.failure)
  }

  class Form {
    const messages: Messages
    var error: Option<string>
    var success: Option<string>
    var loading: bool

    constructor (messages: Messages)
      ensures this.messages == messages
      ensures error == None && success == None && !loading
    {
      this.messages := messages;
      error := None;
      success := None;
      loading := false;
    }

    /** The handler up to the service call: both messages are cleared, a missing
        or empty token and then a password mismatch stop it with their error, and
        otherwise `loading` goes up and the request is sent. */
    method BeginSubmit(token: Option<string>, password: string, confirm: string) returns (request: Option<Request>)
      modifies this
      ensures request.Some? <==> RefusalError(messages, token, password, confirm).None?
      ensures request.Some? ==> request.value == Request(token.value, password)
      ensures error == RefusalError(messages, token, password, confirm) && success == None
      ensures loading == (request.Some? || old(loading))
    {
      error := None;
      success := None;
      if !Truthy(token) {
        error := Some(messages.invalidLink);
        return None;
      }
      if password != confirm {
        error := Some(PasswordMismatch);
        return None;
      }
      loading := true;
      request := Some(Request(token.value, password));
    }

    /** The rest of the handler once the call has settled: a success shows the
        server's `detail`, a failure shows its `detail` or the page's own text,
        and `loading` goes down either way. */
    method CompleteSubmit(outcome: Outcome)
      modifies this
      ensures !loading
      ensures outcome.Succeeded? ==> success == outcome.detail && error == old(error)
      ensures outcome.Failed? ==> error == Some(FailureError(messages, outcome.detail)) && success == old(success)
    {
      match outcome {
        case Succeeded(detail) =>
          success := detail;
        case Failed(detail) =>
          error := Some(OrElse(detail, messages.failure));
      }
      loading := false;
    }
  }

  /** A whole submit with the service answering `outcome`: the service is called
      exactly when a token is present and the passwords match; a refused submit
      leaves `loading` alone and shows its error; a submit that reached the call
      ends with `loading` down and shows only the outcome's message. */
  method Submit(form: Form, token: Option<string>, password: string, confirm: string, outcome: Outcome)
      returns (request: Option<Request>)
    modifies form
    ensures request.Some? <==> Truthy(token) && password == confirm
    ensures request.Some? ==> request.value == Request(token.value, password)
    ensures request.None? ==>
      form.error == RefusalError(form.messages, token, password, confirm) && form.success == None &&
      form.loading == old(form.loading)
    ensures request.Some? ==> !form.loading
    ensures request.Some? && outcome.Succeeded? ==> form.success == outcome.detail && form.error == None
    ensures request.Some? && outcome.Failed? ==>
      form.error == Some(FailureError(form.messages, outcome.detail)) && form.success == None
  {
    request := form.BeginSubmit(token, password, confirm);
    if request.Some? {
      form.CompleteSubmit(outcome);
    }
  }

  /** The two pages refuse the same inputs; only the link message differs. */
  lemma PagesRefuseAlike(token: Option<string>, password: string, confirm: string)
    ensures RefusalError(ActivationMessages, token, password, confirm).None? <==>
            RefusalError(ResetMessages, token, password, confirm).None?
    ensures Truthy(token) ==> RefusalError(ActivationMessages, token, password, confirm) ==
                              RefusalError(ResetMessages, token, password, confirm)
  {
  }
}
