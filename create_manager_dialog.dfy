/** The create-manager dialog of
    src/components/CreateManagerDialog/CreateManagerDialog.tsx. Two effects keep an
    error text for the email and one for the username in step with the form; the
    Create button and the form's submit consult those texts. The first and last
    name are shown but never checked. */
module CreateManagerDialog {
  import opened Common
  import opened Lists
  import opened AdminPanel

  const EmailRequired := "Email is required"
  const EmailInvalid := "Invalid email format"
  const UsernameRequired := "Username is required"
  const UsernameTooShort := "Username must be at least 5 characters"
  const MinUsernameLength := 5

  /** A character `[^\s@]` admits. */
  predicate Plain(c: char)
  {
    !IsJsWhitespace(c) && c != '@'
  }

  /** `s[a..b]` is a non-empty run of `[^\s@]`. */
  predicate PlainRun(s: string, a: int, b: int)
  {
    0 <= a < b <= |s| && forall k :: a <= k < b ==> Plain(s[k])
  }

  /** The pattern `^[^\s@]+@[^\s@]+\.[^\s@]+$` matches with the '@' at `i` and the
      '.' at `j`. */
  predicate MatchesAt(s: string, i: int, j: int)
  {
    0 <= i < j < |s| && s[i] == '@' && s[j] == '.' &&
    PlainRun(s, 0, i) && PlainRun(s, i + 1, j) && PlainRun(s, j + 1, |s|)
  }

  /** `emailRegex.test(s)`: some placement of the '@' and the '.' matches. */
  ghost predicate MatchesEmailPattern(s: string)
  {
    exists i, j :: MatchesAt(s, i, j)
  }

  function Itself(c: char): char { c }

  /** The test as the dialog can compute it: no white space, a first '@' that is
      not the first character and is the only one, and a '.' after the '@' with at
      least one character on each side of it. */
  function EmailAccepted(s: string): (r: bool)
  {
    var at := FindIndex(s, Itself, '@');
    (forall k :: 0 <= k < |s| ==> !IsJsWhitespace(s[k])) &&
    at > 0 && (forall k :: at < k < |s| ==> s[k] != '@') &&
    exists j :: at + 1 < j < |s| - 1 && s[j] == '.'
  }

  /** The computed test accepts exactly the texts the pattern matches. */
  lemma EmailAcceptedIffPattern(s: string)
    ensures EmailAccepted(s) <==> MatchesEmailPattern(s)
  {
    var at := FindIndex(s, Itself, '@');
    if EmailAccepted(s) {
      var j :| at + 1 < j < |s| - 1 && s[j] == '.';
      assert forall k :: 0 <= k < at ==> s[k] != '@' by {
        assert forall k :: 0 <= k < at ==> Itself(s[k]) != '@';
      }
      assert MatchesAt(s, at, j);
    }
    if MatchesEmailPattern(s) {
      var i, j :| MatchesAt(s, i, j);
      assert Itself(s[i]) == '@';
      assert forall k :: 0 <= k < |s| && k != i ==> s[k] != '@';
      assert at == i;
      assert forall k :: 0 <= k < |s| ==> !IsJsWhitespace(s[k]);
    }
  }

  /** The error text the email effect sets. */
  function EmailError(email: string): (r: string)
    ensures email == "" ==> r == EmailRequired
    ensures email != "" ==> (r == "" <==> MatchesEmailPattern(email))
    ensures email != "" && !MatchesEmailPattern(email) ==> r == EmailInvalid
  {
    EmailAcceptedIffPattern(email);
    if email == "" then EmailRequired
    else if !EmailAccepted(email) then EmailInvalid
    else ""
  }

  /** The error text the username effect sets. `length` is counted in characters. */
  function UsernameError(username: string): (r: string)
    ensures username == "" ==> r == UsernameRequired
    ensures username != "" && |username| < MinUsernameLength ==> r == UsernameTooShort
    ensures r == "" <==> |username| >= MinUsernameLength
  {
    if username == "" then UsernameRequired
    else if |username| < MinUsernameLength then UsernameTooShort
    else ""
  }

  /** A field of the form, an absent one reading as empty. */
  function Field(form: FormData, name: string): string
  {
    OrElse(Lookup(form.fields, name), "")
  }

  class Dialog {
    var emailError: string
    var usernameError: string

    /** Both texts start empty, before the effects first run. */
    constructor ()
      ensures emailError == "" && usernameError == ""
    {
      emailError := "";
      usernameError := "";
    }

    /** The effect run when `formData.email` changes. */
    method EmailChanged(form: FormData)
      modifies this
      ensures emailError == EmailError(Field(form, "email")) && usernameError == old(usernameError)
    {
      var email := Field(form, "email");
      if email == "" {
        emailError := EmailRequired;
      } else if !EmailAccepted(email) {
        emailError := EmailInvalid;
      } else {
        emailError := "";
      }
    }

    /** The effect run when `formData.username` changes. */
    method UsernameChanged(form: FormData)
      modifies this
      ensures usernameError == UsernameError(Field(form, "username")) && emailError == old(emailError)
    {
      var username := Field(form, "username");
      if username == "" {
        usernameError := UsernameRequired;
      } else if |username| < MinUsernameLength {
        usernameError := UsernameTooShort;
      } else {
        usernameError := "";
      }
    }

    /** Create is greyed out while either text is non-empty. */
    predicate CreateDisabled()
      reads this
      ensures !CreateDisabled() ==> emailError == "" && usernameError == ""
      ensures emailError != "" ==> CreateDisabled()
      ensures usernameError != "" ==> CreateDisabled()
    {
      emailError != "" || usernameError != ""
    }

    /** `onSubmit`: whether `handleSubmit` is called. */
    method OnSubmit() returns (submitted: bool)
      ensures submitted <==> emailError == "" && usernameError == ""
      ensures submitted <==> !CreateDisabled()
    {
      if emailError != "" || usernameError != "" {
        return false;
      }
      submitted := true;
    }
  }

  /** Once both effects have run for a form, submitting goes through exactly when
      the email matches the pattern and the username has at least five
      characters; the names play no part. */
  method SubmitAfterEffects(d: Dialog, form: FormData) returns (submitted: bool)
    modifies d
    ensures submitted <==> MatchesEmailPattern(Field(form, "email")) && |Field(form, "username")| >= MinUsernameLength
    ensures submitted <==> !d.CreateDisabled()
  {
    d.EmailChanged(form);
    d.UsernameChanged(form);
    submitted := d.OnSubmit();
  }

  /** Typing a first or last name changes neither error text. */
  lemma NamesNeverValidated(form: FormData, name: string, value: string)
    requires name == "first_name" || name == "last_name"
    ensures EmailError(Field(HandleChange(form, name, value), "email")) == EmailError(Field(form, "email"))
    ensures UsernameError(Field(HandleChange(form, name, value), "username")) == UsernameError(Field(form, "username"))
  {
    FormInputsIndependent(form, value);
  }

  /** The dialog's starting form is refused on both counts. */
  lemma InitialFormRefused()
    ensures EmailError(Field(InitialForm, "email")) == EmailRequired
    ensures UsernameError(Field(InitialForm, "username")) == UsernameRequired
  {
  }
}
