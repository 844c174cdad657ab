/**
 * The registration form: client-side validation of the two password
 * fields, then registration followed by an automatic login. The backend
 * calls are represented by the requests made and by their outcomes, which
 * the caller supplies.
 */
module RegisterForm {
  import opened Js
  import opened PocketBase

  const MismatchMessage: string := "Passwords do not match"
  const TooShortMessage: string := "Password must be at least 8 characters"
  const CreateFailedMessage: string := "Failed to create account. Please try again."

  /** The shortest password accepted, in UTF-16 code units. */
  const MinPasswordLength: nat := 8

  /**
   * The validation order of handleSubmit: a mismatch is reported before a
   * short password; `None` means the input passes.
   */
  function Validate(password: string, passwordConfirm: string): (e: Option<string>)
    ensures password != passwordConfirm ==> e == Some(MismatchMessage)
    ensures password == passwordConfirm && Utf16Length(password) < MinPasswordLength ==> e == Some(TooShortMessage)
    ensures e.None? <==> password == passwordConfirm && Utf16Length(password) >= MinPasswordLength
  {
    if password != passwordConfirm then Some(MismatchMessage)
    else if Utf16Length(password) < MinPasswordLength then Some(TooShortMessage)
    else None
  }

  /**
   * A mismatched pair is reported as a mismatch even when both passwords are
   * also too short; a matching pair of exactly eight code units passes, one
   * of seven does not.
   */
  lemma ValidationOrder(p: string, c: string)
    ensures p != c ==> Validate(p, c) == Some(MismatchMessage) != Some(TooShortMessage)
    ensures Utf16Length(p) == MinPasswordLength ==> Validate(p, p).None?
    ensures Utf16Length(p) == MinPasswordLength - 1 ==> Validate(p, p) == Some(TooShortMessage)
  {
  }

  /** `{ email, password, passwordConfirm, name: name || undefined }` */
  function Registration(email: string, password: string, passwordConfirm: string, name: string): (d: RegisterData)
    ensures d.email == email && d.password == password && d.passwordConfirm == passwordConfirm
    ensures name == "" ==> d.name.None?
    ensures name != "" ==> d.name == Some(name)
  {
    RegisterData(email, password, passwordConfirm, if name == "" then None else Some(name))
  }

  /** A call the form makes into the backend. */
  datatype Request = Register(registration: RegisterData) | Login(credentials: LoginData)

  /** The form's state: its four inputs, the error message, the loading flag and the requests made so far. */
  class Form {
    var email: string
    var password: string
    var passwordConfirm: string
    var name: string
    var error: string
    var isLoading: bool
    var requests: seq<Request>

    constructor ()
      ensures email == "" && password == "" && passwordConfirm == "" && name == ""
      ensures error == "" && !isLoading && requests == []
    {
      email, password, passwordConfirm, name := "", "", "", "";
      error, isLoading, requests := "", false, [];
    }

    /**
     * handleSubmit. The error is cleared first. Input that fails validation
     * sets the validation message and returns before any request is made and
     * before the loading flag is touched. Otherwise register is called; only
     * if it succeeds is login called with the same email and password. A
     * failure of either sets the error to its message, and the loading flag
     * is false when the handler ends.
     */
    method HandleSubmit(registerOutcome: Outcome<()>, loginOutcome: Outcome<()>)
      modifies this`error, this`isLoading, this`requests
      ensures Validate(password, passwordConfirm).Some? ==>
                && error == Validate(password, passwordConfirm).value
                && isLoading == old(isLoading)
                && requests == old(requests)
      ensures Validate(password, passwordConfirm).None? ==>
                && !isLoading
                && requests == old(requests)
                               + [Register(Registration(email, password, passwordConfirm, name))]
                               + (if registerOutcome.Returned? then [Login(LoginData(email, password))] else [])
                && error == (if registerOutcome.Threw? then CaughtMessage(registerOutcome.thrown, CreateFailedMessage)
                             else if loginOutcome.Threw? then CaughtMessage(loginOutcome.thrown, CreateFailedMessage)
                             else "")
    {
      error := "";
      if password != passwordConfirm {
        error := MismatchMessage;
        return;
      }
      if Utf16Length(password) < MinPasswordLength {
        error := TooShortMessage;
        return;
      }
      isLoading := true;
      requests := requests + [Register(Registration(email, password, passwordConfirm, name))];
      if registerOutcome.Threw? {
        error := CaughtMessage(registerOutcome.thrown, CreateFailedMessage);
      } else {
        requests := requests + [Login(LoginData(email, password))];
        if loginOutcome.Threw? {
          error := CaughtMessage(loginOutcome.thrown, CreateFailedMessage);
        }
      }
      isLoading := false;
    }
  }
}
