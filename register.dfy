// The registration page: its form state, the password checks made before
// submitting, and the payload handed to `register`
// (Frontend/src/pages/Register.js).
module Register {
  import opened Wrappers

  /** The component's `formData`: input name to text. */
  type Fields = map<string, string>

  const InitialFields: Fields := map[
    "name" := "", "email" := "", "password" := "", "confirmPassword" := "",
    "phone" := "", "address" := ""]

  const MismatchMessage := "Passwords do not match"
  const TooShortMessage := "Password must be at least 6 characters long"
  const MinPasswordLength := 6

  /** The form holds both password inputs. */
  predicate HasPasswords(f: Fields) {
    "password" in f && "confirmPassword" in f
  }

  /** The checks `handleSubmit` makes before calling `register`: the message it
      shows, or `None` when both pass. A mismatch is reported before a short
      password. */
  function PasswordCheck(f: Fields): (r: Option<string>)
    requires HasPasswords(f)
    ensures r == Some(MismatchMessage) <==> f["password"] != f["confirmPassword"]
    ensures r == Some(TooShortMessage) <==>
      f["password"] == f["confirmPassword"] && |f["password"]| < MinPasswordLength
    ensures r.None? <==>
      f["password"] == f["confirmPassword"] && |f["password"]| >= MinPasswordLength
  {
    if f["password"] != f["confirmPassword"] then Some(MismatchMessage)
    else if |f["password"]| < MinPasswordLength then Some(TooShortMessage)
    else None
  }

  /** `const { confirmPassword, ...registerData } = formData`: every field but
      the confirmation, unchanged. */
  function Payload(f: Fields): (r: Fields)
    ensures "confirmPassword" !in r
    ensures r.Keys == f.Keys - {"confirmPassword"}
    ensures forall k :: k in r ==> r[k] == f[k]
  {
    f - {"confirmPassword"}
  }

  /** The payload does not depend on what the confirmation box holds. */
  lemma PayloadIgnoresConfirmation(f: Fields, text: string)
    ensures Payload(f["confirmPassword" := text]) == Payload(f)
  {
    var g := f["confirmPassword" := text];
    assert Payload(g).Keys == Payload(f).Keys;
  }

  /** Putting the confirmation back into the payload restores the form. */
  lemma PayloadRestores(f: Fields)
    requires "confirmPassword" in f
    ensures Payload(f)["confirmPassword" := f["confirmPassword"]] == f
  {
  }

  /** A form that passes the checks sends a password of at least six characters
      that the user typed twice; the confirmation itself is not sent. */
  lemma AcceptedPayload(f: Fields)
    requires HasPasswords(f) && PasswordCheck(f).None?
    ensures "password" in Payload(f) && |Payload(f)["password"]| >= MinPasswordLength
    ensures Payload(f)["password"] == f["confirmPassword"]
  {
  }

  /** The registration page's state. `route` is where the router is. */
  class RegisterForm {
    var formData: Fields
    var passwordError: string
    var loading: bool
    var route: string

    predicate Valid()
      reads this
    {
      HasPasswords(formData)
    }

    constructor(route: string)
      ensures Valid() && formData == InitialFields && passwordError == "" && !loading
      ensures this.route == route
    {
      formData := InitialFields;
      passwordError := "";
      loading := false;
      this.route := route;
    }

    /** `handleChange`: only the named field changes; typing in either password
        box clears the password message. */
    method HandleChange(name: string, value: string)
      requires Valid()
      modifies this`formData, this`passwordError
      ensures Valid() && formData == old(formData)[name := value]
      ensures passwordError ==
        if name == "password" || name == "confirmPassword" then "" else old(passwordError)
    {
      formData := formData[name := value];
      if name == "confirmPassword" || name == "password" {
        passwordError := "";
      }
    }

    /** `handleSubmit`. `registerSucceeds` is what the registration service
        answers. Returns the payload sent to it, if the checks let it through:
        a failed check shows its message and sends nothing; otherwise the
        payload is sent and the page moves to `/dashboard` exactly when
        registration succeeds. */
    method HandleSubmit(registerSucceeds: bool) returns (sent: Option<Fields>)
      requires Valid()
      modifies this`passwordError, this`loading, this`route
      ensures Valid()
      ensures PasswordCheck(formData).Some? ==>
        && sent.None? && passwordError == PasswordCheck(formData).value
        && loading == old(loading) && route == old(route)
      ensures PasswordCheck(formData).None? ==>
        && sent == Some(Payload(formData)) && passwordError == old(passwordError) && !loading
        && route == (if registerSucceeds then "/dashboard" else old(route))
    {
      if formData["password"] != formData["confirmPassword"] {
        passwordError := MismatchMessage;
        return None;
      }
      if |formData["password"]| < MinPasswordLength {
        passwordError := TooShortMessage;
        return None;
      }
      loading := true;
      var registerData := Payload(formData);
      sent := Some(registerData);
      if registerSucceeds {
        route := "/dashboard";
      }
      loading := false;
    }
  }
}
