/** frontend/app/signup/page.tsx: `handleSubmit` of the registration form. The
    outcome of the POST to the register endpoint is a parameter; the browser's
    localStorage is a map from key to value. */
module SignupPage {

  datatype FormData = FormData(username: string, email: string, password: string, password2: string,
                               firstName: string, lastName: string, role: string)

  /** The per-field error lists of a 400 reply; a field without errors has an empty list. */
  datatype FieldErrors = FieldErrors(username: seq<string>, email: seq<string>)

  /** The register call either returns tokens and the user (already serialised),
      or fails, with field errors when the server sent them. */
  datatype RegisterOutcome =
    | Registered(access: string, refresh: string, userJson: string)
    | Failed(errors: FieldErrors)
    | Unreachable

  const MismatchError: string := "Passwords do not match"
  const DefaultFailure: string := "Registration failed"
  const AccessTokenKey: string := "access_token"
  const RefreshTokenKey: string := "refresh_token"
  const UserKey: string := "user"

  /** `list?.[0]`, and whether it is truthy (present and not the empty string). */
  predicate HasFirst(list: seq<string>)
  {
    |list| > 0 && list[0] != ""
  }

  /** The `||` chain: the first username error, else the first email error, else the default. */
  function FailureMessage(outcome: RegisterOutcome): (message: string)
    requires !outcome.Registered?
    ensures message != ""
    ensures outcome.Failed? && HasFirst(outcome.errors.username) ==> message == outcome.errors.username[0]
    ensures outcome.Failed? && !HasFirst(outcome.errors.username) && HasFirst(outcome.errors.email) ==>
      message == outcome.errors.email[0]
    ensures (outcome.Unreachable? || (!HasFirst(outcome.errors.username) && !HasFirst(outcome.errors.email))) ==>
      message == DefaultFailure
  {
    if outcome.Failed? && HasFirst(outcome.errors.username) then outcome.errors.username[0]
    else if outcome.Failed? && HasFirst(outcome.errors.email) then outcome.errors.email[0]
    else DefaultFailure
  }

  class Signup {
    var error: string
    var loading: bool
    var showSuccess: bool
    var storage: map<string, string>

    constructor (storage: map<string, string>)
      ensures error == "" && !loading && !showSuccess && this.storage == storage
    {
      error := "";
      loading := false;
      showSuccess := false;
      this.storage := storage;
    }

    /** `handleSubmit`: clears the error; refuses mismatched passwords without
        a request; otherwise posts the form and, on success, stores both tokens
        and the user and shows the success panel, or on failure shows the
        failure message. `requested` says whether the POST was made. */
    method HandleSubmit(form: FormData, outcome: RegisterOutcome) returns (requested: bool)
      modifies this
      ensures form.password != form.password2 ==>
        !requested && error == MismatchError &&
        loading == old(loading) && showSuccess == old(showSuccess) && storage == old(storage)
      ensures form.password == form.password2 ==> requested && !loading
      ensures form.password == form.password2 && outcome.Registered? ==>
        error == "" && showSuccess &&
        storage == old(storage)[AccessTokenKey := outcome.access][RefreshTokenKey := outcome.refresh]
                               [UserKey := outcome.userJson]
      ensures form.password == form.password2 && !outcome.Registered? ==>
        error == FailureMessage(outcome) && showSuccess == old(showSuccess) && storage == old(storage)
    {
      error := "";
      if form.password != form.password2 {
        error := MismatchError;
        return false;
      }
      loading := true;
      requested := true;
      match outcome {
        case Registered(access, refresh, userJson) =>
          storage := storage[AccessTokenKey := access];
          storage := storage[RefreshTokenKey := refresh];
          storage := storage[UserKey := userJson];
          showSuccess := true;
        case Failed(_) =>
          error := FailureMessage(outcome);
        case Unreachable =>
          error := FailureMessage(outcome);
      }
      loading := false;
    }
  }
}
