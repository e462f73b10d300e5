/**
 * The sign-in form: two text inputs, an error line, a busy flag and a
 * password-visibility toggle. Submitting trims both inputs, rejects an empty
 * one, and otherwise asks the session provider to sign in.
 */
module LoginForm {
  import opened Wrappers
  import opened JsValues
  import opened Records
  import opened AuthContext

  const EmptyCredentials: string := "Please enter both email and password"
  const InvalidCredentials: string := "Invalid email or password"
  const DashboardRoute: string := "/dashboard"

  /** What one submission leaves behind: the error text and where it navigates, if anywhere. */
  datatype Outcome = Outcome(error: string, target: Option<string>)

  /** The outcome of submitting the given raw inputs against the sample users. */
  function SubmitOutcome(email: string, password: string): (o: Outcome)
    ensures o.target.Some? <==> o.error == ""
    ensures o.target.Some? ==> o.target.value == DashboardRoute
  {
    var e := Trim(email);
    var p := Trim(password);
    if e == [] || p == [] then Outcome(EmptyCredentials, None)
    else if Authenticate(SampleUsers, e, p).Some? then Outcome("", Some(DashboardRoute))
    else Outcome(InvalidCredentials, None)
  }

  /** Submission succeeds exactly when the trimmed inputs are some sample user's credentials. */
  lemma SubmitSucceedsIff(email: string, password: string)
    ensures SubmitOutcome(email, password).target.Some? <==>
      exists i :: 0 <= i < |SampleUsers| && SampleUsers[i].email == Trim(email) && SampleUsers[i].password == Trim(password)
  {
    if Trim(email) == [] || Trim(password) == [] {
      assert forall i :: 0 <= i < |SampleUsers| ==> SampleUsers[i].email != [] && SampleUsers[i].password != [];
    }
  }

  /** The empty-input message appears exactly when an input is blank or only whitespace. */
  lemma EmptyMessageIff(email: string, password: string)
    ensures SubmitOutcome(email, password).error == EmptyCredentials <==> AllWhiteSpace(email) || AllWhiteSpace(password)
  {
    TrimEmptyIff(email);
    TrimEmptyIff(password);
  }

  /** Surrounding whitespace never changes the outcome. */
  lemma TrimmingIsInvisible(email: string, password: string)
    ensures SubmitOutcome(Trim(email), Trim(password)) == SubmitOutcome(email, password)
  {
    TrimIdempotent(email);
    TrimIdempotent(password);
  }

  class LoginForm {
    var email: string
    var password: string
    var error: string
    var isLoading: bool
    var showPassword: bool

    constructor ()
      ensures email == "" && password == "" && error == "" && !isLoading && !showPassword
    {
      email := "";
      password := "";
      error := "";
      isLoading := false;
      showPassword := false;
    }

    method SetEmail(v: string)
      modifies this
      ensures email == v && password == old(password) && error == old(error)
      ensures isLoading == old(isLoading) && showPassword == old(showPassword)
    {
      email := v;
    }

    method SetPassword(v: string)
      modifies this
      ensures password == v && email == old(email) && error == old(error)
      ensures isLoading == old(isLoading) && showPassword == old(showPassword)
    {
      password := v;
    }

    /** The eye button. */
    method TogglePassword()
      modifies this
      ensures showPassword == !old(showPassword)
      ensures email == old(email) && password == old(password) && error == old(error) && isLoading == old(isLoading)
    {
      showPassword := !showPassword;
    }

    /**
     * `handleSubmit`. The error is cleared and the busy flag raised first; blank
     * input stops before `login` is called; every path ends not busy. The
     * provider's `login` does not throw, so the catch branch is never taken.
     */
    method HandleSubmit(auth: AuthProvider) returns (target: Option<string>)
      modifies this, auth, auth.storage
      ensures error == SubmitOutcome(old(email), old(password)).error
      ensures target == SubmitOutcome(old(email), old(password)).target
      ensures !isLoading
      ensures email == old(email) && password == old(password) && showPassword == old(showPassword)
      ensures Trim(old(email)) == [] || Trim(old(password)) == [] ==>
        auth.user == old(auth.user) && auth.storage.items == old(auth.storage.items)
      ensures Trim(old(email)) != [] && Trim(old(password)) != [] ==>
        var found := Authenticate(SampleUsers, Trim(old(email)), Trim(old(password)));
        && (found.Some? ==> auth.user == found && auth.storage.items == old(auth.storage.items)[UserKey := UserRecord(found.value)])
        && (found.None? ==> auth.user == old(auth.user) && auth.storage.items == old(auth.storage.items))
      ensures auth.loading == old(auth.loading)
    {
      error := "";
      isLoading := true;
      var trimmedEmail := Trim(email);
      var trimmedPassword := Trim(password);
      if trimmedEmail == [] || trimmedPassword == [] {
        error := EmptyCredentials;
        isLoading := false;
        target := None;
        return;
      }
      var success := auth.Login(trimmedEmail, trimmedPassword);
      if success {
        target := Some(DashboardRoute);
      } else {
        error := InvalidCredentials;
        target := None;
      }
      isLoading := false;
    }
  }
}
