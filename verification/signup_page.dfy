/**
 * Frontend/src/pages/SignupPage.jsx: the sign-up form, its password-match
 * gate, the two sign-up paths and the error text shown for a failure. The
 * account service's answer is a parameter.
 */
module SignupPage {
  import opened Wrappers
  import JsStrings

  const Mismatch := "Passwords do not match"
  const ServicePrefix := "Firebase: "

  /** The shown error: the service's message with its first "Firebase: " removed. */
  function DisplayedError(message: string): string {
    JsStrings.ReplaceFirst(message, ServicePrefix, "")
  }

  /**
   * The prefix is cut out at its first occurrence and nowhere else: putting
   * it back at that place restores the message; a message without it is shown as is.
   */
  lemma DisplayedErrorCutsPrefix(message: string)
    ensures JsStrings.IndexOf(message, ServicePrefix).None? ==> DisplayedError(message) == message
    ensures JsStrings.IndexOf(message, ServicePrefix).Some? ==>
      var i := JsStrings.IndexOf(message, ServicePrefix).value;
      var shown := DisplayedError(message);
      |shown| == |message| - |ServicePrefix| && shown[..i] + ServicePrefix + shown[i..] == message
  {
    JsStrings.ReplaceFirstSplices(message, ServicePrefix, "");
  }

  /** The submit button's `disabled`. */
  predicate SubmitDisabled(email: string, password: string, confirmPassword: string, isLoading: bool) {
    email == "" || password == "" || confirmPassword == "" || isLoading
  }

  class Page {
    var email: string
    var password: string
    var confirmPassword: string
    var isLoading: bool
    var passwordError: string
    var error: string

    constructor()
      ensures email == "" && password == "" && confirmPassword == "" && !isLoading && passwordError == "" && error == ""
    {
      email := "";
      password := "";
      confirmPassword := "";
      isLoading := false;
      passwordError := "";
      error := "";
    }

    method SetFields(email: string, password: string, confirmPassword: string)
      modifies this
      ensures this.email == email && this.password == password && this.confirmPassword == confirmPassword
      ensures isLoading == old(isLoading) && passwordError == old(passwordError) && error == old(error)
    {
      this.email := email;
      this.password := password;
      this.confirmPassword := confirmPassword;
    }

    /** The passwords match, and the password error says so either way. */
    method ValidatePasswords() returns (ok: bool)
      modifies this
      ensures ok <==> password == confirmPassword
      ensures passwordError == (if ok then "" else Mismatch)
      ensures email == old(email) && password == old(password) && confirmPassword == old(confirmPassword)
      ensures isLoading == old(isLoading) && error == old(error)
    {
      if password != confirmPassword {
        passwordError := Mismatch;
        return false;
      }
      passwordError := "";
      ok := true;
    }

    /**
     * Submit: mismatched passwords stop before loading or the service call.
     * Otherwise the account is created (and the page moves to the dashboard)
     * or the service's error is shown; loading ends either way.
     */
    method HandleSubmit(outcome: Result<(), string>) returns (called: bool, navigated: bool)
      modifies this
      ensures passwordError == (if password == confirmPassword then "" else Mismatch)
      ensures password != confirmPassword ==> !called && !navigated && isLoading == old(isLoading) && error == old(error)
      ensures password == confirmPassword ==> called && !isLoading
      ensures password == confirmPassword ==> navigated == outcome.Ok?
      ensures password == confirmPassword ==> error == (if outcome.Ok? then "" else DisplayedError(outcome.error))
      ensures email == old(email) && password == old(password) && confirmPassword == old(confirmPassword)
    {
      called, navigated := false, false;
      var ok := ValidatePasswords();
      if !ok {
        return;
      }
      isLoading := true;
      error := "";
      called := true;
      if outcome.Ok? {
        navigated := true;
      } else {
        error := DisplayedError(outcome.error);
      }
      isLoading := false;
    }

    /** Google sign-up: no password gate, the same error handling. */
    method HandleGoogleSignup(outcome: Result<(), string>) returns (navigated: bool)
      modifies this
      ensures navigated == outcome.Ok? && !isLoading
      ensures error == (if outcome.Ok? then "" else DisplayedError(outcome.error))
      ensures email == old(email) && password == old(password) && confirmPassword == old(confirmPassword)
      ensures passwordError == old(passwordError)
    {
      isLoading := true;
      error := "";
      navigated := outcome.Ok?;
      if outcome.Err? {
        error := DisplayedError(outcome.error);
      }
      isLoading := false;
    }
  }
}
