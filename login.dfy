/**
 * The login page: checks the two inputs and, when they pass, asks the session
 * to log in.
 */
module Login {
  import opened Optional
  import opened Api
  import opened Text
  import opened Validation
  import opened Auth
  import opened Routes

  const PasswordRequired := "Password is required"

  /** A key of the `newErrors` object. */
  datatype LoginField = EmailField | PasswordField

  /**
   * The `newErrors` object `validateForm` builds: an `email` entry carrying
   * the shared email rule's message when that rule rejects the address, a
   * `password` entry when the password is blank, and nothing else. There is no
   * other password rule.
   */
  function LoginErrors(email: string, password: string): (errors: map<LoginField, string>)
    ensures EmailField in errors <==> EmailError(email) != ""
    ensures EmailField in errors ==> errors[EmailField] == EmailError(email)
    ensures PasswordField in errors <==> IsBlank(password)
    ensures PasswordField in errors ==> errors[PasswordField] == PasswordRequired
  {
    var emailPart := if EmailError(email) != "" then map[EmailField := EmailError(email)] else map[];
    if IsBlank(password) then emailPart[PasswordField := PasswordRequired] else emailPart
  }

  /**
   * The form is accepted (no keys) exactly when the email has text and an
   * `@`...`.` window and the password has a non-whitespace character. The
   * email part is the same rule the edit form applies.
   */
  lemma LoginAcceptedIff(email: string, password: string)
    ensures |LoginErrors(email, password)| == 0 <==> HasText(email) && EmailShape(email) && HasText(password)
  {
    var errors := LoginErrors(email, password);
    EmailAcceptedIff(email);
    BlankIffNoText(password);
    if |errors| == 0 {
      assert EmailField !in errors && PasswordField !in errors;
    } else {
      var k :| k in errors;
      assert k == EmailField || k == PasswordField;
    }
  }

  class LoginPage {
    var email: string
    var password: string
    var errors: map<LoginField, string>

    constructor ()
      ensures email == "" && password == "" && errors == map[]
    {
      email, password, errors := "", "", map[];
    }

    /** `validateForm`: fills a fresh error object field by field and tells whether it stayed empty. */
    method ValidateForm() returns (isValid: bool)
      modifies this`errors
      ensures errors == LoginErrors(email, password)
      ensures isValid <==> |errors| == 0
    {
      var newErrors: map<LoginField, string> := map[];
      if IsBlank(email) {
        newErrors := newErrors[EmailField := EmailRequired];
      } else if !MatchesEmailPattern(email) {
        newErrors := newErrors[EmailField := EmailInvalid];
      }
      if IsBlank(password) {
        newErrors := newErrors[PasswordField := PasswordRequired];
      }
      errors := newErrors;
      isValid := |newErrors.Keys| == 0;
    }

    /**
     * `handleSubmit`: a form that fails validation never reaches `login`;
     * otherwise `login` is called once with the two inputs, and a rejection it
     * throws is caught here.
     */
    method HandleSubmit(auth: AuthProvider, response: Outcome<string>)
      requires auth.Valid()
      modifies this`errors, auth
      ensures auth.Valid()
      ensures errors == LoginErrors(email, password)
      ensures |errors| != 0 ==> auth.Snapshot() == old(auth.Snapshot())
      ensures |errors| == 0 ==>
        && auth.loginRequests == old(auth.loginRequests) + [Credentials(email, password)]
        && !auth.loading
        && (response.Success? ==>
              && auth.storedToken == Some(response.value) && auth.token == Some(response.value)
              && auth.isAuthenticated && auth.navigatedTo == Some(UsersRoute))
        && (response.Failure? ==>
              && auth.storedToken == old(auth.storedToken) && auth.token == old(auth.token)
              && auth.isAuthenticated == old(auth.isAuthenticated) && auth.navigatedTo == old(auth.navigatedTo))
    {
      var isValid := ValidateForm();
      if !isValid {
        return;
      }
      var _ := auth.Login(email, password, response);
    }
  }
}
