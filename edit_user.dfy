/**
 * The edit page: fetches one user by id into an edit draft, validates the
 * draft field by field, and submits it.
 */
module EditUser {
  import opened Optional
  import opened Api
  import opened Text
  import opened Validation
  import opened Routes

  const FirstNameRequired := "First name is required"
  const LastNameRequired := "Last name is required"
  const FetchErrorMessage := "Failed to load user details"
  const NotFoundMessage := "User not found"

  /** The draft `formData`, and with the same shape the messages `formErrors`. */
  datatype Form = Form(firstName: string, lastName: string, email: string)

  const EmptyForm := Form("", "", "")

  /** The `name` of one of the three inputs. */
  datatype Field = FirstName | LastName | Email

  function Get(f: Form, name: Field): string {
    match name
    case FirstName => f.firstName
    case LastName => f.lastName
    case Email => f.email
  }

  /** `{ ...f, [name]: value }`: one field replaced, the other two as they were. */
  function Set(f: Form, name: Field, value: string): (r: Form)
    ensures Get(r, name) == value
    ensures forall other | other != name :: Get(r, other) == Get(f, other)
  {
    match name
    case FirstName => f.(firstName := value)
    case LastName => f.(lastName := value)
    case Email => f.(email := value)
  }

  /** Writing back a field's own value changes nothing. */
  lemma SetOwnValue(f: Form, name: Field)
    ensures Set(f, name, Get(f, name)) == f
  {
  }

  /**
   * The messages `validateForm` produces for a draft: a blank first or last
   * name is reported as required, and the email gets the shared email rule's
   * message; a field without a problem gets `""`.
   */
  function FormErrors(f: Form): (e: Form)
    ensures e.firstName in {"", FirstNameRequired} && (e.firstName == "" <==> !IsBlank(f.firstName))
    ensures e.lastName in {"", LastNameRequired} && (e.lastName == "" <==> !IsBlank(f.lastName))
    ensures e.email == EmailError(f.email)
  {
    Form(
      if IsBlank(f.firstName) then FirstNameRequired else "",
      if IsBlank(f.lastName) then LastNameRequired else "",
      EmailError(f.email))
  }

  /**
   * A draft is accepted exactly when both names contain a non-whitespace
   * character and the email has text and an `@`...`.` window.
   */
  lemma FormAcceptedIff(f: Form)
    ensures FormErrors(f) == EmptyForm <==>
      HasText(f.firstName) && HasText(f.lastName) && HasText(f.email) && EmailShape(f.email)
  {
    BlankIffNoText(f.firstName);
    BlankIffNoText(f.lastName);
    EmailAcceptedIff(f.email);
  }

  /** A complete draft passes validation. */
  lemma CompleteDraftAccepted()
    ensures FormErrors(Form("Jane", "Doe", "jane@doe.com")) == EmptyForm
  {
    var email := "jane@doe.com";
    assert EmailShapeAt(email, 4, 8);
    assert !IsSpace("Jane"[0]) && !IsSpace("Doe"[0]) && !IsSpace(email[0]);
    EmailAcceptedIff(email);
  }

  /** A draft without a first name is reported on that field. */
  lemma MissingFirstNameReported(lastName: string, email: string)
    ensures FormErrors(Form("", lastName, email)).firstName == FirstNameRequired
  {
  }

  /** An address without `@` is reported as invalid, whatever the names. */
  lemma MalformedEmailReported(firstName: string, lastName: string)
    ensures FormErrors(Form(firstName, lastName, "notanemail")).email == EmailInvalid
  {
    var email := "notanemail";
    assert !IsSpace(email[0]);
    assert !EmailShape(email) by {
      forall p | 0 <= p < |email| ensures email[p] != '@' { }
    }
    EmailAcceptedIff(email);
  }

  /** The screen the page renders. */
  datatype Screen = Spinner | ErrorView(message: string) | FormView

  /** The page's state. The route parameter `id` is taken already parsed. */
  class EditUserPage {
    const id: Option<int>
    var user: Option<User>
    var loading: bool
    var saving: bool
    var error: Option<string>
    var formData: Form
    var formErrors: Form
    /** The bodies sent to `PUT /users/{id}`, oldest first. */
    var updateRequests: seq<(int, Form)>
    var navigatedTo: Option<string>

    /** Between handlers no save is in flight. */
    ghost predicate Valid()
      reads this
    {
      !saving
    }

    /**
     * What is rendered: the spinner while loading; once loaded, the error view
     * exactly when an error is set or no user was loaded; the form otherwise.
     */
    function CurrentScreen(): (s: Screen)
      reads this
      ensures s == Spinner <==> loading
      ensures s.ErrorView? <==> !loading && (error.Some? || user.None?)
      ensures s.ErrorView? ==> s.message == if error.Some? then error.value else NotFoundMessage
    {
      if loading then Spinner
      else if error.Some? || user.None? then ErrorView(if error.Some? then error.value else NotFoundMessage)
      else FormView
    }

    /** The state on the first render, before the mount effect fetches the user. */
    constructor (id: Option<int>)
      ensures Valid()
      ensures this.id == id && user == None && loading && error == None
      ensures formData == EmptyForm && formErrors == EmptyForm
      ensures updateRequests == [] && navigatedTo == None
    {
      this.id := id;
      user, loading, saving, error := None, true, false, None;
      formData, formErrors := EmptyForm, EmptyForm;
      updateRequests, navigatedTo := [], None;
    }

    /**
     * `fetchUser`: without an id nothing happens (the spinner stays).
     * Otherwise a reply is kept and copied into the draft, a failure sets the
     * error, and loading ends either way.
     */
    method FetchUser(response: Outcome<User>)
      requires Valid()
      modifies this`user, this`loading, this`error, this`formData
      ensures Valid()
      ensures id.None? ==> user == old(user) && loading == old(loading) && error == old(error) && formData == old(formData)
      ensures id.Some? ==> !loading
      ensures id.Some? && response.Success? ==>
        && user == Some(response.value) && error == old(error)
        && formData == Form(response.value.firstName, response.value.lastName, response.value.email)
      ensures id.Some? && response.Success? && old(error) == None ==> CurrentScreen() == FormView
      ensures id.Some? && response.Failure? ==>
        && user == old(user) && formData == old(formData) && error == Some(FetchErrorMessage)
        && CurrentScreen() == ErrorView(FetchErrorMessage)
    {
      if id.None? {
        return;
      }
      loading := true;
      match response {
        case Success(userData) =>
          user := Some(userData);
          formData := Form(userData.firstName, userData.lastName, userData.email);
        case Failure =>
          error := Some(FetchErrorMessage);
      }
      loading := false;
    }

    /** `validateForm`: replaces every message with the draft's own and tells whether all are empty. */
    method ValidateForm() returns (isValid: bool)
      modifies this`formErrors
      ensures formErrors == FormErrors(formData)
      ensures isValid <==> formErrors == EmptyForm
    {
      var errors := EmptyForm;
      isValid := true;
      if IsBlank(formData.firstName) {
        errors := errors.(firstName := FirstNameRequired);
        isValid := false;
      }
      if IsBlank(formData.lastName) {
        errors := errors.(lastName := LastNameRequired);
        isValid := false;
      }
      if IsBlank(formData.email) {
        errors := errors.(email := EmailRequired);
        isValid := false;
      } else if !MatchesEmailPattern(formData.email) {
        errors := errors.(email := EmailInvalid);
        isValid := false;
      }
      formErrors := errors;
    }

    /**
     * `handleChange`: the edited field takes the new value and its message is
     * cleared; every other field and message stays. The message is written
     * only when it was set, which leaves the same state as clearing it always.
     */
    method HandleChange(name: Field, value: string)
      modifies this`formData, this`formErrors
      ensures formData == Set(old(formData), name, value)
      ensures formErrors == Set(old(formErrors), name, "")
      ensures Get(old(formErrors), name) == "" ==> formErrors == old(formErrors)
    {
      formData := Set(formData, name, value);
      if Get(formErrors, name) != "" {
        formErrors := Set(formErrors, name, "");
      } else {
        SetOwnValue(formErrors, name);
      }
    }

    /**
     * `handleSubmit`: validation runs first; an invalid draft or a missing id
     * ends it without a request. Otherwise the draft is sent once, a success
     * goes back to the list, and a failure keeps the page and its draft. No
     * save is in flight afterwards.
     */
    method HandleSubmit(response: Outcome<()>)
      requires Valid()
      modifies this`formErrors, this`saving, this`updateRequests, this`navigatedTo
      ensures Valid()
      ensures formErrors == FormErrors(formData)
      ensures formErrors != EmptyForm || id.None? ==>
        updateRequests == old(updateRequests) && navigatedTo == old(navigatedTo)
      ensures formErrors == EmptyForm && id.Some? ==>
        && updateRequests == old(updateRequests) + [(id.value, formData)]
        && navigatedTo == (if response.Success? then Some(UsersRoute) else old(navigatedTo))
    {
      var isValid := ValidateForm();
      if !isValid || id.None? {
        return;
      }
      saving := true;
      updateRequests := updateRequests + [(id.value, formData)];
      if response.Success? {
        navigatedTo := Some(UsersRoute);
      }
      saving := false;
    }
  }
}
