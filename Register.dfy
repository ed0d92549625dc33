/** The sign-up form (src/app/components/register/register.component.ts). */
module Register {
  import opened JsStrings
  import opened FormChecks

  const MismatchMessage: string := "As senhas não coincidem"
  const TooShortMessage: string := "A senha deve ter pelo menos 6 caracteres"
  const MinPasswordLength: nat := 6
  const AfterRegisterRoute: string := "/dashboard"

  /** The checks of `onSubmit`, in order: every field filled, the two
      passwords equal, the password at least six UTF-16 code units long. */
  function RegisterCheck(name: string, email: string, password: string, confirmPassword: string): (c: SubmitCheck)
    ensures c == Proceed <==>
      name != "" && email != "" && password != "" && confirmPassword != ""
      && password == confirmPassword && Utf16Length(password) >= MinPasswordLength
    ensures c == Refuse(FillAllMessage) <==>
      name == "" || email == "" || password == "" || confirmPassword == ""
    ensures c == Refuse(MismatchMessage) <==>
      name != "" && email != "" && password != "" && confirmPassword != ""
      && password != confirmPassword
    ensures c == Refuse(TooShortMessage) <==>
      name != "" && email != "" && password != "" && confirmPassword != ""
      && password == confirmPassword && Utf16Length(password) < MinPasswordLength
  {
    if name == "" || email == "" || password == "" || confirmPassword == "" then Refuse(FillAllMessage)
    else if password != confirmPassword then Refuse(MismatchMessage)
    else if Utf16Length(password) < MinPasswordLength then Refuse(TooShortMessage)
    else Proceed
  }

  /** Six characters are enough; five are not. */
  lemma LengthBoundary(name: string, email: string)
    requires name != "" && email != ""
    ensures RegisterCheck(name, email, "abc123", "abc123") == Proceed
    ensures RegisterCheck(name, email, "abc12", "abc12") == Refuse(TooShortMessage)
  {
    assert Utf16Length("abc123") == 6;
    assert Utf16Length("abc12") == 5;
  }

  /** The length counts UTF-16 code units: three characters outside the
      Basic Multilingual Plane make a long enough password. */
  lemma AstralPasswordAccepted(name: string, email: string)
    requires name != "" && email != ""
    ensures RegisterCheck(name, email, "\U{1F600}\U{1F600}\U{1F600}", "\U{1F600}\U{1F600}\U{1F600}") == Proceed
  {
    assert Utf16Length("\U{1F600}\U{1F600}\U{1F600}") == 6;
  }

  /** The register call `onSubmit` makes: name, e-mail and password. */
  datatype RegisterCall = RegisterCall(name: string, email: string, password: string)

  class RegisterComponent {
    var name: string
    var email: string
    var password: string
    var confirmPassword: string
    var isLoading: bool
    var errorMessage: string
    var showPassword: bool
    var showConfirmPassword: bool

    constructor ()
      ensures name == "" && email == "" && password == "" && confirmPassword == ""
      ensures !isLoading && errorMessage == "" && !showPassword && !showConfirmPassword
    {
      name, email, password, confirmPassword := "", "", "", "";
      isLoading := false;
      errorMessage := "";
      showPassword, showConfirmPassword := false, false;
    }

    method OnSubmit() returns (call: Option<RegisterCall>)
      modifies this`isLoading, this`errorMessage
      ensures match RegisterCheck(name, email, password, confirmPassword)
        case Refuse(msg) => call == None && errorMessage == msg && isLoading == old(isLoading)
        case Proceed => call == Some(RegisterCall(name, email, password)) && errorMessage == "" && isLoading
    {
      if name == "" || email == "" || password == "" || confirmPassword == "" {
        errorMessage := FillAllMessage;
        return None;
      }
      if password != confirmPassword {
        errorMessage := MismatchMessage;
        return None;
      }
      if Utf16Length(password) < MinPasswordLength {
        errorMessage := TooShortMessage;
        return None;
      }
      isLoading := true;
      errorMessage := "";
      call := Some(RegisterCall(name, email, password));
    }

    /** The `next` callback: returns the route navigated to. */
    method OnRegistered() returns (route: string)
      ensures route == AfterRegisterRoute
    {
      route := AfterRegisterRoute;
    }

    /** The `error` callback; `error` is the message the service produced. */
    method OnRegisterError(error: string)
      modifies this`errorMessage, this`isLoading
      ensures errorMessage == error && !isLoading
    {
      errorMessage := error;
      isLoading := false;
    }

    method OnRegisterComplete()
      modifies this`isLoading
      ensures !isLoading
    {
      isLoading := false;
    }

    method TogglePasswordVisibility()
      modifies this`showPassword
      ensures showPassword == !old(showPassword)
    {
      showPassword := !showPassword;
    }

    method ToggleConfirmPasswordVisibility()
      modifies this`showConfirmPassword
      ensures showConfirmPassword == !old(showConfirmPassword)
    {
      showConfirmPassword := !showConfirmPassword;
    }
  }

  /** Toggling a visibility flag twice restores it, and leaves the form
      otherwise as it was. */
  method ToggleTwice(c: RegisterComponent)
    modifies c
    ensures c.showPassword == old(c.showPassword) && c.showConfirmPassword == old(c.showConfirmPassword)
    ensures c.name == old(c.name) && c.password == old(c.password) && c.errorMessage == old(c.errorMessage)
    ensures c.email == old(c.email) && c.confirmPassword == old(c.confirmPassword) && c.isLoading == old(c.isLoading)
  {
    c.TogglePasswordVisibility();
    c.TogglePasswordVisibility();
    c.ToggleConfirmPasswordVisibility();
    c.ToggleConfirmPasswordVisibility();
  }
}
