/** The sign-in form (src/app/components/login/login.component.ts). */
module Login {
  import opened JsStrings
  import opened FormChecks

  const DefaultReturnUrl: string := "/dashboard"

  /** `onSubmit`'s only check: both fields filled. */
  function LoginCheck(username: string, password: string): (c: SubmitCheck)
    ensures c == Proceed <==> username != "" && password != ""
    ensures c != Proceed ==> c == Refuse(FillAllMessage)
  {
    if username == "" || password == "" then Refuse(FillAllMessage) else Proceed
  }

  /** Where a successful login goes: the `returnUrl` query parameter, unless
      it is absent or empty. */
  function ReturnTarget(returnUrl: Option<string>): (target: string)
    ensures target != ""
    ensures returnUrl.Some? && returnUrl.value != "" ==> target == returnUrl.value
    ensures returnUrl.None? || returnUrl.value == "" ==> target == DefaultReturnUrl
  {
    if returnUrl.Some? && returnUrl.value != "" then returnUrl.value else DefaultReturnUrl
  }

  datatype LoginCall = LoginCall(username: string, password: string)

  class LoginComponent {
    var username: string
    var password: string
    var isLoading: bool
    var errorMessage: string
    var showPassword: bool

    constructor ()
      ensures username == "" && password == "" && !isLoading && errorMessage == "" && !showPassword
    {
      username, password := "", "";
      isLoading := false;
      errorMessage := "";
      showPassword := false;
    }

    method OnSubmit() returns (call: Option<LoginCall>)
      modifies this`isLoading, this`errorMessage
      ensures match LoginCheck(username, password)
        case Refuse(msg) => call == None && errorMessage == msg && isLoading == old(isLoading)
        case Proceed => call == Some(LoginCall(username, password)) && errorMessage == "" && isLoading
    {
      if username == "" || password == "" {
        errorMessage := FillAllMessage;
        return None;
      }
      isLoading := true;
      errorMessage := "";
      call := Some(LoginCall(username, password));
    }

    /** The `next` callback: returns the route navigated to. */
    method OnLoggedIn(returnUrl: Option<string>) returns (route: string)
      ensures route == ReturnTarget(returnUrl)
    {
      route := if returnUrl.Some? && returnUrl.value != "" then returnUrl.value else DefaultReturnUrl;
    }

    method OnLoginError(error: string)
      modifies this`errorMessage, this`isLoading
      ensures errorMessage == error && !isLoading
    {
      errorMessage := error;
      isLoading := false;
    }

    method OnLoginComplete()
      modifies this`isLoading
      ensures !isLoading
    {
      isLoading := false;
    }

    method TogglePasswordVisibility()
      modifies this`showPassword
      ensures showPassword == !old(showPassword)
    {
      showPassword := !showPassword;
    }
  }
}
