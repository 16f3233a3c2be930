/** The sign-up form: local password checks, then registration, an automatic
    login and the move to the verification-code screen. */
module SignupPage {
  import opened Wrappers
  import Middleware

  const MinPasswordLength: nat := 6
  const TooShortError: string := "パスワードは6文字以上で入力してください"
  const MismatchError: string := "パスワードが一致しません"
  const DefaultError: string := "登録に失敗しました。もう一度お試しください。"

  /** The checks made before any request, in the order they are made: the
      length first, so a short password is reported as short even when the
      confirmation differs. */
  function Validate(password: string, confirmPassword: string): (error: Option<string>)
    ensures error == None <==> |password| >= MinPasswordLength && password == confirmPassword
    ensures error == Some(TooShortError) <==> |password| < MinPasswordLength
    ensures error == Some(MismatchError) <==>
      |password| >= MinPasswordLength && password != confirmPassword
  {
    if |password| < MinPasswordLength then Some(TooShortError)
    else if password != confirmPassword then Some(MismatchError)
    else None
  }

  /** What the login call returns. */
  datatype LoginData = LoginData(sessionId: string, verificationCode: string)

  /** The verification screen's address, built from the login data. */
  function VerifyUrl(data: LoginData): (url: string)
    ensures Middleware.StartsWith(url, "/verify?session_id=")
  {
    "/verify?session_id=" + data.sessionId + "&code=" + data.verificationCode
  }

  /** The message shown for a failed request: the server's `detail` when it
      sent a non-empty one, the default text otherwise. */
  function FailureMessage(detail: string): (message: string)
    ensures message != ""
    ensures detail != "" ==> message == detail
  {
    if detail != "" then detail else DefaultError
  }

  class SignupForm {
    var email: string
    var password: string
    var confirmPassword: string
    var error: string
    var loading: bool
    var navigatedTo: Option<string>

    constructor ()
      ensures email == "" && password == "" && confirmPassword == ""
      ensures error == "" && !loading && navigatedTo == None
    {
      email := "";
      password := "";
      confirmPassword := "";
      error := "";
      loading := false;
      navigatedTo := None;
    }

    /** `handleSubmit`, given the outcomes of `register` and of `loginEmail`
        (the latter is used only when registration succeeded). `requests`
        counts the calls made. */
    method HandleSubmit(register: Call<()>, login: Call<LoginData>) returns (requests: nat)
      modifies this
      ensures email == old(email) && password == old(password) && confirmPassword == old(confirmPassword)
      ensures Validate(password, confirmPassword).Some? ==>
        && requests == 0
        && error == Validate(password, confirmPassword).value
        && loading == old(loading)
        && navigatedTo == old(navigatedTo)
      ensures Validate(password, confirmPassword).None? ==>
        && !loading
        && requests == (if register.Failed? then 1 else 2)
        && (register.Failed? ==> error == FailureMessage(register.detail) && navigatedTo == old(navigatedTo))
        && (register.Done? && login.Failed? ==>
              error == FailureMessage(login.detail) && navigatedTo == old(navigatedTo))
        && (register.Done? && login.Done? ==>
              error == "" && navigatedTo == Some(VerifyUrl(login.value)))
    {
      error := "";
      var invalid := Validate(password, confirmPassword);
      if invalid.Some? {
        error := invalid.value;
        requests := 0;
        return;
      }
      loading := true;
      requests := 1;
      if register.Failed? {
        error := FailureMessage(register.detail);
      } else {
        requests := 2;
        if login.Failed? {
          error := FailureMessage(login.detail);
        } else {
          navigatedTo := Some(VerifyUrl(login.value));
        }
      }
      loading := false;
    }
  }

  /** The verification screen the form moves to is public: the middleware
      sees the path '/verify' of the address and lets a visitor without a
      token through to it. */
  lemma VerifyUrlIsPublic(data: LoginData)
    ensures Middleware.Pathname(VerifyUrl(data)) == "/verify"
    ensures Middleware.IsPublic(Middleware.Pathname(VerifyUrl(data)))
    ensures Middleware.Decide(None, Middleware.Pathname(VerifyUrl(data))) == Middleware.Next
  {
    var query := "session_id=" + data.sessionId + "&code=" + data.verificationCode;
    assert VerifyUrl(data) == "/verify" + "?" + query;
    Middleware.PathnameOfQuery("/verify", query);
    assert "/verify"[..7] == "/verify";
  }
}
