/** The registration page: the three input checks, in order, and what a
    submit leaves in the form. The sign-up itself is the auth store's; its
    outcome is a parameter. */
module Register {
  import opened Common

  const MissingFields := "请填写所有必填字段"
  const PasswordMismatch := "两次输入的密码不一致"
  const PasswordTooShort := "密码长度必须至少为6个字符"
  const SignUpSucceeded := "注册成功! 请检查您的邮箱完成验证。"
  const SignUpFailed := "注册失败，请重试"

  const MinPasswordLength := 6

  /** The checks of `handleSubmit` before anything is sent: a missing field
      first, then differing passwords, then a short password. */
  function Validate(email: string, password: string, confirmPassword: string): (r: Option<string>)
    ensures r.None? <==>
      email != "" && password != "" && password == confirmPassword && |password| >= MinPasswordLength
    ensures email == "" || password == "" || confirmPassword == "" ==> r == Some(MissingFields)
    ensures r == Some(PasswordMismatch) <==>
      email != "" && password != "" && confirmPassword != "" && password != confirmPassword
    ensures r == Some(PasswordTooShort) <==>
      email != "" && password != "" && password == confirmPassword && |password| < MinPasswordLength
  {
    if email == "" || password == "" || confirmPassword == "" then Some(MissingFields)
    else if password != confirmPassword then Some(PasswordMismatch)
    else if |password| < MinPasswordLength then Some(PasswordTooShort)
    else None
  }

  /** `error.message || '注册失败，请重试'` */
  function FailureText(message: string): (t: string)
    ensures message != "" ==> t == message
    ensures t != ""
  {
    if message != "" then message else SignUpFailed
  }

  class RegisterPage {
    var email: string
    var password: string
    var confirmPassword: string
    var loading: bool
    var errorMsg: string
    var successMsg: string

    constructor()
      ensures email == "" && password == "" && confirmPassword == ""
      ensures !loading && errorMsg == "" && successMsg == ""
    {
      email, password, confirmPassword := "", "", "";
      loading := false;
      errorMsg, successMsg := "", "";
    }

    /** `handleSubmit`: both messages are cleared; a failed check shows its
      message and signs nobody up; otherwise `signUp` runs, and its success
      clears the three fields and shows the success text while its failure
      shows the error. Loading is over either way. */
    method HandleSubmit(signUp: Outcome<()>) returns (signedUp: bool)
      modifies this
      ensures signedUp <==> Validate(old(email), old(password), old(confirmPassword)).None?
      ensures !signedUp ==> (errorMsg == Validate(old(email), old(password), old(confirmPassword)).value
        && successMsg == "" && loading == old(loading)
        && email == old(email) && password == old(password) && confirmPassword == old(confirmPassword))
      ensures signedUp ==> !loading
      ensures signedUp && signUp.Done? ==> (successMsg == SignUpSucceeded && errorMsg == ""
        && email == "" && password == "" && confirmPassword == "")
      ensures signedUp && signUp.Threw? ==> (errorMsg == FailureText(signUp.message) && successMsg == ""
        && email == old(email) && password == old(password) && confirmPassword == old(confirmPassword))
    {
      errorMsg := "";
      successMsg := "";
      if email == "" || password == "" || confirmPassword == "" {
        errorMsg := MissingFields;
        return false;
      }
      if password != confirmPassword {
        errorMsg := PasswordMismatch;
        return false;
      }
      if |password| < MinPasswordLength {
        errorMsg := PasswordTooShort;
        return false;
      }
      loading := true;
      if signUp.Done? {
        successMsg := SignUpSucceeded;
        email, password, confirmPassword := "", "", "";
      } else {
        errorMsg := FailureText(signUp.message);
      }
      loading := false;
      signedUp := true;
    }
  }
}
