/** The sign-in page (src/pages/Auth.tsx): the local checks before a sign-up,
    the call it makes, the error texts it shows, and the mode switch. The
    authentication service answers with an `Ack`; its rejection message is the
    message of the error it throws. */
module AuthPage {
  import opened Base
  import opened Seqs

  const MismatchMessage: string := "Şifreler eşleşmiyor"
  const ShortPasswordMessage: string := "Şifre en az 6 karakter olmalıdır"
  const SignedUpMessage: string := "Kayıt başarılı! Lütfen email onayınızı yapın."
  const SignedInMessage: string := "Oturum açıldı!"
  const AlreadyRegisteredText: string := "Bu email zaten kayıtlı. Lütfen oturum açın."
  const WrongCredentialsText: string := "Email veya şifre yanlış"

  /** The shortest password a sign-up accepts. */
  const MinPasswordLength: nat := 6

  /** The text shown for a failed call: the two known service messages get a
      fixed text, checked in this order; anything else is shown as it is. */
  function ErrorText(message: string): (text: string)
    ensures Contains(message, "User already registered") ==> text == AlreadyRegisteredText
    ensures !Contains(message, "User already registered") && Contains(message, "Invalid login credentials") ==>
      text == WrongCredentialsText
    ensures !Contains(message, "User already registered") && !Contains(message, "Invalid login credentials") ==>
      text == message
  {
    if Contains(message, "User already registered") then AlreadyRegisteredText
    else if Contains(message, "Invalid login credentials") then WrongCredentialsText
    else message
  }

  /** The service call a submit makes. */
  datatype AuthCall = NoCall | SignUpCall(email: string, password: string) | SignInCall(email: string, password: string)

  /** The local checks of a sign-up, in order: the two passwords must match,
      and only then is the length checked. */
  function SignUpCheck(password: string, confirmation: string): (r: Option<string>)
    ensures r.None? <==> password == confirmation && |password| >= MinPasswordLength
    ensures password != confirmation ==> r == Some(MismatchMessage)
    ensures password == confirmation && |password| < MinPasswordLength ==> r == Some(ShortPasswordMessage)
  {
    if password != confirmation then Some(MismatchMessage)
    else if |password| < MinPasswordLength then Some(ShortPasswordMessage)
    else None
  }

  class AuthForm {
    var isSignUp: bool
    var loading: bool
    var email: string
    var password: string
    var confirmPassword: string

    constructor ()
      ensures !isSignUp && !loading && email == "" && password == "" && confirmPassword == ""
    {
      isSignUp, loading, email, password, confirmPassword := false, false, "", "", "";
    }

    /** `handleSubmit`. In sign-up mode a failed local check shows its message
        and makes no call; otherwise the service is called with the email and
        password. Sign-in mode checks nothing locally. A rejected call shows
        the mapped error text. The fields are kept, and the page stops
        loading in every case. */
    method HandleSubmit(reply: Ack) returns (toast: Toast, call: AuthCall)
      modifies this
      ensures !loading
      ensures isSignUp == old(isSignUp) && email == old(email)
      ensures password == old(password) && confirmPassword == old(confirmPassword)
      ensures old(isSignUp) && SignUpCheck(old(password), old(confirmPassword)).Some? ==>
        call == NoCall && toast == ToastError(SignUpCheck(old(password), old(confirmPassword)).value)
      ensures old(isSignUp) && SignUpCheck(old(password), old(confirmPassword)).None? ==>
        call == SignUpCall(old(email), old(password))
      ensures !old(isSignUp) ==> call == SignInCall(old(email), old(password))
      ensures call != NoCall && reply.Accepted? ==>
        toast == ToastSuccess(if call.SignUpCall? then SignedUpMessage else SignedInMessage)
      ensures call != NoCall && reply.Rejected? ==> toast == ToastError(ErrorText(reply.message))
    {
      loading := true;
      if isSignUp {
        var problem := SignUpCheck(password, confirmPassword);
        if problem.Some? {
          loading := false;
          return ToastError(problem.value), NoCall;
        }
        call := SignUpCall(email, password);
        toast := ToastSuccess(SignedUpMessage);
      } else {
        call := SignInCall(email, password);
        toast := ToastSuccess(SignedInMessage);
      }
      if reply.Rejected? {
        toast := ToastError(ErrorText(reply.message));
      }
      loading := false;
    }

    /** The mode button: the mode flips and the three fields are cleared. */
    method ToggleMode()
      modifies this
      ensures isSignUp == !old(isSignUp) && loading == old(loading)
      ensures email == "" && password == "" && confirmPassword == ""
    {
      isSignUp := !isSignUp;
      email, password, confirmPassword := "", "", "";
    }
  }
}
