/** The registration form: its ordered validation, the sign-up call, the free subscription
    created for the new account, and the navigation to the login page. */
module Register {
  import opened JsValues

  const FillAllFieldsError := "Please fill in all fields"
  const PasswordMismatchError := "Passwords do not match"
  const SubscriptionSetupError := "Account created, but there was an issue setting up your subscription. Please contact support."
  const RegistrationFailedError := "Registration failed. Please try again."
  const LoginRoute := "/login"

  /** The form's five fields. */
  datatype Form = Form(displayName: string, email: string, phone: string, password: string, confirmPassword: string)

  predicate AllFilled(f: Form) {
    f.displayName != "" && f.email != "" && f.phone != "" && f.password != "" && f.confirmPassword != ""
  }

  /** How the identity provider's sign-up answers: an error with its message, an account (whose
      user id may be missing), or a thrown exception. */
  datatype SignUpOutcome = SignUpError(message: string) | SignedUp(userId: Option<string>) | SignUpThrew

  /** How creating the free subscription answers. */
  datatype SubscriptionOutcome = SubscriptionCreated | SubscriptionError | SubscriptionThrew

  /** The validation chain: the emptiness check runs first, the mismatch check second. */
  function ValidationError(f: Form): (r: Option<string>)
    ensures r == Some(FillAllFieldsError) <==> !AllFilled(f)
    ensures r == Some(PasswordMismatchError) <==> AllFilled(f) && f.password != f.confirmPassword
    ensures r == None <==> AllFilled(f) && f.password == f.confirmPassword
  {
    if !AllFilled(f) then Some(FillAllFieldsError)
    else if f.password != f.confirmPassword then Some(PasswordMismatchError)
    else None
  }

  /** The message a submission ends with, or none when it navigates to the login page. */
  function SubmitError(f: Form, signUp: SignUpOutcome, subscription: SubscriptionOutcome): (r: Option<string>)
    ensures r == None <==>
      ValidationError(f) == None && signUp.SignedUp? && TruthyOpt(signUp.userId) && subscription.SubscriptionCreated?
    ensures ValidationError(f).Some? ==> r == ValidationError(f)
    ensures ValidationError(f) == None && signUp.SignUpError? ==> r == Some(signUp.message)
    ensures ValidationError(f) == None && signUp.SignedUp? && !TruthyOpt(signUp.userId) ==> r == Some(SubscriptionSetupError)
    ensures ValidationError(f) == None && signUp.SignedUp? && TruthyOpt(signUp.userId) && subscription.SubscriptionError? ==>
      r == Some(SubscriptionSetupError)
    ensures ValidationError(f) == None
            && (signUp.SignUpThrew? || (signUp.SignedUp? && TruthyOpt(signUp.userId) && subscription.SubscriptionThrew?)) ==>
      r == Some(RegistrationFailedError)
  {
    if ValidationError(f).Some? then ValidationError(f)
    else
      match signUp
      case SignUpThrew => Some(RegistrationFailedError)
      case SignUpError(message) => Some(message)
      case SignedUp(userId) =>
        if !TruthyOpt(userId) then Some(SubscriptionSetupError)
        else
          match subscription
          case SubscriptionCreated => None
          case SubscriptionError => Some(SubscriptionSetupError)
          case SubscriptionThrew => Some(RegistrationFailedError)
  }

  /** The sign-up request the form sends. */
  datatype SignUpRequest = SignUpRequest(email: string, password: string, displayName: string, phone: string)

  /** The registration page's state, with the sign-up requests, the subscriptions requested and
      the routes pushed. */
  class RegisterPage {
    var displayName: string
    var email: string
    var phone: string
    var password: string
    var confirmPassword: string
    var error: string
    var signUpRequests: seq<SignUpRequest>
    var subscriptionRequests: seq<string>
    var navigations: seq<string>

    constructor ()
      ensures displayName == "" && email == "" && phone == "" && password == "" && confirmPassword == ""
      ensures error == "" && signUpRequests == [] && subscriptionRequests == [] && navigations == []
    {
      displayName, email, phone, password, confirmPassword := "", "", "", "", "";
      error := "";
      signUpRequests, subscriptionRequests, navigations := [], [], [];
    }

    function CurrentForm(): Form
      reads this
    {
      Form(displayName, email, phone, password, confirmPassword)
    }

    /** `handleSubmit`. The previous error is cleared; a failed check sets its message without
        calling sign-up; otherwise sign-up is called once, and the page moves to the login page
        only when sign-up returns a user id and the free subscription is created. */
    method HandleSubmit(signUp: SignUpOutcome, subscription: SubscriptionOutcome)
      modifies this
      ensures var r := SubmitError(old(CurrentForm()), signUp, subscription);
              error == (if r.Some? then r.value else "")
              && navigations == old(navigations) + (if r.None? then [LoginRoute] else [])
      ensures signUpRequests == old(signUpRequests) +
        (if ValidationError(old(CurrentForm())) == None then [SignUpRequest(email, password, displayName, phone)] else [])
      ensures subscriptionRequests == old(subscriptionRequests) +
        (if ValidationError(old(CurrentForm())) == None && signUp.SignedUp? && TruthyOpt(signUp.userId)
         then [signUp.userId.value] else [])
      ensures CurrentForm() == old(CurrentForm())
    {
      error := "";
      if displayName == "" || email == "" || phone == "" || password == "" || confirmPassword == "" {
        error := FillAllFieldsError;
        return;
      }
      if password != confirmPassword {
        error := PasswordMismatchError;
        return;
      }
      signUpRequests := signUpRequests + [SignUpRequest(email, password, displayName, phone)];
      match signUp
      case SignUpThrew =>
        error := RegistrationFailedError;
      case SignUpError(message) =>
        error := message;
      case SignedUp(userId) =>
        if TruthyOpt(userId) {
          subscriptionRequests := subscriptionRequests + [userId.value];
          match subscription
          case SubscriptionCreated =>
            navigations := navigations + [LoginRoute];
          case SubscriptionError =>
            error := SubscriptionSetupError;
          case SubscriptionThrew =>
            error := RegistrationFailedError;
        } else {
          error := SubscriptionSetupError;
        }
    }
  }
}
