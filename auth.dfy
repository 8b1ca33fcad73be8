/** The sign-in and sign-up pages: each sends the form to the authentication
    service and shows one message about the outcome, styled as an error or as
    a confirmation. */
module Auth {
  import opened Wrappers
  import opened Strings

  // ---------------------------------------------------------------------
  // Messages

  const InvalidCredentialsText := "Invalid email or " + "password. Please " + "check your " + "credentials."
  const ConfirmLinkText :=
    "Please check your " + "email and click the " + "confirmation link " + "to activate your " + "account."
  const SignedInText := "Sign in successful! Redirecting..."
  const UnexpectedText := "An unexpected error occurred"
  const GoogleFailedText := "Failed to sign in with Google"
  const ShortPasswordText := "Password must be " + "at least 6 " + "characters long"
  const CreatedConfirmedText := "Account created successfully! You can now sign in."
  const CreatedCheckEmailText :=
    "Account created! " + "Please check your " + "email and click the " + "confirmation link " + "to activate your " + "account."

  /** The shortest password sign-up sends to the service, in UTF-16 code
      units as `password.length` counts them. */
  const MinPasswordLength := 6

  // ---------------------------------------------------------------------
  // The service's answers

  /** The user record in a successful answer; only whether the address is
      confirmed matters to the pages. */
  datatype User = User(emailConfirmed: bool)

  /** What an email-and-password call came to: an error object with its
      message, data with or without a user, or a thrown value. */
  datatype AuthReply = AuthFailed(message: string) | AuthData(user: Option<User>) | AuthThrew

  /** What starting the Google sign-in came to. */
  datatype OAuthReply = OAuthFailed(message: string) | OAuthStarted | OAuthThrew

  /** The message a page shows, together with whether it reports a failure;
      an empty text shows nothing. */
  datatype Notice = Notice(text: string, failed: bool)

  const NoNotice := Notice("", false)

  // ---------------------------------------------------------------------
  // Styling

  /** The pages as written style a message as an error when it contains the
      word "error" or "Error". */
  predicate StyledAsErrorAsWritten(text: string)
  {
    Contains(text, "error") || Contains(text, "Error")
  }

  /** The styling as intended: a message is shown as an error exactly when it
      reports a failure. */
  predicate StyledAsError(n: Notice)
  {
    n.text != "" && n.failed
  }

  // ---------------------------------------------------------------------
  // Sign-in

  /** The texts that replace the service's error messages: the two phrases
      the page recognises, in this order, and any other message as it is.
      The recognised phrases never reach the user: a message holding either
      is replaced by a text holding neither. */
  function SignInErrorText(m: string): (t: string)
    ensures !Contains(t, "Invalid login credentials") && !Contains(t, "Email not confirmed")
    ensures Contains(m, "Invalid login credentials") ==> t == InvalidCredentialsText
    ensures !Contains(m, "Invalid login credentials") && Contains(m, "Email not confirmed")
      ==> t == ConfirmLinkText
    ensures !Contains(m, "Invalid login credentials") && !Contains(m, "Email not confirmed") ==> t == m
  {
    ReplacementsLackPhrases();
    if Contains(m, "Invalid login credentials") then InvalidCredentialsText
    else if Contains(m, "Email not confirmed") then ConfirmLinkText
    else m
  }

  lemma ReplacementsLackPhrases()
    ensures !Contains(InvalidCredentialsText, "Invalid login credentials")
    ensures !Contains(ConfirmLinkText, "Invalid login credentials")
    ensures !Contains(InvalidCredentialsText, "Email not confirmed")
    ensures !Contains(ConfirmLinkText, "Email not confirmed")
  {
    assert "Invalid login credentials"[10] == 'g';
    assert "Email not confirmed"[0] == 'E';
    InvalidCredentialsLacksGE();
    ConfirmLinkLacksGE();
    NotContainsAbsent(InvalidCredentialsText, "Invalid login credentials", 'g');
    NotContainsAbsent(ConfirmLinkText, "Invalid login credentials", 'g');
    NotContainsAbsent(InvalidCredentialsText, "Email not confirmed", 'E');
    NotContainsAbsent(ConfirmLinkText, "Email not confirmed", 'E');
  }

  lemma InvalidCredentialsLacksGE()
    ensures 'g' !in InvalidCredentialsText && 'E' !in InvalidCredentialsText
  {
    LacksGE("Invalid email or ");
    LacksGE("password. Please ");
    LacksGE("check your ");
    LacksGE("credentials.");
  }

  lemma ConfirmLinkLacksGE()
    ensures 'g' !in ConfirmLinkText && 'E' !in ConfirmLinkText
  {
    LacksGE("Please check your ");
    LacksGE("email and click the ");
    LacksGE("confirmation link ");
    LacksGE("to activate your ");
    LacksGE("account.");
  }

  lemma LacksGE(s: string)
    requires forall i :: 0 <= i < |s| ==> s[i] != 'g' && s[i] != 'E'
    ensures 'g' !in s && 'E' !in s
  {
  }

  /** The message after `handleSignIn`: an error is reported as a failure, a
      signed-in user as a success, and data without a user leaves the cleared
      message empty. */
  function SignInNotice(reply: AuthReply): (n: Notice)
    ensures n.failed <==> !reply.AuthData?
    ensures reply.AuthData? ==> (n.text == "" <==> reply.user.None?)
    ensures reply.AuthData? && reply.user.Some? ==> n.text == SignedInText
    ensures reply.AuthFailed? ==> n.text == SignInErrorText(reply.message)
    ensures reply.AuthThrew? ==> n.text == UnexpectedText
  {
    match reply
    case AuthFailed(m) => Notice(SignInErrorText(m), true)
    case AuthData(user) => if user.Some? then Notice(SignedInText, false) else NoNotice
    case AuthThrew => Notice(UnexpectedText, true)
  }

  /** The message after `handleGoogleSignIn`: an error or a throw replaces
      it; a started sign-in leaves it as it was. */
  function GoogleNotice(reply: OAuthReply, current: Notice): (n: Notice)
    ensures n.failed <==> !reply.OAuthStarted? || current.failed
    ensures reply.OAuthStarted? ==> n == current
    ensures reply.OAuthFailed? ==> n.text == reply.message
    ensures reply.OAuthThrew? ==> n.text == GoogleFailedText
  {
    match reply
    case OAuthFailed(m) => Notice(m, true)
    case OAuthStarted => current
    case OAuthThrew => Notice(GoogleFailedText, true)
  }

  // ---------------------------------------------------------------------
  // Sign-up

  /** The message after `handleSignUp`: a short password is refused before
      the service is asked; otherwise an error is shown as the service wrote
      it, and a new account is confirmed or waits for the confirmation link. */
  function SignUpNotice(password: string, reply: AuthReply): (n: Notice)
    ensures Utf16Length(password) < MinPasswordLength ==> n == Notice(ShortPasswordText, true)
    ensures Utf16Length(password) >= MinPasswordLength ==> (n.failed <==> !reply.AuthData?)
    ensures Utf16Length(password) >= MinPasswordLength && reply.AuthData? ==> (n.text == "" <==> reply.user.None?)
    ensures Utf16Length(password) >= MinPasswordLength && reply.AuthData? && reply.user.Some? ==>
              n.text == if reply.user.value.emailConfirmed then CreatedConfirmedText else CreatedCheckEmailText
    ensures Utf16Length(password) >= MinPasswordLength && reply.AuthFailed? ==> n.text == reply.message
    ensures Utf16Length(password) >= MinPasswordLength && reply.AuthThrew? ==> n.text == UnexpectedText
  {
    if Utf16Length(password) < MinPasswordLength then Notice(ShortPasswordText, true)
    else
      match reply
      case AuthFailed(m) => Notice(m, true)
      case AuthData(user) =>
        if user.None? then NoNotice
        else if user.value.emailConfirmed then Notice(CreatedConfirmedText, false)
        else Notice(CreatedCheckEmailText, false)
      case AuthThrew => Notice(UnexpectedText, true)
  }

  // ---------------------------------------------------------------------
  // What the styling as written gets wrong

  /** Wrong credentials are reported in the confirmation style: the
      replacement text has no "error" in it. */
  lemma InvalidCredentialsStyledAsSuccess(m: string)
    requires Contains(m, "Invalid login credentials")
    ensures SignInNotice(AuthFailed(m)).failed
    ensures !StyledAsErrorAsWritten(SignInNotice(AuthFailed(m)).text)
    ensures StyledAsError(SignInNotice(AuthFailed(m)))
  {
    InvalidCredentialsNoError();
  }

  /** So is a refused short password. */
  lemma ShortPasswordStyledAsSuccess(password: string, reply: AuthReply)
    requires Utf16Length(password) < MinPasswordLength
    ensures SignUpNotice(password, reply).failed
    ensures !StyledAsErrorAsWritten(SignUpNotice(password, reply).text)
    ensures StyledAsError(SignUpNotice(password, reply))
  {
    ShortPasswordNoError();
  }

  /** The unexpected-failure text does carry the word and is styled as an error. */
  lemma UnexpectedStyledAsError()
    ensures StyledAsErrorAsWritten(UnexpectedText)
  {
    assert UnexpectedText[14..19] == "error";
    ContainsAt(UnexpectedText, "error", 14);
  }

  lemma InvalidCredentialsNoError()
    ensures !Contains(InvalidCredentialsText, "error") && !Contains(InvalidCredentialsText, "Error")
  {
    var s := InvalidCredentialsText;
    assert forall j :: 0 <= j < |s| - 1 ==> !(s[j] == 'r' && s[j + 1] == 'r');
    assert "error"[1] == 'r' && "error"[2] == 'r' && "Error"[0] == 'E';
    NotContainsPair(s, "error", 1);
    InvalidCredentialsLacksGE();
    NotContainsAbsent(s, "Error", 'E');
  }

  lemma ShortPasswordNoError()
    ensures !Contains(ShortPasswordText, "error") && !Contains(ShortPasswordText, "Error")
  {
    var s := ShortPasswordText;
    assert forall j :: 0 <= j < |s| - 1 ==> !(s[j] == 'r' && s[j + 1] == 'r');
    assert forall j :: 0 <= j < |s| ==> s[j] != 'E';
    assert "error"[1] == 'r' && "error"[2] == 'r' && "Error"[0] == 'E';
    NotContainsPair(s, "error", 1);
    NotContainsAbsent(s, "Error", 'E');
  }

  /** With the corrected styling, a sign-in success is never styled as an
      error, and every reported failure with a text is. */
  lemma SignInStyling(reply: AuthReply)
    ensures reply.AuthData? ==> !StyledAsError(SignInNotice(reply))
    ensures reply.AuthThrew? || (reply.AuthFailed? && reply.message != "") ==>
              StyledAsError(SignInNotice(reply))
  {
    if reply.AuthFailed? {
      assert InvalidCredentialsText[0] == 'I' && ConfirmLinkText[0] == 'P';
    } else if reply.AuthThrew? {
      assert UnexpectedText[0] == 'A';
    }
  }

  /** The same for sign-up, the short-password refusal included. */
  lemma SignUpStyling(password: string, reply: AuthReply)
    ensures Utf16Length(password) >= MinPasswordLength && reply.AuthData? ==>
              !StyledAsError(SignUpNotice(password, reply))
    ensures Utf16Length(password) < MinPasswordLength || reply.AuthThrew?
            || (reply.AuthFailed? && reply.message != "") ==>
              StyledAsError(SignUpNotice(password, reply))
  {
    if Utf16Length(password) < MinPasswordLength {
      assert ShortPasswordText[0] == 'P';
    } else if reply.AuthThrew? {
      assert UnexpectedText[0] == 'A';
    }
  }

  // ---------------------------------------------------------------------
  // The pages

  class SignIn {
    var email: string
    var password: string
    var loading: bool
    var notice: Notice

    constructor()
      ensures email == "" && password == "" && !loading && notice == NoNotice
    {
      email := "";
      password := "";
      loading := false;
      notice := NoNotice;
    }

    /** Whether the message box is shown in the error style, by the
        corrected rule. */
    predicate ShowsError()
      reads this
    {
      StyledAsError(notice)
    }

    /** Whether the page as written shows the message box in the error style. */
    predicate ShowsErrorAsWritten()
      reads this
    {
      StyledAsErrorAsWritten(notice.text)
    }

    /** `handleSignIn` once the service has answered: the message describes
      the answer, loading ends, and the page moves on to the dashboard
      exactly when a user is signed in. */
    method HandleSignIn(reply: AuthReply) returns (redirect: bool)
      modifies this
      ensures !loading && notice == SignInNotice(reply)
      ensures redirect <==> reply.AuthData? && reply.user.Some?
      ensures redirect ==> !ShowsError()
      ensures email == old(email) && password == old(password)
    {
      loading := true;
      notice := NoNotice;
      redirect := false;
      match reply {
        case AuthFailed(m) =>
          notice := Notice(SignInErrorText(m), true);
        case AuthData(user) =>
          if user.Some? {
            notice := Notice(SignedInText, false);
            redirect := true;
          }
        case AuthThrew =>
          notice := Notice(UnexpectedText, true);
      }
      loading := false;
    }

    /** `handleGoogleSignIn`: only a failure changes what is shown. */
    method HandleGoogleSignIn(reply: OAuthReply)
      modifies this
      ensures notice == GoogleNotice(reply, old(notice))
      ensures loading == old(loading) && email == old(email) && password == old(password)
    {
      if reply.OAuthFailed? {
        notice := Notice(reply.message, true);
      } else if reply.OAuthThrew? {
        notice := Notice(GoogleFailedText, true);
      }
    }
  }

  class SignUp {
    var email: string
    var password: string
    var loading: bool
    var notice: Notice

    constructor()
      ensures email == "" && password == "" && !loading && notice == NoNotice
    {
      email := "";
      password := "";
      loading := false;
      notice := NoNotice;
    }

    /** Whether the message box is shown in the error style, by the
        corrected rule. */
    predicate ShowsError()
      reads this
    {
      StyledAsError(notice)
    }

    /** Whether the page as written shows the message box in the error style. */
    predicate ShowsErrorAsWritten()
      reads this
    {
      StyledAsErrorAsWritten(notice.text)
    }

    /** `handleSignUp`: the service is asked only with a long enough password;
      the message describes the outcome and loading ends on every path. */
    method HandleSignUp(reply: AuthReply) returns (requested: bool)
      modifies this
      ensures requested <==> Utf16Length(password) >= MinPasswordLength
      ensures !loading && notice == SignUpNotice(password, reply)
      ensures email == old(email) && password == old(password)
    {
      loading := true;
      notice := NoNotice;
      if Utf16Length(password) < MinPasswordLength {
        notice := Notice(ShortPasswordText, true);
        loading := false;
        return false;
      }
      requested := true;
      match reply {
        case AuthFailed(m) =>
          notice := Notice(m, true);
        case AuthData(user) =>
          if user.Some? {
            notice := if user.value.emailConfirmed then Notice(CreatedConfirmedText, false)
                      else Notice(CreatedCheckEmailText, false);
          }
        case AuthThrew =>
          notice := Notice(UnexpectedText, true);
      }
      loading := false;
    }
  }
}
