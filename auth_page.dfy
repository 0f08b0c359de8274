/**
 * The sign-in/sign-up page (`Auth`): the two submit handlers, the
 * password-length check that runs before sign-up, the messages shown for
 * errors, and the `isLoading` flag set around each handler.
 */
module AuthPage {
  import opened Js
  import opened AuthContext

  /** A toast: its title, its text, and whether it is the destructive variant. */
  datatype Toast = Toast(title: string, description: string, destructive: bool)

  const SignInDefaultError := "Terjadi kesalahan saat login"
  const SignUpDefaultError := "Terjadi kesalahan saat mendaftar"
  /** What the backend says when an e-mail is already taken. */
  const DuplicateMessage := "User already registered"
  const AlreadyRegistered := "Email sudah terdaftar. Silakan gunakan email lain atau login."
  const PasswordTooShort := "Password minimal 6 karakter"

  /** The toasts the handlers show on success. */
  const SignInSucceeded := Toast("Berhasil", "Login berhasil!", false)
  const SignUpSucceeded := Toast("Berhasil!", "Akun berhasil dibuat! Anda sudah bisa login sekarang.", false)

  /** The destructive toast of a failed sign-in, with its text. */
  function SignInFailed(text: string): Toast {
    Toast("Error Login", text, true)
  }

  /** The destructive toast of a refused or failed sign-up, with its text. */
  function SignUpFailed(text: string): Toast {
    Toast("Error", text, true)
  }

  /** The shortest password sign-up accepts, in UTF-16 code units. */
  const MinPasswordLength := 6

  /** `password.length < 6`, where `length` counts UTF-16 code units. */
  predicate TooShort(password: string) {
    Utf16Length(password) < MinPasswordLength
  }

  /**
   * For a password typed from the Basic Multilingual Plane the check is
   * exactly "fewer than six characters".
   */
  lemma BmpPasswordCheck(password: string)
    requires forall i :: 0 <= i < |password| ==> password[i] as int <= 0xFFFF
    ensures TooShort(password) <==> |password| < MinPasswordLength
  {
    Utf16LengthOfBmp(password);
  }

  /** Any password of six or more characters passes the check. */
  lemma LongPasswordsAccepted(password: string)
    requires |password| >= MinPasswordLength
    ensures !TooShort(password)
  {
  }

  /** The text of a sign-in error: its own message, or the default when it has none. */
  function SignInErrorText(error: AuthError): (text: string)
    ensures Truthy(error.message) ==> text == error.message.value
    ensures !Truthy(error.message) ==> text == SignInDefaultError
  {
    OrElse(error.message, SignInDefaultError)
  }

  /**
   * The text of a sign-up error: the fixed "already registered" text when
   * the message contains 'User already registered', otherwise the message,
   * or the default when it has none.
   */
  function SignUpErrorText(error: AuthError): (text: string)
    ensures error.message.Some? && Includes(error.message.value, DuplicateMessage) ==>
      text == AlreadyRegistered
    ensures !(error.message.Some? && Includes(error.message.value, DuplicateMessage)) ==>
      text == OrElse(error.message, SignUpDefaultError)
  {
    if error.message.Some? && Includes(error.message.value, DuplicateMessage)
    then AlreadyRegistered
    else OrElse(error.message, SignUpDefaultError)
  }

  /** The backend's own wording of a duplicate sign-up is always replaced. */
  lemma DuplicateSignUpMapped(prefix: string, suffix: string)
    ensures SignUpErrorText(AuthError(Some(prefix + DuplicateMessage + suffix))) == AlreadyRegistered
  {
    IncludesMiddle(prefix, DuplicateMessage, suffix);
  }

  /** A text contains any text that sits inside it. */
  lemma {:induction false} IncludesMiddle(prefix: string, part: string, suffix: string)
    ensures Includes(prefix + part + suffix, part)
  {
    if prefix == [] {
      assert prefix + part + suffix == part + suffix;
    } else {
      IncludesMiddle(prefix[1..], part, suffix);
      assert (prefix + part + suffix)[1..] == prefix[1..] + part + suffix;
    }
  }

  class AuthPageState {
    var isLoading: bool
    /** Every value `isLoading` has been set to, in order. */
    var loadingWrites: seq<bool>
    var toasts: seq<Toast>
    /** The paths navigated to. */
    var navigations: seq<string>
    /** The selected tab: "signin" or "signup". */
    var tab: string
    /** The requests handed to the authentication context. */
    var signInCalls: seq<SignInRequest>
    var signUpCalls: seq<SignUpRequest>

    constructor ()
      ensures !isLoading && loadingWrites == [] && toasts == [] && navigations == []
      ensures tab == "signin" && signInCalls == [] && signUpCalls == []
    {
      isLoading, loadingWrites, toasts, navigations := false, [], [], [];
      tab, signInCalls, signUpCalls := "signin", [], [];
    }

    /** The tab triggers. */
    method SelectTab(value: string)
      modifies this`tab
      ensures tab == value
    {
      tab := value;
    }

    /**
     * `handleSignIn`: loading while the call is out; on an error its text is
     * shown and nothing is navigated to, on success the page goes to '/'.
     */
    method HandleSignIn(email: string, password: string, reply: ClientReply)
      modifies this`isLoading, this`loadingWrites, this`toasts, this`navigations, this`signInCalls
      ensures loadingWrites == old(loadingWrites) + [true, false] && !isLoading
      ensures signInCalls == old(signInCalls) + [SignInRequest(email, password)]
      ensures var error := SignIn(email, password, reply).1;
        (error.Some? ==>
          toasts == old(toasts) + [SignInFailed(SignInErrorText(error.value))]
          && navigations == old(navigations))
        && (error.None? ==>
          toasts == old(toasts) + [SignInSucceeded]
          && navigations == old(navigations) + ["/"])
    {
      isLoading := true;
      loadingWrites := loadingWrites + [true];
      var (request, error) := SignIn(email, password, reply);
      signInCalls := signInCalls + [request];
      if error.Some? {
        toasts := toasts + [SignInFailed(SignInErrorText(error.value))];
      } else {
        toasts := toasts + [SignInSucceeded];
        navigations := navigations + ["/"];
      }
      isLoading := false;
      loadingWrites := loadingWrites + [false];
    }

    /**
     * `handleSignUp`: a password shorter than six characters is refused
     * before anything is sent; otherwise the request goes out, an error is
     * shown with its mapped text, and success switches to the sign-in tab
     * without navigating.
     */
    method HandleSignUp(email: string, password: string, fullName: string, reply: ClientReply)
      modifies this`isLoading, this`loadingWrites, this`toasts, this`tab, this`signUpCalls
      ensures loadingWrites == old(loadingWrites) + [true, false] && !isLoading
      ensures TooShort(password) ==>
        signUpCalls == old(signUpCalls) && tab == old(tab)
        && toasts == old(toasts) + [SignUpFailed(PasswordTooShort)]
      ensures !TooShort(password) ==>
        signUpCalls == old(signUpCalls) + [SignUpRequest(email, password, fullName)]
      ensures var error := SignUp(email, password, fullName, reply).1;
        !TooShort(password) && error.Some? ==>
          toasts == old(toasts) + [SignUpFailed(SignUpErrorText(error.value))]
          && tab == old(tab)
      ensures !TooShort(password) && reply == Returned(None) ==>
        toasts == old(toasts) + [SignUpSucceeded]
        && tab == "signin"
    {
      isLoading := true;
      loadingWrites := loadingWrites + [true];
      if TooShort(password) {
        toasts := toasts + [SignUpFailed(PasswordTooShort)];
        isLoading := false;
        loadingWrites := loadingWrites + [false];
        return;
      }
      var (request, error) := SignUp(email, password, fullName, reply);
      signUpCalls := signUpCalls + [request];
      if error.Some? {
        toasts := toasts + [SignUpFailed(SignUpErrorText(error.value))];
      } else {
        toasts := toasts + [SignUpSucceeded];
        tab := "signin";
      }
      isLoading := false;
      loadingWrites := loadingWrites + [false];
    }
  }
}
