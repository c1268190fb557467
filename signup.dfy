/**
 * The sign-up page's submit handler: three ordered guards on the form, then
 * one call to the auth provider and, when it yields a user, one insert of a
 * profile row with role `user`.
 *
 * The auth provider and the insert are abstracted as the replies they give;
 * what the handler does is returned as an `Outcome`: whether sign-up was
 * called and with what, the profile it asked to insert, the toast it showed
 * and where it navigates.
 */
module Signup {
  import opened Results
  import Schema
  import Integrity

  const FillAllFields: string := "Please fill in all fields"
  const PasswordsDiffer: string := "Passwords do not match"
  const PasswordTooShort: string := "Password must be at least 6 characters"
  const MinPasswordLength: nat := 6

  /**
   * `s.length` in JavaScript counts UTF-16 code units: a character above
   * U+FFFF is a surrogate pair and counts twice.
   */
  function Utf16Length(s: string): (n: nat)
    ensures |s| <= n <= 2 * |s|
    ensures (forall i :: 0 <= i < |s| ==> s[i] as int <= 0xFFFF) ==> n == |s|
  {
    if s == [] then 0
    else Utf16Length(s[..|s| - 1]) + (if s[|s| - 1] as int > 0xFFFF then 2 else 1)
  }

  datatype FormCheck = Proceed | Rejected(message: string)

  /** The guards of `handleSignup`, in order: the first that fails names the error. */
  function CheckForm(email: string, password: string, confirm: string): (r: FormCheck)
    ensures r == Rejected(FillAllFields) <==> email == "" || password == "" || confirm == ""
    ensures r == Rejected(PasswordsDiffer) <==>
      email != "" && password != "" && confirm != "" && password != confirm
    ensures r == Rejected(PasswordTooShort) <==>
      email != "" && password != "" && password == confirm && Utf16Length(password) < MinPasswordLength
    ensures r == Proceed <==>
      email != "" && password != "" && password == confirm && Utf16Length(password) >= MinPasswordLength
    ensures r.Rejected? ==> r.message in {FillAllFields, PasswordsDiffer, PasswordTooShort}
  {
    if email == "" || password == "" || confirm == "" then Rejected(FillAllFields)
    else if password != confirm then Rejected(PasswordsDiffer)
    else if Utf16Length(password) < MinPasswordLength then Rejected(PasswordTooShort)
    else Proceed
  }

  /** The user the auth provider reports; its email may be missing. */
  datatype AuthUser = AuthUser(id: Schema.Uuid, email: Option<string>)

  /** What `supabase.auth.signUp` yields. */
  datatype AuthReply =
    | AuthError(message: string)     // resolved with an error
    | AuthThrew                      // rejected
    | AuthOk(user: Option<AuthUser>) // resolved without error, with or without a user

  /** What the `profiles` insert yields. */
  datatype InsertReply = InsertOk | InsertError(message: string) | InsertThrew

  datatype Credentials = Credentials(email: string, password: string)

  datatype Toast = Toast(title: string, description: string, destructive: bool)

  /** What one submit did. */
  datatype Outcome = Outcome(
    signUp: Option<Credentials>,          // the sign-up call, if made
    profile: Option<Schema.NewProfile>,   // the row it asked to insert, if any
    toast: Option<Toast>,                 // the toast it showed, if any
    redirect: Option<string>)             // where it navigates, if anywhere

  function ErrorToast(message: string): Toast {
    Toast("Error", message, true)
  }

  const UnexpectedError: Toast := ErrorToast("An unexpected error occurred. Please try again.")
  const Created: Toast := Toast("Success", "Account created! Redirecting you...", false)

  /** The toast for an auth error: its message, or a fixed text when the message is empty. */
  function SignupFailed(message: string): (t: Toast)
    ensures t.destructive && t.title == "Signup Failed"
    ensures t.description != ""
    ensures message != "" ==> t.description == message
    ensures message == "" ==> t.description == "Unable to create account"
  {
    Toast("Signup Failed", if message != "" then message else "Unable to create account", true)
  }

  /** The profile row inserted for a new user: its id and email, role `user`, nothing else given. */
  function NewUserProfile(u: AuthUser): (p: Schema.NewProfile)
    ensures p.id == Some(u.id) && p.email == u.email && p.role == Some("user")
    ensures p.username.None? && p.avatar_url.None? && p.created_at.None?
  {
    Schema.NewProfile(Some(u.id), u.email, None, None, Some("user"), None)
  }

  /** `location.state?.from || '/'`. */
  function RedirectTarget(from: Option<string>): (t: string)
    ensures t != ""
    ensures from.Some? && from.value != "" ==> t == from.value
    ensures !(from.Some? && from.value != "") ==> t == "/"
  {
    if from.Some? && from.value != "" then from.value else "/"
  }

  /** `handleSignup`, given what the auth provider and the insert would reply. */
  function HandleSignup(email: string, password: string, confirm: string, from: Option<string>,
                        auth: AuthReply, insert: InsertReply): (r: Outcome)
    ensures r.signUp.Some? <==> CheckForm(email, password, confirm) == Proceed
    ensures r.signUp.Some? ==> r.signUp.value == Credentials(email, password)
    ensures CheckForm(email, password, confirm).Rejected? ==>
      r == Outcome(None, None, Some(ErrorToast(CheckForm(email, password, confirm).message)), None)
    ensures r.profile.Some? <==> r.signUp.Some? && auth.AuthOk? && auth.user.Some?
    ensures r.profile.Some? ==> r.profile.value == NewUserProfile(auth.user.value)
    ensures r.redirect.Some? <==> r.profile.Some? && !insert.InsertThrew?
    ensures r.redirect.Some? ==> r.redirect.value == RedirectTarget(from) && r.toast == Some(Created)
    ensures r.toast.None? <==> r.signUp.Some? && auth == AuthOk(None)
    ensures r.signUp.Some? && auth.AuthError? ==> r.toast == Some(SignupFailed(auth.message))
    ensures r.signUp.Some? && (auth.AuthThrew? || (r.profile.Some? && insert.InsertThrew?)) ==>
      r.toast == Some(UnexpectedError)
  {
    match CheckForm(email, password, confirm)
    case Rejected(message) => Outcome(None, None, Some(ErrorToast(message)), None)
    case Proceed =>
      var call := Some(Credentials(email, password));
      match auth
      case AuthThrew => Outcome(call, None, Some(UnexpectedError), None)
      case AuthError(message) => Outcome(call, None, Some(SignupFailed(message)), None)
      case AuthOk(None) => Outcome(call, None, None, None)
      case AuthOk(Some(user)) =>
        var profile := Some(NewUserProfile(user));
        if insert.InsertThrew? then Outcome(call, profile, Some(UnexpectedError), None)
        else Outcome(call, profile, Some(Created), Some(RedirectTarget(from)))
  }

  /** A rejected form decides the outcome alone: no reply of the auth provider or the insert matters. */
  lemma RejectedFormIgnoresReplies(email: string, password: string, confirm: string, from: Option<string>,
                                   auth1: AuthReply, insert1: InsertReply, auth2: AuthReply, insert2: InsertReply)
    requires CheckForm(email, password, confirm) != Proceed
    ensures HandleSignup(email, password, confirm, from, auth1, insert1) ==
            HandleSignup(email, password, confirm, from, auth2, insert2)
  {
  }

  /** A profile insert that reports an error changes nothing: the sign-up still succeeds. */
  lemma InsertErrorIgnored(email: string, password: string, confirm: string, from: Option<string>,
                           auth: AuthReply, message: string)
    ensures HandleSignup(email, password, confirm, from, auth, InsertError(message)) ==
            HandleSignup(email, password, confirm, from, auth, InsertOk)
  {
  }

  /**
   * The row built from the new user's profile, inserted into a store where
   * the user has no profile yet, has the user's id and email and role `user`.
   * When the id is taken the insert fails with a duplicate key, which the
   * handler reports as an insert error and ignores.
   */
  lemma SignupProfileStored(s: Schema.Store, u: AuthUser, generated: Schema.Uuid, now: Schema.Timestamp)
    requires Schema.Valid(s)
    ensures u.id !in s.profiles ==>
      && Schema.InsertProfile(s, NewUserProfile(u), generated, now).Ok?
      && var t := Schema.InsertProfile(s, NewUserProfile(u), generated, now).value;
      && Schema.Valid(t)
      && u.id in t.profiles
      && t.profiles[u.id] == Schema.Profile(u.id, u.email, None, None, Schema.User, now)
    ensures u.id in s.profiles ==>
      Schema.InsertProfile(s, NewUserProfile(u), generated, now) == Err(Schema.DuplicateKey("profiles"))
  {
    if u.id !in s.profiles {
      Integrity.InsertProfileKeepsValid(s, NewUserProfile(u), generated, now);
    }
  }
}
