/**
 * The public sign-in page (`AuthPage`): the password rule, the register
 * checks and request, and the login request that saves the session.
 */
module AuthPage {
  import opened Common
  import opened Text
  import opened Api

  // ---------------------------------------------------------------------------
  // The password rule `/^(?=.*[A-Z])(?=.*\d).{8,}$/`

  predicate IsUpper(c: char) {
    'A' <= c <= 'Z'
  }

  /** The characters `.` does not match. */
  predicate IsLineBreak(c: char) {
    c == '\n' || c == '\r' || c == '\U{2028}' || c == '\U{2029}'
  }

  /** One pass over the password: whether it has an upper-case letter, a digit, and no line break. */
  datatype Scan = Scan(upper: bool, digit: bool, oneLine: bool)

  function ScanOf(s: string): Scan {
    if s == [] then Scan(false, false, true)
    else
      var rest := ScanOf(s[1..]);
      Scan(rest.upper || IsUpper(s[0]), rest.digit || IsDigit(s[0]), rest.oneLine && !IsLineBreak(s[0]))
  }

  /** Each flag of the scan says what it claims about the whole password. */
  lemma {:induction false} ScanOfSpec(s: string)
    ensures ScanOf(s).upper <==> exists i :: 0 <= i < |s| && IsUpper(s[i])
    ensures ScanOf(s).digit <==> exists i :: 0 <= i < |s| && IsDigit(s[i])
    ensures ScanOf(s).oneLine <==> forall i :: 0 <= i < |s| ==> !IsLineBreak(s[i])
  {
    if s != [] {
      ScanOfSpec(s[1..]);
      assert forall i :: 1 <= i < |s| ==> s[i] == s[1..][i - 1];
      if ScanOf(s[1..]).upper {
        var i :| 0 <= i < |s[1..]| && IsUpper(s[1..][i]);
        assert IsUpper(s[i + 1]);
      }
      if ScanOf(s[1..]).digit {
        var i :| 0 <= i < |s[1..]| && IsDigit(s[1..][i]);
        assert IsDigit(s[i + 1]);
      }
    }
  }

  /** `isPasswordStrong` */
  function IsPasswordStrong(pwd: string): bool {
    var sc := ScanOf(pwd);
    |pwd| >= 8 && sc.upper && sc.digit && sc.oneLine
  }

  /**
   * A strong password has at least eight characters, an upper-case letter
   * `A`-`Z` and a digit, and no line break (the pattern's `.` matches none).
   */
  lemma IsPasswordStrongSpec(pwd: string)
    ensures IsPasswordStrong(pwd) <==>
      && |pwd| >= 8
      && (exists i :: 0 <= i < |pwd| && IsUpper(pwd[i]))
      && (exists i :: 0 <= i < |pwd| && IsDigit(pwd[i]))
      && (forall i :: 0 <= i < |pwd| ==> !IsLineBreak(pwd[i]))
  {
    ScanOfSpec(pwd);
  }

  // ---------------------------------------------------------------------------
  // Register and login

  const StudentDomain := "@std.uwu.ac.lk"
  const StaffDomain := "@uwu.ac.lk"

  /** The register body: the e-mail lower-cased and trimmed, the rest as typed. */
  datatype RegisterBody = RegisterBody(name: string, email: string, password: string, role: Role)

  /**
   * `handleRegister`'s checks, in order: every field filled, a university
   * address (checked on the address as typed), a strong password, and the
   * confirmation equal to it.
   */
  function RegisterCheck(name: string, email: string, password: string, confirm: string, role: Role): (r: Result<RegisterBody>)
    ensures r.Ok? <==>
      && name != "" && email != "" && password != "" && confirm != ""
      && (EndsWith(email, StudentDomain) || EndsWith(email, StaffDomain))
      && IsPasswordStrong(password) && password == confirm
    ensures r.Ok? ==> r.value == RegisterBody(name, Trim(ToLower(email)), password, role)
    ensures (name == "" || email == "" || password == "" || confirm == "") ==> r == Err("All fields are required.")
    ensures (&& name != "" && email != "" && password != "" && confirm != ""
             && !EndsWith(email, StudentDomain) && !EndsWith(email, StaffDomain))
            ==> r == Err("Use a valid university email.")
    ensures (&& name != "" && email != "" && password != "" && confirm != ""
             && (EndsWith(email, StudentDomain) || EndsWith(email, StaffDomain)) && !IsPasswordStrong(password))
            ==> r == Err("Password must be at least 8 characters, include 1 uppercase letter and 1 number.")
    ensures (&& name != "" && email != "" && password != "" && confirm != ""
             && (EndsWith(email, StudentDomain) || EndsWith(email, StaffDomain)) && IsPasswordStrong(password)
             && password != confirm)
            ==> r == Err("Passwords do not match.")
  {
    if name == "" || email == "" || password == "" || confirm == "" then Err("All fields are required.")
    else if !EndsWith(email, StudentDomain) && !EndsWith(email, StaffDomain) then Err("Use a valid university email.")
    else if !IsPasswordStrong(password) then
      Err("Password must be at least 8 characters, include 1 uppercase letter and 1 number.")
    else if password != confirm then Err("Passwords do not match.")
    else Ok(RegisterBody(name, Trim(ToLower(email)), password, role))
  }

  /** `handleLogin`'s check. */
  function LoginCheck(email: string, password: string): (r: Result<()>)
    ensures r.Ok? <==> email != "" && password != ""
    ensures r.Err? ==> r.message == "Email and password are required."
  {
    if email == "" || password == "" then Err("Email and password are required.") else Ok(())
  }

  /**
   * The message `postJSON` and the handler's `catch` give when no usable
   * answer came back: a request that threw gives its message; a status that
   * is not ok gives the server's message or `HTTP n`; an ok body that is not
   * JSON makes reading `success` throw `typeError`. An empty message falls
   * back to "Server error. Please try again.".
   */
  function PostFailure<T>(reply: Reply<T>, typeError: string): (m: string)
    requires !(reply.Json? && reply.ok)
    ensures m != ""
  {
    var thrown :=
      match reply
      case NetworkError(e) => e
      case NotJson(ok, status, _) => if !ok then "HTTP " + IntToString(status) else typeError
      case Json(_, status, _, message, _) => if message != "" then message else "HTTP " + IntToString(status);
    if thrown != "" then thrown else "Server error. Please try again."
  }

  /** What a login answer carries: the token ('' when missing) and the user, if sent. */
  datatype Session = Session(token: string, user: Option<AuthUser>)

  datatype Mode = LoginMode | RegisterMode

  datatype Request = RegisterReq(body: RegisterBody) | LoginReq(email: string, password: string, remember: bool)

  class AuthForm {
    var mode: Mode
    var email: string
    var password: string
    var name: string
    var confirmPassword: string
    var role: Role
    var remember: bool
    var message: string
    var sent: seq<Request>

    constructor()
      ensures mode == RegisterMode && email == "" && password == "" && name == "" && confirmPassword == ""
      ensures role == Member && remember && message == "" && sent == []
    {
      mode := RegisterMode;
      email := "";
      password := "";
      name := "";
      confirmPassword := "";
      role := Member;
      remember := true;
      message := "";
      sent := [];
    }

    /**
     * `handleRegister`: a failed check shows its message and sends nothing.
     * A registration clears the name, both passwords and the role (the
     * e-mail stays) and switches to login.
     */
    method Register(reply: Reply<()>, typeError: string)
      modifies this
      ensures RegisterCheck(old(name), old(email), old(password), old(confirmPassword), old(role)).Err? ==>
        && message == RegisterCheck(old(name), old(email), old(password), old(confirmPassword), old(role)).message
        && sent == old(sent) && mode == old(mode) && name == old(name) && password == old(password)
        && confirmPassword == old(confirmPassword) && role == old(role)
      ensures RegisterCheck(old(name), old(email), old(password), old(confirmPassword), old(role)).Ok? ==>
        RegisterEffect(RegisterCheck(old(name), old(email), old(password), old(confirmPassword), old(role)).value,
                       reply, typeError, old(sent), old(mode), old(name), old(password), old(confirmPassword), old(role),
                       sent, mode, name, password, confirmPassword, role, message)
      ensures email == old(email) && remember == old(remember)
    {
      ApplyRegister(RegisterCheck(name, email, password, confirmPassword, role), reply, typeError);
    }

    /** The effect of `handleRegister` once its checks have decided. */
    method ApplyRegister(check: Result<RegisterBody>, reply: Reply<()>, typeError: string)
      modifies this
      ensures check.Err? ==>
        && message == check.message && sent == old(sent) && mode == old(mode) && name == old(name)
        && password == old(password) && confirmPassword == old(confirmPassword) && role == old(role)
      ensures check.Ok? ==>
        RegisterEffect(check.value, reply, typeError, old(sent), old(mode), old(name), old(password), old(confirmPassword),
                       old(role), sent, mode, name, password, confirmPassword, role, message)
      ensures email == old(email) && remember == old(remember)
    {
      if check.Err? {
        message := check.message;
        return;
      }
      SendRegister(check.value, reply, typeError);
    }

    /** The register request once the checks have passed. */
    method SendRegister(body: RegisterBody, reply: Reply<()>, typeError: string)
      modifies this
      ensures RegisterEffect(body, reply, typeError, old(sent), old(mode), old(name), old(password), old(confirmPassword), old(role),
                             sent, mode, name, password, confirmPassword, role, message)
      ensures email == old(email) && remember == old(remember)
    {
      sent := sent + [RegisterReq(body)];
      if !(reply.Json? && reply.ok) {
        message := PostFailure(reply, typeError);
      } else if reply.success {
        message := "Registration successful! Please login.";
        name := "";
        password := "";
        confirmPassword := "";
        role := Member;
        mode := LoginMode;
      } else {
        message := reply.MessageOr("Registration failed.");
      }
    }

    /**
     * `handleLogin`: without an e-mail and a password nothing is sent. A
     * success carrying a token and a user is saved to the store `remember`
     * selects; otherwise the message says why.
     */
    method Login(reply: Reply<Session>, typeError: string, store: Storage, stringify: AuthUser -> string)
      modifies this, store
      ensures LoginCheck(old(email), old(password)).Err? ==>
        && message == LoginCheck(old(email), old(password)).message && sent == old(sent)
        && store.local == old(store.local) && store.session == old(store.session)
      ensures LoginCheck(old(email), old(password)).Ok? ==>
        sent == old(sent) + [LoginReq(Trim(ToLower(old(email))), old(password), old(remember))]
      ensures LoginCheck(old(email), old(password)).Ok? && LoggedIn(reply) ==>
        && message == "Login successful!"
        && (old(remember) ==> store.local == old(store.local)[TokenKey := reply.payload.value.token]
                                  [UserKey := stringify(reply.payload.value.user.value)]
                              && store.session == old(store.session))
        && (!old(remember) ==> store.session == old(store.session)[TokenKey := reply.payload.value.token]
                                   [UserKey := stringify(reply.payload.value.user.value)]
                               && store.local == old(store.local))
      ensures LoginCheck(old(email), old(password)).Ok? && !LoggedIn(reply) ==>
        && store.local == old(store.local) && store.session == old(store.session)
        && message == (if reply.Json? && reply.ok then reply.MessageOr("Login failed.") else PostFailure(reply, typeError))
      ensures mode == old(mode) && email == old(email) && password == old(password) && remember == old(remember)
      ensures name == old(name) && confirmPassword == old(confirmPassword) && role == old(role)
    {
      var check := LoginCheck(email, password);
      if check.Err? {
        message := check.message;
        return;
      }
      sent := sent + [LoginReq(Trim(ToLower(email)), password, remember)];
      if !(reply.Json? && reply.ok) {
        message := PostFailure(reply, typeError);
      } else if LoggedIn(reply) {
        store.SaveAuth(Auth(reply.payload.value.token, reply.payload.value.user.value), remember, stringify);
        message := "Login successful!";
      } else {
        message := reply.MessageOr("Login failed.");
      }
    }
  }

  /** `res.success && res.token && res.user` on an ok JSON answer. */
  predicate LoggedIn(reply: Reply<Session>) {
    && reply.Json? && reply.ok && reply.success && reply.payload.Some?
    && reply.payload.value.token != "" && reply.payload.value.user.Some?
  }

  /** The whole effect of a register request that passed the checks. */
  ghost predicate RegisterEffect(
    body: RegisterBody, reply: Reply<()>, typeError: string,
    sent0: seq<Request>, mode0: Mode, name0: string, password0: string, confirm0: string, role0: Role,
    sent: seq<Request>, mode: Mode, name: string, password: string, confirm: string, role: Role, message: string)
  {
    && sent == sent0 + [RegisterReq(body)]
    && (reply.Json? && reply.ok && reply.success ==>
          && message == "Registration successful! Please login."
          && name == "" && password == "" && confirm == "" && role == Member && mode == LoginMode)
    && (!(reply.Json? && reply.ok && reply.success) ==>
          && name == name0 && password == password0 && confirm == confirm0 && role == role0 && mode == mode0
          && message == (if reply.Json? && reply.ok then reply.MessageOr("Registration failed.") else PostFailure(reply, typeError)))
  }

  /** After a login the stored session reads back as the one the server sent, when it was remembered. */
  lemma LoginReadsBack(local: map<string, string>, session: map<string, string>, reply: Reply<Session>,
                       parse: string -> Option<AuthUser>, stringify: AuthUser -> string)
    requires LoggedIn(reply)
    requires stringify(reply.payload.value.user.value) != ""
    requires parse(stringify(reply.payload.value.user.value)) == Some(reply.payload.value.user.value)
    ensures GetAuth(local[TokenKey := reply.payload.value.token][UserKey := stringify(reply.payload.value.user.value)], session, parse)
            == Some(Auth(reply.payload.value.token, reply.payload.value.user.value))
  {
    SavedAuthReadsBack(local, session, Auth(reply.payload.value.token, reply.payload.value.user.value), parse, stringify);
  }
}
