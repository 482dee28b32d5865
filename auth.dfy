/** The session store (`useAuthStore`): who is signed in, plus the loading and
    error flags, driven by the CSRF handshake and the authentication endpoints.
    Each remote step is an input `Outcome`; the ghost `trace` records which
    remote steps an action performed, in order. */
module Auth {
  import opened Remote

  /** The signed-in user as `GET /api/user` returns it. */
  datatype User = User(id: int, name: string, avatar: Option<string>)

  /** The remote steps the session store performs. */
  datatype Step = CsrfCookie | GetUser | LoginCall | RegisterCall | LogoutCall | UpdateProfileCall | UpdatePasswordCall

  const FetchUserFailed := "Failed to fetch user"
  const LoginFailed := "Login failed"
  const RegistrationFailed := "Registration failed"
  const LogoutFailed := "Logout failed"
  const UpdateProfileFailed := "Failed to update profile"
  const UpdatePasswordFailed := "Failed to update password"

  /** The steps of a sign-in (login or register) that ran: the handshake,
      then the sign-in call if the handshake succeeded, then the user fetch if
      the sign-in call succeeded. */
  function SignInSteps(call: Step, csrf: Outcome<()>, signIn: Outcome<()>): (steps: seq<Step>)
    ensures 1 <= |steps| <= 3 && steps[0] == CsrfCookie
    ensures |steps| >= 2 <==> csrf.Ok?
    ensures |steps| >= 2 ==> steps[1] == call
    ensures |steps| == 3 <==> csrf.Ok? && signIn.Ok?
    ensures |steps| == 3 ==> steps[2] == GetUser
  {
    if csrf.Err? then [CsrfCookie]
    else if signIn.Err? then [CsrfCookie, call]
    else [CsrfCookie, call, GetUser]
  }

  /** The failure that ended a sign-in before the user fetch, if any: the handshake's, else the sign-in call's. */
  function FirstFailure(csrf: Outcome<()>, call: Outcome<()>): (f: Option<Failure>)
    ensures f.None? <==> csrf.Ok? && call.Ok?
    ensures csrf.Err? ==> f == Some(csrf.failure)
    ensures csrf.Ok? && call.Err? ==> f == Some(call.failure)
  {
    if csrf.Err? then Some(csrf.failure)
    else if call.Err? then Some(call.failure)
    else None
  }

  class AuthStore {
    var user: Option<User>
    var loading: bool
    var error: Option<string>
    ghost var trace: seq<Step>

    constructor ()
      ensures user == None && !loading && error == None && trace == []
    {
      user, loading, error := None, false, None;
      trace := [];
    }

    /** `isAuthenticated`: a user object is present. */
    function IsAuthenticated(): (b: bool)
      reads this
      ensures b <==> user.Some?
    {
      user.Some?
    }

    /** `userFullName`: the user's name, or the empty string when signed out. */
    function UserFullName(): (name: string)
      reads this
      ensures user.Some? ==> name == user.value.name
      ensures user.None? ==> name == ""
    {
      if user.Some? then user.value.name else ""
    }

    /** `userAvatar`: the user's avatar, or null when signed out. */
    function UserAvatar(): (avatar: Option<string>)
      reads this
      ensures user.Some? ==> avatar == user.value.avatar
      ensures user.None? ==> avatar == None
    {
      if user.Some? then user.value.avatar else None
    }

    /** `fetchUser`: on success the store holds and returns the fetched user;
        on failure it is signed out, returns null and records the message. */
    method FetchUser(response: Outcome<User>) returns (r: Option<User>)
      modifies this
      ensures trace == old(trace) + [GetUser] && !loading
      ensures response.Ok? ==> user == Some(response.value) && r == user && error == None
      ensures response.Err? ==> user == None && r == None && error == Some(ServerText(response.failure, FetchUserFailed))
      ensures IsAuthenticated() <==> response.Ok?
      ensures !IsAuthenticated() ==> UserFullName() == "" && UserAvatar() == None
    {
      loading := true;
      error := None;
      trace := trace + [GetUser];
      match response {
      case Ok(u) =>
        user := Some(u);
        r := user;
      case Err(f) =>
        error := Some(ServerText(f, FetchUserFailed));
        user := None;
        r := None;
      }
      loading := false;
    }

    /** The shared body of `login` and `register`: the CSRF handshake, the
        sign-in call, then `fetchUser`. A failure of either of the first two
        steps is recorded and null is returned, with the user left as it was. */
    method SignIn(call: Step, fallback: string, csrf: Outcome<()>, signIn: Outcome<()>, fetch: Outcome<User>)
      returns (r: Option<User>)
      modifies this
      ensures trace == old(trace) + SignInSteps(call, csrf, signIn) && !loading
      ensures FirstFailure(csrf, signIn).Some? ==>
                r == None && user == old(user) && error == Some(ServerText(FirstFailure(csrf, signIn).value, fallback))
      ensures FirstFailure(csrf, signIn).None? && fetch.Ok? ==>
                r == Some(fetch.value) && user == r && error == None
      ensures FirstFailure(csrf, signIn).None? && fetch.Err? ==>
                r == None && user == None && error == Some(ServerText(fetch.failure, FetchUserFailed))
    {
      loading := true;
      error := None;
      trace := trace + [CsrfCookie];
      if csrf.Err? {
        error := Some(ServerText(csrf.failure, fallback));
        r := None;
      } else {
        trace := trace + [call];
        if signIn.Err? {
          error := Some(ServerText(signIn.failure, fallback));
          r := None;
        } else {
          r := FetchUser(fetch);
        }
      }
      loading := false;
    }

    /** `login(credentials)` */
    method Login(csrf: Outcome<()>, login: Outcome<()>, fetch: Outcome<User>) returns (r: Option<User>)
      modifies this
      ensures trace == old(trace) + SignInSteps(LoginCall, csrf, login) && !loading
      ensures FirstFailure(csrf, login).Some? ==>
                r == None && user == old(user) && error == Some(ServerText(FirstFailure(csrf, login).value, LoginFailed))
      ensures FirstFailure(csrf, login).None? && fetch.Ok? ==>
                r == Some(fetch.value) && user == r && error == None && IsAuthenticated()
      ensures FirstFailure(csrf, login).None? && fetch.Err? ==>
                r == None && user == None && error == Some(ServerText(fetch.failure, FetchUserFailed))
    {
      r := SignIn(LoginCall, LoginFailed, csrf, login, fetch);
    }

    /** `register(userData)` */
    method Register(csrf: Outcome<()>, register: Outcome<()>, fetch: Outcome<User>) returns (r: Option<User>)
      modifies this
      ensures trace == old(trace) + SignInSteps(RegisterCall, csrf, register) && !loading
      ensures FirstFailure(csrf, register).Some? ==>
                r == None && user == old(user) && error == Some(ServerText(FirstFailure(csrf, register).value, RegistrationFailed))
      ensures FirstFailure(csrf, register).None? && fetch.Ok? ==>
                r == Some(fetch.value) && user == r && error == None && IsAuthenticated()
      ensures FirstFailure(csrf, register).None? && fetch.Err? ==>
                r == None && user == None && error == Some(ServerText(fetch.failure, FetchUserFailed))
    {
      r := SignIn(RegisterCall, RegistrationFailed, csrf, register, fetch);
    }

    /** `logout`: signs out and returns true only when both the handshake and
        the logout call succeed; otherwise records the message, returns false
        and keeps the user. */
    method Logout(csrf: Outcome<()>, logout: Outcome<()>) returns (ok: bool)
      modifies this
      ensures !loading
      ensures trace == old(trace) + if csrf.Ok? then [CsrfCookie, LogoutCall] else [CsrfCookie]
      ensures ok <==> FirstFailure(csrf, logout).None?
      ensures ok ==> user == None && error == None && !IsAuthenticated()
      ensures !ok ==> user == old(user) && error == Some(ServerText(FirstFailure(csrf, logout).value, LogoutFailed))
    {
      loading := true;
      error := None;
      trace := trace + [CsrfCookie];
      if csrf.Err? {
        error := Some(ServerText(csrf.failure, LogoutFailed));
        ok := false;
      } else {
        trace := trace + [LogoutCall];
        if logout.Err? {
          error := Some(ServerText(logout.failure, LogoutFailed));
          ok := false;
        } else {
          user := None;
          ok := true;
        }
      }
      loading := false;
    }

    /** `updateProfile(userData)`: replaces the user with `response.data.user`
        and returns it; on failure records the message, returns null and keeps
        the user. */
    method UpdateProfile(csrf: Outcome<()>, update: Outcome<User>) returns (r: Option<User>)
      modifies this
      ensures !loading
      ensures trace == old(trace) + if csrf.Ok? then [CsrfCookie, UpdateProfileCall] else [CsrfCookie]
      ensures csrf.Ok? && update.Ok? ==> r == Some(update.value) && user == r && error == None
      ensures csrf.Err? ==> r == None && user == old(user) && error == Some(ServerText(csrf.failure, UpdateProfileFailed))
      ensures csrf.Ok? && update.Err? ==>
                r == None && user == old(user) && error == Some(ServerText(update.failure, UpdateProfileFailed))
    {
      loading := true;
      error := None;
      trace := trace + [CsrfCookie];
      if csrf.Err? {
        error := Some(ServerText(csrf.failure, UpdateProfileFailed));
        r := None;
      } else {
        trace := trace + [UpdateProfileCall];
        match update {
        case Ok(u) =>
          user := Some(u);
          r := user;
        case Err(f) =>
          error := Some(ServerText(f, UpdateProfileFailed));
          r := None;
        }
      }
      loading := false;
    }

    /** `updatePassword(passwordData)`: never touches the user; true on
        success, false with the message recorded on failure. */
    method UpdatePassword(csrf: Outcome<()>, update: Outcome<()>) returns (ok: bool)
      modifies this
      ensures !loading && user == old(user)
      ensures trace == old(trace) + if csrf.Ok? then [CsrfCookie, UpdatePasswordCall] else [CsrfCookie]
      ensures ok <==> FirstFailure(csrf, update).None?
      ensures ok ==> error == None
      ensures !ok ==> error == Some(ServerText(FirstFailure(csrf, update).value, UpdatePasswordFailed))
    {
      loading := true;
      error := None;
      trace := trace + [CsrfCookie];
      if csrf.Err? {
        error := Some(ServerText(csrf.failure, UpdatePasswordFailed));
        ok := false;
      } else {
        trace := trace + [UpdatePasswordCall];
        if update.Err? {
          error := Some(ServerText(update.failure, UpdatePasswordFailed));
          ok := false;
        } else {
          ok := true;
        }
      }
      loading := false;
    }
  }
}
