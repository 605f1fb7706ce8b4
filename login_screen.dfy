/** The login screen: the empty-field guard, sign-in, the profile lookup and
    the move to the feedback list. */
module LoginScreen {
  import opened Wrappers
  import opened Navigation
  import opened AuthContext
  import opened RemoteStore
  import RegisterScreen

  /** Why an attempt ended without a session. */
  datatype LoginError =
    | MissingCredentials        // an empty field; nothing was called
    | ProfileNotFound           // signed in, but `users/{uid}` does not exist
    | LoginFailed(message: string)  // sign-in or the lookup threw

  /** A field is missing when it is the empty string. */
  function CheckCredentials(email: string, password: string): (r: Option<LoginError>)
    ensures r.Some? <==> email == [] || password == []
    ensures r.Some? ==> r.value == MissingCredentials
  {
    if email == [] || password == [] then Some(MissingCredentials) else None
  }

  datatype Field = EmailField | PasswordField

  /** Where the handler is: idle, awaiting sign-in, or awaiting the lookup
      of the signed-in user's document. */
  datatype Phase = Idle | SigningIn | FetchingProfile(uid: string)

  class LoginForm {
    var email: string
    var password: string
    var loading: bool
    var phase: Phase
    /** The (email, password) pairs sent to sign-in, in order. */
    var signInRequests: seq<(string, string)>
    /** The uids whose user document was read, in order. */
    var profileReads: seq<string>

    /** `loading` is raised exactly while a remote call is awaited. */
    ghost predicate Valid()
      reads this
    {
      loading <==> !phase.Idle?
    }

    constructor ()
      ensures Valid()
      ensures email == "" && password == "" && !loading && phase == Idle
      ensures signInRequests == [] && profileReads == []
    {
      email, password, loading, phase := "", "", false, Idle;
      signInRequests, profileReads := [], [];
    }

    /** Typing into a field; the inputs are not editable while loading. */
    method Type(field: Field, text: string)
      requires Valid()
      modifies this
      ensures Valid()
      ensures email == (if !old(loading) && field == EmailField then text else old(email))
      ensures password == (if !old(loading) && field == PasswordField then text else old(password))
      ensures loading == old(loading) && phase == old(phase)
      ensures signInRequests == old(signInRequests) && profileReads == old(profileReads)
    {
      if !loading {
        match field
        case EmailField => email := text;
        case PasswordField => password := text;
      }
    }

    /** Pressing "sign in". Ignored while loading (the button is disabled);
        an empty field is rejected before any call; otherwise sign-in is
        requested. */
    method Press() returns (err: Option<LoginError>)
      requires Valid()
      modifies this
      ensures Valid()
      ensures email == old(email) && password == old(password) && profileReads == old(profileReads)
      ensures old(loading) ==> err == None && loading && phase == old(phase) && signInRequests == old(signInRequests)
      ensures !old(loading) ==> err == CheckCredentials(email, password)
      ensures !old(loading) && err.Some? ==> !loading && phase == Idle && signInRequests == old(signInRequests)
      ensures !old(loading) && err == None ==>
        loading && phase == SigningIn && signInRequests == old(signInRequests) + [(email, password)]
    {
      if loading {
        return None;
      }
      err := CheckCredentials(email, password);
      if err == None {
        loading, phase := true, SigningIn;
        signInRequests := signInRequests + [(email, password)];
      }
    }

    /** Sign-in settled. A thrown error ends the attempt; a credential leads
        to reading `users/{uid}`. */
    method SignInSettled(result: AuthResult) returns (err: Option<LoginError>)
      requires Valid() && phase == SigningIn
      modifies this
      ensures Valid()
      ensures email == old(email) && password == old(password) && signInRequests == old(signInRequests)
      ensures result.AuthFailed? ==>
        err == Some(LoginFailed(result.message)) && !loading && phase == Idle && profileReads == old(profileReads)
      ensures result.Authenticated? ==>
        err == None && loading && phase == FetchingProfile(result.cred.uid) &&
        profileReads == old(profileReads) + [result.cred.uid]
    {
      match result
      case AuthFailed(message) =>
        err := Some(LoginFailed(message));
        loading, phase := false, Idle;
      case Authenticated(cred) =>
        err := None;
        phase := FetchingProfile(cred.uid);
        profileReads := profileReads + [cred.uid];
    }

    /** The profile lookup settled. Only a found document sets the session's
        profile (uid from the credential, the rest from the document) and
        moves to the list; a missing document or a thrown error
        leaves the session and the route alone. `loading` drops on every path. */
    method ProfileFetched(result: FetchResult, session: AuthStore) returns (err: Option<LoginError>, nav: Option<Route>)
      requires Valid() && phase.FetchingProfile?
      modifies this, session
      ensures Valid()
      ensures !loading && phase == Idle
      ensures email == old(email) && password == old(password)
      ensures signInRequests == old(signInRequests) && profileReads == old(profileReads)
      ensures result.DocFound? ==>
        err == None && nav == Step(Login, LoginSucceeded) &&
        session.profile == Some(Profile(old(phase).uid, result.doc.name, result.doc.email, result.doc.accessLevel))
      ensures result.DocMissing? ==>
        err == Some(ProfileNotFound) && nav == None && session.profile == old(session.profile)
      ensures result.FetchFailed? ==>
        err == Some(LoginFailed(result.message)) && nav == None && session.profile == old(session.profile)
    {
      var uid := phase.uid;
      loading, phase := false, Idle;
      match result
      case DocFound(doc) =>
        session.SetProfile(Profile(uid, doc.name, doc.email, doc.accessLevel));
        err, nav := None, Some(List);
      case DocMissing =>
        err, nav := Some(ProfileNotFound), None;
      case FetchFailed(message) =>
        err, nav := Some(LoginFailed(message)), None;
    }
  }

  /** Registering and then signing in with the same credential, the store
      returning the document registration wrote, yields the profile that was
      registered and the feedback list. */
  method RegisterThenSignIn(name: string, email: string, password: string,
                            level: AccessLevel, cred: Credential)
    returns (profile: Option<Profile>, nav: Option<Route>)
    requires name != [] && email != [] && password != []
    ensures profile == Some(Profile(cred.uid, name, cred.email, level))
    ensures nav == Step(Login, LoginSucceeded)
  {
    var register := new RegisterScreen.RegisterForm();
    register.Type(RegisterScreen.NameField, name);
    register.Type(RegisterScreen.EmailField, email);
    register.Type(RegisterScreen.PasswordField, password);
    register.Type(RegisterScreen.ConfirmField, password);
    register.SelectAccessLevel(level);
    var rejected := register.Press();
    var failure := register.AccountCreated(Authenticated(cred));
    var back := register.ProfileWritten(true);
    var written := register.profileWrites[|register.profileWrites| - 1];

    var session := new AuthStore();
    var login := new LoginForm();
    login.Type(EmailField, email);
    login.Type(PasswordField, password);
    var err := login.Press();
    err := login.SignInSettled(Authenticated(cred));
    err, nav := login.ProfileFetched(DocFound(written), session);
    profile := session.profile;
  }
}
