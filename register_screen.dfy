/** The registration screen: two ordered guards, account creation, the user
    document, and the return to the login screen. */
module RegisterScreen {
  import opened Wrappers
  import opened Navigation
  import opened AuthContext
  import opened RemoteStore

  /** The guard failures, in the order they are checked. */
  datatype RegisterError = MissingFields | PasswordMismatch

  /** A field is missing when it is the empty string. */
  function CheckFields(name: string, email: string, password: string, confirm: string): (r: Option<RegisterError>)
    ensures r == Some(MissingFields) <==> name == [] || email == [] || password == [] || confirm == []
    ensures r == Some(PasswordMismatch) <==>
      name != [] && email != [] && password != [] && confirm != [] && password != confirm
    ensures r == None <==>
      name != [] && email != [] && password != [] && password == confirm
  {
    if name == [] || email == [] || password == [] || confirm == [] then Some(MissingFields)
    else if password != confirm then Some(PasswordMismatch)
    else None
  }

  /** The access levels the picker offers, in its order; their wire names
      are the items' values `'user'` and `'admin'`. */
  function PickerLevels(): (levels: seq<AccessLevel>)
    ensures |levels| == 2 && User in levels && Admin in levels
    ensures LevelName(levels[0]) == "user" && LevelName(levels[1]) == "admin"
  {
    [User, Admin]
  }

  /** The text inputs of the screen. */
  datatype Field = NameField | EmailField | PasswordField | ConfirmField

  /** Where the handler is: idle, awaiting account creation, or awaiting the
      write of the user document. */
  datatype Phase = Idle | CreatingAccount | WritingProfile

  class RegisterForm {
    var name: string
    var email: string
    var password: string
    var confirm: string
    var accessLevel: AccessLevel
    var loading: bool
    var phase: Phase
    /** The (email, password) pairs sent to account creation, in order. */
    var accountRequests: seq<(string, string)>
    /** The user documents written, in order. */
    var profileWrites: seq<UserDoc>

    /** `loading` is raised exactly while a remote call is awaited. */
    ghost predicate Valid()
      reads this
    {
      loading <==> !phase.Idle?
    }

    constructor ()
      ensures Valid()
      ensures name == "" && email == "" && password == "" && confirm == ""
      ensures accessLevel == User && !loading && phase == Idle
      ensures accountRequests == [] && profileWrites == []
    {
      name, email, password, confirm := "", "", "", "";
      accessLevel, loading, phase := User, false, Idle;
      accountRequests, profileWrites := [], [];
    }

    /** Typing into a field; the inputs are not editable while loading. */
    method Type(field: Field, text: string)
      requires Valid()
      modifies this
      ensures Valid()
      ensures old(loading) ==> name == old(name) && email == old(email) &&
                               password == old(password) && confirm == old(confirm)
      ensures !old(loading) ==>
        name == (if field == NameField then text else old(name)) &&
        email == (if field == EmailField then text else old(email)) &&
        password == (if field == PasswordField then text else old(password)) &&
        confirm == (if field == ConfirmField then text else old(confirm))
      ensures accessLevel == old(accessLevel) && loading == old(loading) && phase == old(phase)
      ensures accountRequests == old(accountRequests) && profileWrites == old(profileWrites)
    {
      if !loading {
        match field
        case NameField => name := text;
        case EmailField => email := text;
        case PasswordField => password := text;
        case ConfirmField => confirm := text;
      }
    }

    /** Picking an access level; the picker is disabled while loading. */
    method SelectAccessLevel(level: AccessLevel)
      requires Valid()
      modifies this
      ensures Valid()
      ensures accessLevel == (if old(loading) then old(accessLevel) else level)
      ensures name == old(name) && email == old(email) && password == old(password) && confirm == old(confirm)
      ensures loading == old(loading) && phase == old(phase)
      ensures accountRequests == old(accountRequests) && profileWrites == old(profileWrites)
    {
      if !loading {
        accessLevel := level;
      }
    }

    /** Pressing "register". Ignored while loading (the button is disabled);
        otherwise the guards run and, when both pass, account creation is
        requested. */
    method Press() returns (err: Option<RegisterError>)
      requires Valid()
      modifies this
      ensures Valid()
      ensures name == old(name) && email == old(email) && password == old(password) && confirm == old(confirm)
      ensures accessLevel == old(accessLevel) && profileWrites == old(profileWrites)
      ensures old(loading) ==> err == None && loading && phase == old(phase) && accountRequests == old(accountRequests)
      ensures !old(loading) ==> err == CheckFields(name, email, password, confirm)
      ensures !old(loading) && err.Some? ==> !loading && phase == Idle && accountRequests == old(accountRequests)
      ensures !old(loading) && err == None ==>
        loading && phase == CreatingAccount && accountRequests == old(accountRequests) + [(email, password)]
    {
      if loading {
        return None;
      }
      err := CheckFields(name, email, password, confirm);
      if err == None {
        loading, phase := true, CreatingAccount;
        accountRequests := accountRequests + [(email, password)];
      }
    }

    /** Account creation settled. A failure ends the attempt; a credential
        leads to writing `users/{uid}` with the uid and email of the
        credential and the name and access level of the form. */
    method AccountCreated(result: AuthResult) returns (failure: Option<string>)
      requires Valid() && phase == CreatingAccount
      modifies this
      ensures Valid()
      ensures name == old(name) && email == old(email) && password == old(password) && confirm == old(confirm)
      ensures accessLevel == old(accessLevel) && accountRequests == old(accountRequests)
      ensures result.AuthFailed? ==>
        failure == Some(result.message) && !loading && phase == Idle && profileWrites == old(profileWrites)
      ensures result.Authenticated? ==>
        failure == None && loading && phase == WritingProfile &&
        profileWrites == old(profileWrites) +
          [UserDoc(result.cred.uid, name, result.cred.email, accessLevel)]
    {
      match result
      case AuthFailed(message) =>
        failure := Some(message);
        loading, phase := false, Idle;
      case Authenticated(cred) =>
        failure := None;
        phase := WritingProfile;
        profileWrites := profileWrites + [UserDoc(cred.uid, name, cred.email, accessLevel)];
    }

    /** The user document write settled: `loading` drops, and only a success
        leads back to the login screen. */
    method ProfileWritten(ok: bool) returns (nav: Option<Route>)
      requires Valid() && phase == WritingProfile
      modifies this
      ensures Valid()
      ensures !loading && phase == Idle
      ensures nav == (if ok then Step(Register, RegisterSucceeded) else None)
      ensures name == old(name) && email == old(email) && password == old(password) && confirm == old(confirm)
      ensures accessLevel == old(accessLevel)
      ensures accountRequests == old(accountRequests) && profileWrites == old(profileWrites)
    {
      loading, phase := false, Idle;
      nav := if ok then Some(Login) else None;
    }
  }
}
