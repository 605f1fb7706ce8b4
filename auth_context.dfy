/** The session store: one nullable profile cell shared by every screen. */
module AuthContext {
  import opened Wrappers

  /** The two access levels a profile may carry. */
  datatype AccessLevel = User | Admin

  /** The wire name of an access level, as stored in a user document. */
  function LevelName(level: AccessLevel): (name: string)
    ensures name == "user" <==> level == User
    ensures name == "admin" <==> level == Admin
  {
    match level
    case User => "user"
    case Admin => "admin"
  }

  datatype Profile = Profile(uid: string, name: string, email: string, accessLevel: AccessLevel)

  /** The provider's state: the profile of the signed-in user, if any. */
  class AuthStore {
    var profile: Option<Profile>

    /** The provider mounts with no profile. */
    constructor ()
      ensures profile == None
    {
      profile := None;
    }

    /** Replaces the profile wholesale; nothing of the previous one survives. */
    method SetProfile(p: Profile)
      modifies this
      ensures profile == Some(p)
    {
      profile := Some(p);
    }
  }

  const MissingProviderMessage: string := "useAuth must be used within AuthProvider"

  /** Looking the store up from a component: fails outside a provider. */
  function UseAuth(provider: Option<AuthStore>): (r: Result<AuthStore, string>)
    ensures r.Success? <==> provider.Some?
    ensures r.Success? ==> r.value == provider.value
    ensures r.Failure? ==> r.error == MissingProviderMessage
  {
    match provider
    case Some(store) => Success(store)
    case None => Failure(MissingProviderMessage)
  }
}
