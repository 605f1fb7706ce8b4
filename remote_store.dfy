/** What the screens exchange with the remote authentication service and the
    `users` collection. The calls themselves are not modelled: each screen
    receives their outcomes as parameters. */
module RemoteStore {
  import opened AuthContext

  /** The user part of a credential returned by sign-up or sign-in. */
  datatype Credential = Credential(uid: string, email: string)

  /** Outcome of `createUserWithEmailAndPassword` / `signInWithEmailAndPassword`. */
  datatype AuthResult = Authenticated(cred: Credential) | AuthFailed(message: string)

  /** A document of the `users` collection, keyed by uid. Its `createdAt`
      field is a server timestamp and carries no client-side value. */
  datatype UserDoc = UserDoc(uid: string, name: string, email: string, accessLevel: AccessLevel)

  /** Outcome of reading `users/{uid}`. */
  datatype FetchResult = DocFound(doc: UserDoc) | DocMissing | FetchFailed(message: string)
}
