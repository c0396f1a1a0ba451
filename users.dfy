/** The signed-in user as the screen keeps it, and the two provider records
    it is projected from (App.tsx:64-68, 110-118, 152-160). */
module Users {

  /** A JavaScript `string | null | undefined`. */
  datatype Nullable = Undefined | Null | Str(value: string)

  /** The screen's own `User` record: three display fields and nothing else. */
  datatype User = User(displayName: Nullable, email: Nullable, photoURL: Nullable)

  /** The identity provider's user object pushed by the auth-state listener;
      `uid` stands for the fields the screen does not keep. */
  datatype AuthUser = AuthUser(uid: string, displayName: Nullable, email: Nullable, photoURL: Nullable)

  /** The `user` part of a Google sign-in result. */
  datatype GoogleUser = GoogleUser(id: string, name: Nullable, email: Nullable, photo: Nullable)

  /** The projection the auth-state listener stores (App.tsx:112-116). */
  function FromAuthUser(u: AuthUser): User
  {
    User(u.displayName, u.email, u.photoURL)
  }

  /** The projection the Google sign-in handler stores (App.tsx:155-159). */
  function FromGoogleUser(g: GoogleUser): User
  {
    User(g.name, g.email, g.photo)
  }
}
