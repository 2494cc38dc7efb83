/** The identity data shared by the session store and the route guards. */
module AuthTypes {
  import opened Wrappers

  /** `UserRole`: 'user' | 'admin'. */
  datatype Role = UserRole | AdminRole

  datatype User = User(
    id: string,
    email: string,
    name: string,
    avatar: Option<string>,
    role: Role,
    createdAt: string,
    updatedAt: string)

  /** `AuthState`: what the session store exposes. `user == None` is JavaScript's `null`. */
  datatype AuthState = AuthState(user: Option<User>, isAuthenticated: bool, isLoading: bool)

  const LoggedOut := AuthState(None, false, false)

  /** The intended link between the two fields: authenticated exactly when a user is present. */
  predicate Consistent(s: AuthState) {
    s.isAuthenticated == s.user.Some?
  }
}
