/** The `auth` Redux slice: the signed-in user, the bearer token, and the
    request lifecycle flags shared by `login` and `register`. */
module AuthSlice {
  import opened Common

  datatype User = User(id: string, email: string, createdAt: string, updatedAt: string)

  /** The payload of `setCredentials` and of both thunks' fulfilled case. */
  datatype Credentials = Credentials(user: User, token: string)

  /** The session is signed in exactly when a user and a token are both
      held. */
  predicate SignedIn(user: Option<User>, token: Option<string>)
  {
    user.Some? && token.Some?
  }

  class AuthState {
    var user: Option<User>
    var token: Option<string>
    var isLoading: bool
    var error: Option<string>

    /** `initialState`. */
    constructor ()
      ensures user == None && token == None && !isLoading && error == None
      ensures !SignedIn(user, token)
    {
      user := None;
      token := None;
      isLoading := false;
      error := None;
    }

    /** Signs out; the lifecycle flags are left as they were. */
    method Logout()
      modifies this
      ensures user == None && token == None && !SignedIn(user, token)
      ensures isLoading == old(isLoading) && error == old(error)
    {
      user := None;
      token := None;
    }

    method SetCredentials(payload: Credentials)
      modifies this
      ensures user == Some(payload.user) && token == Some(payload.token) && SignedIn(user, token)
      ensures isLoading == old(isLoading) && error == old(error)
    {
      user := Some(payload.user);
      token := Some(payload.token);
    }

    /** `login.pending` and `register.pending`. */
    method Pending()
      modifies this
      ensures isLoading && error == None
      ensures user == old(user) && token == old(token)
    {
      isLoading := true;
      error := None;
    }

    /** `login.fulfilled` and `register.fulfilled`. */
    method Fulfilled(payload: Credentials)
      modifies this
      ensures !isLoading && user == Some(payload.user) && token == Some(payload.token)
      ensures SignedIn(user, token) && error == old(error)
    {
      isLoading := false;
      user := Some(payload.user);
      token := Some(payload.token);
    }

    /** `login.rejected` and `register.rejected`: a failed attempt does not
        sign out a session already held. */
    method Rejected(payload: string)
      modifies this
      ensures !isLoading && error == Some(payload)
      ensures user == old(user) && token == old(token)
      ensures SignedIn(user, token) == SignedIn(old(user), old(token))
    {
      isLoading := false;
      error := Some(payload);
    }
  }
}
