/**
 * The mock authentication server: a single remembered `currentUser` that the
 * login, register and logout handlers reassign and the `me` handler reads.
 */
module MockAuth {
  import opened Wrappers
  import opened AuthTypes
  import Text

  const Epoch := "2024-01-01T00:00:00Z"
  const AvatarBase := "https://api.dicebear.com/7.x/avataaars/svg?seed="

  const UserEmail := "user@example.com"
  const AdminEmail := "admin@example.com"
  const Password := "password"

  /** The regular test account, also what `me` falls back to. */
  const MockUser := User("1", UserEmail, "Test User", Some(AvatarBase + "user"), UserRole, Epoch, Epoch)
  const MockAdmin := User("2", AdminEmail, "Admin User", Some(AvatarBase + "admin"), AdminRole, Epoch, Epoch)

  const AdminToken := "mock-admin-token"
  const UserToken := "mock-user-token"
  const NewUserToken := "mock-new-user-token"

  /** A JSON reply body. */
  datatype Body =
    | SessionBody(user: User, token: string)
    | UserBody(user: User)
    | MessageBody(message: string)
    | SuccessBody

  datatype Reply = Reply(status: nat, body: Body)

  /** The account and token a login with these credentials opens, checked admin first. */
  function Credentials(email: string, password: string): (r: Option<(User, string)>)
    ensures r.Some? <==> password == Password && (email == AdminEmail || email == UserEmail)
    ensures r.Some? ==> r.value.0.email == email
    ensures r.Some? && email == AdminEmail ==> r.value == (MockAdmin, AdminToken)
    ensures r.Some? && email == UserEmail ==> r.value == (MockUser, UserToken)
  {
    if email == AdminEmail && password == Password then Some((MockAdmin, AdminToken))
    else if email == UserEmail && password == Password then Some((MockUser, UserToken))
    else None
  }

  /**
   * The record `register` creates; `id` stands for `crypto.randomUUID()`, and `created` and `updated`
   * for the two separate reads of the current ISO time, which may differ.
   */
  function NewUser(id: string, email: string, name: string, created: string, updated: string): (u: User)
    ensures u.role == UserRole
    ensures u.email == email && u.name == name
    ensures u.avatar.Some? && Text.StartsWith(u.avatar.value, AvatarBase) && u.avatar.value[|AvatarBase|..] == name
    ensures u.createdAt == created && u.updatedAt == updated
  {
    var avatar := AvatarBase + name;
    assert avatar[..|AvatarBase|] == AvatarBase;
    User(id, email, name, Some(avatar), UserRole, created, updated)
  }

  /** The `me` handler's reply for the remembered user and the `Authorization` header, if any. */
  function MeReply(current: Option<User>, header: Option<string>): (r: Reply)
    ensures r.status == 401 <==> header.None? || !Text.StartsWith(header.value, "Bearer ")
    ensures r.status != 401 ==> r == Reply(200, UserBody(current.GetOr(MockUser)))
  {
    if header.None? || !Text.StartsWith(header.value, "Bearer ") then Reply(401, MessageBody("Unauthorized"))
    else Reply(200, UserBody(current.GetOr(MockUser)))
  }

  /** Any bearer header is accepted, whatever token it carries. */
  lemma BearerAccepted(token: string)
    ensures Text.StartsWith("Bearer " + token, "Bearer ")
  {
    assert ("Bearer " + token)[..7] == "Bearer ";
  }

  /** After a successful login, `me` with a bearer header returns exactly the account that logged in. */
  lemma MeAfterLogin(email: string, password: string, token: string)
    requires Credentials(email, password).Some?
    ensures MeReply(Some(Credentials(email, password).value.0), Some("Bearer " + token))
      == Reply(200, UserBody(Credentials(email, password).value.0))
  {
    BearerAccepted(token);
  }

  /** After a logout, `me` still answers with the default test account rather than 401. */
  lemma MeAfterLogout(token: string)
    ensures MeReply(None, Some("Bearer " + token)) == Reply(200, UserBody(MockUser))
  {
    BearerAccepted(token);
  }

  /** The module-level `currentUser` and the handlers that reassign it. */
  class MockAuthServer {
    var currentUser: Option<User>

    constructor()
      ensures currentUser == None
    {
      currentUser := None;
    }

    /** `POST /api/auth/login`: a known account is remembered; anything else is 401 and changes nothing. */
    method Login(email: string, password: string) returns (reply: Reply)
      modifies this
      ensures Credentials(email, password).Some? ==>
        var (user, token) := Credentials(email, password).value;
        currentUser == Some(user) && reply == Reply(200, SessionBody(user, token))
      ensures Credentials(email, password).None? ==>
        currentUser == old(currentUser) && reply == Reply(401, MessageBody("Invalid credentials"))
    {
      if email == AdminEmail && password == Password {
        currentUser := Some(MockAdmin);
        return Reply(200, SessionBody(MockAdmin, AdminToken));
      }
      if email == UserEmail && password == Password {
        currentUser := Some(MockUser);
        return Reply(200, SessionBody(MockUser, UserToken));
      }
      return Reply(401, MessageBody("Invalid credentials"));
    }

    /** `POST /api/auth/register`: always succeeds with a new regular user, who is remembered. */
    method Register(email: string, password: string, name: string, id: string, created: string, updated: string)
      returns (reply: Reply)
      modifies this
      ensures currentUser == Some(NewUser(id, email, name, created, updated))
      ensures reply == Reply(201, SessionBody(NewUser(id, email, name, created, updated), NewUserToken))
    {
      var user := NewUser(id, email, name, created, updated);
      currentUser := Some(user);
      return Reply(201, SessionBody(user, NewUserToken));
    }

    /** `POST /api/auth/logout`: forget the remembered user. */
    method Logout() returns (reply: Reply)
      modifies this
      ensures currentUser == None
      ensures reply == Reply(200, SuccessBody)
    {
      currentUser := None;
      return Reply(200, SuccessBody);
    }

    /** `GET /api/auth/me`: reads the remembered user and changes nothing. */
    method Me(header: Option<string>) returns (reply: Reply)
      ensures reply == MeReply(currentUser, header)
      ensures reply.status == 401 || reply.status == 200
    {
      if header.None? || !Text.StartsWith(header.value, "Bearer ") {
        return Reply(401, MessageBody("Unauthorized"));
      }
      if currentUser.Some? {
        return Reply(200, UserBody(currentUser.value));
      }
      return Reply(200, UserBody(MockUser));
    }
  }
}
