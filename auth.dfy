/**
 * The account controller: the guard clauses of signup, login and profile update, and the
 * session cookie each of them (and logout) sets. Password hashing and comparison, token
 * signing and the media upload are foreign libraries; their results arrive as parameters.
 */
module AuthController {
  import opened Wrappers
  import opened Models

  const AllFieldsRequired := "All feilds are required"
  const PasswordTooShort := "Password must be at least 6 characters"
  const EmailExists := "Email already exists"
  const InvalidCredentials := "Invalid Credentials"
  const ProfilePicRequired := "Profile Pic is required"
  const LoggedOut := "Logged out successfully"
  /** The login handler's catch block spells its message with a lower-case "server". */
  const LoginInternalError := "Internal server Error"
  const MinPasswordLength := 6
  /** The profile picture a freshly constructed user document carries. */
  const DefaultProfilePic := ""

  /** `findOne` / `findById`: the position of the first stored user that `matches`, if any. */
  function FirstIndex(users: seq<User>, matches: User -> bool): (r: Option<nat>)
    ensures r.Some? ==> r.value < |users| && matches(users[r.value])
    ensures r.Some? ==> forall j :: 0 <= j < r.value ==> !matches(users[j])
    ensures r.None? ==> forall u :: u in users ==> !matches(u)
  {
    if users == [] then None
    else if matches(users[0]) then Some(0)
    else match FirstIndex(users[1..], matches)
      case None => None
      case Some(k) => Some(k + 1)
  }

  function IndexOfEmail(users: seq<User>, email: string): Option<nat>
  {
    FirstIndex(users, (u: User) => u.email == email)
  }

  function IndexOfId(users: seq<User>, id: UserId): Option<nat>
  {
    FirstIndex(users, (u: User) => u.id == id)
  }

  // ---------------------------------------------------------------------------
  // signup
  // ---------------------------------------------------------------------------

  /**
   * The guard clauses of `signup`, in order: all three fields truthy, a password of at least
   * six characters, an email no stored user has. The message of the first that fails, or None.
   */
  function SignupRejection(users: seq<User>, fullname: Option<string>, email: Option<string>,
                           password: Option<string>): (r: Option<string>)
    ensures !(Truthy(fullname) && Truthy(email) && Truthy(password)) ==> r == Some(AllFieldsRequired)
    ensures Truthy(fullname) && Truthy(email) && Truthy(password) && |password.value| < MinPasswordLength
            ==> r == Some(PasswordTooShort)
    ensures r.None? <==>
            Truthy(fullname) && Truthy(email) && Truthy(password)
            && |password.value| >= MinPasswordLength
            && forall u :: u in users ==> u.email != email.value
    ensures r == Some(EmailExists) <==>
            Truthy(fullname) && Truthy(email) && Truthy(password)
            && |password.value| >= MinPasswordLength
            && exists u :: u in users && u.email == email.value
  {
    if !Truthy(fullname) || !Truthy(email) || !Truthy(password) then Some(AllFieldsRequired)
    else if |password.value| < MinPasswordLength then Some(PasswordTooShort)
    else if IndexOfEmail(users, email.value).Some? then Some(EmailExists)
    else None
  }

  /** A password of exactly six characters passes the length check. */
  lemma SixCharacterPasswordAccepted(users: seq<User>, fullname: string, email: string, password: string)
    requires fullname != "" && email != "" && |password| == MinPasswordLength
    requires forall u :: u in users ==> u.email != email
    ensures SignupRejection(users, Some(fullname), Some(email), Some(password)) == None
  {
  }

  /**
   * `signup`. `hash` is what bcrypt returns for the password (or a throw), `newId` the id
   * the new document is constructed with, `saved` whether saving it succeeds. The session
   * cookie is set before the save, so a failed save answers 500 with the cookie still set.
   */
  method Signup(db: Database, body: Body, hash: Outcome<string>, newId: UserId, saved: bool)
    returns (resp: Response<PublicUser>)
    modifies db`users
    ensures var rejection := SignupRejection(old(db.users), Field(body, "fullname"), Field(body, "email"),
                                             Field(body, "password"));
            && (rejection.Some? ==> resp == Response(Fail(400, rejection.value), None))
            && (rejection.None? && hash.Threw? ==> resp == Response(Fail(500, InternalServerError), None))
            && (rejection.None? && hash.Done? && !saved ==>
                  resp == Response(Fail(500, InternalServerError), Some(SessionCookie(newId))))
            && (resp.reply.Ok? <==> rejection.None? && hash.Done? && saved)
    ensures resp.reply.Fail? ==> db.users == old(db.users)
    ensures resp.reply.Ok? ==>
              var added := User(newId, Field(body, "fullname").value, Field(body, "email").value,
                                hash.value, DefaultProfilePic);
              && db.users == old(db.users) + [added]
              && resp == Response(Ok(WithoutPassword(added)), Some(SessionCookie(newId)))
  {
    var fullname, email, password := Field(body, "fullname"), Field(body, "email"), Field(body, "password");
    var rejection := SignupRejection(db.users, fullname, email, password);
    if rejection.Some? {
      return Response(Fail(400, rejection.value), None);
    }
    if hash.Threw? {
      return Response(Fail(500, InternalServerError), None);
    }
    var newUser := User(newId, fullname.value, email.value, hash.value, DefaultProfilePic);
    var cookie := SessionCookie(newUser.id);
    if !saved {
      return Response(Fail(500, InternalServerError), Some(cookie));
    }
    db.users := db.users + [newUser];
    resp := Response(Ok(WithoutPassword(newUser)), Some(cookie));
  }

  // ---------------------------------------------------------------------------
  // login and logout
  // ---------------------------------------------------------------------------

  /**
   * `login` against the stored users (or a store that throws, answered 500): the first user
   * with this email, and `passwordMatches` (bcrypt's compare of the plaintext against the
   * stored hash) must accept. Both failures answer the same 400.
   */
  function Login(stored: Outcome<seq<User>>, email: string, password: string,
                 passwordMatches: (string, string) -> bool): (r: Response<PublicUser>)
    ensures stored.Threw? ==> r == Response(Fail(500, LoginInternalError), None)
    ensures stored.Done? ==>
            var users := stored.value;
            r.reply.Ok? <==>
              IndexOfEmail(users, email).Some?
              && passwordMatches(password, users[IndexOfEmail(users, email).value].password)
    ensures stored.Done? && r.reply.Ok? ==>
            var u := stored.value[IndexOfEmail(stored.value, email).value];
            u.email == email && r.reply.data == WithoutPassword(u) && r.cookie == Some(SessionCookie(u.id))
    ensures stored.Done? && r.reply.Fail? ==> r == Response(Fail(400, InvalidCredentials), None)
  {
    match stored
    case Threw => Response(Fail(500, LoginInternalError), None)
    case Done(users) =>
      match IndexOfEmail(users, email)
      case None => Response(Fail(400, InvalidCredentials), None)
      case Some(i) =>
        var user := users[i];
        if !passwordMatches(password, user.password) then Response(Fail(400, InvalidCredentials), None)
        else Response(Ok(WithoutPassword(user)), Some(SessionCookie(user.id)))
  }

  /**
   * An unknown email and a wrong password for a known one give the same response, so a
   * client cannot tell which check failed.
   */
  lemma LoginFailuresIndistinguishable(users: seq<User>, unknown: string, known: string, password: string,
                                       passwordMatches: (string, string) -> bool)
    requires forall u :: u in users ==> u.email != unknown
    requires IndexOfEmail(users, known).Some?
    requires !passwordMatches(password, users[IndexOfEmail(users, known).value].password)
    ensures Login(Done(users), unknown, password, passwordMatches)
            == Login(Done(users), known, password, passwordMatches)
    ensures Login(Done(users), unknown, password, passwordMatches).cookie == None
  {
  }

  /** `logout`: 200, and the `jwt` cookie replaced by an empty one that expires at once. */
  function Logout(): (r: Response<string>)
    ensures r.reply == Ok(LoggedOut)
    ensures r.cookie.Some? && r.cookie.value.name == SessionCookieName
    ensures r.cookie.value.token.None? && r.cookie.value.maxAgeMs == 0
  {
    Response(Ok(LoggedOut), Some(Cookie(SessionCookieName, None, 0)))
  }

  /** Logout overwrites the very cookie signup and login set, dropping its token. */
  lemma LogoutClearsSessionCookie(userId: UserId)
    ensures Logout().cookie.value.name == SessionCookie(userId).name
    ensures SessionCookie(userId).token.Some? && Logout().cookie.value.token.None?
  {
  }

  // ---------------------------------------------------------------------------
  // updateProfile
  // ---------------------------------------------------------------------------

  /**
   * `updateProfile` for the session's user. Without a truthy `profilePic` nothing is uploaded
   * and nothing changes. Otherwise the upload's URL becomes the profile picture of the first
   * user with that id, the only field that changes, and the updated document, password hash
   * included, is the reply; `null` when no such user is stored.
   */
  method UpdateProfile(db: Database, userId: UserId, body: Body, upload: Outcome<string>)
    returns (reply: Reply<Option<User>>, uploaded: bool)
    modifies db`users
    ensures uploaded <==> Truthy(Field(body, "profilePic"))
    ensures !uploaded ==> reply == Fail(400, ProfilePicRequired) && db.users == old(db.users)
    ensures uploaded && upload.Threw? ==> reply == Fail(500, InternalServerError) && db.users == old(db.users)
    ensures uploaded && upload.Done? && IndexOfId(old(db.users), userId).None? ==>
              reply == Ok(None) && db.users == old(db.users)
    ensures uploaded && upload.Done? && IndexOfId(old(db.users), userId).Some? ==>
              var i := IndexOfId(old(db.users), userId).value;
              && db.users == old(db.users)[i := old(db.users)[i].(profilePic := upload.value)]
              && reply == Ok(Some(db.users[i]))
  {
    var profilePic := Field(body, "profilePic");
    uploaded := Truthy(profilePic);
    if !uploaded {
      return Fail(400, ProfilePicRequired), uploaded;
    }
    match upload {
      case Threw =>
        return Fail(500, InternalServerError), uploaded;
      case Done(url) =>
        match IndexOfId(db.users, userId) {
          case None =>
            reply := Ok(None);
          case Some(i) =>
            db.users := db.users[i := db.users[i].(profilePic := url)];
            reply := Ok(Some(db.users[i]));
        }
    }
  }

  /** A profile update changes only the profile picture of the one user it finds. */
  lemma ProfileUpdateTouchesOnlyPicture(users: seq<User>, id: UserId, url: string)
    requires IndexOfId(users, id).Some?
    ensures var i := IndexOfId(users, id).value;
            var updated := users[i := users[i].(profilePic := url)];
            && |updated| == |users|
            && updated[i].id == id
            && updated[i].fullname == users[i].fullname && updated[i].email == users[i].email
            && updated[i].password == users[i].password
            && forall j :: 0 <= j < |users| && j != i ==> updated[j] == users[j]
  {
  }
}
