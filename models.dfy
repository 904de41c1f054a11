/**
 * The entities the backend and the client share: users, messages, HTTP replies and the
 * session cookie, together with the two document collections the controllers read and write.
 */
module Models {
  import opened Wrappers

  type UserId = string
  type SocketId = string
  type MessageId = string

  /** JavaScript truthiness of an optional string: present and not the empty string. */
  predicate Truthy(s: Option<string>)
  {
    s.Some? && s.value != ""
  }

  /** A JSON request body, field name to string value. */
  type Body = map<string, string>

  /** Reading one field of a request body: `req.body.<key>`, undefined when absent. */
  function Field(body: Body, key: string): (r: Option<string>)
    ensures r.Some? <==> key in body
    ensures r.Some? ==> r.value == body[key]
  {
    if key in body then Some(body[key]) else None
  }

  /** A stored user document; `password` holds the bcrypt hash, never the plaintext. */
  datatype User = User(id: UserId, fullname: string, email: string, password: string, profilePic: string)

  /** A user document as sent to clients once the password field is projected away. */
  datatype PublicUser = PublicUser(id: UserId, fullname: string, email: string, profilePic: string)

  function WithoutPassword(u: User): PublicUser
  {
    PublicUser(u.id, u.fullname, u.email, u.profilePic)
  }

  /** A stored chat message; `text` and `image` are optional, `image` is an uploaded URL. */
  datatype Message = Message(
    id: MessageId,
    senderId: UserId,
    receiverId: UserId,
    text: Option<string>,
    image: Option<string>,
    createdAt: int)

  /** The JSON body of a response: 200 with data, or an error status with a `message` field. */
  datatype Reply<+T> = Ok(data: T) | Fail(status: int, message: string)

  const InternalServerError := "Internal Server Error"

  /**
   * A cookie set on the response. `token` is the signed JWT for a user id (the signature
   * itself belongs to the JWT library), or None for the empty string.
   */
  datatype Cookie = Cookie(name: string, token: Option<UserId>, maxAgeMs: int)

  const SessionCookieName := "jwt"
  /** Seven days in milliseconds, the lifetime of a session cookie. */
  const SessionMaxAgeMs := 604800000

  /** `generateToken`: a `jwt` cookie carrying a token signed for `userId`, valid for seven days. */
  function SessionCookie(userId: UserId): (c: Cookie)
    ensures c.name == SessionCookieName && c.token == Some(userId)
    ensures c.maxAgeMs == 7 * 24 * 60 * 60 * 1000
  {
    Cookie(SessionCookieName, Some(userId), SessionMaxAgeMs)
  }

  /** A controller's response: its reply and the cookie it set, if any. */
  datatype Response<+T> = Response(reply: Reply<T>, cookie: Option<Cookie>)

  /** The `users` and `messages` collections of the document store, in insertion order. */
  class Database {
    var users: seq<User>
    var messages: seq<Message>

    constructor (users: seq<User>, messages: seq<Message>)
      ensures this.users == users && this.messages == messages
    {
      this.users := users;
      this.messages := messages;
    }
  }
}
