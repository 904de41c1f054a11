# MernChat core in Dafny

This project models the core of MernChat, a two-party real-time chat application, and proves
properties of that model. It covers four parts:

- **Presence registry** (`Backend/src/lib/socket.js`). The server keeps one process-wide
  dictionary, `userSocketMap`, from user id to socket id. The `connection` handler registers
  the handshake's `userId`, last write wins. The `disconnect` handler deletes the key captured
  at connect time. Both then broadcast `getOnlineUser` with the map's key set.
  `getReciverSocketId` reads the map.
- **Message routing** (`Backend/src/controllers/message.controller.js`). It covers the
  contact list, the two-direction conversation filter, and `sendMessage`. `sendMessage`
  stamps the sender from the session, uploads an image if there is one, saves, then emits
  `newMessage` only to the receiver's registered socket. It answers 200 whether or not
  the message was delivered.
- **Account validation** (`Backend/src/controllers/auth.controller.js`). It covers the
  ordered guard clauses of `signup`, `login` and `updateProfile`, and the session cookie
  that these and `logout` set.
- **Client chat state** (`Frontend/src/store/useChatStore.js`). It is the store's fields
  and actions, and the `newMessage` listener. That listener appends only messages from the
  peer it captured when it was registered.

Files: `wrappers.dfy` (Option, Outcome), `models.dfy` (users, messages, replies, cookies,
the document collections), `presence.dfy`, `messages.dfy`, `auth.dfy`, `chat_store.dfy`.

The socket handlers appear twice. `Presence.Step` / `Presence.Run` is a pure transition
function over whole event traces, and the trace lemmas are proved about it.
`Presence.SocketServer` is a class whose methods update `userSocketMap` in place. Its
`Valid()` predicate ties the object to `Run` of its ghost event history. A ghost `emitted`
log records every broadcast and every directed emit. `Valid()` also requires the log's
broadcast payloads to be exactly the broadcasts of that run. So the trace lemmas speak about
the live server object too.

The disconnect handler deletes by user id only. It does not check that the stored socket id
is the disconnecting socket's. So when a user reconnects and the older socket then
disconnects, the newer registration is dropped. The model keeps this behaviour as written
(`OnDisconnect`, `StaleDisconnectDropsNewerSocket`). The registry it produces is
characterised exactly by `OnlineIffRegisteredAndNotCleared`. `GuardedDisconnect` is an
identity-checked variant. The server does not use it; it is there only to show the difference
(`GuardedKeepsNewerSocket`).

Further as-written details the model keeps:
- A handshake `userId` registers only when it is truthy, so the empty string registers
  nothing. Nor does "__proto__": on a plain object, assigning that key calls the prototype
  setter, which ignores a string (`UnregistrableIdsNeverOnline`).
- A socket that connected without a `userId` still deletes a key when it disconnects. JavaScript
  turns the undefined key into the string "undefined" (`DeletedKey`).
- `signup` sets the session cookie before saving. A failed save therefore answers 500 with the
  cookie already set.
- `signup`'s "Invalid user data" branch cannot be reached, because the constructed document is
  always truthy. The model has no such branch.
- `updateProfile` replies with the whole updated document, password hash included.
- `login`'s catch block answers "Internal server Error", spelled differently from the other
  handlers' message.
- The client's `sendMessage` writes back the history it read before its request. A message the
  listener appends while the request is in flight is lost (`SendRacesWithListener`).

Foreign calls are parameters of the operations that use them. These are password hashing and
comparison, token signing, the media upload, the document store's generated ids, and every
network result the client receives. An `Outcome` value stands for a call that may throw.

## Model

| member | source | states |
|---|---|---|
| `Presence.Step` | Backend/src/lib/socket.js:24-47 | each connect or disconnect appends exactly one broadcast whose payload is the registry's key set after the update. A registering connect maps its user to the new socket, and a disconnect removes the captured key. Every other entry keeps its socket and no other key appears. A connect records the socket's captured user id; a disconnect forgets its socket |
| `Presence.HandlersAreCaptured` | Backend/src/lib/socket.js:28-43 | the user id a live socket's disconnect handler holds is the one its own connect event carried |
| `Presence.UnregistrableIdsNeverOnline` | Backend/src/lib/socket.js:30-31 | on every admissible trace neither the empty user id (falsy) nor "__proto__" (absorbed by the prototype setter) is ever a key of the registry |
| `Presence.OnlineIffRegisteredAndNotCleared` | Backend/src/lib/socket.js:28-43 | a user is in the registry iff some connect registered them and no later disconnect (of any socket whose captured key is that user) deleted the key |
| `Presence.OneBroadcastPerEvent` | Backend/src/lib/socket.js:35-46 | after n events exactly n broadcasts were sent, the i-th carrying the key set right after event i |
| `Presence.StaleDisconnectDropsNewerSocket` | Backend/src/lib/socket.js:31-43 | connect(u,s1), connect(u,s2), disconnect(s1) leaves u absent although s2 is still connected |
| `Presence.GuardedDisconnect` | Backend/src/lib/socket.js:43 | the identity-checked alternative removes the captured key when it still points at the disconnecting socket. It keeps every entry pointing elsewhere, adds no key, and broadcasts the new key set once |
| `Presence.GuardedAgreesUnlessStale` | Backend/src/lib/socket.js:43 | when the captured key is absent or still points at the disconnecting socket, the identity-checked handler gives exactly the server's result, so the check changes only the stale case |
| `Presence.GuardedKeepsNewerSocket` | Backend/src/lib/socket.js:43 | with the identity check, the same stale disconnect leaves u registered on s2 |
| `Presence.SocketServer.constructor` | Backend/src/lib/socket.js:21 | the registry starts empty: nobody is online and nothing has been emitted |
| `Presence.SocketServer.OnConnect` | Backend/src/lib/socket.js:24-35 | a truthy userId other than "__proto__" maps to this socket, overwriting that user's earlier socket, and other entries are unchanged. No userId, an empty one or "__proto__" leaves the map unchanged. One broadcast of the new key set is sent either way |
| `Presence.SocketServer.OnDisconnect` | Backend/src/lib/socket.js:39-47 | removes exactly the key captured at connect time and no other, then broadcasts the new key set |
| `Presence.SocketServer.GetReceiverSocketId` | Backend/src/lib/socket.js:16-18 | returns the stored socket id for a present user and absent otherwise, without changing anything; present iff the event history left the user registered |
| `Presence.SocketServer.EmitTo` | Backend/src/controllers/message.controller.js:69 | a directed emit adds one entry for that socket to the emission log and changes no registry state |
| `Models.SessionCookie` | Backend/src/lib/utils.js:6-15 | the session cookie is named jwt, carries a token for the user and lives seven days |
| `MessageController.UsersForSidebar` | Backend/src/controllers/message.controller.js:10-12 | every stored user except the logged-in one appears, with the password stripped, and nothing else does |
| `MessageController.GetUsersForSidebar` | Backend/src/controllers/message.controller.js:6-19 | 200 with the contact list when the query succeeds, 500 Internal Server Error when it throws |
| `MessageController.Conversation` | Backend/src/controllers/message.controller.js:26-33 | a message is in the result iff it is stored and goes from me to other or from other to me |
| `MessageController.ConversationSymmetric` | Backend/src/controllers/message.controller.js:27-30 | swapping the two ids yields the same messages in the same order |
| `MessageController.ConversationOfAppend` | Backend/src/controllers/message.controller.js:26-33 | the history keeps store order: storing one more message extends it by that message exactly when it belongs to the pair |
| `MessageController.GetMessages` | Backend/src/controllers/message.controller.js:21-39 | 200 with the conversation when the query succeeds, 500 when it throws |
| `MessageController.SendMessage` | Backend/src/controllers/message.controller.js:41-81 | sender from the session and receiver from the route, never from the body; upload iff the body has a truthy image and image is its URL, else absent; saved before any emit; newMessage emitted at most once, only to the registered socket, with the saved record; 200 with that record whether delivered or not; a throwing upload or save answers 500 with nothing stored or emitted |
| `MessageController.SendToOnlineUser` | Backend/src/controllers/message.controller.js:61-76 | two connected users both appear in the broadcast; the receiver's socket gets exactly one newMessage with the stored record, which is also the sender's 200 reply |
| `MessageController.SendToOfflineUser` | Backend/src/controllers/message.controller.js:63-76 | a message to a user who never connected is stored and answered 200, and no newMessage is emitted |
| `AuthController.FirstIndex` | Backend/src/controllers/auth.controller.js:20 | findOne yields the first stored user matching the filter, or nothing when none matches |
| `AuthController.SignupRejection` | Backend/src/controllers/auth.controller.js:10-23 | 400 All feilds are required when any field is missing or empty, before any other check; then 400 when the password is shorter than six; then 400 when the email exists; passes iff all three hold |
| `AuthController.SixCharacterPasswordAccepted` | Backend/src/controllers/auth.controller.js:14-18 | a password of exactly six characters passes the length check |
| `AuthController.Signup` | Backend/src/controllers/auth.controller.js:6-61 | a rejection adds no user; on success exactly one user is appended holding the hash, and the reply holds id, fullname, email and profilePic but no password, with the session cookie; a failed save answers 500 but the cookie is already set |
| `AuthController.Login` | Backend/src/controllers/auth.controller.js:63-90 | a session cookie and the public fields only when the email is known and the password matches; otherwise 400 Invalid Credentials and no cookie; 500 when the store throws |
| `AuthController.LoginFailuresIndistinguishable` | Backend/src/controllers/auth.controller.js:66-76 | an unknown email and a wrong password give the identical response |
| `AuthController.Logout` | Backend/src/controllers/auth.controller.js:92-100 | answers 200 and sets the jwt cookie to empty with maxAge 0 |
| `AuthController.LogoutClearsSessionCookie` | Backend/src/controllers/auth.controller.js:94 | logout's cookie has the session cookie's name, so it replaces the token signup and login set |
| `AuthController.UpdateProfile` | Backend/src/controllers/auth.controller.js:102-123 | without a truthy profilePic, 400 and nothing changes; a throwing upload, 500 and nothing changes; otherwise only that user's profilePic becomes the URL and the updated document is the reply, null when the user is not stored |
| `AuthController.ProfileUpdateTouchesOnlyPicture` | Backend/src/controllers/auth.controller.js:111-115 | the update keeps every other user and every other field of the updated user |
| `ChatClient.CountMatchingZeroIff` | Frontend/src/store/useChatStore.js:67-74 | no listener fires for a sender none of them captured, and at least one fires for a sender one did |
| `ChatClient.ChatStore.constructor` | Frontend/src/store/useChatStore.js:7-11 | messages and users empty, no selected user, both loading flags false |
| `ChatClient.ChatStore.GetUsers` | Frontend/src/store/useChatStore.js:13-23 | users replaced on success, unchanged on failure; the loading flag ends false either way; nothing else changes |
| `ChatClient.ChatStore.GetMessages` | Frontend/src/store/useChatStore.js:25-35 | messages replaced on success, unchanged on failure; the loading flag ends false either way; nothing else changes |
| `ChatClient.ChatStore.BeginSendMessage` | Frontend/src/store/useChatStore.js:37-43 | with no selected user it throws and nothing changes; otherwise it reads the peer's id and the current messages |
| `ChatClient.ChatStore.FinishSendMessage` | Frontend/src/store/useChatStore.js:45-56 | on success messages becomes the list read before the request plus the returned record; on failure messages is unchanged and the error is rethrown |
| `ChatClient.ChatStore.SubscribeToMessages` | Frontend/src/store/useChatStore.js:59-76 | with a selected user, one listener capturing that user's id is added; without one, nothing is registered |
| `ChatClient.ChatStore.UnsubscribeFromMessages` | Frontend/src/store/useChatStore.js:78-82 | every newMessage listener is removed |
| `ChatClient.ChatStore.RunListener` | Frontend/src/store/useChatStore.js:67-75 | the listener appends the message iff its senderId equals the captured peer id, otherwise changes nothing |
| `ChatClient.ChatStore.ReceiveNewMessage` | Frontend/src/store/useChatStore.js:67-75 | an incoming message is appended once per registered listener that captured its sender |
| `ChatClient.ChatStore.SetSelectedUser` | Frontend/src/store/useChatStore.js:84 | only selectedUser changes |
| `ChatClient.SendRacesWithListener` | Frontend/src/store/useChatStore.js:38-74 | a peer message appended while a send is in flight is gone once the send completes |

## Left out

- Socket.IO transport, the HTTP server and CORS setup are left out. Every emit is an entry in the
  ghost `emitted` log of `SocketServer`. Delivery failures of the transport are not modelled.
- `OnConnect`: the broadcast payload is modelled as a set. `Object.keys` order and the
  JavaScript array are not modelled.
- `OnConnect`: a `userId` query parameter given more than once arrives as an array. That case is
  not modelled; the parameter is an optional string.
- `GetReceiverSocketId`: `userSocketMap` is a plain object, so a user id naming an
  `Object.prototype` property reads an inherited value. The model uses a map with no such keys.
- Async interleaving is left out. Each server handler is one atomic step. Only the client's
  `sendMessage` is split at its await, to show the lost update.
- bcrypt, JWT and the cookie's `httpOnly`, `sameSite` and `secure` flags are not modelled. Hash
  results and password comparison are parameters; a token is represented by the user id it
  was signed for.
- Cloudinary is not modelled. The upload's URL, or its throw, is a parameter.
- Mongoose is not modelled. Collections are sequences and generated ids are parameters. Ids,
  and the filters over them, are strings; ObjectId casting is not modelled.
- `GetUsersForSidebar`: the projected user keeps id, fullname, email and profilePic. Schema
  fields the user model file would add (timestamps) are not modelled, because
  user.model.js is not part of this model.
- `Signup`: a new user's `profilePic` is taken to be the empty string. The schema default is in
  user.model.js, which is not part of this model.
- `SignupRejection`: password length counts Dafny characters. JavaScript's `.length` counts
  UTF-16 code units, so the two differ above the Basic Multilingual Plane.
- `Signup`: `genSalt` and `hash` failing are one `hash` outcome. A throw from `findOne` is not
  modelled.
- `Login`: a body without email or password is not modelled. What the store's query and bcrypt
  do with an undefined argument belongs to those libraries. A throw from bcrypt's compare is
  not modelled either.
- `UpdateProfile`: a throw from `findByIdAndUpdate` itself is not modelled. It would answer 500
  like an upload failure.
- Request bodies are maps from field name to string. Non-string JSON values are not modelled.
- `checkAuth` and the route guard that sets `req.user` are left out; `checkAuth` only echoes the
  session user. The session's user id is a parameter.
- `unSubscribeFromMessages` and `subscribeToMessages` use the socket from the auth store. A
  missing socket, toasts and the auth store itself (it mirrors `getOnlineUser` into
  `onlineUsers`) are left out.
- Rendering and routing components, and the axios configuration, are left out.
