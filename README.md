# Live-chat server bookkeeping, modelled in Dafny

This project models the conversation bookkeeping of a live-chat system. Customers open a
conversation from a website widget. Agents log in to a dashboard, claim ("assign")
waiting conversations, chat in them and close them.

The server side is one in-memory state machine, the class `ChatServer.Server`. It holds:

- the conversation store, keyed by `conversationId`;
- the append-only message log;
- the agent table;
- the room-membership relation (`agent_<id>` and `conversation_<id>` rooms, as sets of socket ids);
- the live sockets of the `/agent` and `/customer` namespaces;
- a log of outbound events, each a recipient set and an event kind.

Each Socket.IO handler and each REST handler is one method. Each method states its whole
new state and preserves `Valid()`, which holds:

- every conversation is stored under its own id, has its required paths, and is
  **waiting exactly when it has no owner**;
- every message belongs to a stored conversation, has trimmed non-empty content, and has a
  unique id;
- agents are keyed by id, have a trimmed name and a normalised email, and the email is
  unique;
- each customer socket's conversation exists.

The methods that touch conversations also state `ConversationsEvolve`: nothing is removed,
the customer never changes, and **an owner, once set, is never replaced**.

The record schemas (`Models`), the REST authentication ladder (`AuthMiddleware`), the login
and profile decisions (`AuthRoutes`) and the list and message pagination
(`ConversationRoutes`) are pure functions. The writes of the login, logout and profile routes
are methods of `ChatServer.Server`. The widget's contact-form validator
(`ContactForm`) and the dashboard's gating predicates and day buckets (`ConversationList`)
are modelled too. The form validator and submit-data builder keep their loops. JavaScript
string behaviour the code relies on lives in `Text`:

- `\s` white space and `trim()`;
- ASCII lower-casing;
- `replace` with a string pattern, which cuts only the first occurrence.

JWT signing and verification, bcrypt comparison and hashing, and `uuidv4` are parameters:
a `verify` function, a `matches` function, a `hash` function, and fresh ids under
freshness preconditions. Timestamps are integers in milliseconds.

## Model

| member | source | states |
|---|---|---|
| ChatServer.AdmitAgent | server/src/socket/socketHandler.js:9-28 | a socket is admitted iff its token is present and non-empty, verifies, and names a stored active agent, and the admitted record is that agent; a missing or empty token is refused with "No token provided", a token that does not verify with "Authentication failed", and one naming an unknown or inactive agent with "Invalid token" |
| ChatServer.SocketAndRestAdmitAlike | server/src/socket/socketHandler.js:11-21 | the socket handshake admits token `t` exactly when the REST middleware admits the header `Bearer t` |
| ChatServer.ConversationsEvolveTransitive | server/src/routes/conversations.js:137-145 | the step relation "nothing removed, customer kept, owner never replaced" composes over several steps |
| ChatServer.NamespacedRecipients | server/src/socket/socketHandler.js:92 | an emit to a room as Socket.IO resolves it: exactly the room's members in the emitting namespace, less the excluded sockets |
| ChatServer.RoomRecipients | server/src/socket/socketHandler.js:111 | the intended relay: every room member but the excluded sockets, whichever namespace they live in |
| ChatServer.BroadcastAsWrittenReachesNoOne | server/src/socket/socketHandler.js:92 | when no live socket is in the default namespace, `io.to(room)` as written reaches no one, while the intended broadcast reaches every member |
| ChatServer.RelayAsWrittenStaysInNamespace | server/src/socket/socketHandler.js:250 | `socket.to(room)` as written never reaches a room member of the other namespace, while the intended relay does |
| ChatServer.Server.NewMessageAsWrittenReachesNoOne | server/src/socket/socketHandler.js:92 | on the server's own live sockets, the as-written `io.to` broadcast of any conversation room reaches no one, while the modelled one reaches every member |
| ChatServer.Server.RelayAsWrittenMissesOtherSide | server/src/socket/socketHandler.js:250 | in a valid server, an as-written relay from a customer socket misses every agent socket in the room and one from an agent socket misses every customer socket, while the modelled relay reaches them |
| ChatServer.AppendKeepsMessagesValid | server/src/socket/socketHandler.js:69-80 | appending a valid message of a stored conversation keeps the log valid |
| ChatServer.AppendKeepsIdsDistinct | server/src/socket/socketHandler.js:69-80 | appending a message with a fresh id keeps message ids unique |
| ChatServer.StoreKeepsValid | server/src/socket/socketHandler.js:82-88 | storing a valid conversation that is waiting iff unowned keeps the store, the log and the customer sessions valid |
| ChatServer.DeliveryKeepsStore | server/src/socket/socketHandler.js:69-88 | a saved message plus its conversation's new `lastMessage` keeps the whole store valid |
| ChatServer.BindKeepsSessionsBound | server/src/socket/socketHandler.js:163-202 | binding a customer socket to a stored conversation keeps every session pointing at a stored conversation |
| ChatServer.StoreEvolves | server/src/routes/conversations.js:137-145 | overwriting a conversation that keeps its customer, creation time and owner is an allowed step |
| ChatServer.UpdateKeepsAgentsValid | server/src/routes/auth.js:116-140 | rewriting a stored agent with its id and email kept keeps the agent table valid and emails unique |
| ChatServer.AgentWithEmailFound | server/src/routes/auth.js:21 | with unique emails, the lookup by a stored agent's email finds that agent |
| ChatServer.AgentWithEmailAbsent | server/src/routes/auth.js:21 | when no agent has the email, the lookup finds none |
| ChatServer.Server.constructor | server/src/socket/socketHandler.js:7-32 | an empty store over a valid agent table satisfies the invariant |
| ChatServer.Server.Join | server/src/socket/socketHandler.js:45 | `socket.join` adds the socket to that one room and changes no other room |
| ChatServer.Server.AgentConnect | server/src/socket/socketHandler.js:34-55 | admitted iff `AdmitAgent` succeeds; a refused socket changes nothing; an admitted one is recorded with its agent, the agent becomes online with this socket id and a new `lastSeen`, and the socket joins `agent_<id>` and the rooms of exactly the waiting or active conversations assigned to the agent |
| ChatServer.Server.JoinAll | server/src/socket/socketHandler.js:53-55 | the loop joins the room of every conversation in the set and no other room |
| ChatServer.Server.AgentSendMessage | server/src/socket/socketHandler.js:58-102 | a missing or foreign conversation gets an `error` to the sender only, with no message and no state change; status is not checked; white-space content or a failed save gets the send-failed `error`; otherwise exactly one `agent` message carrying the agent's id, name and avatar is appended, `lastMessage` becomes {content as sent, time, agent}, and `new_message` goes to every room member, the sender included |
| ChatServer.Server.Deliver | server/src/socket/socketHandler.js:69-101 | the shared tail of both sends, as `Delivered` states it: content that trims to "" or a failed save changes no record and sends the send-failed `error` to the sender alone; otherwise exactly the schema's message is appended, that conversation alone gets `lastMessage` {content as sent, time, sender}, and `new_message` goes to every member of its room; the invariant is kept and no conversation loses its customer or owner |
| ChatServer.Server.AgentJoinConversation | server/src/socket/socketHandler.js:105-118 | no permission check; only that socket's membership of that one room changes; `agent_viewing` goes to the other members |
| ChatServer.Server.AgentLeaveConversation | server/src/socket/socketHandler.js:121-124 | only that socket leaves only that room |
| ChatServer.Server.AgentTypingStarted | server/src/socket/socketHandler.js:127-133 | `agent_typing` with the agent's id and name goes to the room members other than the sender |
| ChatServer.Server.AgentTypingStopped | server/src/socket/socketHandler.js:136-141 | `agent_stop_typing` goes to the room members other than the sender |
| ChatServer.Server.AgentDisconnect | server/src/socket/socketHandler.js:144-153 | the socket is dropped; the agent record goes offline with `socketId` null and a new `lastSeen` |
| ChatServer.Server.CustomerConnect | server/src/socket/socketHandler.js:159 | customer sockets are admitted unconditionally, with no conversation bound |
| ChatServer.Server.CustomerStartConversation | server/src/socket/socketHandler.js:163-202 | a waiting, unowned conversation is stored under the fresh id; the socket joins its room and is bound to it; `new_conversation` goes to every agent socket and `conversation_started` to the originator only; a failed save changes nothing and sends an `error` to the originator |
| ChatServer.Server.CustomerSendMessage | server/src/socket/socketHandler.js:205-245 | refused only for a missing conversation; otherwise, whatever the status or room membership, a `customer` message with the client's `senderInfo` is appended, `lastMessage` is updated and `new_message` reaches every room member |
| ChatServer.Server.CustomerTypingStarted | server/src/socket/socketHandler.js:248-251 | `customer_typing` goes to the room members other than the sender |
| ChatServer.Server.CustomerTypingStopped | server/src/socket/socketHandler.js:254-257 | `customer_stop_typing` goes to the room members other than the sender |
| ChatServer.Server.CustomerDisconnect | server/src/socket/socketHandler.js:260-273 | only a socket bound to a conversation changes anything; that conversation's `isCustomerOnline` becomes false and `customer_offline` goes to the other room members |
| ChatServer.Server.AssignConversation | server/src/routes/conversations.js:122-164 | 404 and no change for an unknown id; 400 and no change when another agent owns it; otherwise 200 with the caller as owner and status active, also reopening the caller's closed conversation; idempotent on an active conversation of the caller's; the owner is never replaced and "waiting iff unowned" is kept |
| ChatServer.Server.CloseConversation | server/src/routes/conversations.js:167-205 | 404 for an unknown id; 403 unless the caller owns it, so always for an unowned one; otherwise 200 with status closed and the owner kept; idempotent on a closed conversation |
| ChatServer.Server.FindAgentByEmail | server/src/routes/auth.js:21 | the lookup finds an agent with exactly that email, or reports that none has it |
| ChatServer.Server.Login | server/src/routes/auth.js:9-73 | the answer is `LoginDecision` on the agent stored under the normalised email; success puts that agent online with a new `lastSeen` and returns it without its password; a rejection changes nothing |
| ChatServer.Server.Logout | server/src/routes/auth.js:76-95 | the caller goes offline with `socketId` null and a new `lastSeen`; a caller whose record is gone gets 500 |
| ChatServer.Server.UpdateProfile | server/src/routes/auth.js:116-140 | the record becomes `ApplyProfile` of it; a name that trims to "" fails the save with 500 and no change |
| AuthMiddleware.ExtractToken | server/src/middleware/auth.js:6 | an absent header gives no token; a header without `Bearer ` is the token unchanged; otherwise the header is the token with `Bearer ` put back at the position of its first occurrence |
| AuthMiddleware.ExtractBearer | server/src/middleware/auth.js:6 | a header `Bearer t` gives back exactly `t` |
| AuthMiddleware.Authenticate | server/src/middleware/auth.js:4-41 | every rejection is a 401; the request proceeds iff the token is non-empty, verifies, and names a stored active agent, which is attached without its password; no token gives the no-token rejection; the disabled rejection is given exactly when the token verifies to a stored agent that is not active |
| AuthMiddleware.NoTokenNoLookup | server/src/middleware/auth.js:8-13 | without a token the outcome does not depend on the verifier or the agent table |
| AuthRoutes.LoginDecision | server/src/routes/auth.js:13-51 | every rejection is a 400; missing fields exactly when a field is absent or empty; bad credentials exactly when both fields are present and the email is unknown or the password does not match; disabled exactly when the password matches an inactive agent; success iff all pass, signing `{id}` for seven days |
| AuthRoutes.MissingFieldsBeforeLookup | server/src/routes/auth.js:13-18 | with a missing field the decision ignores the lookup and the password check |
| AuthRoutes.UnknownEmailLooksLikeWrongPassword | server/src/routes/auth.js:22-35 | an unknown email and a wrong password give the identical rejection |
| AuthRoutes.ApplyProfile | server/src/routes/auth.js:118-124 | the name is replaced (trimmed) only when truthy; the avatar whenever it is not undefined, so null clears it; nothing else changes; the save fails iff the new name trims to "" |
| ConversationRoutes.StatusFilter | server/src/routes/conversations.js:16-18 | the status filter applies only for waiting, active or closed |
| ConversationRoutes.Filter | server/src/routes/conversations.js:28 | the filtered sequence holds exactly the kept elements of the input |
| ConversationRoutes.FilterAppend | server/src/routes/conversations.js:28 | filtering a concatenation is the concatenation of the filtered parts, so the kept records stay in the store's order |
| ConversationRoutes.FilterSingleton | server/src/routes/conversations.js:28 | one record is kept iff the query matches it |
| ConversationRoutes.FilterCounts | server/src/routes/conversations.js:34 | each matching record is kept as often as it occurs and no other is, so `countDocuments` equals the length of the filtered sequence |
| ConversationRoutes.Window | server/src/routes/conversations.js:31-32 | `.skip(k).limit(n)`: the page has `WindowSize` items, `min(n, max(0, total-k))`, never more than `n`, and its i-th item is the input's (k+i)-th |
| ConversationRoutes.PageCount | server/src/routes/conversations.js:42 | `ceil(total/limit)`: the least page count whose pages hold all records |
| ConversationRoutes.ListConversations | server/src/routes/conversations.js:9-55 | `page` defaults to 1 and `limit` to 20; the page holds the `WindowSize` matching records after the first `(page-1)*limit`, the i-th being the (skip+i)-th match in the store's order; every one is from the store and matches the filter; `pagination` is {current: page, total: `PageCount` of the matches, count: page length, totalRecords: number of matches} |
| ConversationRoutes.UnknownStatusUnfiltered | server/src/routes/conversations.js:16-18 | a status outside the enumeration counts every record |
| ConversationRoutes.FilterAll | server/src/routes/conversations.js:16-18 | a filter that keeps everything returns its input |
| ConversationRoutes.ReversedWindow | server/src/routes/conversations.js:93-103 | the reversed page has the window's size, its i-th message is the (skip+n-1-i)-th of the input, and every message comes from the input |
| ConversationRoutes.Reverse | server/src/routes/conversations.js:103 | `reverse()` maps position i to position n-1-i |
| ConversationRoutes.MessagesPage | server/src/routes/conversations.js:88-119 | `page` defaults to 1 and `limit` to 50; the page holds the `WindowSize` messages of the conversation after the first `(page-1)*limit` newest, in reverse, the i-th being the (skip+n-1-i)-th newest; all are of that conversation; `pagination` is {current: page, total: `PageCount` of the conversation's messages, count: page length, totalRecords: the conversation's message count} |
| ConversationRoutes.FilterKeepsNewestFirst | server/src/routes/conversations.js:93-94 | filtering keeps the newest-first order |
| ConversationRoutes.WindowKeepsNewestFirst | server/src/routes/conversations.js:93-95 | a page of a newest-first sequence is newest first |
| ConversationRoutes.ReverseNewestFirst | server/src/routes/conversations.js:103 | reversing a newest-first page gives an oldest-first page |
| ConversationRoutes.MessagesPageOldestFirst | server/src/routes/conversations.js:93-103 | the page of a newest-first store reads oldest first |
| Models.ParseStatus | server/src/models/Conversation.js:37-41 | only the three status spellings are accepted |
| Models.StatusNameRoundTrip | server/src/models/Conversation.js:37-41 | parsing a status's stored spelling gives it back, and only that spelling parses to it |
| Models.NormalEmailIffFixed | server/src/models/Agent.js:10-16 | a stored email (trimmed, no upper case) is exactly a string the `lowercase` and `trim` setters leave unchanged |
| Models.NormaliseEmail | server/src/models/Agent.js:10-16 | the setters produce an email in normal form: trimmed, with no upper-case ASCII letter |
| Models.NormaliseEmailIdempotent | server/src/models/Agent.js:10-16 | normalising an email twice is normalising it once |
| Models.NewAgent | server/src/models/Agent.js:4-53 | the save succeeds iff the trimmed name and the normalised email are non-empty and the password is at least 6 long as JavaScript counts length (UTF-16 code units); the stored agent is valid, holds the hash of the password, and has the defaults: offline, active, no socket, no avatar |
| Models.PreSave | server/src/models/Agent.js:47-53 | the password is replaced by its hash exactly when modified; nothing else is touched |
| Models.ToPublic | server/src/models/Agent.js:61-65 | `toJSON` keeps every field but the password |
| Models.ToPublicHidesPassword | server/src/models/Agent.js:61-65 | the public view does not depend on the password |
| Models.NewConversation | server/src/models/Conversation.js:4-65 | the save succeeds iff the id, customer name and customer phone are present; the result is waiting, unowned, customer online, with no last message, the given customer fields, the client's `customFields` or an empty map when none are sent, and the given metadata |
| Models.NewMessage | server/src/models/Message.js:4-45 | the save succeeds iff the conversation id is present, the content is not all white space, and the sender name is present; the stored content is trimmed; type text, unread, no `readAt` |
| Text.Trim | server/src/models/Message.js:9-13 | the trimmed string is no longer than the input and has no white space at either end |
| Text.TrimStartCuts | server/src/models/Message.js:9-13 | cutting leading white space keeps a suffix and drops only white space |
| Text.TrimEndCuts | server/src/models/Message.js:9-13 | cutting trailing white space keeps a prefix and drops only white space |
| Text.TrimOffset | server/src/models/Message.js:9-13 | the leading white space cut and the trimmed string fit inside the input |
| Text.TrimSlice | server/src/models/Message.js:9-13 | the trimmed string is the slice of the input at `TrimOffset`, with only white space before and after it |
| Text.TrimFixedIffTrimmed | server/src/models/Agent.js:5-9 | trimming leaves a string unchanged iff it has no white space at either end |
| Text.TrimEmptyIffAllSpace | server/src/models/Message.js:9-13 | content trims to "" iff it is all white space |
| Text.TrimIdempotent | server/src/models/Agent.js:5-9 | trimming twice is trimming once |
| Text.TrimKeepsLower | server/src/models/Agent.js:10-16 | trimming a lower-case string keeps it lower-case |
| Text.Utf16Length | server/src/models/Agent.js:17-21 | JavaScript's string length: between |s| and 2|s|, and equal to |s| exactly when no character lies above U+FFFF |
| Text.IndexOf | server/src/middleware/auth.js:6 | the first occurrence of the pattern, or none |
| Text.RemoveFirst | server/src/middleware/auth.js:6 | the first occurrence, and only it, is cut out |
| Text.RemoveFirstPrefix | server/src/middleware/auth.js:6 | cutting `p` from `p + t` gives `t` |
| ContactForm.ShapeGivesScan | client-widget/src/components/ContactForm.jsx:33-38 | a string the email pattern matches has no white space, exactly one `@` (not first), and a `.` after it that is neither right after the `@` nor last |
| ContactForm.ScanGivesShape | client-widget/src/components/ContactForm.jsx:33-38 | every string of that description is matched by the email pattern |
| ContactForm.EmailShapeIffScan | client-widget/src/components/ContactForm.jsx:33-38 | `^[^\s@]+@[^\s@]+\.[^\s@]+$` matches iff there is no white space, exactly one `@`, not first, and a `.` after it that is neither right after the `@` nor last |
| ContactForm.FieldError | client-widget/src/components/ContactForm.jsx:24-48 | a non-empty email value the pattern rejects gets the email error and a non-empty tel value the pattern rejects the phone error, each overwriting the required one; otherwise, whatever the type, a required field whose value is missing or trims to "" gets the required error and every other field none |
| ContactForm.ErrorsOfKeys | client-widget/src/components/ContactForm.jsx:24-51 | a name has an entry in the error map exactly when some field of that name fails |
| ContactForm.ErrorsOfEmpty | client-widget/src/components/ContactForm.jsx:50 | the form is valid iff no field has an error |
| ContactForm.ValidateForm | client-widget/src/components/ContactForm.jsx:24-51 | the `forEach` loop builds exactly the per-field error map, and the answer is whether it is empty |
| ContactForm.SubmitData | client-widget/src/components/ContactForm.jsx:64-67 | the submitted data has exactly the configured names, with a missing value as "" |
| ContactForm.HandleSubmit | client-widget/src/components/ContactForm.jsx:53-75 | the error state becomes the per-field error map; the form submits iff no field fails, and then exactly the configured names, each with its typed value or "" |
| ContactForm.InputChange | client-widget/src/components/ContactForm.jsx:8-22 | editing a field changes only that key and clears only that field's error |
| ConversationList.ViewOf | client-dashboard/src/components/ConversationList.js:44-50 | the dashboard sees the owner and the stored status spelling |
| ConversationList.CanAssignMirrorsServer | client-dashboard/src/components/ConversationList.js:44-46 | the assign button shows iff the server's assign guard passes |
| ConversationList.CanCloseImpliesServerGuard | client-dashboard/src/components/ConversationList.js:48-50 | when the close button shows, the server's close guard passes; the button shows iff the caller owns the conversation and it is not closed |
| ConversationList.ShowClaimOnConsistent | client-dashboard/src/components/ConversationList.js:155 | on a conversation that keeps "waiting iff unowned", the claim button shows iff it is waiting |
| ConversationList.StatusBadge | client-dashboard/src/components/ConversationList.js:31-42 | the three statuses get their own badge; any other status gets none |
| ConversationList.StatusBadgeInjective | client-dashboard/src/components/ConversationList.js:31-42 | different statuses never share a badge |
| ConversationList.FormatTime | client-dashboard/src/components/ConversationList.js:14-29 | with `floor(diff / 86400000)` days: 0 gives the clock time, 1 "yesterday", any other count below 7 (a future time's negative count included) "N days ago" with that N, and 7 or more the date |

## Left out

- Transport: the Socket.IO transport is left out. Rooms are one relation from room to socket ids, shared by both namespaces, and emits are the event log.
- Room cleanup: the library removes a closing socket from every room. That behaviour is not in the code, so a disconnect here drops the socket's session but not its room memberships.
- Namespaces: Socket.IO resolves a room inside one namespace. As written, `io.to(room)` (the `new_message` broadcasts) resolves in the default namespace and reaches no client, and `socket.to(room)` reaches only the sender's namespace. So `customer_typing`, `customer_stop_typing` and `customer_offline` never reach an agent, and `agent_viewing`, `agent_typing` and `agent_stop_typing` never reach the customer. The server methods deliver to every room member in either namespace, as intended (`RoomRecipients`). The as-written delivery is modelled only by `NamespacedRecipients` and the two lemmas under Findings.
- Persistence: MongoDB and Mongoose I/O (`find`, `save`, `populate`) become map and sequence operations. `populate` is only a display join and is not modelled.
- Search: the `$regex` search of the list route is not modelled. `ListConversations` covers the route without `search`.
- Ordering of the store: the list route orders by `updatedAt`, which is not modelled. `ListConversations` takes the conversations already in that order.
- Concurrency: handlers are not interleaved. Each handler is one sequential step, and nothing claims the assign route's check-then-write is atomic across concurrent requests.
- Cryptography and ids: JWT, bcrypt and `uuidv4` are parameters. Fresh conversation and message ids are preconditions.
- Dates: `Date` and the locale formatting of clock times and dates are not modelled. Timestamps are integers, and `FormatTime` models only which bucket is chosen.
- Email lookup: `Server.Login` looks up the normalised email. Mongoose applies the `lowercase` and `trim` setters of the email path to query filters, and the model relies on that.
- Lower-casing: `Text.ToLower` lower-cases ASCII letters only. The `lowercase` setter also folds non-ASCII letters.
- Payload types: malformed socket payloads (an absent `data`, non-string fields) are not modelled. Payload fields are typed values, optional where the code reads them optionally.
- Other routes: GET `/:conversationId` and GET `/me` only read and return records, and are not modelled.
- ConversationRoutes.ListConversations: `page` and `limit` are integers, each defaulted when absent and at least 1. Query strings are not parsed: `parseInt`, `limit * 1` and MongoDB's rules for a zero, negative or non-numeric `skip` or `limit` are not modelled.
- ConversationRoutes.MessagesPage: the same parameter restriction as `ListConversations`.
- Timestamps: the `createdAt` and `updatedAt` timestamps Mongoose maintains are left out, except a message's and a conversation's creation time.
- React: the React UI, contexts, widget window and the rest of the client state plumbing are not modelled.
- Bootstrapping: server bootstrapping and configuration are not modelled.
- Closed conversations: one might expect a closed conversation to be read-only. The code does not stop sends to it (server/src/socket/socketHandler.js:63-64 and 210-214), and `AssignConversation` by the owner reopens it. The model follows the code.

## Findings

| source | as written | input that shows it | evidently intended | confidence | as-written member | corrected member |
|---|---|---|---|---|---|---|
| server/src/socket/socketHandler.js:92 | `io.to(room)` resolves the room in the default namespace, where no socket of the server lives (the same at line 235) | a message saved in a conversation whose room holds the customer's and the agent's sockets | `new_message` reaches every member of the conversation room | not executed; high | ChatServer.Server.NewMessageAsWrittenReachesNoOne | ChatServer.Server.Deliver |
| server/src/socket/socketHandler.js:250 | `socket.to(room)` on a customer socket resolves in `/customer` only; the agent relays at lines 111, 129 and 138 resolve in `/agent` only | a customer typing in a conversation whose room the assigned agent has joined | `customer_typing` reaches the agent, and agent relays reach the customer | not executed; medium | ChatServer.Server.RelayAsWrittenMissesOtherSide | ChatServer.Server.CustomerTypingStarted |
