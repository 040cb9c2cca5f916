/** The server's conversation bookkeeping as one in-memory state machine: the
    conversation store, the append-only message log, the agent table, the room
    membership relation, the live sockets of the two namespaces and a log of
    outbound events. Each socket handler and each REST handler is one method,
    run as one sequential step. */
module ChatServer {
  import opened Wrappers
  import opened Models
  import AuthMiddleware
  import AuthRoutes
  import ConversationRoutes

  type SocketId = string

  /** Rooms are named "agent_<id>" and "conversation_<id>". The prefixes differ
      in their first character, so distinct rooms have distinct names. */
  datatype Room = AgentRoom(agent: AgentId) | ConversationRoom(conversation: ConvId)

  /** The `error` events' messages. */
  datatype Notice =
    | NoSendPermission      // "Bạn không có quyền gửi tin nhắn trong cuộc hội thoại này"
    | SendFailed            // "Lỗi khi gửi tin nhắn"
    | ConversationMissing   // "Cuộc hội thoại không tồn tại"
    | StartFailed           // "Lỗi khi khởi tạo cuộc hội thoại"

  datatype EventKind =
    | NewConversationEvent(conversation: Conversation)
    | ConversationStarted(conversationId: ConvId, conversation: Conversation)
    | NewMessageEvent(message: Message, conversation: Conversation)
    | AgentViewing(agentId: AgentId, agentName: string)
    | AgentTyping(agentId: AgentId, agentName: string)
    | AgentStopTyping(agentId: AgentId)
    | CustomerTyping
    | CustomerStopTyping
    | CustomerOffline
    | Error(notice: Notice)

  /** One emit: who receives it and what it is. `socket.emit` reaches the
      socket itself, `io.to(room)` every member of the room, `socket.to(room)`
      every member but the socket. */
  datatype Event = Event(recipients: set<SocketId>, kind: EventKind)

  /** The Socket.IO namespaces: the server's sockets live in `/agent` and
      `/customer`; `io.to(room)` addresses the default one. */
  datatype Namespace = DefaultNamespace | AgentNamespace | CustomerNamespace

  /** Delivery as Socket.IO performs it for the handlers as written: a room
      name is resolved inside one namespace, so an emit to a room reaches
      only those members that live in the emitting namespace, less the
      excluded sockets. `io.to(room)` emits in the default namespace,
      `socket.to(room)` in the sender's own. */
  function NamespacedRecipients(members: set<SocketId>, home: map<SocketId, Namespace>,
                                ns: Namespace, except: set<SocketId>): (r: set<SocketId>)
    ensures forall s :: s in r <==> s in members && s in home && home[s] == ns && s !in except
  {
    set s | s in members && s in home && home[s] == ns && s !in except
  }

  /** Delivery as the handlers intend it, and as the server model performs
      it: every member of the conversation room, in either namespace, less
      the excluded sockets. */
  function RoomRecipients(members: set<SocketId>, except: set<SocketId>): (r: set<SocketId>)
    ensures r <= members && r !! except
    ensures forall s :: s in members && s !in except ==> s in r
  {
    members - except
  }

  /** As written, `new_message` reaches no client: `io.to(room)` looks the
      room up in the default namespace, where no socket of the server lives,
      while the intended delivery reaches every member of the room. */
  lemma BroadcastAsWrittenReachesNoOne(members: set<SocketId>, home: map<SocketId, Namespace>)
    requires forall s :: s in home ==> home[s] != DefaultNamespace
    ensures NamespacedRecipients(members, home, DefaultNamespace, {}) == {}
    ensures RoomRecipients(members, {}) == members
  {
  }

  /** As written, a relay from a customer socket (`customer_typing`,
      `customer_stop_typing`, `customer_offline`) never reaches an agent in
      the room, and one from an agent socket (`agent_viewing`, `agent_typing`,
      `agent_stop_typing`) never reaches the customer; the intended relay
      reaches both. */
  lemma RelayAsWrittenStaysInNamespace(members: set<SocketId>, home: map<SocketId, Namespace>,
                                       sender: SocketId, other: SocketId)
    requires sender in home && other in home && other in members
    requires home[sender] != home[other]
    ensures other !in NamespacedRecipients(members, home, home[sender], {sender})
    ensures other in RoomRecipients(members, {sender})
  {
  }

  datatype AdmissionError =
    | NoTokenProvided       // "No token provided"
    | InvalidToken          // "Invalid token"
    | AuthenticationFailed  // "Authentication failed"

  /** The agent namespace's `authenticateAgent` middleware: the handshake token
      must be present, verify to an agent id (a failing `jwt.verify` throws into
      the catch block), and name a stored, active agent. The admitted socket
      keeps the record as it was loaded. */
  function AdmitAgent(token: Option<string>, verify: string -> Option<AgentId>,
                      agents: map<AgentId, Agent>): (r: Result<Agent, AdmissionError>)
    ensures r.Success? <==> Required(token) && verify(token.value).Some? &&
                            verify(token.value).value in agents &&
                            agents[verify(token.value).value].isActive
    ensures r.Success? ==> r.value == agents[verify(token.value).value]
    ensures !Required(token) ==> r == Failure(NoTokenProvided)
    ensures Required(token) && verify(token.value).None? ==> r == Failure(AuthenticationFailed)
    ensures Required(token) && verify(token.value).Some? &&
            (verify(token.value).value !in agents || !agents[verify(token.value).value].isActive) ==>
              r == Failure(InvalidToken)
  {
    if !Required(token) then Failure(NoTokenProvided)
    else match verify(token.value)
      case None => Failure(AuthenticationFailed)
      case Some(id) =>
        if id !in agents || !agents[id].isActive then Failure(InvalidToken)
        else Success(agents[id])
  }

  /** The socket handshake and the REST middleware admit the same tokens: a
      socket token `t` is admitted exactly when the header "Bearer t" is. */
  lemma SocketAndRestAdmitAlike(t: string, verify: string -> Option<AgentId>,
                                agents: map<AgentId, Agent>)
    ensures AdmitAgent(Some(t), verify, agents).Success? <==>
            AuthMiddleware.Authenticate(Some(AuthMiddleware.BearerPrefix + t), verify, agents).Next?
  {
    AuthMiddleware.ExtractBearer(t);
  }

  // ------------------------------------------------------- store invariants

  predicate ConversationsValid(cs: map<ConvId, Conversation>) {
    forall id :: id in cs ==>
      cs[id].conversationId == id && ConversationValid(cs[id]) && OwnershipConsistent(cs[id])
  }

  /** Every logged message is valid and belongs to a stored conversation. */
  predicate MessagesValid(ms: seq<Message>, cs: map<ConvId, Conversation>) {
    forall i :: 0 <= i < |ms| ==> ms[i].conversationId in cs && MessageValid(ms[i])
  }

  predicate MessageIdsDistinct(ms: seq<Message>) {
    forall i, j :: 0 <= i < j < |ms| ==> ms[i].id != ms[j].id
  }

  predicate FreshMessageId(ms: seq<Message>, id: MessageId) {
    forall i :: 0 <= i < |ms| ==> ms[i].id != id
  }

  /** Stored agents are valid, keyed by their id, and `email` is unique. */
  predicate AgentsValid(agents: map<AgentId, Agent>) {
    (forall id :: id in agents ==> agents[id].id == id && AgentValid(agents[id])) &&
    (forall i, j :: i in agents && j in agents && agents[i].email == agents[j].email ==> i == j)
  }

  /** Each customer socket that started a conversation names a stored one. */
  predicate SessionsBound(sessions: map<SocketId, Option<ConvId>>, cs: map<ConvId, Conversation>) {
    forall s :: s in sessions && sessions[s].Some? ==> sessions[s].value in cs
  }

  /** How the conversation store may change in one step: nothing is removed,
      the customer and creation time stay, and an owner, once set, stays. */
  predicate ConversationsEvolve(before: map<ConvId, Conversation>, after: map<ConvId, Conversation>) {
    forall id :: id in before ==>
      id in after && after[id].customer == before[id].customer &&
      after[id].createdAt == before[id].createdAt &&
      (before[id].assignedAgent.Some? ==> after[id].assignedAgent == before[id].assignedAgent)
  }

  lemma {:induction false} ConversationsEvolveTransitive(a: map<ConvId, Conversation>,
                                                         b: map<ConvId, Conversation>,
                                                         c: map<ConvId, Conversation>)
    requires ConversationsEvolve(a, b) && ConversationsEvolve(b, c)
    ensures ConversationsEvolve(a, c)
  {
    forall id | id in a
      ensures id in c && c[id].customer == a[id].customer && c[id].createdAt == a[id].createdAt &&
              (a[id].assignedAgent.Some? ==> c[id].assignedAgent == a[id].assignedAgent)
    {
      assert id in b;
    }
  }

  /** `Conversation.find({assignedAgent: id, status: {$in: ['waiting', 'active']}})`. */
  function OpenAssigned(cs: map<ConvId, Conversation>, agent: AgentId): (ids: set<ConvId>)
    ensures ids <= cs.Keys
  {
    set id | id in cs && cs[id].assignedAgent == Some(agent) &&
             (cs[id].status == Waiting || cs[id].status == Active)
  }

  /** The stored agent with the given email, if any (the email is unique). */
  ghost function AgentWithEmail(agents: map<AgentId, Agent>, email: string): (r: Option<Agent>)
    ensures r.Some? ==> r.value.email == email && r.value in agents.Values
  {
    if exists id :: id in agents && agents[id].email == email then
      var id :| id in agents && agents[id].email == email; Some(agents[id])
    else None
  }

  /** Appending a valid message of a stored conversation keeps the log valid,
      against any store with the same ids. */
  lemma {:induction false} AppendKeepsMessagesValid(ms: seq<Message>, cs: map<ConvId, Conversation>,
                                                    cs': map<ConvId, Conversation>, m: Message)
    requires MessagesValid(ms, cs) && cs'.Keys == cs.Keys
    requires MessageValid(m) && m.conversationId in cs
    ensures MessagesValid(ms + [m], cs')
  {
    var ms' := ms + [m];
    forall i | 0 <= i < |ms'| ensures ms'[i].conversationId in cs' && MessageValid(ms'[i]) {
      if i < |ms| { assert ms'[i] == ms[i]; }
    }
  }

  /** Appending a message with a fresh id keeps the ids distinct. */
  lemma {:induction false} AppendKeepsIdsDistinct(ms: seq<Message>, m: Message)
    requires MessageIdsDistinct(ms) && FreshMessageId(ms, m.id)
    ensures MessageIdsDistinct(ms + [m])
  {
    var ms' := ms + [m];
    forall i, j | 0 <= i < j < |ms'| ensures ms'[i].id != ms'[j].id {
      assert ms'[i] == ms[i];
      if j < |ms| { assert ms'[j] == ms[j]; }
    }
  }

  /** Storing a valid, consistent conversation under its own id keeps the
      store valid; the log stays valid, since no id disappears. */
  lemma StoreKeepsValid(cs: map<ConvId, Conversation>, ms: seq<Message>,
                        sessions: map<SocketId, Option<ConvId>>, c: Conversation)
    requires ConversationsValid(cs) && MessagesValid(ms, cs) && SessionsBound(sessions, cs)
    requires ConversationValid(c) && OwnershipConsistent(c)
    ensures ConversationsValid(cs[c.conversationId := c])
    ensures MessagesValid(ms, cs[c.conversationId := c])
    ensures SessionsBound(sessions, cs[c.conversationId := c])
  {
  }

  /** A delivered message, with its conversation's new `lastMessage`, keeps the
      whole store valid. */
  lemma DeliveryKeepsStore(cs: map<ConvId, Conversation>, ms: seq<Message>,
                           sessions: map<SocketId, Option<ConvId>>, c: Conversation, m: Message)
    requires ConversationsValid(cs) && MessagesValid(ms, cs) && MessageIdsDistinct(ms)
    requires SessionsBound(sessions, cs)
    requires ConversationValid(c) && OwnershipConsistent(c) && c.conversationId in cs
    requires MessageValid(m) && m.conversationId in cs && FreshMessageId(ms, m.id)
    ensures var cs' := cs[c.conversationId := c];
            ConversationsValid(cs') && MessagesValid(ms + [m], cs') &&
            MessageIdsDistinct(ms + [m]) && SessionsBound(sessions, cs')
  {
    StoreKeepsValid(cs, ms, sessions, c);
    AppendKeepsMessagesValid(ms, cs, cs[c.conversationId := c], m);
    AppendKeepsIdsDistinct(ms, m);
  }

  /** Binding a socket to a stored conversation keeps every session bound. */
  lemma BindKeepsSessionsBound(sessions: map<SocketId, Option<ConvId>>,
                               cs: map<ConvId, Conversation>, sid: SocketId, cid: ConvId)
    requires SessionsBound(sessions, cs) && cid in cs
    ensures SessionsBound(sessions[sid := Some(cid)], cs)
  {
  }

  /** A step that stores `c` over the conversation of the same id is allowed
      when it keeps that conversation's customer, creation time and owner. */
  lemma StoreEvolves(cs: map<ConvId, Conversation>, c: Conversation)
    requires c.conversationId in cs ==>
               var old_c := cs[c.conversationId];
               c.customer == old_c.customer && c.createdAt == old_c.createdAt &&
               (old_c.assignedAgent.Some? ==> c.assignedAgent == old_c.assignedAgent)
    ensures ConversationsEvolve(cs, cs[c.conversationId := c])
  {
  }

  /** Rewriting a stored agent's record, with its id and email kept, keeps the
      table valid. */
  lemma UpdateKeepsAgentsValid(agents: map<AgentId, Agent>, a: Agent)
    requires AgentsValid(agents) && a.id in agents && AgentValid(a)
    requires a.email == agents[a.id].email
    ensures AgentsValid(agents[a.id := a])
  {
  }

  lemma AgentWithEmailFound(agents: map<AgentId, Agent>, id: AgentId)
    requires AgentsValid(agents) && id in agents
    ensures AgentWithEmail(agents, agents[id].email) == Some(agents[id])
  {
  }

  lemma AgentWithEmailAbsent(agents: map<AgentId, Agent>, email: string)
    requires forall id :: id in agents ==> agents[id].email != email
    ensures AgentWithEmail(agents, email) == None
  {
  }

  class Server {
    var conversations: map<ConvId, Conversation>
    var messages: seq<Message>
    var agents: map<AgentId, Agent>
    var rooms: map<Room, set<SocketId>>
    /** Sockets of the agent namespace, with the agent record loaded at admission. */
    var agentSockets: map<SocketId, Agent>
    /** Sockets of the customer namespace, with `socket.conversationId`. */
    var customerSockets: map<SocketId, Option<ConvId>>
    var events: seq<Event>

    /** The server's invariant: the store half, the agent half, and no socket
        in both namespaces. */
    ghost predicate Valid()
      reads this`conversations, this`messages, this`agents, this`agentSockets, this`customerSockets
    {
      StoreValid() && AgentsLive() && agentSockets.Keys !! customerSockets.Keys
    }

    /** Conversations, messages and the customer sessions that point into them. */
    ghost predicate StoreValid()
      reads this`conversations, this`messages, this`customerSockets
    {
      ConversationsValid(conversations) &&
      MessagesValid(messages, conversations) &&
      MessageIdsDistinct(messages) &&
      SessionsBound(customerSockets, conversations)
    }

    /** The agent records and the records loaded on agent sockets. */
    ghost predicate AgentsLive()
      reads this`agents, this`agentSockets
    {
      AgentsValid(agents) &&
      (forall s :: s in agentSockets ==> AgentValid(agentSockets[s]))
    }

    /** The namespace of each live socket. None is in the default namespace,
        so the live sockets meet the hypothesis of `BroadcastAsWrittenReachesNoOne`. */
    function Home(): (home: map<SocketId, Namespace>)
      reads this`agentSockets, this`customerSockets
      ensures home.Keys == agentSockets.Keys + customerSockets.Keys
      ensures forall s :: s in home ==> home[s] != DefaultNamespace
      ensures forall s :: s in agentSockets ==> home[s] == AgentNamespace
      ensures forall s :: s in customerSockets && s !in agentSockets ==> home[s] == CustomerNamespace
    {
      map s | s in agentSockets.Keys + customerSockets.Keys ::
        if s in agentSockets then AgentNamespace else CustomerNamespace
    }

    /** As written, the `new_message` broadcast of a send reaches none of the
        server's live sockets, whatever the room holds; the modelled delivery
        reaches every member of the room. */
    lemma NewMessageAsWrittenReachesNoOne(cid: ConvId)
      ensures NamespacedRecipients(Members(ConversationRoom(cid)), Home(), DefaultNamespace, {}) == {}
      ensures RoomRecipients(Members(ConversationRoom(cid)), {}) == Members(ConversationRoom(cid))
    {
      BroadcastAsWrittenReachesNoOne(Members(ConversationRoom(cid)), Home());
    }

    /** As written, a relay from a customer socket never reaches an agent
        socket in the room, and one from an agent socket never reaches a
        customer socket; the modelled relay reaches both. */
    lemma RelayAsWrittenMissesOtherSide(sid: SocketId, cid: ConvId, other: SocketId)
      requires Valid() && other in Members(ConversationRoom(cid))
      requires (sid in customerSockets && other in agentSockets) ||
               (sid in agentSockets && other in customerSockets)
      ensures sid in Home() &&
              other !in NamespacedRecipients(Members(ConversationRoom(cid)), Home(), Home()[sid], {sid})
      ensures other in RoomRecipients(Members(ConversationRoom(cid)), {sid})
    {
      RelayAsWrittenStaysInNamespace(Members(ConversationRoom(cid)), Home(), sid, other);
    }

    function Members(r: Room): set<SocketId>
      reads this`rooms
    {
      if r in rooms then rooms[r] else {}
    }

    constructor (initialAgents: map<AgentId, Agent>)
      requires AgentsValid(initialAgents)
      ensures Valid()
      ensures agents == initialAgents && conversations == map[] && messages == [] &&
              rooms == map[] && agentSockets == map[] && customerSockets == map[] && events == []
    {
      conversations, messages, agents := map[], [], initialAgents;
      rooms, agentSockets, customerSockets, events := map[], map[], map[], [];
    }

    /** `socket.join(room)`. */
    method Join(sid: SocketId, r: Room)
      modifies this`rooms
      ensures forall q :: Members(q) == if q == r then old(Members(q)) + {sid} else old(Members(q))
    {
      rooms := rooms[r := Members(r) + {sid}];
    }

    // ------------------------------------------------------ agent namespace

    /** An agent socket connects: admission, then the `connection` handler. The
        record goes online with this socket id, and the socket joins its agent
        room and the room of every waiting or active conversation assigned to
        the agent, never a closed one. */
    method AgentConnect(sid: SocketId, token: Option<string>,
                        verify: string -> Option<AgentId>, now: int)
      returns (admitted: bool)
      requires Valid()
      requires sid !in agentSockets && sid !in customerSockets
      modifies this`agents, this`agentSockets, this`rooms
      ensures Valid()
      ensures admitted <==> AdmitAgent(token, verify, old(agents)).Success?
      ensures !admitted ==>
                agents == old(agents) && agentSockets == old(agentSockets) && rooms == old(rooms)
      ensures admitted ==>
                var a := AdmitAgent(token, verify, old(agents)).value;
                agentSockets == old(agentSockets)[sid := a] &&
                agents == old(agents)[a.id := a.(isOnline := true, socketId := Some(sid), lastSeen := now)]
      ensures admitted ==>
                var a := AdmitAgent(token, verify, old(agents)).value;
                forall r :: Members(r) ==
                  if r == AgentRoom(a.id) ||
                     (r.ConversationRoom? && r.conversation in OpenAssigned(conversations, a.id))
                  then old(Members(r)) + {sid} else old(Members(r))
    {
      var admission := AdmitAgent(token, verify, agents);
      if admission.Failure? {
        return false;
      }
      admitted := true;
      var a := admission.value;
      agentSockets := agentSockets[sid := a];
      var online := agents[a.id].(isOnline := true, socketId := Some(sid), lastSeen := now);
      UpdateKeepsAgentsValid(agents, online);
      agents := agents[a.id := online];
      Join(sid, AgentRoom(a.id));
      JoinAll(sid, OpenAssigned(conversations, a.id));
    }

    /** `socket.join` for the room of each conversation in `ids`, one at a time. */
    method JoinAll(sid: SocketId, ids: set<ConvId>)
      modifies this`rooms
      ensures forall r :: Members(r) ==
                if r.ConversationRoom? && r.conversation in ids
                then old(Members(r)) + {sid} else old(Members(r))
    {
      var pending := ids;
      while pending != {}
        invariant pending <= ids
        invariant forall r :: Members(r) ==
                    if r.ConversationRoom? && r.conversation in ids - pending
                    then old(Members(r)) + {sid} else old(Members(r))
        decreases pending
      {
        var cid :| cid in pending;
        Join(sid, ConversationRoom(cid));
        pending := pending - {cid};
      }
    }

    /** Agent `send_message`: refused with an error to the sender alone unless
        the conversation exists and is assigned to the sending agent; the
        conversation's status is not looked at. An accepted message is
        delivered with the agent's id, name and avatar as `senderInfo`. */
    method AgentSendMessage(sid: SocketId, cid: ConvId, content: Option<string>,
                            mid: MessageId, now: int)
      requires Valid() && sid in agentSockets && FreshMessageId(messages, mid)
      modifies this`conversations, this`messages, this`events
      ensures Valid()
      ensures ConversationsEvolve(old(conversations), conversations)
      ensures var a := agentSockets[sid];
              cid !in old(conversations) || !OwnedBy(old(conversations)[cid], a.id) ==>
                conversations == old(conversations) && messages == old(messages) &&
                events == old(events) + [Event({sid}, Error(NoSendPermission))]
      ensures var a := agentSockets[sid];
              var draft := NewMessage(mid, cid, content, FromAgent,
                                             SenderInfoInput(Some(a.id), Some(a.name), a.avatar), now);
              cid in old(conversations) && OwnedBy(old(conversations)[cid], a.id) ==>
                Delivered(old(conversations), old(messages), old(events), sid, draft, content, now)
    {
      var a := agentSockets[sid];
      if cid !in conversations || !OwnedBy(conversations[cid], a.id) {
        events := events + [Event({sid}, Error(NoSendPermission))];
        return;
      }
      Deliver(sid, cid, content, FromAgent, SenderInfoInput(Some(a.id), Some(a.name), a.avatar), mid, now);
    }

    /** What a send that passed its guard leaves behind, given the store before
        it and the message the schema builds (`None` when the save fails). A
        failed save changes nothing and sends the send-failed error to the
        sender. A saved message is appended, becomes the conversation's
        `lastMessage` with the content as sent (before trimming), and goes to
        every member of the room, the sender included. */
    ghost predicate Delivered(cs: map<ConvId, Conversation>, ms: seq<Message>, es: seq<Event>,
                              sid: SocketId, draft: Option<Message>, content: Option<string>, now: int)
      reads this`conversations, this`messages, this`events, this`rooms
    {
      if draft.None? then
        conversations == cs && messages == ms && events == es + [Event({sid}, Error(SendFailed))]
      else
        var m := draft.value;
        m.conversationId in cs && content.Some? &&
        var c := cs[m.conversationId].(lastMessage := Some(LastMessage(content.value, now, m.sender)));
        messages == ms + [m] &&
        conversations == cs[m.conversationId := c] &&
        events == es + [Event(RoomRecipients(Members(ConversationRoom(m.conversationId)), {}), NewMessageEvent(m, c))]
    }

    /** The common part of both send handlers: `new Message(...)`, `save()`,
        the `lastMessage` update, `io.to(room)`, and the catch block. */
    method Deliver(sid: SocketId, cid: ConvId, content: Option<string>, sender: Sender,
                   info: SenderInfoInput, mid: MessageId, now: int)
      requires Valid() && cid in conversations && FreshMessageId(messages, mid)
      modifies this`conversations, this`messages, this`events
      ensures Valid()
      ensures ConversationsEvolve(old(conversations), conversations)
      ensures Delivered(old(conversations), old(messages), old(events), sid,
                        NewMessage(mid, cid, content, sender, info, now), content, now)
    {
      var draft := NewMessage(mid, cid, content, sender, info, now);
      if draft.None? {
        events := events + [Event({sid}, Error(SendFailed))];
        return;
      }
      var m := draft.value;
      var last := LastMessage(content.value, now, sender);
      var c := conversations[cid].(lastMessage := Some(last));
      DeliveryKeepsStore(conversations, messages, customerSockets, c, m);
      StoreEvolves(conversations, c);
      messages := messages + [m];
      conversations := conversations[cid := c];
      assert StoreValid();
      events := events + [Event(RoomRecipients(Members(ConversationRoom(cid)), {}), NewMessageEvent(m, c))];
      assert Delivered(old(conversations), old(messages), old(events), sid, draft, content, now);
    }

    /** Agent `join_conversation`: no permission check; the socket joins that
        one room, and the other members hear `agent_viewing`. */
    method AgentJoinConversation(sid: SocketId, cid: ConvId)
      requires Valid() && sid in agentSockets
      modifies this`rooms, this`events
      ensures Valid()
      ensures forall r :: Members(r) ==
                if r == ConversationRoom(cid) then old(Members(r)) + {sid} else old(Members(r))
      ensures var a := agentSockets[sid];
              events == old(events) + [Event(RoomRecipients(Members(ConversationRoom(cid)), {sid}),
                                             AgentViewing(a.id, a.name))]
    {
      Join(sid, ConversationRoom(cid));
      var a := agentSockets[sid];
      events := events + [Event(RoomRecipients(Members(ConversationRoom(cid)), {sid}), AgentViewing(a.id, a.name))];
    }

    /** Agent `leave_conversation`: the socket leaves that one room. */
    method AgentLeaveConversation(sid: SocketId, cid: ConvId)
      requires Valid() && sid in agentSockets
      modifies this`rooms
      ensures Valid()
      ensures forall r :: Members(r) ==
                if r == ConversationRoom(cid) then old(Members(r)) - {sid} else old(Members(r))
    {
      rooms := rooms[ConversationRoom(cid) := Members(ConversationRoom(cid)) - {sid}];
    }

    /** Agent `typing`: the room's other members hear `agent_typing`. */
    method AgentTypingStarted(sid: SocketId, cid: ConvId)
      requires Valid() && sid in agentSockets
      modifies this`events
      ensures Valid()
      ensures var a := agentSockets[sid];
              events == old(events) + [Event(RoomRecipients(Members(ConversationRoom(cid)), {sid}),
                                             AgentTyping(a.id, a.name))]
    {
      var a := agentSockets[sid];
      events := events + [Event(RoomRecipients(Members(ConversationRoom(cid)), {sid}), AgentTyping(a.id, a.name))];
    }

    /** Agent `stop_typing`: the room's other members hear `agent_stop_typing`. */
    method AgentTypingStopped(sid: SocketId, cid: ConvId)
      requires Valid() && sid in agentSockets
      modifies this`events
      ensures Valid()
      ensures events == old(events) + [Event(RoomRecipients(Members(ConversationRoom(cid)), {sid}),
                                             AgentStopTyping(agentSockets[sid].id))]
    {
      events := events + [Event(RoomRecipients(Members(ConversationRoom(cid)), {sid}),
                                AgentStopTyping(agentSockets[sid].id))];
    }

    /** Agent `disconnect`: the record goes offline and forgets its socket id,
        whichever socket of the agent it currently names. */
    method AgentDisconnect(sid: SocketId, now: int)
      requires Valid() && sid in agentSockets
      modifies this`agents, this`agentSockets
      ensures Valid()
      ensures agentSockets == old(agentSockets) - {sid}
      ensures var id := old(agentSockets)[sid].id;
              agents == if id in old(agents)
                        then old(agents)[id := old(agents)[id].(isOnline := false, socketId := None, lastSeen := now)]
                        else old(agents)
    {
      var id := agentSockets[sid].id;
      agentSockets := agentSockets - {sid};
      if id in agents {
        var offline := agents[id].(isOnline := false, socketId := None, lastSeen := now);
        UpdateKeepsAgentsValid(agents, offline);
        agents := agents[id := offline];
      }
    }

    // --------------------------------------------------- customer namespace

    /** A customer socket connects; it is admitted without any check. */
    method CustomerConnect(sid: SocketId)
      requires Valid() && sid !in agentSockets && sid !in customerSockets
      modifies this`customerSockets
      ensures Valid()
      ensures customerSockets == old(customerSockets)[sid := None]
    {
      customerSockets := customerSockets[sid := None];
    }

    /** Customer `start_conversation`: a new waiting, unassigned conversation
        under the fresh id `cid`; the socket joins its room and remembers it;
        every agent socket hears `new_conversation` and the socket alone hears
        `conversation_started`. A profile without name or phone fails the save
        and only the sender hears an error. */
    method CustomerStartConversation(sid: SocketId, cid: ConvId, customer: CustomerInput,
                                     websiteUrl: Option<string>, userAgent: Option<string>,
                                     ipAddress: Option<string>, now: int)
      requires Valid() && sid in customerSockets && cid !in conversations
      modifies this`conversations, this`rooms, this`customerSockets, this`events
      ensures Valid()
      ensures ConversationsEvolve(old(conversations), conversations)
      ensures var draft := NewConversation(cid, customer, websiteUrl, userAgent, ipAddress, now);
              draft.None? ==>
                conversations == old(conversations) && rooms == old(rooms) &&
                customerSockets == old(customerSockets) &&
                events == old(events) + [Event({sid}, Error(StartFailed))]
      ensures var draft := NewConversation(cid, customer, websiteUrl, userAgent, ipAddress, now);
              draft.Some? ==>
                conversations == old(conversations)[cid := draft.value] &&
                draft.value.status == Waiting && draft.value.assignedAgent == None &&
                customerSockets == old(customerSockets)[sid := Some(cid)] &&
                (forall r :: Members(r) ==
                   if r == ConversationRoom(cid) then old(Members(r)) + {sid} else old(Members(r))) &&
                events == old(events) + [Event(agentSockets.Keys, NewConversationEvent(draft.value)),
                                         Event({sid}, ConversationStarted(cid, draft.value))]
    {
      var draft := NewConversation(cid, customer, websiteUrl, userAgent, ipAddress, now);
      if draft.None? {
        events := events + [Event({sid}, Error(StartFailed))];
        return;
      }
      StoreKeepsValid(conversations, messages, customerSockets, draft.value);
      StoreEvolves(conversations, draft.value);
      conversations := conversations[cid := draft.value];
      BindKeepsSessionsBound(customerSockets, conversations, sid, cid);
      Join(sid, ConversationRoom(cid));
      customerSockets := customerSockets[sid := Some(cid)];
      assert customerSockets.Keys == old(customerSockets).Keys;
      events := events + [Event(agentSockets.Keys, NewConversationEvent(draft.value)),
                          Event({sid}, ConversationStarted(cid, draft.value))];
    }

    /** Customer `send_message`: refused only when the conversation does not
        exist. Neither the status nor the socket's own conversation nor its
        rooms are looked at, and `senderInfo` is taken as the client sent it. */
    method CustomerSendMessage(sid: SocketId, cid: ConvId, content: Option<string>,
                               senderInfo: SenderInfoInput, mid: MessageId, now: int)
      requires Valid() && sid in customerSockets && FreshMessageId(messages, mid)
      modifies this`conversations, this`messages, this`events
      ensures Valid()
      ensures ConversationsEvolve(old(conversations), conversations)
      ensures cid !in old(conversations) ==>
                conversations == old(conversations) && messages == old(messages) &&
                events == old(events) + [Event({sid}, Error(ConversationMissing))]
      ensures cid in old(conversations) ==>
                Delivered(old(conversations), old(messages), old(events), sid,
                          NewMessage(mid, cid, content, FromCustomer, senderInfo, now), content, now)
    {
      if cid !in conversations {
        events := events + [Event({sid}, Error(ConversationMissing))];
        return;
      }
      Deliver(sid, cid, content, FromCustomer, senderInfo, mid, now);
    }

    /** Customer `typing`: the room's other members hear `customer_typing`. */
    method CustomerTypingStarted(sid: SocketId, cid: ConvId)
      requires Valid() && sid in customerSockets
      modifies this`events
      ensures Valid()
      ensures events == old(events) + [Event(RoomRecipients(Members(ConversationRoom(cid)), {sid}), CustomerTyping)]
    {
      events := events + [Event(RoomRecipients(Members(ConversationRoom(cid)), {sid}), CustomerTyping)];
    }

    /** Customer `stop_typing`: the room's other members hear `customer_stop_typing`. */
    method CustomerTypingStopped(sid: SocketId, cid: ConvId)
      requires Valid() && sid in customerSockets
      modifies this`events
      ensures Valid()
      ensures events == old(events) + [Event(RoomRecipients(Members(ConversationRoom(cid)), {sid}), CustomerStopTyping)]
    {
      events := events + [Event(RoomRecipients(Members(ConversationRoom(cid)), {sid}), CustomerStopTyping)];
    }

    /** Customer `disconnect`: only a socket that started a conversation
        changes anything; that conversation's customer goes offline and the
        room's other members hear `customer_offline`. */
    method CustomerDisconnect(sid: SocketId)
      requires Valid() && sid in customerSockets
      modifies this`conversations, this`customerSockets, this`events
      ensures Valid()
      ensures ConversationsEvolve(old(conversations), conversations)
      ensures customerSockets == old(customerSockets) - {sid}
      ensures old(customerSockets)[sid].None? ==>
                conversations == old(conversations) && events == old(events)
      ensures old(customerSockets)[sid].Some? ==>
                var cid := old(customerSockets)[sid].value;
                conversations == (if cid in old(conversations)
                                  then old(conversations)[cid := old(conversations)[cid].(isCustomerOnline := false)]
                                  else old(conversations)) &&
                events == old(events) + [Event(RoomRecipients(Members(ConversationRoom(cid)), {sid}), CustomerOffline)]
    {
      var bound := customerSockets[sid];
      customerSockets := customerSockets - {sid};
      if bound.Some? {
        var cid := bound.value;
        if cid in conversations {
          var c := conversations[cid].(isCustomerOnline := false);
          StoreKeepsValid(conversations, messages, customerSockets, c);
          StoreEvolves(conversations, c);
          conversations := conversations[cid := c];
        }
        events := events + [Event(RoomRecipients(Members(ConversationRoom(cid)), {sid}), CustomerOffline)];
      }
    }

    // ------------------------------------------- REST: conversation routes

    /** POST /:conversationId/assign by the admitted agent `caller`: 404 for
        an unknown id, 400 when another agent owns the conversation, and
        otherwise the caller owns it and it is active, whatever its status was
        (a closed conversation of the caller's is reopened). */
    method AssignConversation(caller: AgentId, cid: ConvId) returns (status: int)
      requires Valid()
      modifies this`conversations
      ensures Valid()
      ensures ConversationsEvolve(old(conversations), conversations)
      ensures cid !in old(conversations) ==> status == 404 && conversations == old(conversations)
      ensures cid in old(conversations) && !ConversationRoutes.AssignAllowed(old(conversations)[cid], caller) ==>
                status == 400 && conversations == old(conversations)
      ensures cid in old(conversations) && ConversationRoutes.AssignAllowed(old(conversations)[cid], caller) ==>
                status == 200 &&
                conversations == old(conversations)[cid := old(conversations)[cid].(assignedAgent := Some(caller), status := Active)]
      ensures cid in old(conversations) && old(conversations)[cid].status == Active &&
              OwnedBy(old(conversations)[cid], caller) ==>
                status == 200 && conversations == old(conversations)
    {
      if cid !in conversations {
        return 404;
      }
      var c := conversations[cid];
      if c.assignedAgent.Some? && c.assignedAgent.value != caller {
        return 400;
      }
      var claimed := c.(assignedAgent := Some(caller), status := Active);
      StoreKeepsValid(conversations, messages, customerSockets, claimed);
      StoreEvolves(conversations, claimed);
      conversations := conversations[cid := claimed];
      status := 200;
    }

    /** POST /:conversationId/close by the admitted agent `caller`: 404 for an
        unknown id, 403 unless the caller owns the conversation (so always for
        an unassigned one); otherwise it is closed and keeps its owner. */
    method CloseConversation(caller: AgentId, cid: ConvId) returns (status: int)
      requires Valid()
      modifies this`conversations
      ensures Valid()
      ensures ConversationsEvolve(old(conversations), conversations)
      ensures cid !in old(conversations) ==> status == 404 && conversations == old(conversations)
      ensures cid in old(conversations) && !OwnedBy(old(conversations)[cid], caller) ==>
                status == 403 && conversations == old(conversations)
      ensures cid in old(conversations) && OwnedBy(old(conversations)[cid], caller) ==>
                status == 200 &&
                conversations == old(conversations)[cid := old(conversations)[cid].(status := Closed)]
      ensures cid in old(conversations) && old(conversations)[cid].status == Closed &&
              OwnedBy(old(conversations)[cid], caller) ==>
                status == 200 && conversations == old(conversations)
    {
      if cid !in conversations {
        return 404;
      }
      var c := conversations[cid];
      if c.assignedAgent != Some(caller) {
        return 403;
      }
      var closed := c.(status := Closed);
      StoreKeepsValid(conversations, messages, customerSockets, closed);
      StoreEvolves(conversations, closed);
      conversations := conversations[cid := closed];
      status := 200;
    }

    // --------------------------------------------------- REST: auth routes

    /** `Agent.findOne({email})` on the agent table. */
    method FindAgentByEmail(email: string) returns (found: Option<AgentId>)
      ensures found.Some? ==> found.value in agents && agents[found.value].email == email
      ensures found.None? ==> forall id :: id in agents ==> agents[id].email != email
    {
      var pending := agents.Keys;
      while pending != {}
        invariant pending <= agents.Keys
        invariant forall id :: id in agents && id !in pending ==> agents[id].email != email
        decreases pending
      {
        var id :| id in pending;
        if agents[id].email == email {
          return Some(id);
        }
        pending := pending - {id};
      }
      return None;
    }

    /** POST /login. The email is looked up as the schema stores it
        (lower-cased, trimmed); the decision is `LoginDecision`; a successful
        login puts the agent online and answers with the token and the agent
        without its password. The pre-save hook leaves the password alone,
        since it was not modified. */
    method Login(email: Option<string>, password: Option<string>,
                 matches: (string, string) -> bool, now: int)
      returns (outcome: AuthRoutes.LoginOutcome, profile: Option<AgentPublic>)
      requires Valid()
      modifies this`agents
      ensures Valid()
      ensures outcome == AuthRoutes.LoginDecision(
                email, password,
                if Required(email) then AgentWithEmail(old(agents), NormaliseEmail(email.value)) else None,
                matches)
      ensures outcome.LoginRejected? ==> agents == old(agents) && profile == None
      ensures outcome.LoginOk? ==>
                var id := outcome.token.subject;
                id in old(agents) &&
                agents == old(agents)[id := old(agents)[id].(isOnline := true, lastSeen := now)] &&
                profile == Some(ToPublic(agents[id]))
    {
      if !Required(email) || !Required(password) {
        outcome, profile := AuthRoutes.LoginRejected(400, AuthRoutes.MissingFields), None;
        return;
      }
      var found := FindAgentByEmail(NormaliseEmail(email.value));
      if found.None? {
        AgentWithEmailAbsent(agents, NormaliseEmail(email.value));
        outcome, profile := AuthRoutes.LoginRejected(400, AuthRoutes.BadCredentials), None;
        return;
      }
      var agent := agents[found.value];
      AgentWithEmailFound(agents, found.value);
      if !matches(password.value, agent.password) {
        outcome, profile := AuthRoutes.LoginRejected(400, AuthRoutes.BadCredentials), None;
        return;
      }
      if !agent.isActive {
        outcome, profile := AuthRoutes.LoginRejected(400, AuthRoutes.AccountDisabled), None;
        return;
      }
      outcome := AuthRoutes.LoginOk(AuthRoutes.SignedToken(agent.id, AuthRoutes.TokenLifetime));
      var updated := agent.(isOnline := true, lastSeen := now);
      UpdateKeepsAgentsValid(agents, updated);
      agents := agents[agent.id := updated];
      profile := Some(ToPublic(updated));
    }

    /** POST /logout: the caller's record goes offline and forgets its socket
        id; a record that no longer exists makes the handler throw (500). */
    method Logout(caller: AgentId, now: int) returns (status: int)
      requires Valid()
      modifies this`agents
      ensures Valid()
      ensures caller !in old(agents) ==> status == 500 && agents == old(agents)
      ensures caller in old(agents) ==>
                status == 200 &&
                agents == old(agents)[caller := old(agents)[caller].(isOnline := false, lastSeen := now, socketId := None)]
    {
      if caller !in agents {
        return 500;
      }
      var offline := agents[caller].(isOnline := false, lastSeen := now, socketId := None);
      UpdateKeepsAgentsValid(agents, offline);
      agents := agents[caller := offline];
      status := 200;
    }

    /** PUT /profile: `ApplyProfile` on the caller's record; a failed save or a
        missing record answers 500 and changes nothing. */
    method UpdateProfile(caller: AgentId, name: Option<string>, avatar: AuthRoutes.AvatarInput)
      returns (status: int, profile: Option<AgentPublic>)
      requires Valid()
      modifies this`agents
      ensures Valid()
      ensures caller !in old(agents) ==> status == 500 && profile == None && agents == old(agents)
      ensures caller in old(agents) ==>
                var r := AuthRoutes.ApplyProfile(old(agents)[caller], name, avatar);
                if r.None? then status == 500 && profile == None && agents == old(agents)
                else status == 200 && agents == old(agents)[caller := r.value] &&
                     profile == Some(ToPublic(r.value))
    {
      if caller !in agents {
        return 500, None;
      }
      var r := AuthRoutes.ApplyProfile(agents[caller], name, avatar);
      if r.None? {
        return 500, None;
      }
      UpdateKeepsAgentsValid(agents, r.value);
      agents := agents[caller := r.value];
      status, profile := 200, Some(ToPublic(r.value));
    }
  }
}
