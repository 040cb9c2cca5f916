/** The three stored records: Agent, Conversation and Message, with their
    enumerations, defaults, setters (trim, lower-case) and required-field
    validation as the schemas declare them. A constructor function returns
    `None` where saving the new document would fail validation. Timestamps are
    integers (milliseconds); record ids are their string forms. */
module Models {
  import opened Wrappers
  import Text

  type AgentId = string
  type ConvId = string
  type MessageId = string

  /** The stored spelling of an enumeration value is given next to it. */
  datatype Status = Waiting | Active | Closed          // "waiting" | "active" | "closed"
  datatype Sender = FromCustomer | FromAgent           // "customer" | "agent"
  datatype MessageType = TextMessage | ImageMessage | FileMessage | SystemMessage
                                                       // "text" | "image" | "file" | "system"

  /** The stored spelling of a status. */
  function StatusName(s: Status): (name: string)
    ensures name in {"waiting", "active", "closed"}
  {
    match s
    case Waiting => "waiting"
    case Active => "active"
    case Closed => "closed"
  }

  /** The enum check of the `status` path: only the three spellings are accepted. */
  function ParseStatus(name: string): (r: Option<Status>)
    ensures r.Some? <==> name in {"waiting", "active", "closed"}
  {
    if name == "waiting" then Some(Waiting)
    else if name == "active" then Some(Active)
    else if name == "closed" then Some(Closed)
    else None
  }

  lemma StatusNameRoundTrip(s: Status, name: string)
    ensures ParseStatus(StatusName(s)) == Some(s)
    ensures ParseStatus(name) == Some(s) ==> StatusName(s) == name
  {
  }

  /** Mongoose's `required` check on a String path: present and not "". */
  predicate Required(v: Option<string>) {
    v.Some? && v.value != ""
  }

  // ---------------------------------------------------------------- Agent

  datatype Agent = Agent(
    id: AgentId,
    name: string,
    email: string,
    password: string,          // the stored bcrypt hash
    avatar: Option<string>,
    isOnline: bool,
    isActive: bool,
    socketId: Option<string>,
    lastSeen: int)

  /** An agent as `toJSON` and `select('-password')` show it: every field but
      the password. */
  datatype AgentPublic = AgentPublic(
    id: AgentId,
    name: string,
    email: string,
    avatar: Option<string>,
    isOnline: bool,
    isActive: bool,
    socketId: Option<string>,
    lastSeen: int)

  /** The `email` path's setters: `lowercase` then `trim`. */
  function NormaliseEmail(e: string): (n: string)
    ensures IsNormalEmail(n)
  {
    Text.TrimKeepsLower(Text.ToLower(e));
    Text.Trim(Text.ToLower(e))
  }

  /** `e` is its own normal form: no white space at the ends, no upper-case
      ASCII letter. */
  predicate IsNormalEmail(e: string) {
    Text.IsTrimmed(e) && Text.NoUpperAscii(e)
  }

  /** The normal forms are exactly the strings the setters leave unchanged. */
  lemma NormalEmailIffFixed(e: string)
    ensures IsNormalEmail(e) <==> NormaliseEmail(e) == e
  {
    var l := Text.ToLower(e);
    Text.TrimKeepsLower(l);
    if IsNormalEmail(e) {
      Text.ToLowerOfLower(e);
      Text.TrimFixedIffTrimmed(e);
    }
  }

  /** What every stored agent satisfies: `name` trimmed and non-empty, `email`
      normalised and non-empty. */
  predicate AgentValid(a: Agent) {
    a.name != "" && Text.IsTrimmed(a.name) &&
    a.email != "" && IsNormalEmail(a.email)
  }

  const MinPasswordLength := 6

  /** A new agent document as the schema builds it from the given fields and
      then saves it: setters applied, defaults filled in, validation run on the
      plain password (minimum length 6, counted in UTF-16 code units as
      JavaScript's `length` counts), then the pre-save hook stores the
      hash of the password. */
  function NewAgent(id: AgentId, name: string, email: string, password: string,
                    now: int, hash: string -> string): (r: Option<Agent>)
    ensures r.Some? <==> Text.Trim(name) != "" && NormaliseEmail(email) != "" &&
                         Text.Utf16Length(password) >= MinPasswordLength
    ensures r.Some? ==> AgentValid(r.value)
    ensures r.Some? ==> r.value.id == id && r.value.name == Text.Trim(name) &&
                        r.value.email == NormaliseEmail(email) &&
                        r.value.password == hash(password)
    ensures r.Some? ==> r.value.avatar == None && !r.value.isOnline &&
                        r.value.isActive && r.value.socketId == None &&
                        r.value.lastSeen == now
  {
    var trimmedName := Text.Trim(name);
    var normalEmail := NormaliseEmail(email);
    if trimmedName == "" || normalEmail == "" || Text.Utf16Length(password) < MinPasswordLength then None
    else
      Text.TrimKeepsLower(Text.ToLower(email));
      var draft := Agent(id, trimmedName, normalEmail, password, None, false, true, None, now);
      Some(PreSave(draft, true, hash))
  }

  lemma {:induction false} NormaliseEmailIdempotent(e: string)
    ensures NormaliseEmail(NormaliseEmail(e)) == NormaliseEmail(e)
  {
    NormalEmailIffFixed(NormaliseEmail(e));
  }

  /** The pre-save hook: the password is replaced by its hash exactly when it
      was modified; nothing else is touched. */
  function PreSave(a: Agent, passwordModified: bool, hash: string -> string): (r: Agent)
    ensures r.(password := a.password) == a
    ensures passwordModified ==> r.password == hash(a.password)
    ensures !passwordModified ==> r == a
  {
    if passwordModified then a.(password := hash(a.password)) else a
  }

  /** `toJSON`: the same fields without `password`. */
  function ToPublic(a: Agent): (p: AgentPublic)
    ensures p.id == a.id && p.name == a.name && p.email == a.email
    ensures p.avatar == a.avatar && p.isOnline == a.isOnline && p.isActive == a.isActive
    ensures p.socketId == a.socketId && p.lastSeen == a.lastSeen
  {
    AgentPublic(a.id, a.name, a.email, a.avatar, a.isOnline, a.isActive, a.socketId, a.lastSeen)
  }

  /** Two agents that differ only in their password show the same public view. */
  lemma ToPublicHidesPassword(a: Agent, pw: string)
    ensures ToPublic(a.(password := pw)) == ToPublic(a)
  {
  }

  // --------------------------------------------------------- Conversation

  datatype Customer = Customer(
    name: string,
    phone: string,
    email: Option<string>,
    address: Option<string>,
    customFields: map<string, string>)

  /** The `customer` object of a start request, as the widget sends it. */
  datatype CustomerInput = CustomerInput(
    name: Option<string>,
    phone: Option<string>,
    email: Option<string>,
    address: Option<string>,
    customFields: Option<map<string, string>>)

  datatype LastMessage = LastMessage(content: string, timestamp: int, sender: Sender)

  datatype Conversation = Conversation(
    conversationId: ConvId,
    customer: Customer,
    assignedAgent: Option<AgentId>,
    status: Status,
    isCustomerOnline: bool,
    lastMessage: Option<LastMessage>,
    websiteUrl: Option<string>,
    userAgent: Option<string>,
    ipAddress: Option<string>,
    createdAt: int)

  /** The schema's required paths hold. */
  predicate ConversationValid(c: Conversation) {
    c.conversationId != "" && c.customer.name != "" && c.customer.phone != ""
  }

  /** The ownership rule the lifecycle keeps: waiting exactly when unowned. */
  predicate OwnershipConsistent(c: Conversation) {
    c.status == Waiting <==> c.assignedAgent.None?
  }

  /** The guard shared by the agent send handler and the close route:
      `assignedAgent?.toString() === agentId.toString()`. */
  predicate OwnedBy(c: Conversation, agent: AgentId) {
    c.assignedAgent == Some(agent)
  }

  /** `new Conversation({conversationId, customer, websiteUrl, userAgent,
      ipAddress, status: 'waiting'})` followed by `save()`. */
  function NewConversation(id: ConvId, customer: CustomerInput, websiteUrl: Option<string>,
                           userAgent: Option<string>, ipAddress: Option<string>,
                           now: int): (r: Option<Conversation>)
    ensures r.Some? <==> id != "" && Required(customer.name) && Required(customer.phone)
    ensures r.Some? ==> ConversationValid(r.value) && OwnershipConsistent(r.value)
    ensures r.Some? ==>
              var c := r.value;
              c.conversationId == id && c.status == Waiting && c.assignedAgent == None &&
              c.isCustomerOnline && c.lastMessage == None && c.createdAt == now &&
              Some(c.customer.name) == customer.name && Some(c.customer.phone) == customer.phone &&
              c.customer.email == customer.email && c.customer.address == customer.address &&
              c.customer.customFields ==
                (if customer.customFields.Some? then customer.customFields.value else map[]) &&
              c.websiteUrl == websiteUrl && c.userAgent == userAgent && c.ipAddress == ipAddress
  {
    if id == "" || !Required(customer.name) || !Required(customer.phone) then None
    else
      var fields := match customer.customFields
                    case None => map[]
                    case Some(m) => m;
      var profile := Customer(customer.name.value, customer.phone.value,
                              customer.email, customer.address, fields);
      Some(Conversation(id, profile, None, Waiting, true, None,
                        websiteUrl, userAgent, ipAddress, now))
  }

  // -------------------------------------------------------------- Message

  datatype SenderInfo = SenderInfo(id: Option<string>, name: string, avatar: Option<string>)

  /** A `senderInfo` object as a client supplies it. */
  datatype SenderInfoInput = SenderInfoInput(id: Option<string>, name: Option<string>,
                                             avatar: Option<string>)

  datatype Message = Message(
    id: MessageId,
    conversationId: ConvId,
    content: string,
    sender: Sender,
    senderInfo: SenderInfo,
    messageType: MessageType,
    isRead: bool,
    readAt: Option<int>,
    createdAt: int)

  /** What every stored message satisfies: required paths present, content
      stored trimmed. */
  predicate MessageValid(m: Message) {
    m.conversationId != "" && m.content != "" && Text.IsTrimmed(m.content) &&
    m.senderInfo.name != ""
  }

  /** `new Message({conversationId, content, sender, senderInfo})` followed by
      `save()`: the content is trimmed by its setter before the required check,
      so white-space-only content is refused. */
  function NewMessage(id: MessageId, conversationId: ConvId, content: Option<string>,
                      sender: Sender, info: SenderInfoInput, now: int): (r: Option<Message>)
    ensures r.Some? <==> conversationId != "" && content.Some? &&
                         !Text.AllSpace(content.value) && Required(info.name)
    ensures r.Some? ==> MessageValid(r.value)
    ensures r.Some? ==>
              var m := r.value;
              m.id == id && m.conversationId == conversationId &&
              m.content == Text.Trim(content.value) && m.sender == sender &&
              m.senderInfo == SenderInfo(info.id, info.name.value, info.avatar) &&
              m.messageType == TextMessage && !m.isRead && m.readAt == None &&
              m.createdAt == now
  {
    if conversationId == "" || content.None? || !Required(info.name) then None
    else
      var stored := Text.Trim(content.value);
      Text.TrimEmptyIffAllSpace(content.value);
      if stored == "" then None
      else
        Some(Message(id, conversationId, stored, sender,
                     SenderInfo(info.id, info.name.value, info.avatar),
                     TextMessage, false, None, now))
  }
}
