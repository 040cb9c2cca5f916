/** The dashboard's conversation list: which buttons it offers, the status
    badge, and the day bucket of the time label. A conversation reaches the
    dashboard as JSON: `ViewOf` is that view of a stored conversation. */
module ConversationList {
  import opened Wrappers
  import opened Models
  import ConversationRoutes

  datatype ConversationView = ConversationView(assignedAgent: Option<AgentId>, status: string)

  function ViewOf(c: Conversation): (v: ConversationView)
    ensures v.assignedAgent == c.assignedAgent && ParseStatus(v.status) == Some(c.status)
  {
    StatusNameRoundTrip(c.status, StatusName(c.status));
    ConversationView(c.assignedAgent, StatusName(c.status))
  }

  /** `!assignedAgent || assignedAgent._id === currentAgent._id`. */
  predicate CanAssign(c: ConversationView, me: AgentId) {
    c.assignedAgent.None? || c.assignedAgent.value == me
  }

  /** `assignedAgent?._id === currentAgent._id && status !== 'closed'`. */
  predicate CanClose(c: ConversationView, me: AgentId) {
    c.assignedAgent.Some? && c.assignedAgent.value == me && c.status != "closed"
  }

  /** The claim button: `!assignedAgent && status === 'waiting'`. */
  predicate ShowClaim(c: ConversationView) {
    c.assignedAgent.None? && c.status == "waiting"
  }

  /** The dashboard offers an assign exactly when the server's assign route
      would accept it. */
  lemma CanAssignMirrorsServer(c: Conversation, me: AgentId)
    ensures CanAssign(ViewOf(c), me) <==> ConversationRoutes.AssignAllowed(c, me)
  {
  }

  /** A close the dashboard offers passes the server's close guard; the guard
      also accepts closing an already closed conversation, which the dashboard
      does not offer. */
  lemma CanCloseImpliesServerGuard(c: Conversation, me: AgentId)
    ensures CanClose(ViewOf(c), me) ==> OwnedBy(c, me)
    ensures CanClose(ViewOf(c), me) <==> OwnedBy(c, me) && c.status != Closed
  {
  }

  /** On a stored conversation (waiting exactly when unowned) the claim button
      shows exactly for waiting conversations, and only when assigning is
      allowed. */
  lemma ShowClaimOnConsistent(c: Conversation, me: AgentId)
    requires OwnershipConsistent(c)
    ensures ShowClaim(ViewOf(c)) <==> c.status == Waiting
    ensures ShowClaim(ViewOf(c)) ==> CanAssign(ViewOf(c), me)
  {
  }

  datatype Badge = WaitingBadge | ActiveBadge | ClosedBadge   // "Đang chờ" | "Hoạt động" | "Đã đóng"

  /** `getStatusBadge`: one badge per known status, none otherwise. */
  function StatusBadge(status: string): (b: Option<Badge>)
    ensures b.Some? <==> ParseStatus(status).Some?
    ensures b == Some(WaitingBadge) <==> status == "waiting"
    ensures b == Some(ActiveBadge) <==> status == "active"
    ensures b == Some(ClosedBadge) <==> status == "closed"
  {
    match ParseStatus(status)
    case None => None
    case Some(Waiting) => Some(WaitingBadge)
    case Some(Active) => Some(ActiveBadge)
    case Some(Closed) => Some(ClosedBadge)
  }

  lemma StatusBadgeInjective(s1: string, s2: string)
    requires StatusBadge(s1).Some? && StatusBadge(s1) == StatusBadge(s2)
    ensures s1 == s2
  {
  }

  const MsPerDay := 1000 * 60 * 60 * 24

  datatype TimeLabel =
    | ClockTime            // toLocaleTimeString, hours and minutes
    | Yesterday            // "Hôm qua"
    | DaysAgo(days: int)   // "<days> ngày trước"
    | CalendarDate         // toLocaleDateString

  /** `formatTime`: `diffDays = Math.floor((now - date) / 86400000)` picks the
      label. A time in the future gives a negative day count, which falls in
      the "days ago" branch. */
  function FormatTime(now: int, stamp: int): (r: TimeLabel)
    ensures var diff := now - stamp;
            (r == ClockTime <==> 0 <= diff < MsPerDay) &&
            (r == Yesterday <==> MsPerDay <= diff < 2 * MsPerDay) &&
            (r.DaysAgo? <==> diff < 0 || 2 * MsPerDay <= diff < 7 * MsPerDay) &&
            (r == CalendarDate <==> 7 * MsPerDay <= diff)
    ensures r.DaysAgo? ==> r.days != 0 && r.days != 1 && r.days < 7 &&
                           r.days * MsPerDay <= now - stamp < (r.days + 1) * MsPerDay
  {
    var diffDays := (now - stamp) / MsPerDay;
    if diffDays == 0 then ClockTime
    else if diffDays == 1 then Yesterday
    else if diffDays < 7 then DaysAgo(diffDays)
    else CalendarDate
  }
}
