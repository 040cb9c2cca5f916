/** The admission ladder of the REST routes' authentication middleware. JWT
    verification is an oracle `verify` (None where `jwt.verify` throws); the
    agent store is a map from id to record. The middleware's one write,
    `req.agent = agent` followed by `next()`, is the `Next` outcome carrying
    that agent: every other outcome is a 401 response and `next` is not run. */
module AuthMiddleware {
  import opened Wrappers
  import opened Models
  import Text

  const BearerPrefix := "Bearer "

  datatype Rejection = NoToken | InvalidToken | AccountDisabled

  datatype Outcome = Reject(status: int, reason: Rejection) | Next(agent: AgentPublic)

  /** `req.header('Authorization')?.replace('Bearer ', '')`: the first
      occurrence of "Bearer " is cut out, wherever it stands. */
  function ExtractToken(header: Option<string>): (t: Option<string>)
    ensures header.None? <==> t.None?
    ensures header.Some? && Text.IndexOf(header.value, BearerPrefix).None? ==> t == header
    ensures header.Some? && Text.IndexOf(header.value, BearerPrefix).Some? ==>
              var i := Text.IndexOf(header.value, BearerPrefix).value;
              |t.value| + |BearerPrefix| == |header.value| &&
              header.value == t.value[..i] + BearerPrefix + t.value[i..]
  {
    match header
    case None => None
    case Some(h) => Some(Text.RemoveFirst(h, BearerPrefix))
  }

  lemma ExtractBearer(t: string)
    ensures ExtractToken(Some(BearerPrefix + t)) == Some(t)
  {
    Text.RemoveFirstPrefix(BearerPrefix, t);
  }

  /** The ladder: no or empty token, then verification, then the record
      lookup, then the active flag. A verification failure lands in the catch
      block, which answers like an unknown agent. */
  function Authenticate(header: Option<string>, verify: string -> Option<AgentId>,
                        agents: map<AgentId, Agent>): (r: Outcome)
    ensures r.Reject? ==> r.status == 401
    ensures r.Next? <==>
              var t := ExtractToken(header);
              t.Some? && t.value != "" && verify(t.value).Some? &&
              verify(t.value).value in agents && agents[verify(t.value).value].isActive
    ensures r.Next? ==> r.agent == ToPublic(agents[verify(ExtractToken(header).value).value])
    ensures r == Reject(401, NoToken) <==> ExtractToken(header) in {None, Some("")}
    ensures r == Reject(401, AccountDisabled) <==>
              var t := ExtractToken(header);
              t.Some? && t.value != "" && verify(t.value).Some? &&
              verify(t.value).value in agents && !agents[verify(t.value).value].isActive
  {
    var token := ExtractToken(header);
    if token.None? || token.value == "" then Reject(401, NoToken)
    else match verify(token.value)
      case None => Reject(401, InvalidToken)
      case Some(id) =>
        if id !in agents then Reject(401, InvalidToken)
        else if !agents[id].isActive then Reject(401, AccountDisabled)
        else Next(ToPublic(agents[id]))
  }

  /** Without a token nothing is verified or looked up: the answer is the same
      whatever the verifier and the store hold. */
  lemma NoTokenNoLookup(header: Option<string>, v1: string -> Option<AgentId>,
                        v2: string -> Option<AgentId>,
                        a1: map<AgentId, Agent>, a2: map<AgentId, Agent>)
    requires ExtractToken(header) in {None, Some("")}
    ensures Authenticate(header, v1, a1) == Authenticate(header, v2, a2) == Reject(401, NoToken)
  {
  }
}
