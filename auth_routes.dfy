/** The decision ladders of the login and profile routes. Password comparison
    (`bcrypt.compare`) is an oracle `matches(plain, hash)`; a signed token is
    represented by its payload and lifetime. The writes these routes make on
    the agent record are methods of `ChatServer.Server`. */
module AuthRoutes {
  import opened Wrappers
  import opened Models
  import Text

  /** `expiresIn: '7d'`, in seconds. */
  const TokenLifetime := 7 * 24 * 60 * 60

  datatype SignedToken = SignedToken(subject: AgentId, expiresInSeconds: int)

  datatype LoginFailure = MissingFields | BadCredentials | AccountDisabled

  datatype LoginOutcome =
    | LoginRejected(status: int, failure: LoginFailure)
    | LoginOk(token: SignedToken)

  /** Login: both fields present and non-empty, then the lookup `found`, then
      the password, then the active flag. Every rejection is a 400. */
  function LoginDecision(email: Option<string>, password: Option<string>,
                         found: Option<Agent>, matches: (string, string) -> bool): (r: LoginOutcome)
    ensures r.LoginRejected? ==> r.status == 400
    ensures r.LoginOk? <==> Required(email) && Required(password) && found.Some? &&
                            matches(password.value, found.value.password) &&
                            found.value.isActive
    ensures r.LoginOk? ==> r.token == SignedToken(found.value.id, TokenLifetime)
    ensures r == LoginRejected(400, MissingFields) <==> !Required(email) || !Required(password)
    ensures r == LoginRejected(400, AccountDisabled) <==>
              Required(email) && Required(password) && found.Some? &&
              matches(password.value, found.value.password) && !found.value.isActive
    ensures r == LoginRejected(400, BadCredentials) <==>
              Required(email) && Required(password) &&
              (found.None? || !matches(password.value, found.value.password))
  {
    if !Required(email) || !Required(password) then LoginRejected(400, MissingFields)
    else match found
      case None => LoginRejected(400, BadCredentials)
      case Some(agent) =>
        if !matches(password.value, agent.password) then LoginRejected(400, BadCredentials)
        else if !agent.isActive then LoginRejected(400, AccountDisabled)
        else LoginOk(SignedToken(agent.id, TokenLifetime))
  }

  /** A missing field is answered before any lookup or comparison: the outcome
      does not depend on what the store or the hash comparison would say. */
  lemma MissingFieldsBeforeLookup(email: Option<string>, password: Option<string>,
                                  f1: Option<Agent>, m1: (string, string) -> bool,
                                  f2: Option<Agent>, m2: (string, string) -> bool)
    requires !Required(email) || !Required(password)
    ensures LoginDecision(email, password, f1, m1) == LoginDecision(email, password, f2, m2)
  {
  }

  /** An unknown email and a wrong password give the same answer, so the
      response does not reveal which accounts exist. */
  lemma UnknownEmailLooksLikeWrongPassword(email: string, password: string, agent: Agent,
                                           matches: (string, string) -> bool)
    requires email != "" && password != "" && !matches(password, agent.password)
    ensures LoginDecision(Some(email), Some(password), None, matches) ==
            LoginDecision(Some(email), Some(password), Some(agent), matches) ==
            LoginRejected(400, BadCredentials)
  {
  }

  /** The `avatar` field of a profile request: absent, `null` or a string. */
  datatype AvatarInput = AvatarUndefined | AvatarNull | AvatarValue(url: string)

  /** Profile update: `name` is replaced only when truthy (through the trim
      setter), `avatar` whenever it is not undefined, so `null` clears it. The
      save then validates: a name that trims to "" fails (`None`). */
  function ApplyProfile(a: Agent, name: Option<string>, avatar: AvatarInput): (r: Option<Agent>)
    requires AgentValid(a)
    ensures r.None? <==> Required(name) && Text.Trim(name.value) == ""
    ensures r.Some? ==> AgentValid(r.value)
    ensures r.Some? ==> r.value.(name := a.name, avatar := a.avatar) == a
    ensures r.Some? ==> r.value.name == (if Required(name) then Text.Trim(name.value) else a.name)
    ensures r.Some? ==> r.value.avatar == match avatar
                                         case AvatarUndefined => a.avatar
                                         case AvatarNull => None
                                         case AvatarValue(url) => Some(url)
  {
    var newName := if Required(name) then Text.Trim(name.value) else a.name;
    var newAvatar := match avatar
                     case AvatarUndefined => a.avatar
                     case AvatarNull => None
                     case AvatarValue(url) => Some(url);
    if Required(name) && newName == "" then None
    else Some(a.(name := newName, avatar := newAvatar))
  }
}
