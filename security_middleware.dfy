/**
 * The role-tiered admission gate that runs before request handlers. The
 * rate-limit provider (its sliding-window counting, bot detection and
 * shield) is external: the gate hands it a rule and reads back a decision,
 * modelled here as the function `protect`. Writing the response and calling
 * `next()` are returned as an `Outcome` value, so "next() is called once"
 * is "the outcome is Next".
 */
module SecurityMiddleware {
  import opened Wrappers

  /** `req.user`, as far as the gate reads it: its `role`, if any. */
  datatype RequestUser = RequestUser(role: Option<string>)

  /** What the tier switch assigns; both stay undefined for a role it does not list. */
  datatype Tier = Tier(limit: Option<nat>, message: Option<string>)

  /** The sliding-window rule handed to the provider. */
  datatype Rule = Rule(mode: string, interval: string, max: Option<nat>, name: string)

  /** The provider's decision: whether it denies, and the answers of the three reason tests. */
  datatype Decision = Decision(denied: bool, isBot: bool, isShield: bool, isRateLimit: bool)

  /** The provider either decides or throws. */
  datatype Reply = Decided(decision: Decision) | Threw

  /** What the gate does with the request. */
  datatype Outcome =
    | Forbidden(message: string)   // 403 {error: 'Forbidden', message}
    | Next                         // next() is called
    | ServerError(message: string) // 500 {error: 'Internal server error', message}

  const BotMessage: string := "Bot traffic is not allowed"
  const PolicyMessage: string := "Reqwest blocked by security policy"
  const FailureMessage: string := "Something went wrong from  security middleware"

  /** The per-tier messages the switch assigns. */
  const AdminTierMessage: string := "Admin request limit exceeded (20 requests per minute). Slow down!"
  const UserTierMessage: string := "user request limit exceeded (10 requests per minute). Slow down!"
  const GuestTierMessage: string := "guest request limit exceeded (5 requests per minute). Slow down!"

  /** `req.user?.role || 'guest'`: the role when present and non-empty, else guest. */
  function EffectiveRole(user: Option<RequestUser>): (role: string)
    ensures role != ""
  {
    if user.Some? && user.value.role.Some? && user.value.role.value != "" then user.value.role.value
    else "guest"
  }

  /** The switch on the role; it has no default case. */
  function TierOf(role: string): (t: Tier)
    ensures t.limit.Some? ==> 5 <= t.limit.value <= 20
    ensures t.limit.Some? <==> t.message.Some?
  {
    if role == "admin" then
      Tier(Some(20), Some(AdminTierMessage))
    else if role == "user" then
      Tier(Some(10), Some(UserTierMessage))
    else if role == "guest" then
      Tier(Some(5), Some(GuestTierMessage))
    else
      Tier(None, None)
  }

  /** The rule built for a role: live mode, a one-minute window, the tier's limit, named after the role. */
  function RuleFor(role: string): (r: Rule)
    ensures r.max.Some? ==> 5 <= r.max.value <= 20
    ensures role <= r.name
  {
    Rule("LIVE", "1m", TierOf(role).limit, role + "-rate-limit")
  }

  /** The three guarded responses, in the order they are tested, then next(). */
  function Respond(reply: Reply): (o: Outcome)
    ensures o.Forbidden? ==> reply.Decided? && reply.decision.denied
    ensures o.Forbidden? ==> o.message == BotMessage || o.message == PolicyMessage
    ensures o.ServerError? <==> reply.Threw?
  {
    match reply
    case Threw => ServerError(FailureMessage)
    case Decided(d) =>
      if d.denied && d.isBot then Forbidden(BotMessage)
      else if d.denied && d.isShield then Forbidden(PolicyMessage)
      else if d.denied && d.isRateLimit then Forbidden(PolicyMessage)
      else Next
  }

  /** securityMiddleware: pick the tier, ask the provider, respond. */
  function Gate(user: Option<RequestUser>, protect: Rule -> Reply): (o: Outcome)
    ensures o.ServerError? <==> protect(RuleFor(EffectiveRole(user))).Threw?
    ensures o.Forbidden? ==> protect(RuleFor(EffectiveRole(user))).decision.denied
  {
    Respond(protect(RuleFor(EffectiveRole(user))))
  }

  // ---------------------------------------------------------------------------

  /** The effective role is the request user's role when it is a non-empty string, and guest otherwise. */
  lemma EffectiveRoleDefaults(user: Option<RequestUser>)
    ensures EffectiveRole(user) == "guest" <==>
      (user.None? || user.value.role.None? || user.value.role.value in {"", "guest"})
    ensures EffectiveRole(user) != "guest" ==> user == Some(RequestUser(Some(EffectiveRole(user))))
  {
  }

  /** Tiers: guest 5, user 10, admin 20 per minute, so guest < user < admin. */
  lemma TierLimits()
    ensures TierOf("guest").limit == Some(5) && TierOf("user").limit == Some(10) && TierOf("admin").limit == Some(20)
    ensures TierOf("guest").limit.value < TierOf("user").limit.value < TierOf("admin").limit.value
  {
    assert "guest"[0] != "admin"[0] && "guest"[0] != "user"[0];
    assert "user"[0] != "admin"[0];
  }

  /** The switch has no default: any other role leaves both the limit and the message undefined. */
  lemma UnlistedRoleHasNoTier(role: string)
    ensures TierOf(role).limit.None? <==> role != "admin" && role != "user" && role != "guest"
    ensures TierOf(role).limit.None? <==> TierOf(role).message.None?
  {
  }

  /** The rule carries the tier's limit and the name `<role>-rate-limit`, in live mode over one minute. */
  lemma RuleShape(role: string)
    ensures RuleFor(role).mode == "LIVE" && RuleFor(role).interval == "1m"
    ensures RuleFor(role).max == TierOf(role).limit
    ensures |RuleFor(role).name| == |role| + 11 && RuleFor(role).name[..|role|] == role
    ensures RuleFor(role).name[|role|..] == "-rate-limit"
  {
  }

  /**
   * next() is called exactly when the provider answered and none of the
   * three denial branches fires; a denial for any other reason still calls it.
   */
  lemma NextIffNoDenialBranch(reply: Reply)
    ensures Respond(reply) == Next <==>
      reply.Decided? && !(reply.decision.denied &&
        (reply.decision.isBot || reply.decision.isShield || reply.decision.isRateLimit))
  {
  }

  /**
   * Priority: a bot denial answers with the bot message whatever the other
   * tests say; shield and rate-limit denials share the policy message.
   */
  lemma DenialPriority(d: Decision)
    ensures d.denied && d.isBot ==> Respond(Decided(d)) == Forbidden("Bot traffic is not allowed")
    ensures d.denied && !d.isBot && (d.isShield || d.isRateLimit) ==>
      Respond(Decided(d)) == Forbidden("Reqwest blocked by security policy")
    ensures !d.denied ==> Respond(Decided(d)) == Next
  {
  }

  /** A provider failure is a 500 with the fixed message, and next() is not called. */
  lemma FailureIsServerError(user: Option<RequestUser>, protect: Rule -> Reply)
    requires protect(RuleFor(EffectiveRole(user))) == Threw
    ensures Gate(user, protect) == ServerError("Something went wrong from  security middleware")
  {
  }

  /**
   * The tier's message is never used: two roles whose rules get the same
   * reply from the provider get the same outcome, whatever their messages.
   */
  lemma OutcomeDependsOnlyOnReply(u1: Option<RequestUser>, u2: Option<RequestUser>, protect: Rule -> Reply)
    requires protect(RuleFor(EffectiveRole(u1))) == protect(RuleFor(EffectiveRole(u2)))
    ensures Gate(u1, protect) == Gate(u2, protect)
  {
  }

  /** Every outcome is one of: a 403 with one of the two messages, next(), or the 500. */
  lemma OutcomeShapes(user: Option<RequestUser>, protect: Rule -> Reply)
    ensures Gate(user, protect) in {Forbidden(BotMessage), Forbidden(PolicyMessage), Next, ServerError(FailureMessage)}
  {
  }
}
