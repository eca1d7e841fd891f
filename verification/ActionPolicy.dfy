/** The default-deny decision about one action, and the identifier grammar shared by the stores. */
module ActionPolicy {
  /** A value whose type annotation nobody checked. */
  datatype Field = Str(s: string) | NotStr

  datatype Flag = Flag(b: bool) | NotFlag

  datatype Actor = Owner | Guest | System | Unknown

  datatype ActorField = Known(actor: Actor) | NotActor

  datatype ActorArg = Context(actorId: Field, actor: ActorField, sessionId: Field, source: Field) | NotContext

  datatype DataScope = Public | Session | OwnerPrivate | SystemData

  datatype ActionRisk = ReadOnly | ReversibleWrite | Network | OsControl | Destructive | Privileged

  datatype PolicyOutcome = Allow | RequireConfirmation | Deny

  predicate IsAlphanumeric(c: char) {
    'a' <= c <= 'z' || '0' <= c <= '9'
  }

  predicate IsIdentifierChar(c: char) {
    IsAlphanumeric(c) || c == '_' || c == '.' || c == '-'
  }

  /** A lower-case letter or digit, then up to limit - 1 letters, digits, underscores, dots or dashes. */
  predicate Matches(s: string, limit: nat) {
    1 <= |s| <= limit && IsAlphanumeric(s[0]) && forall c | c in s :: IsIdentifierChar(c)
  }

  predicate IsIdentifier(s: string) {
    Matches(s, 80)
  }

  predicate IsActorIdentifier(s: string) {
    Matches(s, 128)
  }

  predicate IsSourceIdentifier(s: string) {
    Matches(s, 32)
  }

  predicate ValidActor(arg: ActorArg) {
    && arg.Context? && arg.actor.Known?
    && arg.actorId.Str? && IsActorIdentifier(arg.actorId.s)
    && arg.sessionId.Str? && IsActorIdentifier(arg.sessionId.s)
    && arg.source.Str? && IsSourceIdentifier(arg.source.s)
  }

  datatype ActionContext = ActionContext(
    actor: Actor, dataScope: DataScope, risk: ActionRisk, userInitiated: Flag, confirmationGranted: bool)

  function EvaluateAction(context: ActionContext): PolicyOutcome {
    if context.userInitiated.NotFlag? then Deny
    else if context.actor.Unknown? || context.actor.System? then Deny
    else if context.actor.Guest? then
      if context.dataScope.OwnerPrivate? || context.dataScope.SystemData? then Deny
      else if !context.risk.ReadOnly? then Deny
      else Allow
    else if context.risk.ReadOnly? then Allow
    else if !context.userInitiated.b then Deny
    else if context.risk.Destructive? || context.risk.Privileged? then Deny
    else if !context.confirmationGranted then RequireConfirmation
    else Allow
  }

  /**
   Who may do what: a guest reads what is not private, the owner reads anything, and asks for and confirms
   any other action that is neither destructive nor privileged; nobody else does anything.
   */
  lemma AllowedExactlyWhen(context: ActionContext)
    ensures EvaluateAction(context).Allow? <==>
            && context.userInitiated.Flag?
            && (|| (context.actor.Guest? && context.risk.ReadOnly? && context.dataScope in {Public, Session})
                || (context.actor.Owner? && context.risk.ReadOnly?)
                || (context.actor.Owner? && context.risk in {ReversibleWrite, Network, OsControl}
                    && context.userInitiated == Flag(true) && context.confirmationGranted))
    ensures EvaluateAction(context).RequireConfirmation? <==>
            && context.actor.Owner? && context.risk in {ReversibleWrite, Network, OsControl}
            && context.userInitiated == Flag(true) && !context.confirmationGranted
  {
  }

  /** Confirmation never rescues a denial, never costs an allowance, and always settles a request for it. */
  lemma ConfirmationOnlySettlesRequests(context: ActionContext)
    requires !context.confirmationGranted
    ensures EvaluateAction(context.(confirmationGranted := true)) ==
            if EvaluateAction(context).RequireConfirmation? then Allow else EvaluateAction(context)
  {
  }

  /** Only the owner has side effects, and only ones the owner asked for and confirmed. */
  lemma SideEffectsAreOwned(context: ActionContext)
    requires EvaluateAction(context).Allow? && !context.risk.ReadOnly?
    ensures context.actor.Owner? && context.userInitiated == Flag(true) && context.confirmationGranted
    ensures !context.risk.Destructive? && !context.risk.Privileged?
  {
  }
}
