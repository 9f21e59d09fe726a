/** What the Telegram tables store about meaning: the content of an inbound event, the intent of a reply,
    and the completion that ties one to the other. Tokens are kept as digests. */
module TelegramContent {
  import opened Common
  import Identity

  /** The owner of an account: a user and the user's ledger. */
  type Actor = Identity.Actor

  datatype CommandPurpose = ForLink | ForUnlink

  datatype Content =
    | InvalidCommand(purpose: CommandPurpose)
    | PlainText(text: string)
    | LinkCommand(digest: Identity.Digest)
    | UnlinkCommand(digest: Identity.Digest)

  datatype Rejection = MalformedCommand | WrongIdentity | AlreadyUsed | TooLate | UnknownChallenge | LinkedAlready

  datatype Intent =
    | ChallengeRejected(purpose: CommandPurpose, reason: Rejection)
    | LinkRequired
    | CaptureUnavailable
    | LinkSucceeded
    | UnlinkSucceeded

  datatype Completion =
    | LinkedTextAccepted(actor: Actor, text: string, intent: Intent)
    | ScopedReply(actor: Actor, intent: Intent)
    | UnscopedReply(intent: Intent)

  function ActorOf(completion: Completion): Option<Actor> {
    if completion.UnscopedReply? then None else Some(completion.actor)
  }
}
