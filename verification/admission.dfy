/** The admission checks the message handler runs on every update before it
    looks at the clock: the update must carry a message, the message must come
    from a group or supergroup, and its sender, when there is one, must not be
    a bot. */
module Admission {
  import opened Wrappers

  datatype User = User(isBot: bool)

  /** `kind` is the chat type string: "private", "group", "supergroup",
      "channel", ... */
  datatype Chat = Chat(id: int, kind: string)

  /** `fromUser` is absent for messages posted in channels. */
  datatype Message = Message(chat: Chat, fromUser: Option<User>)

  /** An incoming update; service updates carry no message. */
  datatype Update = Update(message: Option<Message>)

  /** Why an update stops at admission. */
  datatype Rejection = NoMessage | NotAGroup | FromBot

  /** The chat types the bot works in. */
  predicate IsGroupKind(kind: string) {
    kind in ["group", "supergroup"]
  }

  /** Runs the checks in the handler's order and either passes the message on
      or names the first check that failed. */
  function Screen(u: Update): (r: Result<Message, Rejection>)
    ensures r.Success? ==> u.message == Some(r.value)
    ensures r == Failure(NoMessage) <==> u.message.None?
    ensures r == Failure(NotAGroup) ==> !IsGroupKind(u.message.value.chat.kind)
    ensures r == Failure(FromBot) ==> u.message.value.fromUser.Some? && u.message.value.fromUser.value.isBot
  {
    match u.message
    case None => Failure(NoMessage)
    case Some(m) =>
      if !IsGroupKind(m.chat.kind) then Failure(NotAGroup)
      else if m.fromUser.Some? && m.fromUser.value.isBot then Failure(FromBot)
      else Success(m)
  }

  /** The update reaches the quiet-time check: admission is the conjunction
      of three independent conditions, whatever order they are checked in; a
      message without a sender passes the third. */
  predicate Admit(u: Update)
    ensures Admit(u) <==>
      && u.message.Some?
      && (u.message.value.chat.kind == "group" || u.message.value.chat.kind == "supergroup")
      && (u.message.value.fromUser.None? || !u.message.value.fromUser.value.isBot)
  {
    Screen(u).Success?
  }

  /** An update without a message is never admitted. */
  lemma NoMessageRejected(u: Update)
    requires u.message.None?
    ensures Screen(u) == Failure(NoMessage)
  {
  }

  /** A message from a private chat or a channel is rejected whoever sent it. */
  lemma NonGroupRejected(m: Message)
    requires m.chat.kind != "group" && m.chat.kind != "supergroup"
    ensures Screen(Update(Some(m))) == Failure(NotAGroup)
  {
  }

  /** A group message from a bot is rejected. */
  lemma BotRejected(chat: Chat, bot: User)
    requires IsGroupKind(chat.kind) && bot.isBot
    ensures Screen(Update(Some(Message(chat, Some(bot))))) == Failure(FromBot)
  {
  }

  /** A group message with no sender is admitted. */
  lemma AbsentSenderAdmitted(chat: Chat)
    requires IsGroupKind(chat.kind)
    ensures Screen(Update(Some(Message(chat, None)))) == Success(Message(chat, None))
  {
  }
}
