/** The decision the message handler makes: an admitted update that arrives
    in quiet hours takes the reminder branch for its chat; every other update
    is left alone. */
module Handler {
  import opened Wrappers
  import opened TimeOfDay
  import opened QuietWindow
  import opened Admission

  datatype Action = Ignore | Remind(chatId: int)

  /** `now` is the local wall-clock instant in microseconds from some local
      midnight; the window bounds are parameters. */
  function Decide(u: Update, now: int, start: Time, end: Time): (a: Action)
    ensures a.Remind? ==> u.message.Some? && a.chatId == u.message.value.chat.id
  {
    match Screen(u)
    case Failure(_) => Ignore
    case Success(m) => if IsQuiet(TimeOf(now), start, end) then Remind(m.chat.id) else Ignore
  }

  /** The handler reminds exactly when the update is admitted and the
      instant is in quiet hours. */
  lemma DecideIsAdmitAndQuiet(u: Update, now: int, start: Time, end: Time)
    ensures Decide(u, now, start, end).Remind? <==> Admit(u) && IsQuiet(TimeOf(now), start, end)
  {
  }

  /** A human's message in a supergroup, with the configured window: reminded
      at 20:00 and at 03:00, left alone at 09:00 and at 18:59. */
  lemma ConfiguredScenario(chatId: int, human: User)
    requires !human.isBot
    ensures var u := Update(Some(Message(Chat(chatId, "supergroup"), Some(human))));
      && Decide(u, 20 * 3_600_000_000, QuietStart, QuietEnd) == Remind(chatId)
      && Decide(u, 3 * 3_600_000_000, QuietStart, QuietEnd) == Remind(chatId)
      && Decide(u, 9 * 3_600_000_000, QuietStart, QuietEnd) == Ignore
      && Decide(u, 18 * 3_600_000_000 + 59 * 60_000_000, QuietStart, QuietEnd) == Ignore
  {
    TimeOfWithinDay(Time(20, 0, 0, 0));
    TimeOfWithinDay(Time(3, 0, 0, 0));
    TimeOfWithinDay(Time(9, 0, 0, 0));
    TimeOfWithinDay(Time(18, 59, 0, 0));
  }

  /** A private chat is never reminded, at any hour. */
  lemma PrivateChatNeverReminded(chatId: int, sender: Option<User>, now: int, start: Time, end: Time)
    ensures Decide(Update(Some(Message(Chat(chatId, "private"), sender))), now, start, end) == Ignore
  {
  }
}
