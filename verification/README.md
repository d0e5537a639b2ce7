# ShhhBot quiet-hours decision core, in Dafny

ShhhBot watches Telegram group chats. When someone posts during the
configured quiet hours, the bot answers with a reminder. This project models
the pure decision at the centre of its message handler and proves properties
of it:

- **Quiet-window membership** (`is_quiet_time`). A time of day `t` is quiet for
  the window `[start, end)` in two cases. If `start < end`, it is quiet when
  `start <= t < end`. Otherwise the window wraps past midnight, and `t` is quiet
  when `t >= start or t < end`; this also covers `start == end`. Times are
  modelled as Python's `datetime.time` (hour, minute, second, microsecond),
  and comparison as Python's field-by-field comparison. `TimeOfDay` proves that
  this comparison orders times the same way microseconds since midnight do. It
  does so through a general lemma about mixed-radix digit sequences.
- **Admission** (the checks at the top of `message_control`). An update is
  admitted when it carries a message from a `"group"` or `"supergroup"` chat,
  unless the message has a sender and that sender is a bot. A message with no
  sender is admitted.
- **Decision**. The handler takes its reminder branch exactly when the update
  is admitted and the local time of day is quiet.

The window bounds are parameters. The bot's configured window, 19:00 to 08:00,
is one concrete instance (`QuietWindow.QuietStart`, `QuietWindow.QuietEnd`).
The source comment next to the start value says 22:00, but the value is
19:00, and the model uses the value.

Files: `wrappers.dfy` (Option/Result), `time_of_day.dfy` (module `TimeOfDay`),
`quiet_window.dfy` (module `QuietWindow`), `admission.dfy` (module
`Admission`), `handler.dfy` (module `Handler`).

## Model

| member | source | states |
|---|---|---|
| TimeOfDay.Cmp | shhh_bot.py:47-52 | Python's comparison of two equal-length field tuples yields -1, 0 or 1, and yields 0 exactly when the tuples are equal |
| TimeOfDay.Fields | shhh_bot.py:47-52 | the tuple Python compares for a time holds each field within its range: hour below 24, minute and second below 60, microsecond below 10^6 |
| TimeOfDay.ValueBound | shhh_bot.py:45 | a tuple whose fields are within their ranges denotes a number from 0 up to, but excluding, the product of the ranges |
| TimeOfDay.CmpIsValueOrder | shhh_bot.py:47-52 | for in-range tuples, field-by-field comparison gives the sign of the difference of the numbers they denote |
| TimeOfDay.ToMicros | shhh_bot.py:45 | every time of day is strictly less than 24 hours after midnight |
| TimeOfDay.ToMicrosIsValue | shhh_bot.py:45 | microseconds since midnight are the mixed-radix value of (hour, minute, second, microsecond) in radices 24/60/60/10^6 |
| TimeOfDay.FromMicros | shhh_bot.py:45 | an offset within the day maps to a time whose offset is that same number |
| TimeOfDay.FromMicrosToMicros | shhh_bot.py:45 | converting a time to microseconds and back gives the same time |
| TimeOfDay.Compare | shhh_bot.py:47-52 | comparing two `datetime.time` values orders them as their microseconds since midnight do, and they compare equal only when they are the same time |
| TimeOfDay.TimeOf | shhh_bot.py:45 | `now.time()` keeps the position within the day: the offset is the local instant modulo one day |
| TimeOfDay.TimeOfIsDaily | shhh_bot.py:45 | instants a whole number of days apart have the same time of day |
| QuietWindow.CaseSplitIsArc | shhh_bot.py:47-52 | for offsets within a day, the `start < end` case split is membership in the clockwise arc from start, inclusive, to end, exclusive |
| QuietWindow.IsQuiet | shhh_bot.py:40-52 | `is_quiet_time` holds exactly when the time lies on the clockwise arc of the 24-hour dial from start to end; when the bounds coincide, the arc is the whole dial |
| QuietWindow.QuietInsideOneDay | shhh_bot.py:47-49 | when start < end, a time is quiet if and only if start <= t < end |
| QuietWindow.QuietAcrossMidnight | shhh_bot.py:50-52 | when start >= end, a time is quiet if and only if t >= start or t < end |
| QuietWindow.StartIsQuiet | shhh_bot.py:47-52 | the start bound is quiet in both branches |
| QuietWindow.EndIsNotQuiet | shhh_bot.py:47-52 | the end bound is quiet if and only if start == end |
| QuietWindow.EqualBoundsAlwaysQuiet | shhh_bot.py:50-52 | a window whose start equals its end makes every time quiet |
| QuietWindow.SwappedBoundsComplement | shhh_bot.py:47-52 | for distinct bounds, swapping start and end gives exactly the complementary set of quiet times |
| QuietWindow.ConfiguredWindowByHour | shhh_bot.py:31-52 | with the configured bounds 19:00 and 08:00, a time is quiet if and only if its hour is at least 19 or below 8 |
| QuietWindow.ConfiguredWindowExamples | shhh_bot.py:31-52 | with the configured bounds: 07:59 and 07:59:59.999999 are quiet; 08:00, 18:59 and 18:59:59.999999 are not; 19:00 and 00:00 are quiet |
| QuietWindow.QuietIsDaily | shhh_bot.py:45-52 | whether an instant is quiet is the same for instants a whole number of days apart |
| Admission.Screen | shhh_bot.py:60-73 | an admitted update passes on its own message; it is rejected for lack of a message exactly when it has none; a chat-type rejection implies the type is neither group nor supergroup; a bot rejection implies a sender that is a bot |
| Admission.Admit | shhh_bot.py:60-73 | an update is admitted if and only if it has a message, the chat type is "group" or "supergroup", and the sender is absent or not a bot |
| Admission.NoMessageRejected | shhh_bot.py:60-63 | an update without a message is rejected as such |
| Admission.NonGroupRejected | shhh_bot.py:65-69 | a message from any chat type other than group or supergroup is rejected, whoever sent it |
| Admission.BotRejected | shhh_bot.py:72-73 | a group message from a bot is rejected |
| Admission.AbsentSenderAdmitted | shhh_bot.py:72-73 | a group message with no sender is admitted |
| Handler.Decide | shhh_bot.py:60-77 | a reminder decision is only made for an update with a message, and it targets that message's chat |
| Handler.DecideIsAdmitAndQuiet | shhh_bot.py:60-77 | the handler takes the reminder branch if and only if the update is admitted and the local time of day is quiet |
| TimeOfDay.TimeOfWithinDay | shhh_bot.py:45 | the time of day of an offset within the reference day is the time that offset encodes |
| Handler.ConfiguredScenario | shhh_bot.py:31-77 | with the configured window, a human's supergroup message is answered at 20:00 and 03:00 and ignored at 09:00 and 18:59 |
| Handler.PrivateChatNeverReminded | shhh_bot.py:65-69 | a message in a private chat is never answered, at any time and for any window |

## Left out

- Telegram SDK types, application building, handler registration and the async structure (shhh_bot.py:6-12, 55). These are foreign library code and concurrency plumbing. Updates are modelled as plain datatypes holding only the fields the handler reads.
- Reading the clock and converting to the Asia/Tbilisi zone (`datetime.now(TZ)`, `ZoneInfo`). These are library code. The local wall-clock instant is an input, counted in microseconds from some local midnight. Daylight-saving folds are therefore not modelled.
- The `tzinfo` and `fold` attributes of `datetime.time`. Python ignores them when comparing naive times, and every time compared here is naive.
- Logging, the bot token read from the environment, and the reminder text (shhh_bot.py:14-19, 24, 35-37). These are I/O and constants that play no part in any decision.
- What the reminder branch does after the `if is_quiet_time(now):` test at line 77 (logging and the reply). `Handler.Remind` marks only that the branch is taken; the reply is network I/O.
- Any per-chat cooldown or last-reminder state. The decision modelled here (shhh_bot.py:60-77) reads no such state.
