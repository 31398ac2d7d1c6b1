# CalendarBot in Dafny

A model of the dialog core of CalendarBot, a Telegram bot that adds events to and deletes
events from a user's Google Calendar. The chat sends menu buttons and answers. The bot leads
each chat through a chain of handlers, where each handler registers the next one for that
chat's following message.

The project has six modules:

- `Wrappers`: `Option` and `Result`.
- `Text`: the pieces of the Python runtime the handlers rely on: `int(text)`, `str(n)`, zero padding, `sep.join`, `str.lower()`.
- `DateTime`:
  - `datetime.strptime` with the formats `%Y-%m-%d` and `%H:%M`, modelled as the regular expression Python builds from the format. Alternatives are tried in order, then the "unconverted data remains" check runs, then the range check.
  - `datetime.combine(...).isoformat()`, the `full-date "T" partial-time` form of section 5.6 of RFC 3339, with seconds always `00`.
- `Calendar`:
  - the event body `create_event` sends, with its fixed reminders;
  - the listing `list_events` returns, which is a list of numbered lines or a bare sentinel string when the calendar is empty;
  - the Python list indexing that turns the user's number into an event.
- `Dialog`: the class `CalendarBot`. It holds the one global `event_data` draft that every chat writes into, and the map of handlers registered per chat. It has one method per handler, `Deliver` for a chat with a registered handler, and `Receive` for message routing.
- `Scenarios`: whole conversations run on a fresh bot, with the provider's answers as parameters.

Calls to the calendar provider are not made. Each one is a parameter: the list the provider returns, or whether an insert or delete call raised. Each handler returns the request it would send as a `GatewayCall`.

Behaviours of `main.py` worth knowing, all kept by the model:

- **Skip word.** The description is skipped by `пропустити`, in any letter case.
- **Shared draft.** All chats share one draft, which is never cleared. A second chat's answer overwrites the first chat's (`SharedDraft`).
- **Menu buttons during a dialog.** While a handler is registered, a button press is that handler's input and does not start a new dialog (`AddPressedMidDialog`).
- **Numbers are resolved against a fresh list.** The deletion step fetches the list again and indexes the fresh list, not the list it showed. If an earlier event disappears, number `k + 1` deletes what was shown as `k + 2` (`StaleNumberSelectsNextEvent`). Number `0` deletes the last event, and negative numbers count from the end.
- **Empty calendar.** The "nothing to delete" answer is never sent. The sentinel `"Немає подій"` is truthy, so the menu lists its characters one per line, and a deletion step is registered anyway (`DeleteFromEmptyCalendar`).
- **End before start.** Nothing compares the end of an event with its start.
- **Creation reply.** A created event is confirmed by its title, not by the provider's link. When the insert call raises, no reply is sent and the chat goes idle.

## Model

| member | source | states |
|---|---|---|
| Text.NatToString | CalendarBot/main.py:152 | `str(n)` of a number is a non-empty run of digits with no leading zero |
| Text.NatToStringValue | CalendarBot/main.py:152 | reading the digits of `str(n)` back as a decimal gives `n` |
| Text.ParseInt | CalendarBot/main.py:128 | `int(text)`; its contract is stated by `ParseIntAccepts` and `ParseIntOfNatToString` |
| Text.ParseIntAccepts | CalendarBot/main.py:128 | `int(text)` succeeds exactly on an optional sign followed by at least one digit; anything else is the `ValueError` branch |
| Text.ParseIntOfNatToString | CalendarBot/main.py:128 | the number shown in front of a listed event is read back by `int` as that number |
| Text.Pad2 | CalendarBot/main.py:211 | a two-digit field of `isoformat` is two digits whose value is the field |
| Text.Pad4 | CalendarBot/main.py:211 | the year of `isoformat` is four digits whose value is the year |
| Text.Pad2OfValue | CalendarBot/main.py:173 | a two-digit text is the zero-padded rendering of its own value |
| Text.Pad4OfValue | CalendarBot/main.py:173 | a four-digit text is the zero-padded rendering of its own value |
| Text.Chars | CalendarBot/main.py:119 | iterating a string yields its characters in order, one string each |
| Text.Join | CalendarBot/main.py:119 | `sep.join(parts)`; its contract on a string's characters is stated by `JoinChars`, and `DeleteSecond` shows it on lines |
| Text.JoinChars | CalendarBot/main.py:119 | joining the characters of a text puts the text's characters at the even positions and the separator at every odd one |
| Text.Lower | CalendarBot/main.py:208 | `lower()` keeps the length and lower-cases character by character |
| Text.LowerToCyrillic | CalendarBot/main.py:208 | exactly a basic Cyrillic letter and its capital lower-case to that letter |
| Text.LowerEqualsCyrillicWord | CalendarBot/main.py:208 | a text lower-cases to a Cyrillic word exactly when it spells the word letter by letter in either case |
| DateTime.ParseDate | CalendarBot/main.py:173 | an accepted date is a real calendar date, from a text of 8 to 10 characters; `ParseDateExact` states exactly which texts it accepts and as what |
| DateTime.ParseTime | CalendarBot/main.py:191 | an accepted time is in range, from a text of 3 to 5 characters; `ParseTimeExact` states exactly which texts it accepts and as what |
| DateTime.IsoFormat | CalendarBot/main.py:209-211 | `datetime.combine(d, t).isoformat()`; its contract is stated by `IsoFormatRoundTrip`, `IsoFormatCanonical` and `IsoFormatFieldsParse` |
| DateTime.MatchYear | CalendarBot/main.py:173 | `%Y` consumes exactly four characters |
| DateTime.MatchMonth | CalendarBot/main.py:173 | `%m` consumes one or two characters of the input |
| DateTime.MatchDay | CalendarBot/main.py:173 | `%d` consumes one or two characters of the input |
| DateTime.MatchHour | CalendarBot/main.py:191 | `%H` consumes one or two characters of the input |
| DateTime.MatchMinute | CalendarBot/main.py:191 | `%M` consumes one or two characters of the input |
| DateTime.MatchMonthOfText | CalendarBot/main.py:173 | every spelling of a month followed by `-` is matched whole by `%m`, with that month as value |
| DateTime.MonthTextOfMatch | CalendarBot/main.py:173 | whatever `%m` matches is a spelling of the month it yields |
| DateTime.MatchDayOfText | CalendarBot/main.py:173 | every spelling of a day, including a space-padded one, is matched whole by `%d` |
| DateTime.DayTextOfMatch | CalendarBot/main.py:173 | whatever `%d` matches is a spelling of the day it yields |
| DateTime.MatchHourOfText | CalendarBot/main.py:191 | every spelling of an hour followed by `:` is matched whole by `%H` |
| DateTime.HourTextOfMatch | CalendarBot/main.py:191 | whatever `%H` matches is a spelling of the hour it yields |
| DateTime.MatchMinuteOfText | CalendarBot/main.py:191 | every spelling of a minute is matched whole by `%M` |
| DateTime.MinuteTextOfMatch | CalendarBot/main.py:191 | whatever `%M` matches is a spelling of the minute it yields |
| DateTime.DigitCharOfValue | CalendarBot/main.py:173 | a digit is the digit of its own value |
| DateTime.ParseDateSound | CalendarBot/main.py:173 | an accepted date text yields a real calendar date (year 1..9999, leap years as in section 5.7 of RFC 3339) and spells it |
| DateTime.ParseDateComplete | CalendarBot/main.py:173 | every spelling of a real date is accepted as that date |
| DateTime.ParseDateExact | CalendarBot/main.py:173 | `strptime(s, '%Y-%m-%d')` yields `d` if and only if `d` is a real date and `s` spells it |
| DateTime.ParseTimeSound | CalendarBot/main.py:191 | an accepted time text yields hour 0..23 and minute 0..59 and spells them |
| DateTime.ParseTimeComplete | CalendarBot/main.py:191 | every spelling of a time is accepted as that time |
| DateTime.ParseTimeExact | CalendarBot/main.py:191 | `strptime(s, '%H:%M')` yields `t` if and only if `s` spells `t` |
| DateTime.SpellsDateOf | CalendarBot/main.py:173 | a padded year, a month spelling and a day spelling joined by `-` spell the date |
| DateTime.ParseDateLeapDay | CalendarBot/main.py:173 | 29 February is accepted in a leap year |
| DateTime.ParseDateNonLeapDay | CalendarBot/main.py:173 | 29 February of a common year fails the range check |
| DateTime.ParseDateMonth13 | CalendarBot/main.py:173 | month 13 fails the pattern |
| DateTime.ParseDateYearZero | CalendarBot/main.py:173 | year 0000 matches the pattern but fails the range check |
| DateTime.ParseDateTrailingText | CalendarBot/main.py:173 | a three-digit day leaves unconverted data |
| DateTime.ParseDateDayFirst | CalendarBot/main.py:173 | a day-first date fails the pattern |
| DateTime.ParseDateOneDigitFields | CalendarBot/main.py:173 | a one-digit month and day are accepted |
| DateTime.ParseDateSpacePaddedDay | CalendarBot/main.py:173 | a day padded with a space is accepted |
| DateTime.ParseTimeCases | CalendarBot/main.py:191 | `14:30` and `9:5` are accepted, `24:00` fails the pattern, and `23:60` leaves unconverted data |
| DateTime.IsoFormatRoundTrip | CalendarBot/main.py:209-211 | the submitted timestamp is 19 characters and reads back as the draft's date and time with zero seconds |
| DateTime.IsoFormatCanonical | CalendarBot/main.py:209-211 | every well-formed timestamp with zero seconds and a year from 1 is the `isoformat` of what it reads as |
| DateTime.IsoFormatFieldsParse | CalendarBot/main.py:209-211 | the date and time parts of the timestamp are accepted by the dialog's own date and time parsers as the draft's values |
| Calendar.CreateEventBody | CalendarBot/main.py:44-64 | the body carries the title, description and location as given, both times tagged UTC, and exactly an e-mail reminder a day before and a pop-up 10 minutes before, with default reminders off |
| Calendar.EventLine | CalendarBot/main.py:150-152 | one line of the listing; its contract is stated by `EventListingLine` |
| Calendar.EventListing | CalendarBot/main.py:146-157 | a list value holds one line per event; `EventListingTruthy` and `EventListingLine` state the rest |
| Calendar.ListEvents | CalendarBot/main.py:146-157 | the loop builds the listing: one line `i. title - description` per event, with fallback labels, or the sentinel string when there are none |
| Calendar.EventListingTruthy | CalendarBot/main.py:153-157 | the value `list_events` returns is always truthy, and it is the sentinel exactly when the calendar is empty |
| Calendar.EmptyCalendarDeletionText | CalendarBot/main.py:117-120 | on an empty calendar the deletion menu holds the sentinel's characters separated by newlines |
| Calendar.EventListingLine | CalendarBot/main.py:149-152 | line `k` starts with the number `k + 1`, which `int` reads back, and names the event's title and description or their fallbacks |
| Calendar.PyIndex | CalendarBot/main.py:132 | Python indexing succeeds exactly for `-len <= i < len`, and negative indices count from the end |
| Calendar.SelectForDeletion | CalendarBot/main.py:128-132 | a selected position is a position of the fetched list, and only a text `int` reads selects one; `SelectForDeletionRange` states exactly which numbers select which event |
| Calendar.SelectForDeletionRange | CalendarBot/main.py:128-132 | a number selects an event exactly when `1 - len <= n <= len`; `n >= 1` selects position `n - 1` and `n <= 0` selects position `len + n - 1` |
| Calendar.ZeroSelectsLast | CalendarBot/main.py:132 | the number 0 selects the last event |
| Calendar.ShownNumberSelectsShownEvent | CalendarBot/main.py:126-132 | when the list has not changed, the number shown in front of an event selects that event |
| Calendar.StaleNumberSelectsNextEvent | CalendarBot/main.py:129-132 | when an event listed before position `k` is gone by the time the user answers, the number shown for position `k` selects the event shown after it |
| Dialog.RouteOf | CalendarBot/main.py:83-113 | an idle chat's message goes to the `/start` handler when its first whitespace-separated word, with any `@` suffix dropped, is `/start`, or to the handler of the button whose text it equals; the handlers do not overlap |
| Dialog.IsSkipWord | CalendarBot/main.py:208 | `text.lower() == 'пропустити'`; its contract is stated by `SkipWordAnyCase` |
| Dialog.SkipWordAnyCase | CalendarBot/main.py:208 | the description is skipped exactly when the text is `пропустити` written letter by letter in either case |
| Dialog.StoredDescription | CalendarBot/main.py:208 | the stored description is `None` exactly for the skip word, and otherwise the text itself |
| Dialog.DeletionStep | CalendarBot/main.py:126-143 | the deletion step asks again exactly on a non-number or a number that selects nothing in the list it fetches again, and then makes no request; a failed fetch is reported and ends the dialog; it deletes exactly the selected event of the fetched list and names it only when the delete succeeds and the event has a title; a raising delete is reported with its error text, and a deleted event without a title with the `KeyError` text `'summary'` |
| Dialog.SubmittedBody | CalendarBot/main.py:209-211 | the body built from the draft; its contract is stated by `SubmittedBodyFromDraft` |
| Dialog.Accepted | CalendarBot/main.py:166-208 | the value a creation step stores is of the kind and range its key holds, and the title and description steps accept every text |
| Dialog.StepTaken | CalendarBot/main.py:166-205 | one creation step's effect on the draft, the registrations and the reply; `RunFieldStep`, `Deliver` and `Receive` are proved to satisfy it |
| Dialog.SubmittedBodyFromDraft | CalendarBot/main.py:207-211 | the submitted event carries the draft's title and description (none when skipped), no location, UTC times, the fixed reminders, and timestamps that read back as the draft's dates and times |
| Dialog.PopThenRegister | CalendarBot/main.py:164-212 | taking a chat's handler off before it runs and then registering the next handler leaves every other chat's registration as it was |
| Dialog.CalendarBot.constructor | CalendarBot/main.py:160 | the bot starts with an empty draft and no chat waiting |
| Dialog.CalendarBot.AddEvent | CalendarBot/main.py:162-164 | asks for the title and registers the title step for the chat; the draft is not reset |
| Dialog.CalendarBot.GetEventName | CalendarBot/main.py:166-169 | stores any text as the title and registers the start-date step |
| Dialog.CalendarBot.GetEventDateStart | CalendarBot/main.py:171-178 | an accepted date is stored as the start date and the end-date step registered; a rejected one leaves the draft as it was and registers the same step again |
| Dialog.CalendarBot.GetEventDateEnd | CalendarBot/main.py:180-187 | the same for the end date, moving on to the start time |
| Dialog.CalendarBot.GetEventTimeStart | CalendarBot/main.py:189-196 | an accepted time is stored as the start time and the end-time step registered; a rejected one leaves the draft as it was and registers the same step again |
| Dialog.CalendarBot.GetEventTimeEnd | CalendarBot/main.py:198-205 | the same for the end time, moving on to the description |
| Dialog.CalendarBot.GetEventDescription | CalendarBot/main.py:207-212 | stores the description or `None`, asks the provider to insert the event built from the whole draft, registers nothing, and confirms with the draft's title unless the insert raised |
| Dialog.CalendarBot.DeleteEventHandler | CalendarBot/main.py:116-123 | shows the listing joined by newlines and registers the deletion step; the "nothing to delete" branch cannot be reached; a failed list call sends nothing |
| Dialog.CalendarBot.ProcessEventDeletion | CalendarBot/main.py:126-143 | answers, requests and re-registers exactly as `DeletionStep` says, leaving the draft alone |
| Dialog.CalendarBot.RunFieldStep | CalendarBot/main.py:166-205 | a title, date or time step on valid input writes only its own key, registers its successor and asks the successor's question; on invalid input it keeps the draft, registers itself again and complains |
| Dialog.CalendarBot.RunDateStep | CalendarBot/main.py:171-187 | the start-date or end-date step, whichever is given, stores an accepted date under its own key and moves on; a rejected date registers the same step again |
| Dialog.CalendarBot.RunTimeStep | CalendarBot/main.py:189-205 | the start-time or end-time step, whichever is given, stores an accepted time under its own key and moves on; a rejected time registers the same step again |
| Dialog.CalendarBot.Deliver | CalendarBot/main.py:162-212 | a message for a waiting chat runs the registered handler once: creation steps as `RunFieldStep` and `GetEventDescription` say, the deletion step as `DeletionStep` says; the draft only gains keys and no other chat's registration changes |
| Dialog.CalendarBot.Receive | CalendarBot/main.py:83-113 | a waiting chat's message goes to its registered handler whatever its text, with the outcome `Deliver` states for each step (the field step taken without a request, the insert request and its reply at the description, the `DeletionStep` outcome at the deletion step); an idle chat's message goes to `/start`, to a button handler, or nowhere, and makes no request; the view handler sends the listing value itself |
| Scenarios.TeamSync | CalendarBot/main.py:162-212 | "Add event", a title, two dates, two times and `Пропустити` make no request until the description, then one insert request with that title, both timestamps and no description, confirm the title, and leave the chat idle |
| Scenarios.CapitalisedSkipWord | CalendarBot/main.py:208 | `Пропустити` with a capital first letter skips the description |
| Scenarios.Stamp14 | CalendarBot/main.py:211 | 15 October 2024 at 14:00 is sent as `2024-10-15T14:00:00` |
| Scenarios.Stamp15 | CalendarBot/main.py:211 | 15 October 2024 at 15:00 is sent as `2024-10-15T15:00:00` |
| Scenarios.DayFirstDate | CalendarBot/main.py:171-178 | a day-first date at the start-date step is rejected, the same step stays registered, nothing is requested, and the draft holds only the title |
| Scenarios.AddPressedMidDialog | CalendarBot/main.py:171-178 | "Add event" pressed at the start-date step is rejected as a date and keeps the title given |
| Scenarios.DeleteSecond | CalendarBot/main.py:116-143 | with two events, the menu numbers both, "2" deletes the second event, names it and ends the dialog |
| Scenarios.DeleteFromEmptyCalendar | CalendarBot/main.py:116-123 | on an empty calendar the menu lists the sentinel's characters and the deletion step is registered |
| Scenarios.DeleteOutOfRange | CalendarBot/main.py:126-141 | "3" with two events is refused, nothing is requested and the deletion step stays registered |
| Scenarios.SharedDraft | CalendarBot/main.py:160-167 | when two chats give titles in turn, the draft holds the second chat's title for both |

## Left out

- Telegram transport: polling, keyboards, and the reply texts themselves. Replies are kinds of messages, not strings.
- `connect_to_google_calendar` and the `/start` authorization: OAuth, token files, pickling, credential refresh. `/start` is modelled as a greeting with no other effect.
- Calendar provider calls. They are parameters, as described above. The `print` of the created event's link is output only.
- Concurrency: handlers run one message at a time, in the order given.
- `int()` here accepts only an optional sign and ASCII digits. Python also accepts surrounding whitespace, underscores between digits and non-ASCII decimal digits.
- `strptime` here accepts only ASCII digits, where Python's `\d` matches any Unicode decimal digit. Its case-insensitive matching does not matter for these formats.
- `Text.Lower`: implements `str.lower()` only for ASCII and the Cyrillic capitals U+0400..U+042F and U+0490. Other characters are returned unchanged, which is exact for deciding whether a text is the skip word.
- A message without text, where `message.text` is `None`, is not modelled.
- What Telegram does with the list value the "view events" handler hands to `send_message` is not modelled. The model returns the listing value itself.
- More than one handler registered for the same chat is not modelled. The bot registers at most one per chat.
