/**
 * Whole conversations run against a fresh bot, message by message, with the calendar
 * provider's answers given as parameters. Each one states what the provider is asked to do
 * and what the user is told at the end.
 */
module Scenarios {
  import opened Wrappers
  import opened Text
  import opened DateTime
  import opened Calendar
  import opened Dialog

  const Oct15: Date := Date(2024, 10, 15)

  lemma ParseOct15()
    ensures ParseDate("2024-10-15") == Ok(Oct15)
  {
    assert "2024-10-15" == Pad4(2024) + "-" + Pad2(10) + "-" + Pad2(15);
    SpellsDateOf(Oct15, Pad2(10), Pad2(15));
    ParseDateComplete("2024-10-15", Oct15);
  }

  lemma Pad2Literals()
    ensures Pad2(0) == "00" && Pad2(10) == "10" && Pad2(14) == "14" && Pad2(15) == "15"
    ensures Pad2(20) == "20" && Pad2(24) == "24"
  {
    assert DigitChar(0) == '0' && DigitChar(1) == '1' && DigitChar(2) == '2';
    assert DigitChar(4) == '4' && DigitChar(5) == '5';
  }

  /** The two timestamps of the team-sync event. */
  const Start: string := IsoFormat(Oct15, Time(14, 0))
  const End: string := IsoFormat(Oct15, Time(15, 0))

  lemma Stamp14()
    ensures Start == "2024-10-15T14:00:00"
  {
    Pad2Literals();
    assert Pad4(2024) == "2024";
  }

  lemma Stamp15()
    ensures End == "2024-10-15T15:00:00"
  {
    Pad2Literals();
    assert Pad4(2024) == "2024";
  }

  /**
   * Answers a field question of a chat's creation dialog with a text the step accepts; no
   * request reaches the provider.
   */
  method Answer(bot: CalendarBot, chat: ChatId, text: string, value: DraftValue) returns (call: GatewayCall)
    requires bot.Valid() && chat in bot.pending
    requires var step := bot.pending[chat];
      !step.AwaitDeletionIndex? && !step.AwaitDescription? && Accepted(step, text) == Some(value)
    modifies bot
    ensures bot.Valid()
    ensures var step := old(bot.pending[chat]);
      && bot.draft == old(bot.draft)[StepKey(step) := value]
      && bot.pending == old(bot.pending)[chat := Successor(step).value]
    ensures call == NoCall
  {
    var step := bot.pending[chat];
    PopThenRegister(bot.pending, chat);
    var reply;
    reply, call := bot.Deliver(chat, text, Ok([]), None, None);
  }

  lemma ParseTimes()
    ensures ParseTime("14:00") == Ok(Time(14, 0)) && ParseTime("15:00") == Ok(Time(15, 0))
  {
  }

  /** Walks one chat from the start-date prompt to the start-time prompt. */
  method EnterDates(bot: CalendarBot, chat: ChatId) returns (quiet: bool)
    requires bot.Valid() && chat in bot.pending && bot.pending[chat] == AwaitStartDate
    modifies bot
    ensures bot.Valid() && bot.pending == old(bot.pending)[chat := AwaitStartTime]
    ensures bot.draft == old(bot.draft)[StartDate := DateValue(Oct15)][EndDate := DateValue(Oct15)]
    ensures quiet
  {
    ParseOct15();
    var c1 := Answer(bot, chat, "2024-10-15", DateValue(Oct15));
    var c2 := Answer(bot, chat, "2024-10-15", DateValue(Oct15));
    quiet := c1 == NoCall && c2 == NoCall;
  }

  /** Walks one chat from the start-time prompt to the description prompt. */
  method EnterTimes(bot: CalendarBot, chat: ChatId) returns (quiet: bool)
    requires bot.Valid() && chat in bot.pending && bot.pending[chat] == AwaitStartTime
    modifies bot
    ensures bot.Valid() && bot.pending == old(bot.pending)[chat := AwaitDescription]
    ensures bot.draft == old(bot.draft)[StartTime := TimeValue(Time(14, 0))][EndTime := TimeValue(Time(15, 0))]
    ensures quiet
  {
    ParseTimes();
    var c1 := Answer(bot, chat, "14:00", TimeValue(Time(14, 0)));
    var c2 := Answer(bot, chat, "15:00", TimeValue(Time(15, 0)));
    quiet := c1 == NoCall && c2 == NoCall;
  }

  /**
   * Answers the title, date and time questions of one chat's creation dialog; none of these
   * answers makes a request.
   */
  method FillDraft(bot: CalendarBot, chat: ChatId, title: string) returns (quiet: bool)
    requires bot.Valid() && chat in bot.pending && bot.pending[chat] == AwaitName
    modifies bot
    ensures bot.Valid() && bot.pending == old(bot.pending)[chat := AwaitDescription]
    ensures bot.draft == old(bot.draft)[Summary := TextValue(title)]
                        [StartDate := DateValue(Oct15)][EndDate := DateValue(Oct15)]
                        [StartTime := TimeValue(Time(14, 0))][EndTime := TimeValue(Time(15, 0))]
    ensures quiet
  {
    var c := Answer(bot, chat, title, TextValue(title));
    var datesQuiet := EnterDates(bot, chat);
    var timesQuiet := EnterTimes(bot, chat);
    quiet := c == NoCall && datesQuiet && timesQuiet;
  }

  lemma CapitalisedSkipWord()
    ensures StoredDescription("Пропустити") == NoneValue
  {
    SkipWordAnyCase("Пропустити");
  }

  /** The event body submitted for the team-sync draft. */
  lemma TeamSyncBody(draft: Draft)
    requires WellTyped(draft) && Collected(AwaitDescription) + {Description} <= draft.Keys
    requires draft[Summary] == TextValue("Team sync") && draft[Description] == NoneValue
    requires draft[StartDate] == DateValue(Oct15) && draft[EndDate] == DateValue(Oct15)
    requires draft[StartTime] == TimeValue(Time(14, 0)) && draft[EndTime] == TimeValue(Time(15, 0))
    ensures SubmittedBody(draft) == CreateEventBody("Team sync", Start, End, None, None)
  {
  }

  /** Answers the description question; the chat's dialog ends with the insert request. */
  method Describe(bot: CalendarBot, chat: ChatId, text: string) returns (reply: Reply, call: GatewayCall)
    requires bot.Valid() && bot.pending == map[chat := AwaitDescription]
    modifies bot
    ensures bot.draft == old(bot.draft)[Description := StoredDescription(text)] && bot.pending == map[]
    ensures Submitted(bot.draft, call, reply, None)
  {
    reply, call := bot.Deliver(chat, text, Ok([]), None, None);
    assert bot.pending == map[];
  }

  /**
   * "Add event", "Team sync", two dates, two times and the skip word with a capital first
   * letter: no message before the description makes a request, the provider is then asked
   * to create the event with no description, the user is told it was created, and the chat
   * is idle again.
   */
  method TeamSync() returns (quiet: bool, reply: Reply, call: GatewayCall, idle: bool)
    ensures quiet
    ensures call == Insert(CreateEventBody("Team sync", Start, End, None, None))
    ensures reply == Created("Team sync")
    ensures idle
  {
    var bot := new CalendarBot();
    var chat: ChatId := 1;
    reply, call := bot.Receive(chat, AddButton, Ok([]), None, None);
    var started := call == NoCall;
    var filled := FillDraft(bot, chat, "Team sync");
    quiet := started && filled;
    reply, call := Describe(bot, chat, "Пропустити");
    CapitalisedSkipWord();
    TeamSyncBody(bot.draft);
    idle := chat !in bot.pending;
  }

  /**
   * A date written day first at the start-date step: the user is asked again, the same step
   * stays registered, the draft keeps only the title and nothing reaches the provider.
   */
  method DayFirstDate() returns (reply: Reply, call: GatewayCall, step: Option<Step>, draft: Draft)
    ensures reply == BadDate && call == NoCall
    ensures step == Some(AwaitStartDate)
    ensures draft == map[Summary := TextValue("Team sync")]
  {
    var bot := new CalendarBot();
    var chat: ChatId := 1;
    reply := bot.AddEvent(chat);
    reply, call := bot.Deliver(chat, "Team sync", Ok([]), None, None);
    ParseDateDayFirst();
    reply, call := bot.Deliver(chat, "15-10-2024", Ok([]), None, None);
    step := if chat in bot.pending then Some(bot.pending[chat]) else None;
    draft := bot.draft;
  }

  /**
   * Pressing "Add event" while the dialog waits for the start date does not start a new
   * event: the button's text goes to the waiting step, which rejects it as a date, and the
   * title already given stays in the draft.
   */
  method AddPressedMidDialog() returns (reply: Reply, step: Option<Step>, title: Option<DraftValue>)
    ensures reply == BadDate
    ensures step == Some(AwaitStartDate)
    ensures title == Some(TextValue("Team sync"))
  {
    var bot := new CalendarBot();
    var chat: ChatId := 1;
    reply := bot.AddEvent(chat);
    var _ := Answer(bot, chat, "Team sync", TextValue("Team sync"));
    assert ParseDate(AddButton).Err?;
    var call;
    reply, call := bot.Receive(chat, AddButton, Ok([]), None, None);
    step := if chat in bot.pending then Some(bot.pending[chat]) else None;
    title := if Summary in bot.draft then Some(bot.draft[Summary]) else None;
  }

  const Standup: ProviderEvent := ProviderEvent("ev-1", Some("Standup"), None)
  const Review: ProviderEvent := ProviderEvent("ev-2", Some("Review"), Some("Q4"))

  lemma ListingOfTwo()
    ensures EventListing([Standup, Review]) == Lines(["1. Standup - Без опису", "2. Review - Q4"])
  {
    var items := [Standup, Review];
    assert NatToString(1) == "1" && NatToString(2) == "2";
    assert EventLine(1, Standup) == "1. Standup - Без опису";
    assert EventLine(2, Review) == "2. Review - Q4";
    assert EventListing(items).lines == [EventLine(1, Standup), EventLine(2, Review)];
  }

  /** Answers the deletion question with `text`; the provider's list is fetched again as `items`. */
  method ChooseNumber(bot: CalendarBot, chat: ChatId, text: string, items: seq<ProviderEvent>)
    returns (reply: Reply, call: GatewayCall, step: Option<Step>)
    requires bot.Valid() && chat in bot.pending && bot.pending[chat] == AwaitDeletionIndex
    modifies bot
    ensures var o := DeletionStep(text, Ok(items), None);
      && reply == o.reply && call == o.call
      && step == if o.retry then Some(AwaitDeletionIndex) else None
  {
    reply, call := bot.Deliver(chat, text, Ok(items), None, None);
    step := if chat in bot.pending then Some(bot.pending[chat]) else None;
  }

  lemma SecondSelected()
    ensures DeletionStep("2", Ok([Standup, Review]), None) == DeletionOutcome(Deleted("Review"), Delete("ev-2"), false)
  {
    assert ParseInt("2") == Some(2);
    assert SelectForDeletion("2", [Standup, Review]) == Some(1);
  }

  lemma MenuOfTwo()
    ensures Join(Elements(EventListing([Standup, Review])), "\n") == "1. Standup - Без опису\n2. Review - Q4"
  {
    ListingOfTwo();
  }

  /**
   * Two events, "Delete event", then "2": the menu numbers both events, the provider is
   * asked to delete the second one, the user is told its title and the chat is idle again.
   */
  method DeleteSecond() returns (menu: Reply, reply: Reply, call: GatewayCall, step: Option<Step>)
    ensures menu == DeletionMenu("1. Standup - Без опису\n2. Review - Q4")
    ensures call == Delete("ev-2") && reply == Deleted("Review")
    ensures step == None
  {
    var bot := new CalendarBot();
    var chat: ChatId := 7;
    var items := [Standup, Review];
    menu, call := bot.Receive(chat, DeleteButton, Ok(items), None, None);
    MenuOfTwo();
    SecondSelected();
    reply, call, step := ChooseNumber(bot, chat, "2", items);
  }

  /**
   * "Delete event" on an empty calendar: the "nothing to delete" answer is never sent; the
   * menu lists the sentinel text one character per line and the chat waits for a number.
   */
  method DeleteFromEmptyCalendar() returns (menu: Reply, step: Option<Step>)
    ensures menu.DeletionMenu? && menu != NothingToDelete
    ensures menu.eventsText == Join(Chars(NoEvents), "\n")
    ensures step == Some(AwaitDeletionIndex)
  {
    var bot := new CalendarBot();
    var chat: ChatId := 7;
    var call;
    menu, call := bot.Receive(chat, DeleteButton, Ok([]), None, None);
    step := if chat in bot.pending then Some(bot.pending[chat]) else None;
  }

  /**
   * "3" after a listing of two events: the user is asked again, nothing is deleted and the
   * deletion step stays registered.
   */
  method DeleteOutOfRange() returns (reply: Reply, call: GatewayCall, step: Option<Step>)
    ensures reply == BadNumber && call == NoCall
    ensures step == Some(AwaitDeletionIndex)
  {
    var bot := new CalendarBot();
    var chat: ChatId := 7;
    var items := [Standup, Review];
    reply := bot.DeleteEventHandler(chat, Ok(items));
    assert ParseInt("3") == Some(3);
    reply, call, step := ChooseNumber(bot, chat, "3", items);
  }

  /**
   * Two chats start creating events at once. The second chat's title overwrites the first
   * chat's in the shared draft, so the title the first chat's event will be submitted with
   * is the other chat's.
   */
  method SharedDraft() returns (title: DraftValue)
    ensures title == TextValue("Dentist")
  {
    var bot := new CalendarBot();
    var alice: ChatId := 1;
    var bob: ChatId := 2;
    var reply := bot.AddEvent(alice);
    reply := bot.AddEvent(bob);
    var call;
    reply, call := bot.Deliver(alice, "Team sync", Ok([]), None, None);
    reply, call := bot.Deliver(bob, "Dentist", Ok([]), None, None);
    title := bot.draft[Summary];
  }
}
