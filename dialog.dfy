/**
 * The bot's multi-turn dialogs. Each handler reads one message; a handler that wants the
 * chat's next message registers the next handler for that chat, and a handler that does not
 * leaves the chat idle. All chats write into one shared draft, the module-global
 * `event_data` dictionary, which is never cleared.
 */
module Dialog {
  import opened Wrappers
  import opened Text
  import opened DateTime
  import opened Calendar

  type ChatId = int

  /** The handler registered for a chat's next message. */
  datatype Step =
    | AwaitName            // get_event_name
    | AwaitStartDate       // get_event_date_start
    | AwaitEndDate         // get_event_date_end
    | AwaitStartTime       // get_event_time_start
    | AwaitEndTime         // get_event_time_end
    | AwaitDescription     // get_event_description
    | AwaitDeletionIndex   // process_event_deletion

  /** The keys of `event_data`. */
  datatype DraftKey = Summary | StartDate | EndDate | StartTime | EndTime | Description

  datatype DraftValue = TextValue(text: string) | DateValue(date: Date) | TimeValue(time: Time) | NoneValue

  type Draft = map<DraftKey, DraftValue>

  /** The kind of message the bot sends back. */
  datatype Reply =
    | AskName | AskStartDate | AskEndDate | AskStartTime | AskEndTime | AskDescription
    | BadDate | BadTime
    | Created(summary: string)
    | DeletionMenu(eventsText: string)  // the listing joined with newlines, asking for a number
    | NothingToDelete
    | BadNumber
    | Deleted(summary: string)
    | Failure(error: string)            // `str(e)` of an unexpected exception
    | Greeting                          // the `/start` answer with the menu keyboard
    | EventsView(listing: Listing)      // the value of `list_events`, handed to send_message as is
    | NoReply                           // the handler raised; nothing is sent

  /** The request the handler sends to the calendar provider. */
  datatype GatewayCall = NoCall | Insert(body: EventBody) | Delete(eventId: string)

  /** The menu buttons; a button press arrives as a message with the button's text. */
  const AddButton: string := "Додати подію"
  const DeleteButton: string := "Видалити подію"
  const ViewButton: string := "Дивитися події"

  /** The handler an idle chat's message goes to. */
  datatype Route = StartCommand | AddPressed | DeletePressed | ViewPressed | Unhandled

  /**
   * The characters Python's `str.split()` splits on: ASCII whitespace, the information
   * separators U+001C..U+001F, and the Unicode spaces and line and paragraph separators.
   */
  predicate IsPyWhitespace(c: char) {
    || c == ' ' || '\t' <= c <= '\r' || 0x1C <= c as int <= 0x1F
    || c as int == 0x85 || c as int == 0xA0 || c as int == 0x1680
    || 0x2000 <= c as int <= 0x200A || c as int == 0x2028 || c as int == 0x2029
    || c as int == 0x202F || c as int == 0x205F || c as int == 0x3000
  }

  /**
   * A `/start` command: the first whitespace-separated word of the text, with any `@` suffix
   * dropped, is `/start`. The text must begin with the command itself.
   */
  predicate IsStartCommand(text: string) {
    text == "/start" || (|text| > 6 && text[..6] == "/start" && (IsPyWhitespace(text[6]) || text[6] == '@'))
  }

  /** The message handlers in registration order; the first that matches takes the message. */
  function RouteOf(text: string): (r: Route)
    ensures r == StartCommand <==> IsStartCommand(text)
    ensures r == AddPressed <==> text == AddButton
    ensures r == DeletePressed <==> text == DeleteButton
    ensures r == ViewPressed <==> text == ViewButton
  {
    assert AddButton[0] != '/' && DeleteButton[0] != '/' && ViewButton[0] != '/';
    if IsStartCommand(text) then StartCommand
    else if text == AddButton then AddPressed
    else if text == DeleteButton then DeletePressed
    else if text == ViewButton then ViewPressed
    else Unhandled
  }

  /** The word that leaves the description out. */
  const SkipWord: string := "пропустити"

  /** `str(KeyError('summary'))`, the error text when a deleted event has no title. */
  const MissingSummaryError: string := "'summary'"

  /** `text.lower() == 'пропустити'` */
  predicate IsSkipWord(text: string) {
    Lower(text) == SkipWord
  }

  /** The skip word is recognised in any mix of upper and lower case, and nothing else is. */
  lemma SkipWordAnyCase(text: string)
    ensures IsSkipWord(text) <==>
              |text| == |SkipWord| &&
              forall i | 0 <= i < |SkipWord| :: text[i] == SkipWord[i] || text[i] == CyrillicCapital(SkipWord[i])
  {
    assert forall i | 0 <= i < |SkipWord| :: IsCyrillicSmall(SkipWord[i]);
    LowerEqualsCyrillicWord(text, SkipWord);
  }

  /** What `get_event_description` stores: `None` for the skip word, otherwise the text itself. */
  function StoredDescription(text: string): (v: DraftValue)
    ensures v.NoneValue? <==> IsSkipWord(text)
    ensures v.TextValue? ==> v.text == text
  {
    if IsSkipWord(text) then NoneValue else TextValue(text)
  }

  /** Each key holds the kind of value its step stores, dates and times in range. */
  predicate Fits(k: DraftKey, v: DraftValue) {
    match k
    case Summary => v.TextValue?
    case StartDate => v.DateValue? && ValidDate(v.date)
    case EndDate => v.DateValue? && ValidDate(v.date)
    case StartTime => v.TimeValue? && ValidTime(v.time)
    case EndTime => v.TimeValue? && ValidTime(v.time)
    case Description => v.TextValue? || v.NoneValue?
  }

  predicate WellTyped(draft: Draft) {
    forall k | k in draft :: Fits(k, draft[k])
  }

  /** The keys the creation dialog has written by the time `step` is pending. */
  function Collected(step: Step): set<DraftKey> {
    match step
    case AwaitName => {}
    case AwaitStartDate => {Summary}
    case AwaitEndDate => {Summary, StartDate}
    case AwaitStartTime => {Summary, StartDate, EndDate}
    case AwaitEndTime => {Summary, StartDate, EndDate, StartTime}
    case AwaitDescription => {Summary, StartDate, EndDate, StartTime, EndTime}
    case AwaitDeletionIndex => {}
  }

  /** The key a creation step writes. */
  function StepKey(step: Step): DraftKey
    requires !step.AwaitDeletionIndex?
  {
    match step
    case AwaitName => Summary
    case AwaitStartDate => StartDate
    case AwaitEndDate => EndDate
    case AwaitStartTime => StartTime
    case AwaitEndTime => EndTime
    case AwaitDescription => Description
  }

  /** The value a creation step stores for `text`; `None` when its parser raises `ValueError`. */
  function Accepted(step: Step, text: string): (v: Option<DraftValue>)
    requires !step.AwaitDeletionIndex?
    ensures v.Some? ==> Fits(StepKey(step), v.value)
    ensures step.AwaitName? || step.AwaitDescription? ==> v.Some?
  {
    match step
    case AwaitName => Some(TextValue(text))
    case AwaitStartDate => if ParseDate(text).Ok? then Some(DateValue(ParseDate(text).value)) else None
    case AwaitEndDate => if ParseDate(text).Ok? then Some(DateValue(ParseDate(text).value)) else None
    case AwaitStartTime => if ParseTime(text).Ok? then Some(TimeValue(ParseTime(text).value)) else None
    case AwaitEndTime => if ParseTime(text).Ok? then Some(TimeValue(ParseTime(text).value)) else None
    case AwaitDescription => Some(StoredDescription(text))
  }

  /** The step a step registers on valid input; `None` when it registers nothing and the chat goes idle. */
  function Successor(step: Step): Option<Step> {
    match step
    case AwaitName => Some(AwaitStartDate)
    case AwaitStartDate => Some(AwaitEndDate)
    case AwaitEndDate => Some(AwaitStartTime)
    case AwaitStartTime => Some(AwaitEndTime)
    case AwaitEndTime => Some(AwaitDescription)
    case AwaitDescription => None
    case AwaitDeletionIndex => None
  }

  /** Registration after a step has run on valid input: its successor, or nothing. */
  function Advance(pending: map<ChatId, Step>, chat: ChatId, step: Step): map<ChatId, Step> {
    match Successor(step)
    case Some(next) => pending[chat := next]
    case None => pending - {chat}
  }

  /** The question a creation step asks when it is registered. */
  function Prompt(step: Step): Reply
    requires !step.AwaitDeletionIndex?
  {
    match step
    case AwaitName => AskName
    case AwaitStartDate => AskStartDate
    case AwaitEndDate => AskEndDate
    case AwaitStartTime => AskStartTime
    case AwaitEndTime => AskEndTime
    case AwaitDescription => AskDescription
  }

  /** The complaint of a date or time step whose parser raised. */
  function Complaint(step: Step): Reply {
    if step.AwaitStartDate? || step.AwaitEndDate? then BadDate else BadTime
  }

  /**
   * A creation step on `text` took the bot from one draft and registration map to the next:
   * on valid input exactly the step's key is written, the successor is registered and its
   * question asked; on invalid input the draft is kept, the same step registered again and
   * the complaint sent.
   */
  ghost predicate StepTaken(draft0: Draft, pending0: map<ChatId, Step>, draft1: Draft, pending1: map<ChatId, Step>,
                            chat: ChatId, step: Step, text: string, reply: Reply)
    requires !step.AwaitDeletionIndex?
  {
    match Accepted(step, text)
    case Some(v) =>
      && draft1 == draft0[StepKey(step) := v] && pending1 == Advance(pending0, chat, step)
      && (Successor(step).Some? ==> reply == Prompt(Successor(step).value))
    case None => draft1 == draft0 && pending1 == pending0[chat := step] && reply == Complaint(step)
  }

  /** What `process_event_deletion` answers, the request it makes, and whether it registers itself again. */
  datatype DeletionOutcome = DeletionOutcome(reply: Reply, call: GatewayCall, retry: bool)

  /**
   * `process_event_deletion` on the text and the list it fetches. It asks again exactly when
   * the text is no number or the number selects nothing in that list, and then makes no
   * request; a failed fetch is reported and ends the dialog. It deletes exactly when the
   * number selects an event, always that event of the fetched list, and names it only when
   * the delete call succeeds and the event has a title.
   */
  function DeletionStep(text: string, fetched: Result<seq<ProviderEvent>, string>,
                        deleteFailure: Option<string>): (o: DeletionOutcome)
    ensures o.retry <==> ParseInt(text).None? || (fetched.Ok? && SelectForDeletion(text, fetched.value).None?)
    ensures o.retry ==> o.reply == BadNumber && o.call == NoCall
    ensures ParseInt(text).Some? && fetched.Err? ==> o.reply == Failure(fetched.error) && o.call == NoCall
    ensures o.call.Delete? <==> fetched.Ok? && SelectForDeletion(text, fetched.value).Some?
    ensures fetched.Ok? && SelectForDeletion(text, fetched.value).Some? ==>
              var event := fetched.value[SelectForDeletion(text, fetched.value).value];
              && o.call == Delete(event.id)
              && (o.reply.Deleted? <==> deleteFailure.None? && event.summary.Some?)
              && (o.reply.Deleted? ==> o.reply.summary == event.summary.value)
              && (deleteFailure.Some? ==> o.reply == Failure(deleteFailure.value))
              && (deleteFailure.None? && event.summary.None? ==> o.reply == Failure(MissingSummaryError))
  {
    match ParseInt(text)
    case None => DeletionOutcome(BadNumber, NoCall, true)
    case Some(_) =>
      match fetched
      case Err(e) => DeletionOutcome(Failure(e), NoCall, false)
      case Ok(items) =>
        match SelectForDeletion(text, items)
        case None => DeletionOutcome(BadNumber, NoCall, true)
        case Some(j) =>
          var event := items[j];
          var reply :=
            if deleteFailure.Some? then Failure(deleteFailure.value)
            else if event.summary.None? then Failure(MissingSummaryError)
            else Deleted(event.summary.value);
          DeletionOutcome(reply, Delete(event.id), false)
  }

  /** The body `get_event_description` submits for a draft that holds every key it reads. */
  function SubmittedBody(draft: Draft): EventBody
    requires WellTyped(draft) && Collected(AwaitDescription) + {Description} <= draft.Keys
  {
    CreateEventBody(
      draft[Summary].text,
      IsoFormat(draft[StartDate].date, draft[StartTime].time),
      IsoFormat(draft[EndDate].date, draft[EndTime].time),
      if draft[Description].TextValue? then Some(draft[Description].text) else None,
      None)
  }

  /**
   * What `get_event_description` does with a completed draft: it asks the provider to insert
   * the event built from it and, when the insert succeeds, names the draft's title.
   */
  predicate Submitted(draft: Draft, call: GatewayCall, reply: Reply, insertFailure: Option<string>) {
    && WellTyped(draft) && Collected(AwaitDescription) + {Description} <= draft.Keys
    && call == Insert(SubmittedBody(draft))
    && reply == (if insertFailure.None? then Created(draft[Summary].text) else NoReply)
  }

  /**
   * The submitted event carries the draft's title and description, both timestamps in UTC,
   * the fixed reminders, and timestamps that read back as the draft's dates and times with
   * zero seconds; nothing compares the end with the start.
   */
  lemma SubmittedBodyFromDraft(draft: Draft)
    requires WellTyped(draft) && Collected(AwaitDescription) + {Description} <= draft.Keys
    ensures var body := SubmittedBody(draft);
      && body.summary == draft[Summary].text
      && (body.description.None? <==> draft[Description].NoneValue?)
      && (body.description.Some? ==> draft[Description] == TextValue(body.description.value))
      && body.location.None?
      && body.start.timeZone == "UTC" && body.end.timeZone == "UTC"
      && HasFixedReminders(body)
      && ParseStamp(body.start.dateTime) == Some(Stamp(draft[StartDate].date, draft[StartTime].time, 0))
      && ParseStamp(body.end.dateTime) == Some(Stamp(draft[EndDate].date, draft[EndTime].time, 0))
  {
    assert Fits(StartDate, draft[StartDate]) && Fits(StartTime, draft[StartTime]);
    assert Fits(EndDate, draft[EndDate]) && Fits(EndTime, draft[EndTime]);
    assert Fits(Description, draft[Description]);
    IsoFormatRoundTrip(draft[StartDate].date, draft[StartTime].time);
    IsoFormatRoundTrip(draft[EndDate].date, draft[EndTime].time);
  }

  /**
   * Taking a chat's registration off before its step runs changes nothing the step's own
   * registration does not: re-registering the step restores the map, advancing from the
   * popped map is advancing from the original, and no other chat is touched.
   */
  lemma PopThenRegister(pending: map<ChatId, Step>, chat: ChatId)
    requires chat in pending
    ensures (pending - {chat})[chat := pending[chat]] == pending
    ensures Advance(pending - {chat}, chat, pending[chat]) == Advance(pending, chat, pending[chat])
    ensures Advance(pending, chat, pending[chat]) - {chat} == pending - {chat}
  {
  }

  class CalendarBot {
    /** `event_data`: the one draft every chat writes into. */
    var draft: Draft
    /** The next-step handler registered for each chat; a chat that is not here is idle. */
    var pending: map<ChatId, Step>

    /** The draft is well typed, and every pending step finds the keys the dialog wrote before it. */
    ghost predicate Valid()
      reads this
    {
      && WellTyped(draft)
      && forall c | c in pending :: Collected(pending[c]) <= draft.Keys
    }

    constructor ()
      ensures Valid() && draft == map[] && pending == map[]
    {
      draft := map[];
      pending := map[];
    }

    /** `add_event`: ask for the title and register `get_event_name`. */
    method AddEvent(chat: ChatId) returns (reply: Reply)
      requires Valid()
      modifies this
      ensures Valid()
      ensures draft == old(draft) && pending == old(pending)[chat := AwaitName]
      ensures reply == AskName
    {
      pending := pending[chat := AwaitName];
      reply := AskName;
    }

    /** `get_event_name`: store the text as the title, whatever it is. */
    method GetEventName(chat: ChatId, text: string) returns (reply: Reply)
      requires Valid() && chat !in pending
      modifies this
      ensures Valid()
      ensures draft == old(draft)[Summary := TextValue(text)]
      ensures pending == old(pending)[chat := AwaitStartDate] && reply == AskStartDate
    {
      draft := draft[Summary := TextValue(text)];
      pending := pending[chat := AwaitStartDate];
      reply := AskStartDate;
    }

    /** `get_event_date_start`: store a valid date and move on, or re-prompt with the draft untouched. */
    method GetEventDateStart(chat: ChatId, text: string) returns (reply: Reply)
      requires Valid() && chat !in pending && Collected(AwaitStartDate) <= draft.Keys
      modifies this
      ensures Valid()
      ensures ParseDate(text).Ok? ==>
                && draft == old(draft)[StartDate := DateValue(ParseDate(text).value)]
                && pending == old(pending)[chat := AwaitEndDate] && reply == AskEndDate
      ensures ParseDate(text).Err? ==>
                draft == old(draft) && pending == old(pending)[chat := AwaitStartDate] && reply == BadDate
    {
      match ParseDate(text)
      case Ok(d) =>
        draft := draft[StartDate := DateValue(d)];
        pending := pending[chat := AwaitEndDate];
        reply := AskEndDate;
      case Err(_) =>
        pending := pending[chat := AwaitStartDate];
        reply := BadDate;
    }

    /** `get_event_date_end`: the same for the end date; it is not compared with the start. */
    method GetEventDateEnd(chat: ChatId, text: string) returns (reply: Reply)
      requires Valid() && chat !in pending && Collected(AwaitEndDate) <= draft.Keys
      modifies this
      ensures Valid()
      ensures ParseDate(text).Ok? ==>
                && draft == old(draft)[EndDate := DateValue(ParseDate(text).value)]
                && pending == old(pending)[chat := AwaitStartTime] && reply == AskStartTime
      ensures ParseDate(text).Err? ==>
                draft == old(draft) && pending == old(pending)[chat := AwaitEndDate] && reply == BadDate
    {
      match ParseDate(text)
      case Ok(d) =>
        draft := draft[EndDate := DateValue(d)];
        pending := pending[chat := AwaitStartTime];
        reply := AskStartTime;
      case Err(_) =>
        pending := pending[chat := AwaitEndDate];
        reply := BadDate;
    }

    /** `get_event_time_start`: store a valid time and move on, or re-prompt with the draft untouched. */
    method GetEventTimeStart(chat: ChatId, text: string) returns (reply: Reply)
      requires Valid() && chat !in pending && Collected(AwaitStartTime) <= draft.Keys
      modifies this
      ensures Valid()
      ensures ParseTime(text).Ok? ==>
                && draft == old(draft)[StartTime := TimeValue(ParseTime(text).value)]
                && pending == old(pending)[chat := AwaitEndTime] && reply == AskEndTime
      ensures ParseTime(text).Err? ==>
                draft == old(draft) && pending == old(pending)[chat := AwaitStartTime] && reply == BadTime
    {
      match ParseTime(text)
      case Ok(t) =>
        ParseTimeSound(text);
        draft := draft[StartTime := TimeValue(t)];
        pending := pending[chat := AwaitEndTime];
        reply := AskEndTime;
      case Err(_) =>
        pending := pending[chat := AwaitStartTime];
        reply := BadTime;
    }

    /** `get_event_time_end`: the same for the end time. */
    method GetEventTimeEnd(chat: ChatId, text: string) returns (reply: Reply)
      requires Valid() && chat !in pending && Collected(AwaitEndTime) <= draft.Keys
      modifies this
      ensures Valid()
      ensures ParseTime(text).Ok? ==>
                && draft == old(draft)[EndTime := TimeValue(ParseTime(text).value)]
                && pending == old(pending)[chat := AwaitDescription] && reply == AskDescription
      ensures ParseTime(text).Err? ==>
                draft == old(draft) && pending == old(pending)[chat := AwaitEndTime] && reply == BadTime
    {
      match ParseTime(text)
      case Ok(t) =>
        ParseTimeSound(text);
        draft := draft[EndTime := TimeValue(t)];
        pending := pending[chat := AwaitDescription];
        reply := AskDescription;
      case Err(_) =>
        pending := pending[chat := AwaitEndTime];
        reply := BadTime;
    }

    /**
     * `get_event_description`: store the description, submit the event built from the draft
     * and register nothing, so the chat is idle whatever the provider answers. When the
     * insert call raises, the exception escapes the handler and no reply is sent.
     */
    method GetEventDescription(chat: ChatId, text: string, insertFailure: Option<string>)
      returns (reply: Reply, call: GatewayCall)
      requires Valid() && chat !in pending && Collected(AwaitDescription) <= draft.Keys
      modifies this
      ensures Valid()
      ensures draft == old(draft)[Description := StoredDescription(text)]
      ensures pending == old(pending)
      ensures Submitted(draft, call, reply, insertFailure)
      ensures StepTaken(old(draft), old(pending), draft, pending, chat, AwaitDescription, text, reply)
    {
      var v := StoredDescription(text);
      assert Fits(Description, v);
      draft := draft[Description := v];
      assert WellTyped(draft);
      call := Insert(SubmittedBody(draft));
      if insertFailure.None? {
        reply := Created(draft[Summary].text);
      } else {
        reply := NoReply;
      }
      assert pending - {chat} == pending;
    }

    /**
     * `delete_event_handler`: list the events and ask for a number. The listing is never
     * falsy, so the branch that answers "nothing to delete" is dead. When the list call
     * raises, nothing is sent and nothing is registered.
     */
    method DeleteEventHandler(chat: ChatId, fetched: Result<seq<ProviderEvent>, string>)
      returns (reply: Reply)
      requires Valid()
      modifies this
      ensures Valid()
      ensures draft == old(draft)
      ensures fetched.Ok? ==>
                && reply == DeletionMenu(Join(Elements(EventListing(fetched.value)), "\n"))
                && pending == old(pending)[chat := AwaitDeletionIndex]
      ensures fetched.Err? ==> reply == NoReply && pending == old(pending)
    {
      match fetched
      case Err(_) =>
        reply := NoReply;
      case Ok(items) =>
        var listing := ListEvents(items);
        EventListingTruthy(items);
        if Truthy(listing) {
          reply := DeletionMenu(Join(Elements(listing), "\n"));
          pending := pending[chat := AwaitDeletionIndex];
        } else {
          assert false;
          reply := NothingToDelete;
        }
    }

    /**
     * `process_event_deletion`: read the number, fetch the list again, delete the selected
     * event and name it. A non-number or an index outside the fetched list re-prompts; any
     * other failure is reported and ends the dialog, including a missing title, which is only
     * looked up after the delete call.
     */
    method ProcessEventDeletion(chat: ChatId, text: string, fetched: Result<seq<ProviderEvent>, string>,
                                deleteFailure: Option<string>)
      returns (reply: Reply, call: GatewayCall)
      requires Valid() && chat !in pending
      modifies this
      ensures Valid()
      ensures draft == old(draft)
      ensures var o := DeletionStep(text, fetched, deleteFailure);
        && reply == o.reply && call == o.call
        && pending == if o.retry then old(pending)[chat := AwaitDeletionIndex] else old(pending)
    {
      call := NoCall;
      match ParseInt(text)
      case None =>
        reply := BadNumber;
        pending := pending[chat := AwaitDeletionIndex];
      case Some(_) =>
        match fetched
        case Err(e) =>
          reply := Failure(e);
        case Ok(items) =>
          match SelectForDeletion(text, items)
          case None =>
            reply := BadNumber;
            pending := pending[chat := AwaitDeletionIndex];
          case Some(j) =>
            var event := items[j];
            call := Delete(event.id);
            if deleteFailure.Some? {
              reply := Failure(deleteFailure.value);
            } else if event.summary.None? {
              reply := Failure(MissingSummaryError);
            } else {
              reply := Deleted(event.summary.value);
            }
    }

    /**
     * One field step of the creation dialog (the title, a date or a time), run after the
     * chat's registration was taken off: on valid input it writes exactly the step's key,
     * registers the successor and asks the successor's question; on invalid input it leaves
     * the draft alone, registers the same step again and complains.
     */
    method RunFieldStep(chat: ChatId, step: Step, text: string) returns (reply: Reply)
      requires Valid() && chat !in pending && !step.AwaitDeletionIndex? && !step.AwaitDescription?
      requires Collected(step) <= draft.Keys
      modifies this
      ensures Valid()
      ensures StepTaken(old(draft), old(pending), draft, pending, chat, step, text, reply)
    {
      match step
      case AwaitName =>
        reply := GetEventName(chat, text);
      case AwaitStartDate =>
        reply := RunDateStep(chat, step, text);
      case AwaitEndDate =>
        reply := RunDateStep(chat, step, text);
      case AwaitStartTime =>
        reply := RunTimeStep(chat, step, text);
      case AwaitEndTime =>
        reply := RunTimeStep(chat, step, text);
    }

    /** The two date steps of `RunFieldStep`. */
    method RunDateStep(chat: ChatId, step: Step, text: string) returns (reply: Reply)
      requires Valid() && chat !in pending && (step.AwaitStartDate? || step.AwaitEndDate?)
      requires Collected(step) <= draft.Keys
      modifies this
      ensures Valid()
      ensures StepTaken(old(draft), old(pending), draft, pending, chat, step, text, reply)
    {
      if step.AwaitStartDate? {
        reply := GetEventDateStart(chat, text);
      } else {
        reply := GetEventDateEnd(chat, text);
      }
    }

    /** The two time steps of `RunFieldStep`. */
    method RunTimeStep(chat: ChatId, step: Step, text: string) returns (reply: Reply)
      requires Valid() && chat !in pending && (step.AwaitStartTime? || step.AwaitEndTime?)
      requires Collected(step) <= draft.Keys
      modifies this
      ensures Valid()
      ensures StepTaken(old(draft), old(pending), draft, pending, chat, step, text, reply)
    {
      if step.AwaitStartTime? {
        reply := GetEventTimeStart(chat, text);
      } else {
        reply := GetEventTimeEnd(chat, text);
      }
    }

    /**
     * A message for a chat with a registered handler: the registration is taken off and the
     * handler runs, with the provider's answers as parameters. A creation step given valid
     * input writes exactly its own key and registers its successor (none after the
     * description); given invalid input it leaves the draft alone and registers itself again.
     * The deletion step leaves the draft alone and either re-registers itself or ends the
     * dialog. No other chat's registration changes.
     */
    method Deliver(chat: ChatId, text: string, fetched: Result<seq<ProviderEvent>, string>,
                   insertFailure: Option<string>, deleteFailure: Option<string>)
      returns (reply: Reply, call: GatewayCall)
      requires Valid() && chat in pending
      modifies this
      ensures Valid()
      ensures old(draft).Keys <= draft.Keys
      ensures pending - {chat} == old(pending) - {chat}
      ensures !old(pending)[chat].AwaitDeletionIndex? ==>
                StepTaken(old(draft), old(pending) - {chat}, draft, pending, chat, old(pending)[chat], text, reply)
      ensures old(pending)[chat].AwaitDeletionIndex? ==>
                var o := DeletionStep(text, fetched, deleteFailure);
                && draft == old(draft) && reply == o.reply && call == o.call
                && pending == if o.retry then old(pending) else old(pending) - {chat}
      ensures old(pending)[chat].AwaitDescription? ==> Submitted(draft, call, reply, insertFailure)
      ensures !old(pending)[chat].AwaitDescription? && !old(pending)[chat].AwaitDeletionIndex? ==> call == NoCall
    {
      var step := pending[chat];
      PopThenRegister(pending, chat);
      pending := pending - {chat};
      if step.AwaitDeletionIndex? {
        reply, call := ProcessEventDeletion(chat, text, fetched, deleteFailure);
      } else if step.AwaitDescription? {
        reply, call := GetEventDescription(chat, text, insertFailure);
      } else {
        call := NoCall;
        reply := RunFieldStep(chat, step, text);
      }
    }

    /**
     * An inbound message. A chat with a registered handler gets it delivered there, whatever
     * its text, even a button's; only an idle chat's message reaches the menu handlers, and a
     * message no handler matches is dropped. No other chat's registration changes.
     */
    method Receive(chat: ChatId, text: string, fetched: Result<seq<ProviderEvent>, string>,
                   insertFailure: Option<string>, deleteFailure: Option<string>)
      returns (reply: Reply, call: GatewayCall)
      requires Valid()
      modifies this
      ensures Valid()
      ensures pending - {chat} == old(pending) - {chat}
      ensures old(draft).Keys <= draft.Keys
      ensures chat in old(pending) && !old(pending)[chat].AwaitDeletionIndex? ==>
                StepTaken(old(draft), old(pending) - {chat}, draft, pending, chat, old(pending)[chat], text, reply)
      ensures chat in old(pending) && old(pending)[chat].AwaitDeletionIndex? ==>
                var o := DeletionStep(text, fetched, deleteFailure);
                && draft == old(draft) && reply == o.reply && call == o.call
                && pending == if o.retry then old(pending) else old(pending) - {chat}
      ensures chat in old(pending) && old(pending)[chat].AwaitDescription? ==>
                Submitted(draft, call, reply, insertFailure)
      ensures chat in old(pending) && !old(pending)[chat].AwaitDescription? && !old(pending)[chat].AwaitDeletionIndex? ==>
                call == NoCall
      ensures chat !in old(pending) ==> draft == old(draft) && call == NoCall
      ensures chat !in old(pending) && RouteOf(text) == AddPressed ==>
                reply == AskName && pending == old(pending)[chat := AwaitName]
      ensures chat !in old(pending) && RouteOf(text) == DeletePressed ==>
                && (fetched.Ok? ==> reply == DeletionMenu(Join(Elements(EventListing(fetched.value)), "\n"))
                                    && pending == old(pending)[chat := AwaitDeletionIndex])
                && (fetched.Err? ==> reply == NoReply && pending == old(pending))
      ensures chat !in old(pending) && RouteOf(text) == ViewPressed ==>
                && pending == old(pending)
                && reply == (if fetched.Ok? then EventsView(EventListing(fetched.value)) else NoReply)
      ensures chat !in old(pending) && RouteOf(text) == StartCommand ==>
                reply == Greeting && pending == old(pending)
      ensures chat !in old(pending) && RouteOf(text) == Unhandled ==>
                reply == NoReply && pending == old(pending)
    {
      if chat in pending {
        reply, call := Deliver(chat, text, fetched, insertFailure, deleteFailure);
        return;
      }
      call := NoCall;
      match RouteOf(text)
      case StartCommand =>
        reply := Greeting;
      case AddPressed =>
        reply := AddEvent(chat);
      case DeletePressed =>
        reply := DeleteEventHandler(chat, fetched);
      case ViewPressed =>
        if fetched.Ok? {
          var listing := ListEvents(fetched.value);
          reply := EventsView(listing);
        } else {
          reply := NoReply;
        }
      case Unhandled =>
        reply := NoReply;
    }
  }
}
