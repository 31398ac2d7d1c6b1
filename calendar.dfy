/**
 * The calendar-facing pieces of the bot: the request body `create_event` builds, the text
 * `list_events` makes of the provider's events, and the way `process_event_deletion` turns
 * the user's number into an event of the provider's list.
 */
module Calendar {
  import opened Wrappers
  import opened Text

  /** An event as the provider's list call returns it; the title and description may be missing. */
  datatype ProviderEvent = ProviderEvent(id: string, summary: Option<string>, description: Option<string>)

  datatype EventTime = EventTime(dateTime: string, timeZone: string)

  datatype Reminder = Reminder(channel: string, minutes: int)

  /** The body `create_event` sends to the provider's insert call. */
  datatype EventBody = EventBody(
    summary: string,
    location: Option<string>,
    description: Option<string>,
    start: EventTime,
    end: EventTime,
    useDefaultReminders: bool,
    reminders: seq<Reminder>)

  const MinutesPerDay: int := 24 * 60

  /** The reminder policy of every created event: no defaults, an e-mail one day ahead, then a pop-up ten minutes ahead. */
  predicate HasFixedReminders(body: EventBody) {
    !body.useDefaultReminders && body.reminders == [Reminder("email", 1440), Reminder("popup", 10)]
  }

  /** `create_event`'s body: both timestamps in UTC, the fixed reminders, everything else passed through. */
  function CreateEventBody(summary: string, startTime: string, endTime: string,
                           description: Option<string>, location: Option<string>): (body: EventBody)
    ensures HasFixedReminders(body)
    ensures body.start == EventTime(startTime, "UTC") && body.end == EventTime(endTime, "UTC")
    ensures body.summary == summary && body.location == location && body.description == description
  {
    EventBody(summary, location, description, EventTime(startTime, "UTC"), EventTime(endTime, "UTC"),
              false, [Reminder("email", MinutesPerDay), Reminder("popup", 10)])
  }

  // ---------------------------------------------------------------------------------------
  // list_events

  const Untitled: string := "Без назви"
  const Undescribed: string := "Без опису"
  const NoEvents: string := "Немає подій"

  /** Line `n` of the listing: the number, `. `, the title, ` - `, the description, with fallback labels. */
  function EventLine(n: nat, e: ProviderEvent): string {
    NatToString(n) + ". " + e.summary.GetOr(Untitled) + " - " + e.description.GetOr(Undescribed)
  }

  /** What `list_events` returns: a list of lines, or, when there are none, a bare string. */
  datatype Listing = Lines(lines: seq<string>) | Sentinel(text: string)

  /** Python truthiness of the returned value, which `delete_event_handler` tests. */
  predicate Truthy(l: Listing) {
    match l
    case Lines(ls) => |ls| > 0
    case Sentinel(t) => |t| > 0
  }

  /** What `"\n".join` iterates over: the lines of a list, or the characters of a string. */
  function Elements(l: Listing): seq<string> {
    match l
    case Lines(ls) => ls
    case Sentinel(t) => Chars(t)
  }

  /** The value `list_events` returns for the events the provider listed. */
  function EventListing(items: seq<ProviderEvent>): (l: Listing)
    ensures l.Lines? ==> |l.lines| == |items|
  {
    if |items| == 0 then Sentinel(NoEvents)
    else Lines(seq(|items|, k requires 0 <= k < |items| => EventLine(k + 1, items[k])))
  }

  /** `list_events`: one numbered line per event, in the provider's order, built by appending. */
  method ListEvents(items: seq<ProviderEvent>) returns (listing: Listing)
    ensures listing == EventListing(items)
  {
    var lines: seq<string> := [];
    for i := 0 to |items|
      invariant |lines| == i
      invariant forall k | 0 <= k < i :: lines[k] == EventLine(k + 1, items[k])
    {
      lines := lines + [EventLine(i + 1, items[i])];
    }
    if |lines| == 0 {
      listing := Sentinel(NoEvents);
    } else {
      listing := Lines(lines);
    }
  }

  /**
   * The listing is never falsy: with events it is a non-empty list, without them the
   * non-empty sentinel string. So the "no events to delete" branch of
   * `delete_event_handler` cannot be taken.
   */
  lemma EventListingTruthy(items: seq<ProviderEvent>)
    ensures Truthy(EventListing(items))
    ensures EventListing(items).Sentinel? <==> |items| == 0
  {
  }

  /**
   * With an empty calendar, the list shown for deletion is the sentinel's characters, one per
   * line: the user is still asked for a number.
   */
  lemma EmptyCalendarDeletionText()
    ensures var text := Join(Elements(EventListing([])), "\n");
      && |text| == 2 * |NoEvents| - 1
      && (forall i | 0 <= i < |NoEvents| :: text[2 * i] == NoEvents[i])
      && (forall i | 0 <= i < |NoEvents| - 1 :: text[2 * i + 1] == '\n')
  {
    JoinChars(NoEvents, '\n');
  }

  /** Line `k` of a non-empty listing begins with the number `k + 1` and shows event `k`'s title and description or their fallbacks. */
  lemma EventListingLine(items: seq<ProviderEvent>, k: nat)
    requires k < |items|
    ensures EventListing(items).Lines? && |EventListing(items).lines| == |items|
    ensures var line := EventListing(items).lines[k];
      && line[..|NatToString(k + 1)|] == NatToString(k + 1)
      && ParseInt(NatToString(k + 1)) == Some(k + 1)
      && (items[k].summary.Some? ==> line == NatToString(k + 1) + ". " + items[k].summary.value + " - " + items[k].description.GetOr(Undescribed))
      && (items[k].summary.None? ==> line == NatToString(k + 1) + ". " + Untitled + " - " + items[k].description.GetOr(Undescribed))
  {
    ParseIntOfNatToString(k + 1);
  }

  // ---------------------------------------------------------------------------------------
  // process_event_deletion: which event a number selects

  /** Python's `items[i]` on a list of `length` items (a negative `i` counts from the end); `None` is `IndexError`. */
  function PyIndex(length: nat, i: int): (r: Option<nat>)
    ensures r.Some? <==> -(length as int) <= i < length
    ensures r.Some? ==> r.value < length && r.value == i % length
  {
    if 0 <= i < length then Some(i)
    else if -(length as int) <= i < 0 then Some(length + i)
    else None
  }

  /**
   * The event `process_event_deletion` deletes: `items[int(text) - 1]` of the list it has just
   * fetched; `None` when `int` raises `ValueError` or the index raises `IndexError`.
   */
  function SelectForDeletion(text: string, items: seq<ProviderEvent>): (r: Option<nat>)
    ensures r.Some? ==> ParseInt(text).Some? && r.value < |items|
  {
    match ParseInt(text)
    case None => None
    case Some(n) => PyIndex(|items|, n - 1)
  }

  /** A number `n` selects an event iff `1 - |items| <= n <= |items|`; `0` and negative numbers wrap around from the end. */
  lemma SelectForDeletionRange(text: string, items: seq<ProviderEvent>)
    ensures SelectForDeletion(text, items).Some? <==>
              ParseInt(text).Some? && 1 - |items| <= ParseInt(text).value <= |items|
    ensures SelectForDeletion(text, items).Some? ==>
              var n := ParseInt(text).value;
              var j := SelectForDeletion(text, items).value;
              j < |items| && (1 <= n ==> j == n - 1) && (n <= 0 ==> j == |items| + n - 1)
  {
  }

  /** `0` deletes the last event. */
  lemma ZeroSelectsLast(items: seq<ProviderEvent>)
    requires |items| > 0
    ensures SelectForDeletion("0", items) == Some(|items| - 1)
  {
  }

  /** When the list has not changed, the number printed on a line selects that line's event. */
  lemma {:induction false} ShownNumberSelectsShownEvent(items: seq<ProviderEvent>, k: nat)
    requires k < |items|
    ensures SelectForDeletion(NatToString(k + 1), items) == Some(k)
  {
    ParseIntOfNatToString(k + 1);
  }

  /**
   * The number is resolved against the list fetched at deletion time, not the one shown.
   * If event `j` of the shown list is gone by then, the number shown for a later event `k`
   * selects the event after it, and the last number shown selects nothing.
   */
  lemma {:induction false} StaleNumberSelectsNextEvent(shown: seq<ProviderEvent>, j: nat, k: nat)
    requires j <= k < |shown| - 1
    ensures var current := shown[..j] + shown[j + 1..];
      && SelectForDeletion(NatToString(k + 1), current) == Some(k)
      && current[k] == shown[k + 1]
      && SelectForDeletion(NatToString(|shown|), current).None?
  {
    ParseIntOfNatToString(k + 1);
    ParseIntOfNatToString(|shown|);
  }
}
