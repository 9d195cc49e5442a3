/** The Outlook integration (integrations/outlook.py): the client that scores,
    ranks and summarises the previous work day's mail and meetings, and the
    checks and mappings it applies before it sends anything to Microsoft
    Graph. Times are whole seconds since the Unix epoch, in UTC. */
module Outlook {
  import opened Wrappers
  import opened Text
  import opened OutlookScoring
  import opened Ranking
  import opened Report

  const GraphBaseUrl: string := "https://graph.microsoft.com/v1.0"

  function Min(a: int, b: int): int { if a <= b then a else b }
  function Max(a: int, b: int): int { if a >= b then a else b }

  // ---------------------------------------------------------------------------
  // Timestamps
  // ---------------------------------------------------------------------------

  /** `_parse_datetime`: no time for a missing or empty text, otherwise what
      `parse` (ISO-8601 parsing with a trailing `Z` read as UTC, naive times
      taken as UTC, converted to UTC) makes of it. */
  function ParseDateTime(iso: Option<string>, parse: string -> Option<int>): (r: Option<int>)
    ensures !Truthy(iso) ==> r.None?
  {
    if Truthy(iso) then parse(iso.value) else None
  }

  const SecondsPerDay: int := 86400

  /** The two decimal digits of `n`, zero-padded as `%H` and `%M` print them. */
  function TwoDigits(n: nat): (r: string)
    requires n < 100
    ensures |r| == 2 && AllDigits(r) && DigitsValue(r) == n
  {
    var r := [DigitChar(n / 10), DigitChar(n % 10)];
    assert r[..1] == [DigitChar(n / 10)] && r[..1][..0] == [];
    assert DigitsValue(r[..1]) == n / 10;
    r
  }

  /** `strftime("%H:%M")` of an instant in UTC. */
  function ClockText(t: int): string {
    var secondOfDay := t % SecondsPerDay;
    TwoDigits(secondOfDay / 3600) + ":" + TwoDigits(secondOfDay % 3600 / 60)
  }

  /** The clock text is `HH:MM`, giving the hour of the day and the minute of
      the hour at which `t` falls. */
  lemma ClockTextReadsBack(t: int)
    ensures var c := ClockText(t);
            && |c| == 5 && c[2] == ':' && AllDigits(c[..2]) && AllDigits(c[3..])
            && DigitsValue(c[..2]) < 24 && DigitsValue(c[3..]) < 60
            && DigitsValue(c[..2]) * 3600 + DigitsValue(c[3..]) * 60 == t % SecondsPerDay - t % 60
  {
    var c := ClockText(t);
    var s := t % SecondsPerDay;
    assert c[..2] == TwoDigits(s / 3600);
    assert c[3..] == TwoDigits(s % 3600 / 60);
    assert t % 60 == s % 60;
  }

  /** `_format_time`: `default` for a missing, empty or unreadable time,
      otherwise `HH:MM UTC`. The conversion `toUtc` stands for ISO-8601
      parsing followed by `astimezone(UTC)`. */
  function FormatTime(iso: Option<string>, default: string, toUtc: string -> Option<int>): (r: string)
    ensures !Truthy(iso) ==> r == default
  {
    if !Truthy(iso) then default
    else match toUtc(iso.value)
      case None => default
      case Some(t) => ClockText(t) + " UTC"
  }

  // ---------------------------------------------------------------------------
  // `_previous_workday_range`
  // ---------------------------------------------------------------------------

  /** The number of the UTC calendar day an instant falls on; day 0 is
      1970-01-01. */
  function DayNumber(t: int): int {
    t / SecondsPerDay
  }

  /** `date.weekday()`: Monday is 0 and Sunday 6; 1970-01-01 was a Thursday. */
  function Weekday(day: int): int {
    (day + 3) % 7
  }

  /** A half-open window `[start, end)` of instants. */
  datatype TimeWindow = TimeWindow(start: int, end: int)

  /** The day before today, moved back to Friday when it falls on a weekend;
      the window runs from its midnight UTC for one day. */
  function PreviousWorkdayRange(now: int): (r: TimeWindow)
    ensures r.start % SecondsPerDay == 0 && r.end == r.start + SecondsPerDay
    ensures Weekday(r.start / SecondsPerDay) < 5
    ensures now - 4 * SecondsPerDay < r.start && r.end <= now
  {
    var previousDay := DayNumber(now) - 1;
    var day :=
      if Weekday(previousDay) == 6 then previousDay - 2
      else if Weekday(previousDay) == 5 then previousDay - 1
      else previousDay;
    var start := day * SecondsPerDay;
    TimeWindow(start, start + SecondsPerDay)
  }

  /** The window covers exactly one whole UTC day, that day is the latest
      Monday to Friday strictly before today, one to three days back, and
      the window ends no later than `now`. */
  lemma PreviousWorkdayIsLatestWeekday(now: int)
    ensures var w := PreviousWorkdayRange(now);
            var day := DayNumber(w.start);
            && w.start == day * SecondsPerDay
            && w.end == w.start + SecondsPerDay
            && Weekday(day) < 5
            && 1 <= DayNumber(now) - day <= 3
            && (forall k :: day < k < DayNumber(now) ==> Weekday(k) >= 5)
            && w.end <= now
  {
    var today := DayNumber(now);
    var w := PreviousWorkdayRange(now);
    var p := today - 1;
    var day := if Weekday(p) == 6 then p - 2 else if Weekday(p) == 5 then p - 1 else p;
    assert w.start == day * SecondsPerDay;
    assert DayNumber(w.start) == day;
    forall k | day < k < today ensures Weekday(k) >= 5 {
      assert k == p || (k == p - 1 && Weekday(p) == 6);
      if k == p - 1 {
        assert (k + 3) % 7 == 5 by {
          assert (p + 3) % 7 == 6;
        }
      }
    }
    assert today * SecondsPerDay <= now;
  }

  // ---------------------------------------------------------------------------
  // Messages and the records built from them
  // ---------------------------------------------------------------------------

  /** The fields of a Graph message the client reads; `None` is a field
      the message does not carry. */
  datatype GraphMessage = GraphMessage(
    subject: Option<string>,
    fromName: Option<string>,
    fromAddress: Option<string>,
    receivedDateTime: Option<string>,
    importance: Option<string>,
    flagStatus: Option<string>,
    dueDateTime: Option<string>)

  /** The record `_build_email_record` returns. */
  datatype EmailRecord = EmailRecord(
    subject: string,
    sender: string,
    senderAddress: string,
    received: Option<string>,
    importance: string,
    flagStatus: string,
    dueDate: Option<string>,
    priorityScore: int,
    priorityReasons: seq<string>)

  /** A calendar event as the summary reads it. */
  datatype EventRecord = EventRecord(subject: string, start: Option<string>, attendees: seq<string>)

  const EmailHeader: string := "Previous workday email highlights:"
  const NoEmailsLine: string := "- No email activity detected " + "during the previous work day."
  const EventHeader: string := "Previous workday calendar overview:"
  const NoEventsLine: string := "- No meetings were scheduled " + "on the previous work day."

  /** The summary line of one email. */
  function EmailLine(e: EmailRecord, toUtc: string -> Option<int>): string {
    "- " + e.subject + " from " + e.sender + " at " + FormatTime(e.received, "Unknown time", toUtc)
  }

  function EmailLines(emails: seq<EmailRecord>, toUtc: string -> Option<int>): seq<string> {
    seq(|emails|, i requires 0 <= i < |emails| => EmailLine(emails[i], toUtc))
  }

  /** The attendee part of an event line. */
  function AttendeeText(attendees: seq<string>): (r: string)
    ensures r != []
  {
    OrElse(Some(Join(attendees, ", ")), "No attendees listed")
  }

  /** The summary line of one event. */
  function EventLine(e: EventRecord, toUtc: string -> Option<int>): string {
    "- " + e.subject + " starting " + FormatTime(e.start, "Unknown start", toUtc)
    + "; attendees: " + AttendeeText(e.attendees)
  }

  function EventLines(events: seq<EventRecord>, toUtc: string -> Option<int>): seq<string> {
    seq(|events|, i requires 0 <= i < |events| => EventLine(events[i], toUtc))
  }

  // ---------------------------------------------------------------------------
  // The client
  // ---------------------------------------------------------------------------

  /** The Graph client, reduced to the state its decisions depend on: the
      sender-weight table it loads once, when it is created. */
  class OutlookClient {
    const prioritySenderWeights: SenderTable

    /** The table as the loader leaves it: distinct, normalised keys. */
    predicate Valid() {
      && UniqueKeys(prioritySenderWeights)
      && forall i :: 0 <= i < |prioritySenderWeights| ==> IsNormalKey(prioritySenderWeights[i].0)
    }

    /** The client for the given `OUTLOOK_PRIORITY_SENDERS` value. */
    constructor(prioritySenders: string)
      ensures prioritySenderWeights == WeightTable(prioritySenders)
      ensures Valid()
    {
      var weights := LoadPrioritySenderWeights(prioritySenders);
      prioritySenderWeights := weights;
      if prioritySenders != [] {
        TableOfWellFormed(Split(prioritySenders, ','));
      }
    }

    /** `_match_sender_weight` */
    method MatchSenderWeight(sender: string) returns (weight: int)
      requires Valid()
      ensures weight == SenderWeight(prioritySenderWeights, sender)
      ensures forall i ::
                (0 <= i < |prioritySenderWeights| && prioritySenderWeights[i].0 == sender
                 && prioritySenderWeights[i].1 != 0) ==> weight == prioritySenderWeights[i].1
    {
      var table := prioritySenderWeights;
      LookupSpec(table, sender);
      if table == [] {
        return 0;
      }
      var exact := Lookup(table, sender);
      if exact.Some? && exact.value != 0 {
        return exact.value;
      }
      var i := 0;
      while i < |table|
        invariant 0 <= i <= |table|
        invariant FirstDomainWeight(table[i..], sender) == FirstDomainWeight(table, sender)
      {
        assert table[i..][1..] == table[i + 1..];
        var rule, ruleWeight := table[i].0, table[i].1;
        if StartsWith(rule, "@") && EndsWith(sender, rule) {
          return ruleWeight;
        }
        i := i + 1;
      }
      return 0;
    }

    /** `_score_email`: the score is the total weight of the rules that
        fired and the reasons are theirs, in rule order, or the single "no
        signals" line. Both readings of the clock in the source are the one
        instant `now` here. */
    method ScoreEmail(importance: string, senderAddress: string, dueDateIso: Option<string>,
                      flagStatus: string, receivedIso: Option<string>,
                      now: int, parse: string -> Option<int>)
      returns (score: int, reasons: seq<string>)
      requires Valid()
      ensures var fired := Fired(Signals(prioritySenderWeights, importance, senderAddress, flagStatus,
                                         ParseDateTime(dueDateIso, parse), ParseDateTime(receivedIso, parse), now));
              score == TotalWeight(fired) && reasons == ReasonLines(fired)
    {
      var dueAt := ParseDateTime(dueDateIso, parse);
      var receivedAt := ParseDateTime(receivedIso, parse);
      ghost var o1, o2, o3 := ImportanceSignal(importance),
        SenderSignal(EffectiveSenderWeight(prioritySenderWeights, senderAddress)), FlagSignal(flagStatus);
      ghost var o4, o5 := DueSignal(dueAt, now), RecencySignal(receivedAt, now);
      score, reasons := ScoreImportance(importance, 0, []);
      score, reasons := ScoreSender(senderAddress, score, reasons);
      score, reasons := ScoreFlag(flagStatus, score, reasons);
      score, reasons := ScoreDueDate(dueAt, now, score, reasons);
      score, reasons := ScoreRecency(receivedAt, now, score, reasons);
      assert [] + ReasonOf(o1) == ReasonOf(o1);
      TallyFive(score, reasons, o1, o2, o3, o4, o5);
      if reasons == [] {
        reasons := [NoSignalsReason];
      }
    }

    /** The importance block of `_score_email`. */
    method ScoreImportance(importance: string, score: int, reasons: seq<string>)
      returns (score': int, reasons': seq<string>)
      ensures score' == score + WeightOf(ImportanceSignal(importance))
      ensures reasons' == reasons + ReasonOf(ImportanceSignal(importance))
    {
      score', reasons' := score, reasons;
      var importanceLevel := Lower(if importance == [] then "normal" else importance);
      if importanceLevel == "high" {
        score' := score' + 3;
        reasons' := reasons' + ["Marked as high importance"];
      } else if importanceLevel == "low" {
        score' := score' - 1;
        reasons' := reasons' + ["Marked as low importance"];
      }
    }

    /** The sender block of `_score_email`. */
    method ScoreSender(senderAddress: string, score: int, reasons: seq<string>)
      returns (score': int, reasons': seq<string>)
      requires Valid()
      ensures var o := SenderSignal(EffectiveSenderWeight(prioritySenderWeights, senderAddress));
              score' == score + WeightOf(o) && reasons' == reasons + ReasonOf(o)
    {
      score', reasons' := score, reasons;
      var senderWeight := 0;
      var normalizedSender := Lower(senderAddress);
      if normalizedSender != [] {
        senderWeight := MatchSenderWeight(normalizedSender);
      }
      if senderWeight != 0 {
        score' := score' + senderWeight;
        reasons' := reasons' + ["Sender matches priority rules (+" + IntToString(senderWeight) + ")"];
      }
    }

    /** The flag block of `_score_email`. */
    method ScoreFlag(flagStatus: string, score: int, reasons: seq<string>)
      returns (score': int, reasons': seq<string>)
      ensures score' == score + WeightOf(FlagSignal(flagStatus))
      ensures reasons' == reasons + ReasonOf(FlagSignal(flagStatus))
    {
      score', reasons' := score, reasons;
      if flagStatus == "flagged" {
        score' := score' + 1;
        reasons' := reasons' + ["Message is flagged for follow-up"];
      }
    }

    /** The due-date block of `_score_email`. */
    method ScoreDueDate(dueAt: Option<int>, now: int, score: int, reasons: seq<string>)
      returns (score': int, reasons': seq<string>)
      ensures score' == score + WeightOf(DueSignal(dueAt, now))
      ensures reasons' == reasons + ReasonOf(DueSignal(dueAt, now))
    {
      score', reasons' := score, reasons;
      if dueAt.Some? {
        if dueAt.value < now {
          score' := score' + 3;
          reasons' := reasons' + ["Flag due date has passed"];
        } else if dueAt.value <= now + Day {
          score' := score' + 2;
          reasons' := reasons' + ["Flag due within 24 hours"];
        } else if dueAt.value <= now + 2 * Day {
          score' := score' + 1;
          reasons' := reasons' + ["Flag due within 48 hours"];
        }
      }
    }

    /** The recency block of `_score_email`. */
    method ScoreRecency(receivedAt: Option<int>, now: int, score: int, reasons: seq<string>)
      returns (score': int, reasons': seq<string>)
      ensures score' == score + WeightOf(RecencySignal(receivedAt, now))
      ensures reasons' == reasons + ReasonOf(RecencySignal(receivedAt, now))
    {
      score', reasons' := score, reasons;
      if receivedAt.Some? {
        var age := now - receivedAt.value;
        if age <= 4 * Hour {
          score' := score' + 1;
          reasons' := reasons' + ["Received within the last 4 hours"];
        }
      }
    }

    /** `_build_email_record`: the message's fields with their fallbacks,
        the lower-cased address, importance and flag state, and the score
        and reasons of those normalised fields. */
    method BuildEmailRecord(item: GraphMessage, now: int, parse: string -> Option<int>)
      returns (record: EmailRecord)
      requires Valid()
      ensures record.subject == item.subject.GetOr("(no subject)")
      ensures record.sender == OrElse(item.fromName, OrElse(item.fromAddress, "Unknown"))
      ensures record.senderAddress == Lower(OrElse(item.fromAddress, ""))
      ensures record.received == item.receivedDateTime
      ensures record.importance == Lower(OrElse(item.importance, "normal"))
      ensures record.flagStatus == Lower(OrElse(item.flagStatus, "notFlagged"))
      ensures record.dueDate == item.dueDateTime
      ensures var fired := Fired(Signals(prioritySenderWeights, record.importance, record.senderAddress,
                                         record.flagStatus, ParseDateTime(record.dueDate, parse),
                                         ParseDateTime(record.received, parse), now));
              record.priorityScore == TotalWeight(fired) && record.priorityReasons == ReasonLines(fired)
    {
      var subject := item.subject.GetOr("(no subject)");
      var senderName := OrElse(item.fromName, OrElse(item.fromAddress, "Unknown"));
      var senderAddress := Lower(OrElse(item.fromAddress, ""));
      var importance := Lower(OrElse(item.importance, "normal"));
      var flagStatus := Lower(OrElse(item.flagStatus, "notFlagged"));
      var score, reasons := ScoreEmail(importance, senderAddress, item.dueDateTime, flagStatus,
                                       item.receivedDateTime, now, parse);
      record := EmailRecord(subject, senderName, senderAddress, item.receivedDateTime, importance,
                            flagStatus, item.dueDateTime, score, reasons);
    }

    /** `summarize_emails` */
    method SummarizeEmails(emails: seq<EmailRecord>, toUtc: string -> Option<int>) returns (summary: string)
      ensures summary == ReportText(EmailHeader, EmailLines(emails, toUtc), NoEmailsLine)
    {
      var lines := [EmailHeader];
      for i := 0 to |emails|
        invariant lines == [EmailHeader] + EmailLines(emails[..i], toUtc)
      {
        var timestamp := FormatTime(emails[i].received, "Unknown time", toUtc);
        lines := lines + ["- " + emails[i].subject + " from " + emails[i].sender + " at " + timestamp];
        assert EmailLines(emails[..i + 1], toUtc) == EmailLines(emails[..i], toUtc) + [EmailLine(emails[i], toUtc)];
      }
      assert emails[..|emails|] == emails;
      if |lines| == 1 {
        lines := lines + [NoEmailsLine];
      }
      summary := Join(lines, "\n");
    }

    /** `summarize_events` */
    method SummarizeEvents(events: seq<EventRecord>, toUtc: string -> Option<int>) returns (summary: string)
      ensures summary == ReportText(EventHeader, EventLines(events, toUtc), NoEventsLine)
    {
      var lines := [EventHeader];
      for i := 0 to |events|
        invariant lines == [EventHeader] + EventLines(events[..i], toUtc)
      {
        var startDisplay := FormatTime(events[i].start, "Unknown start", toUtc);
        var attendees := OrElse(Some(Join(events[i].attendees, ", ")), "No attendees listed");
        lines := lines + ["- " + events[i].subject + " starting " + startDisplay + "; attendees: " + attendees];
        assert EventLines(events[..i + 1], toUtc) == EventLines(events[..i], toUtc) + [EventLine(events[i], toUtc)];
      }
      assert events[..|events|] == events;
      if |lines| == 1 {
        lines := lines + [NoEventsLine];
      }
      summary := Join(lines, "\n");
    }
  }

  /** A flag state differing from "flagged" only in letter case still earns
      the flag bonus once the record is built, because the record lower-cases
      it before scoring. */
  lemma FlaggedAnyCase(flagStatus: string)
    requires Lower(flagStatus) == "flagged"
    ensures FlagSignal(Lower(OrElse(Some(flagStatus), "notFlagged"))).Some?
  {
    assert flagStatus != [];
  }

  // ---------------------------------------------------------------------------
  // `prioritized_previous_day_emails`
  // ---------------------------------------------------------------------------

  /** The sort key of an email: its score, then its received time, with a
      missing or unreadable time below every readable one. */
  function EmailKey(e: EmailRecord, parse: string -> Option<int>): RankKey {
    RankKey(e.priorityScore, ParseDateTime(e.received, parse))
  }

  function KeyOf(parse: string -> Option<int>): EmailRecord -> RankKey {
    e => EmailKey(e, parse)
  }

  /** The ranking and truncation of the fetched emails: at most
      `max(1, limit)` of them, and at least one when there is any. */
  function PrioritizedEmails(emails: seq<EmailRecord>, limit: int, parse: string -> Option<int>): (r: seq<EmailRecord>)
    ensures emails == [] ==> r == []
    ensures emails != [] ==> |r| == Min(|emails|, Max(1, limit))
  {
    if emails == [] then []
    else
      var ranked := SortDescending(emails, KeyOf(parse));
      ranked[..Min(|ranked|, Max(1, limit))]
  }

  /** The prioritised emails are ordered by non-increasing (score, received
      time), and emails with equal keys keep their fetch order. */
  lemma PrioritizedEmailsOrdered(emails: seq<EmailRecord>, limit: int, parse: string -> Option<int>)
    ensures NonIncreasing(PrioritizedEmails(emails, limit, parse), KeyOf(parse))
    ensures forall k :: WithKey(PrioritizedEmails(emails, limit, parse), KeyOf(parse), k)
                        <= WithKey(emails, KeyOf(parse), k)
  {
    if emails != [] {
      TopOfSortOrderedAndStable(emails, KeyOf(parse), Min(|emails|, Max(1, limit)));
    }
  }

  /** The prioritised emails are drawn from the input without duplication,
      and no email left out ranks above one kept. */
  lemma PrioritizedEmailsSelected(emails: seq<EmailRecord>, limit: int, parse: string -> Option<int>)
    ensures multiset(PrioritizedEmails(emails, limit, parse)) <= multiset(emails)
    ensures forall x, y :: x in multiset(emails) - multiset(PrioritizedEmails(emails, limit, parse))
                           && y in PrioritizedEmails(emails, limit, parse)
                           ==> AtLeast(KeyOf(parse)(y), KeyOf(parse)(x))
  {
    if emails != [] {
      TopOfSortSelectsGreatest(emails, KeyOf(parse), Min(|emails|, Max(1, limit)));
    }
  }

  // ---------------------------------------------------------------------------
  // Recipients, attendees and invitation responses
  // ---------------------------------------------------------------------------

  /** `{"emailAddress": {"address": ...}}` */
  datatype Recipient = Recipient(address: string)

  const NoRecipientsError: string := "At least one recipient email address is required."

  /** The address `_format_recipients` keeps for one input: the trimmed
      text, unless the input is missing, empty or whitespace only. */
  function KeptAddress(a: Option<string>): Option<string> {
    if Truthy(a) && Strip(a.value) != [] then Some(Strip(a.value)) else None
  }

  /** The addresses `_format_recipients` keeps, trimmed, in input order. */
  function TrimmedAddresses(addresses: seq<Option<string>>): seq<string> {
    FilterMap(addresses, KeptAddress)
  }

  function AsRecipients(addresses: seq<string>): seq<Recipient> {
    seq(|addresses|, i requires 0 <= i < |addresses| => Recipient(addresses[i]))
  }

  /** `_format_recipients`: the trimmed addresses, or the error when none is
      left. */
  method FormatRecipients(addresses: seq<Option<string>>) returns (r: Result<seq<Recipient>>)
    ensures TrimmedAddresses(addresses) == [] ==> r == Failure(NoRecipientsError)
    ensures TrimmedAddresses(addresses) != [] ==> r == Success(AsRecipients(TrimmedAddresses(addresses)))
  {
    var recipients: seq<Recipient> := [];
    for i := 0 to |addresses|
      invariant recipients == AsRecipients(TrimmedAddresses(addresses[..i]))
    {
      assert addresses[..i + 1][..i] == addresses[..i];
      var address := addresses[i];
      if address.None? || address.value == [] {
        continue;
      }
      var trimmed := Strip(address.value);
      if trimmed == [] {
        continue;
      }
      recipients := recipients + [Recipient(trimmed)];
    }
    assert addresses[..|addresses|] == addresses;
    if recipients == [] {
      return Failure(NoRecipientsError);
    }
    return Success(recipients);
  }

  /** Formatting respects concatenation, so the kept addresses appear in
      the order of their inputs. */
  lemma TrimmedAddressesConcat(a: seq<Option<string>>, b: seq<Option<string>>)
    ensures TrimmedAddresses(a + b) == TrimmedAddresses(a) + TrimmedAddresses(b)
  {
    FilterMapConcat(a, b, KeptAddress);
  }

  /** Every kept address is non-empty and already trimmed; none is kept
      exactly when every input is missing or whitespace only. */
  lemma {:induction false} TrimmedAddressesSpec(addresses: seq<Option<string>>)
    ensures forall x :: x in TrimmedAddresses(addresses) ==> x != [] && Strip(x) == x
    ensures TrimmedAddresses(addresses) == []
            <==> forall i :: 0 <= i < |addresses| ==> !Truthy(addresses[i]) || AllSpace(addresses[i].value)
  {
    if addresses != [] {
      var prefix := addresses[..|addresses| - 1];
      var a := addresses[|addresses| - 1];
      TrimmedAddressesSpec(prefix);
      if Truthy(a) {
        StripIdempotent(a.value);
        StripEmptyIff(a.value);
      }
      assert forall i :: 0 <= i < |prefix| ==> prefix[i] == addresses[i];
    }
  }

  /** `{"emailAddress": {"address": ...}, "type": "required"}` */
  datatype Attendee = Attendee(address: string, kind: string)

  const NoAttendeesError: string := "At least one attendee is required to create a meeting."

  /** The attendee `create_meeting` makes of one address, unless it is
      blank. */
  function RequiredAttendee(address: string): Option<Attendee> {
    if Strip(address) != [] then Some(Attendee(Strip(address), "required")) else None
  }

  /** The attendee list of `create_meeting`: every address that is not
      blank, trimmed, as a required attendee, in input order. */
  function RequiredAttendees(addresses: seq<string>): seq<Attendee> {
    FilterMap(addresses, RequiredAttendee)
  }

  /** The event `create_meeting` would post. */
  datatype MeetingRequest = MeetingRequest(
    subject: string, body: string, start: string, end: string, timeZone: string,
    attendees: seq<Attendee>, location: Option<string>)

  /** The checks and payload of `create_meeting`: an error when no attendee
      is left, and a location only when one is given. */
  function CreateMeeting(subject: string, start: string, end: string, attendees: seq<string>,
                         body: string, location: Option<string>): (r: Result<MeetingRequest>)
    ensures r.Failure? <==> RequiredAttendees(attendees) == []
    ensures r.Failure? ==> r.error == NoAttendeesError
    ensures r.Success? ==> r.value.attendees == RequiredAttendees(attendees)
                           && (r.value.location.Some? <==> Truthy(location))
  {
    var required := RequiredAttendees(attendees);
    if required == [] then Failure(NoAttendeesError)
    else Success(MeetingRequest(subject, body, start, end, "UTC", required,
                                if Truthy(location) then location else None))
  }

  /** The addresses as present values, in order. */
  function Somes(addresses: seq<string>): (r: seq<Option<string>>)
    ensures |r| == |addresses|
  {
    if addresses == [] then [] else Somes(addresses[..|addresses| - 1]) + [Some(addresses[|addresses| - 1])]
  }

  function AsAttendees(addresses: seq<string>): seq<Attendee> {
    seq(|addresses|, i requires 0 <= i < |addresses| => Attendee(addresses[i], "required"))
  }

  /** One address is kept as an attendee exactly when it would be kept as a
      recipient, and trimmed the same way. */
  lemma AttendeeOfKeptAddress(x: string)
    ensures RequiredAttendee(x) == match KeptAddress(Some(x))
                                   case Some(a) => Some(Attendee(a, "required"))
                                   case None => None
  {
    if x == [] {
      StripEmptyIff(x);
    }
  }

  /** The meeting keeps exactly the addresses a recipient list would keep,
      in the same order, each as a required attendee. */
  lemma {:induction false} AttendeesAreTrimmedAddresses(addresses: seq<string>)
    ensures RequiredAttendees(addresses) == AsAttendees(TrimmedAddresses(Somes(addresses)))
  {
    if addresses != [] {
      var n := |addresses|;
      var prefix, last := addresses[..n - 1], addresses[n - 1];
      assert addresses == prefix + [last];
      AttendeesAreTrimmedAddresses(prefix);
      var kept := TrimmedAddresses(Somes(prefix));
      assert Somes(addresses) == Somes(prefix) + [Some(last)];
      FilterMapSnoc(prefix, last, RequiredAttendee);
      FilterMapSnoc(Somes(prefix), Some(last), KeptAddress);
      AttendeeOfKeptAddress(last);
      var k := KeptAddress(Some(last));
      if k.Some? {
        assert AsAttendees(kept + [k.value]) == AsAttendees(kept) + [Attendee(k.value, "required")];
      }
    }
  }

  /** The request `respond_to_invite` would post. */
  datatype InviteCall = InviteCall(endpoint: string, url: string, comment: string, sendResponse: bool,
                                   confirmation: string)

  const InviteResponseError: string := "Response must be one of 'accept', 'decline', or 'tentative'."

  /** The Graph action for a lower-cased response, if there is one. */
  function InviteEndpoint(normalized: string): Option<string> {
    if normalized == "accept" then Some("accept")
    else if normalized == "decline" then Some("decline")
    else if normalized == "tentative" then Some("tentativelyAccept")
    else None
  }

  /** `respond_to_invite` up to the request: the response is lower-cased and
      mapped to its action, or rejected before anything is sent. */
  function RespondToInvite(eventId: string, response: string, comment: string, sendResponse: bool): (r: Result<InviteCall>)
    ensures r.Failure? ==> r.error == InviteResponseError
    ensures r.Success? ==> && r.value.comment == comment && r.value.sendResponse == sendResponse
                           && r.value.url == GraphBaseUrl + "/me/events/" + eventId + "/" + r.value.endpoint
                           && r.value.confirmation == "Invite response '" + Lower(response) + "' sent successfully."
  {
    var normalized := Lower(response);
    match InviteEndpoint(normalized)
    case None => Failure(InviteResponseError)
    case Some(endpoint) =>
      Success(InviteCall(endpoint, GraphBaseUrl + "/me/events/" + eventId + "/" + endpoint, comment, sendResponse,
                         "Invite response '" + normalized + "' sent successfully."))
  }

  /** Only accept, decline and tentative, in any letter case, are accepted;
      tentative maps to tentativelyAccept and the other two to themselves;
      every other response fails with the error. */
  lemma RespondToInviteMapping(eventId: string, response: string, comment: string, sendResponse: bool)
    ensures var r := RespondToInvite(eventId, response, comment, sendResponse);
            && (r.Success? <==> Lower(response) in {"accept", "decline", "tentative"})
            && (r.Failure? ==> r.error == InviteResponseError)
            && (Lower(response) == "accept" ==> r.Success? && r.value.endpoint == "accept")
            && (Lower(response) == "decline" ==> r.Success? && r.value.endpoint == "decline")
            && (Lower(response) == "tentative" ==> r.Success? && r.value.endpoint == "tentativelyAccept")
            && (r.Success? ==> EndsWith(r.value.url, "/" + r.value.endpoint))
  {
    var r := RespondToInvite(eventId, response, comment, sendResponse);
    if r.Success? {
      var prefix := GraphBaseUrl + "/me/events/" + eventId;
      assert r.value.url == prefix + ("/" + r.value.endpoint);
    }
  }

  // ---------------------------------------------------------------------------
  // Summaries
  // ---------------------------------------------------------------------------

  /** The summary headers and fallback lines are single lines. */
  lemma EmailHeaderIsSingleLine() ensures SingleLine(EmailHeader) {}
  lemma NoEmailsLineIsSingleLine() ensures SingleLine(NoEmailsLine) {}
  lemma EventHeaderIsSingleLine() ensures SingleLine(EventHeader) {}
  lemma NoEventsLineIsSingleLine() ensures SingleLine(NoEventsLine) {}

  /** The email summary is the header, then one line per email in input
      order, each naming the email's subject and sender; exactly when there
      are no emails, the fallback line follows the header instead. */
  lemma EmailSummaryLines(emails: seq<EmailRecord>, toUtc: string -> Option<int>)
    requires forall i :: 0 <= i < |emails| ==> SingleLine(EmailLine(emails[i], toUtc))
    ensures var lines := Split(ReportText(EmailHeader, EmailLines(emails, toUtc), NoEmailsLine), '\n');
            && lines[0] == EmailHeader
            && (emails == [] ==> lines == [EmailHeader, NoEmailsLine])
            && (emails != [] ==> lines[1..] == EmailLines(emails, toUtc))
            && |lines| == 1 + Max(1, |emails|)
            && forall i :: 0 <= i < |emails| ==>
                 StartsWith(lines[i + 1], "- " + emails[i].subject + " from " + emails[i].sender + " at ")
  {
    var body := EmailLines(emails, toUtc);
    EmailHeaderIsSingleLine();
    NoEmailsLineIsSingleLine();
    ReportTextLines(EmailHeader, body, NoEmailsLine);
    var lines := Split(ReportText(EmailHeader, body, NoEmailsLine), '\n');
    forall i | 0 <= i < |emails|
      ensures StartsWith(lines[i + 1], "- " + emails[i].subject + " from " + emails[i].sender + " at ")
    {
      assert lines[i + 1] == body[i];
    }
  }

  /** The event summary is the header, then one line per event in input
      order, each naming the event's subject; exactly when there are no
      events, the fallback line follows the header instead. */
  lemma EventSummaryLines(events: seq<EventRecord>, toUtc: string -> Option<int>)
    requires forall i :: 0 <= i < |events| ==> SingleLine(EventLine(events[i], toUtc))
    ensures var lines := Split(ReportText(EventHeader, EventLines(events, toUtc), NoEventsLine), '\n');
            && lines[0] == EventHeader
            && (events == [] ==> lines == [EventHeader, NoEventsLine])
            && (events != [] ==> lines[1..] == EventLines(events, toUtc))
            && |lines| == 1 + Max(1, |events|)
            && forall i :: 0 <= i < |events| ==>
                 StartsWith(lines[i + 1], "- " + events[i].subject + " starting ")
  {
    var body := EventLines(events, toUtc);
    EventHeaderIsSingleLine();
    NoEventsLineIsSingleLine();
    ReportTextLines(EventHeader, body, NoEventsLine);
    var lines := Split(ReportText(EventHeader, body, NoEventsLine), '\n');
    forall i | 0 <= i < |events| ensures StartsWith(lines[i + 1], "- " + events[i].subject + " starting ") {
      assert lines[i + 1] == body[i];
    }
  }
}
