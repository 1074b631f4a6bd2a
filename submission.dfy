/**
 * What `handleBookingSubmit` (App.tsx) builds and does: the log payload, the
 * confirmation text, the messaging link, and the sequence of outbound
 * effects of one submission, with the logging call's outcome left to the
 * environment.
 */
module Submission {
  import opened Types
  import opened Constants
  import opened Text
  import opened Booking

  const PendingStatus: string := "Pending WhatsApp Confirmation"

  /** The object posted to the spreadsheet endpoint. */
  datatype LogPayload = LogPayload(
    timestamp: string,
    attraction: string,
    date: string,
    timeSlot: string,
    adults: int,
    children: int,
    totalPrice: int,
    status: string)

  /** The snapshot of `b` sent to the log; `timestamp` is the clock's reading. */
  function Payload(b: BookingDetails, timestamp: string): LogPayload {
    LogPayload(timestamp, SelectedAttraction(b.attractionId).name, b.date, b.timeSlot,
               b.adultCount, b.childCount, TotalPrice(b), PendingStatus)
  }

  /** The fetch call: a POST in no-cors mode with a JSON body. */
  datatype LogRequest = LogRequest(url: string, httpMethod: string, mode: string, contentType: string, body: LogPayload)

  function LogRequestFor(payload: LogPayload): LogRequest {
    LogRequest(WebhookUrl, "POST", "no-cors", "application/json", payload)
  }

  // The fixed parts of the confirmation text. The leading characters of the
  // five labelled lines are kept exactly as the source text has them.
  // The greeting is written in two halves only to keep the proof that it
  // holds no newline small.
  const Greeting: string := "Hello Sepilok Admin! " + "I would like to book a visit:"
  const Rule: string := "----------------------------"
  const AttractionLabel: string := "\U{00F0}\U{0178}\U{0152}\U{00BF} Attraction: "
  const DateLabel: string := "\U{00F0}\U{0178}\U{201C}\U{2026} Date: "
  const TimeLabel: string := "\U{00F0}\U{0178}\U{2022} Time: "
  const VisitorsLabel: string := "\U{00F0}\U{0178}\U{2018}\U{00A5} Visitors: "
  const AdultsLabel: string := " Adult(s), "
  const ChildrenLabel: string := " Child(ren)"
  const TotalLabel: string := "\U{00F0}\U{0178}\U{2019}\U{00B0} Total: RM "
  const Closing: string := "Please confirm availability. Thank you!"

  /** The nine lines of the confirmation text for `b`. */
  function MessageLines(b: BookingDetails): seq<string> {
    [ Greeting,
      Rule,
      AttractionLabel + SelectedAttraction(b.attractionId).name,
      DateLabel + b.date,
      TimeLabel + b.timeSlot,
      VisitorsLabel + NumberToString(b.adultCount) + AdultsLabel + NumberToString(b.childCount) + ChildrenLabel,
      TotalLabel + NumberToString(TotalPrice(b)),
      Rule,
      Closing ]
  }

  /** The confirmation text handed to the messaging app. */
  function Message(b: BookingDetails): string {
    JoinLines(MessageLines(b))
  }

  /** The messaging deep link for an already percent-encoded text. */
  function WhatsAppLink(encodedMessage: string): string {
    "https://wa.me/" + WhatsAppNumber + "?text=" + encodedMessage
  }

  /** The booking facts a reader of the log or of the message learns. */
  datatype Summary = Summary(attraction: string, date: string, timeSlot: string, adults: int, children: int, total: int)

  function PayloadSummary(p: LogPayload): Summary {
    Summary(p.attraction, p.date, p.timeSlot, p.adults, p.children, p.totalPrice)
  }

  /** A leading decimal number and the text after it. */
  function ReadCount(s: string): Option<(nat, string)> {
    var (digits, rest) := SpanDigits(s);
    if digits == [] then None else Some((ParseNat(digits), rest))
  }

  /** The visitors line gives back both counters. */
  function ReadVisitors(line: string): Option<(int, int)> {
    match StripPrefix(VisitorsLabel, line)
    case None => None
    case Some(s1) =>
      match ReadCount(s1)
      case None => None
      case Some((adults, s2)) =>
        match StripPrefix(AdultsLabel, s2)
        case None => None
        case Some(s3) =>
          match ReadCount(s3)
          case None => None
          case Some((children, s4)) => if s4 == ChildrenLabel then Some((adults, children)) else None
  }

  /** The total line gives back the price. */
  function ReadTotal(line: string): Option<int> {
    match StripPrefix(TotalLabel, line)
    case None => None
    case Some(s) =>
      match ReadCount(s)
      case None => None
      case Some((total, rest)) => if rest == [] then Some(total) else None
  }

  /** Recovers the booking facts from the lines of a confirmation text, or nothing if they are not its lines. */
  function ReadLines(lines: seq<string>): Option<Summary> {
    if |lines| != 9 || lines[0] != Greeting || lines[1] != Rule || lines[7] != Rule || lines[8] != Closing then None
    else
      var name := StripPrefix(AttractionLabel, lines[2]);
      var date := StripPrefix(DateLabel, lines[3]);
      var slot := StripPrefix(TimeLabel, lines[4]);
      var visitors := ReadVisitors(lines[5]);
      var total := ReadTotal(lines[6]);
      if name.None? || date.None? || slot.None? || visitors.None? || total.None? then None
      else Some(Summary(name.value, date.value, slot.value, visitors.value.0, visitors.value.1, total.value))
  }

  /** Recovers the booking facts from a confirmation text, or nothing if it is not one. */
  function ReadMessage(m: string): Option<Summary> {
    ReadLines(SplitLines(m))
  }

  lemma ReadCountOf(n: nat, rest: string)
    requires rest == [] || !IsDigit(rest[0])
    ensures ReadCount(NatToString(n) + rest) == Some((n, rest))
  {
    SpanDigitsAt(NatToString(n), rest);
    ParseNatToString(n);
  }

  lemma ReadVisitorsOf(adults: nat, children: nat)
    ensures ReadVisitors(VisitorsLabel + NatToString(adults) + AdultsLabel + NatToString(children) + ChildrenLabel)
            == Some((adults, children))
  {
    var a, c := NatToString(adults), NatToString(children);
    var s3 := c + ChildrenLabel;
    var s2 := AdultsLabel + s3;
    var s1 := a + s2;
    var line := VisitorsLabel + s1;
    Regroup(VisitorsLabel, a, AdultsLabel, c, ChildrenLabel);
    assert VisitorsLabel + a + AdultsLabel + c + ChildrenLabel == line;
    StripPrefixOf(VisitorsLabel, s1);
    VisitorsCountsRead(adults, children);
  }

  /** Concatenation regrouped to the right, stated on plain variables so the labels' characters stay out of the proof. */
  lemma Regroup(p: string, q: string, r: string, s: string, t: string)
    ensures p + q + r + s + t == p + (q + (r + (s + t)))
  {
  }

  /** After the visitors label: the adults, the middle label, the children and the closing label. */
  lemma VisitorsCountsRead(adults: nat, children: nat)
    ensures var s3 := NatToString(children) + ChildrenLabel;
      ReadCount(NatToString(adults) + (AdultsLabel + s3)) == Some((adults, AdultsLabel + s3)) &&
      StripPrefix(AdultsLabel, AdultsLabel + s3) == Some(s3) &&
      ReadCount(s3) == Some((children, ChildrenLabel))
  {
    var s3 := NatToString(children) + ChildrenLabel;
    ReadCountOf(adults, AdultsLabel + s3);
    StripPrefixOf(AdultsLabel, s3);
    ReadCountOf(children, ChildrenLabel);
  }

  lemma ReadTotalOf(total: nat)
    ensures ReadTotal(TotalLabel + NatToString(total)) == Some(total)
  {
    StripPrefixOf(TotalLabel, NatToString(total));
    assert NatToString(total) + [] == NatToString(total);
    ReadCountOf(total, []);
  }

  // The newline facts below are split into small lemmas, one per group of
  // literals, because a single proof about every literal of the confirmation
  // text at once is too costly for the verifier.

  lemma NoNewlineDigits(s: string)
    requires AllDigits(s)
    ensures NoNewline(s)
  {
  }

  lemma NoNewlineConcat(a: string, b: string)
    requires NoNewline(a) && NoNewline(b)
    ensures NoNewline(a + b)
  {
  }

  lemma GreetingNoNewline()
    ensures NoNewline(Greeting)
  {
    var left, right := "Hello Sepilok Admin! ", "I would like to book a visit:";
    assert NoNewline(left) && NoNewline(right);
    NoNewlineConcat(left, right);
  }

  lemma FixedLinesNoNewline()
    ensures NoNewline(Rule) && NoNewline(Closing)
  {
  }

  lemma LabelsNoNewline()
    ensures NoNewline(AttractionLabel) && NoNewline(DateLabel) && NoNewline(TimeLabel)
  {
  }

  lemma CountLabelsNoNewline()
    ensures NoNewline(VisitorsLabel) && NoNewline(AdultsLabel) && NoNewline(ChildrenLabel) && NoNewline(TotalLabel)
  {
  }

  lemma NameNoNewline(id: AttractionType)
    ensures NoNewline(SelectedAttraction(id).name)
  {
    SelectedNames(id);
  }

  lemma SlotNoNewline(slot: string)
    requires slot in TimeSlots
    ensures NoNewline(slot)
  {
  }

  /** No line of a reachable record's confirmation text contains a newline. */
  lemma MessageLinesNoNewline(b: BookingDetails)
    requires Invariant(b) && NoNewline(b.date)
    ensures forall i :: 0 <= i < |MessageLines(b)| ==> NoNewline(MessageLines(b)[i])
  {
    var a := SelectedAttraction(b.attractionId);
    TotalPriceNonNegative(b);
    var adults, children, total := NatToString(b.adultCount), NatToString(b.childCount), NatToString(TotalPrice(b));
    NoNewlineDigits(adults);
    NoNewlineDigits(children);
    NoNewlineDigits(total);
    NameNoNewline(b.attractionId);
    SlotNoNewline(b.timeSlot);
    GreetingNoNewline();
    FixedLinesNoNewline();
    LabelsNoNewline();
    CountLabelsNoNewline();
    NoNewlineConcat(AttractionLabel, a.name);
    NoNewlineConcat(DateLabel, b.date);
    NoNewlineConcat(TimeLabel, b.timeSlot);
    NoNewlineConcat(VisitorsLabel, adults);
    NoNewlineConcat(VisitorsLabel + adults, AdultsLabel);
    NoNewlineConcat(VisitorsLabel + adults + AdultsLabel, children);
    NoNewlineConcat(VisitorsLabel + adults + AdultsLabel + children, ChildrenLabel);
    NoNewlineConcat(TotalLabel, total);
  }

  /** Each line of the confirmation text gives back its field of the record. */
  lemma MessageLinesRead(b: BookingDetails, timestamp: string)
    requires Invariant(b)
    ensures ReadLines(MessageLines(b)) == Some(PayloadSummary(Payload(b, timestamp)))
  {
    MessageTextLinesRead(b);
    MessageCountLinesRead(b);
  }

  /** The attraction, date and timeslot lines give back their text. */
  lemma MessageTextLinesRead(b: BookingDetails)
    ensures StripPrefix(AttractionLabel, MessageLines(b)[2]) == Some(SelectedAttraction(b.attractionId).name)
    ensures StripPrefix(DateLabel, MessageLines(b)[3]) == Some(b.date)
    ensures StripPrefix(TimeLabel, MessageLines(b)[4]) == Some(b.timeSlot)
  {
    StripPrefixOf(AttractionLabel, SelectedAttraction(b.attractionId).name);
    StripPrefixOf(DateLabel, b.date);
    StripPrefixOf(TimeLabel, b.timeSlot);
  }

  /** The visitors and total lines give back the counts and the total. */
  lemma MessageCountLinesRead(b: BookingDetails)
    requires Invariant(b)
    ensures ReadVisitors(MessageLines(b)[5]) == Some((b.adultCount, b.childCount))
    ensures ReadTotal(MessageLines(b)[6]) == Some(TotalPrice(b))
  {
    TotalPriceNonNegative(b);
    ReadVisitorsOf(b.adultCount, b.childCount);
    ReadTotalOf(TotalPrice(b));
  }

  /**
   * The confirmation text and the log payload are snapshots of the same
   * record: reading the text back gives exactly the payload's attraction
   * name, date, timeslot, counts and total, and the payload is marked
   * pending. (The date comes from a date input, so it holds no newline.)
   */
  lemma MessageMatchesPayload(b: BookingDetails, timestamp: string)
    requires Invariant(b) && NoNewline(b.date)
    ensures ReadMessage(Message(b)) == Some(PayloadSummary(Payload(b, timestamp)))
    ensures Payload(b, timestamp).status == PendingStatus
  {
    MessageLinesNoNewline(b);
    SplitJoinLines(MessageLines(b));
    MessageLinesRead(b, timestamp);
  }

  /** The confirmation text for `b` reads back as the payload logged at `timestamp`. */
  predicate MessageReadsBack(b: BookingDetails, timestamp: string) {
    ReadMessage(Message(b)) == Some(PayloadSummary(Payload(b, timestamp)))
  }

  /**
   * How the awaited spreadsheet call settled: normally or rejected. A call
   * that never settles has no case here.
   */
  datatype LogOutcome = Delivered | Failed(reason: string)

  /** An observable step of a submission. */
  datatype Effect =
    | SubmittingSet(on: bool)
    | LogAttempted(request: LogRequest, outcome: LogOutcome)
    | ErrorReported(context: string, reason: string)
    | LinkOpened(url: string, target: string)

  const LogErrorLabel: string := "Error logging booking:"

  /**
   * The effects of one submission of `b`, in order. `encode` is
   * `encodeURIComponent`; `outcome` is what the network did with the log call.
   */
  function SubmitEffects(b: BookingDetails, timestamp: string, outcome: LogOutcome, encode: string -> string): seq<Effect> {
    [SubmittingSet(true), LogAttempted(LogRequestFor(Payload(b, timestamp)), outcome)]
    + (if outcome.Failed? then [ErrorReported(LogErrorLabel, outcome.reason)] else [])
    + [LinkOpened(WhatsAppLink(encode(Message(b))), "_blank"), SubmittingSet(false)]
  }

  /** The value of the submitting flag after `trace`, starting from `start`. */
  function FlagAfter(trace: seq<Effect>, start: bool): bool {
    if trace == [] then start
    else if trace[|trace| - 1].SubmittingSet? then trace[|trace| - 1].on
    else FlagAfter(trace[..|trace| - 1], start)
  }

  /** Whether an effect reaches the network or the browser. */
  predicate IsOutbound(e: Effect) {
    e.LogAttempted? || e.LinkOpened?
  }

  /**
   * One submission logs exactly once, then opens exactly one link, the
   * messaging link for `b`'s text, whatever the settled outcome of the log
   * call; the
   * failure is reported exactly when the call failed.
   */
  lemma SubmitEffectsOrder(b: BookingDetails, timestamp: string, outcome: LogOutcome, encode: string -> string)
    ensures var t := SubmitEffects(b, timestamp, outcome, encode);
      |t| >= 4 &&
      t[1] == LogAttempted(LogRequestFor(Payload(b, timestamp)), outcome) &&
      t[|t| - 2] == LinkOpened(WhatsAppLink(encode(Message(b))), "_blank") &&
      (forall i :: 0 <= i < |t| && t[i].LogAttempted? ==> i == 1) &&
      (forall i :: 0 <= i < |t| && t[i].LinkOpened? ==> i == |t| - 2) &&
      ((exists i :: 0 <= i < |t| && t[i].ErrorReported?) <==> outcome.Failed?)
  {
    var t := SubmitEffects(b, timestamp, outcome, encode);
    if outcome.Failed? {
      assert t[2].ErrorReported?;
    }
  }

  /**
   * The flag is raised for the whole span of a submission: every outbound
   * effect happens while it is set, and it is clear again at the end.
   */
  lemma {:induction false} SubmitFlagSpan(b: BookingDetails, timestamp: string, outcome: LogOutcome, encode: string -> string, start: bool)
    ensures var t := SubmitEffects(b, timestamp, outcome, encode);
      (forall k :: 0 <= k < |t| && IsOutbound(t[k]) ==> FlagAfter(t[..k], start)) &&
      !FlagAfter(t, start)
  {
    var t := SubmitEffects(b, timestamp, outcome, encode);
    forall k | 0 <= k < |t| && IsOutbound(t[k]) ensures FlagAfter(t[..k], start) {
      FlagHeld(t, k, start);
    }
  }

  /** Between the first effect and `k`, nothing but log, report and link effects occur. */
  lemma {:induction false} FlagHeld(t: seq<Effect>, k: nat, start: bool)
    requires 1 <= k <= |t|
    requires t[0] == SubmittingSet(true)
    requires forall i :: 1 <= i < k ==> !t[i].SubmittingSet?
    ensures FlagAfter(t[..k], start)
  {
    if k > 1 {
      assert t[..k][..k - 1] == t[..k - 1];
      FlagHeld(t, k - 1, start);
    }
  }

  /** The effects other than the log call and its error report. */
  function Visible(trace: seq<Effect>): seq<Effect> {
    if trace == [] then []
    else if trace[0].LogAttempted? || trace[0].ErrorReported? then Visible(trace[1..])
    else [trace[0]] + Visible(trace[1..])
  }

  lemma {:induction false} VisibleAppend(s: seq<Effect>, t: seq<Effect>)
    ensures Visible(s + t) == Visible(s) + Visible(t)
  {
    if s == [] {
      assert s + t == t;
    } else {
      assert (s + t)[1..] == s[1..] + t;
      VisibleAppend(s[1..], t);
    }
  }

  /**
   * The log call cannot influence anything the visitor sees: whichever way
   * it goes, the submission raises the flag, opens the same link and clears
   * the flag.
   */
  lemma SubmitIndependentOfLog(b: BookingDetails, timestamp: string, o1: LogOutcome, o2: LogOutcome, encode: string -> string)
    ensures Visible(SubmitEffects(b, timestamp, o1, encode)) == Visible(SubmitEffects(b, timestamp, o2, encode))
    ensures Visible(SubmitEffects(b, timestamp, o1, encode)) ==
            [SubmittingSet(true), LinkOpened(WhatsAppLink(encode(Message(b))), "_blank"), SubmittingSet(false)]
  {
    var link := LinkOpened(WhatsAppLink(encode(Message(b))), "_blank");
    forall o: LogOutcome
      ensures Visible(SubmitEffects(b, timestamp, o, encode)) == [SubmittingSet(true), link, SubmittingSet(false)]
    {
      var head := [SubmittingSet(true), LogAttempted(LogRequestFor(Payload(b, timestamp)), o)];
      var report: seq<Effect> := if o.Failed? then [ErrorReported(LogErrorLabel, o.reason)] else [];
      var tail := [link, SubmittingSet(false)];
      VisibleAppend(head + report, tail);
      VisibleAppend(head, report);
      assert Visible(head) == [SubmittingSet(true)] by {
        assert head[1..][1..] == [];
      }
      assert Visible(report) == [] by {
        if o.Failed? { assert report[1..] == []; }
      }
      assert Visible(tail) == tail by {
        assert tail[1..][1..] == [];
      }
    }
  }
}
