/**
 * The booking component's state (App.tsx): the `booking` record and the
 * `isSubmitting` flag, updated in place by the event handlers, together with
 * the outbound effects the component has performed so far.
 */
module Session {
  import opened Types
  import opened Constants
  import opened Text
  import opened Booking
  import opened Submission

  class BookingSession {
    var booking: BookingDetails
    var isSubmitting: bool
    /** Every outbound effect and flag change so far, oldest first. */
    var effects: seq<Effect>

    /**
     * Between events the record satisfies its invariant, its date (a value of
     * the date input) holds no newline, no submission is in flight, and the
     * flag agrees with the last flag change in the trace.
     */
    predicate Valid()
      reads this
    {
      Invariant(booking) && NoNewline(booking.date) && !isSubmitting && isSubmitting == FlagAfter(effects, false)
    }

    /** The state the component mounts with; `today` is the clock's current date. */
    constructor (today: string)
      requires NoNewline(today)
      ensures Valid()
      ensures booking == InitialBooking(today) && effects == []
    {
      booking := InitialBooking(today);
      isSubmitting := false;
      effects := [];
    }

    /** `handleAttractionClick`: only the attraction changes. */
    method SelectAttraction(id: AttractionType)
      requires Valid()
      modifies this
      ensures Valid()
      ensures booking == old(booking).(attractionId := id)
      ensures effects == old(effects)
    {
      booking := booking.(attractionId := id);
    }

    /**
     * The date input's change handler: only the date changes, and it is not
     * re-validated. A date input only ever yields `yyyy-mm-dd` or nothing.
     */
    method SetDate(date: string)
      requires Valid()
      requires NoNewline(date)
      modifies this
      ensures Valid()
      ensures booking == old(booking).(date := date)
      ensures effects == old(effects)
    {
      booking := booking.(date := date);
    }

    /** A timeslot button: only the timeslot changes. The buttons only offer the catalog's slots. */
    method SetTimeSlot(slot: string)
      requires Valid()
      requires slot in TimeSlots
      modifies this
      ensures Valid()
      ensures booking == old(booking).(timeSlot := slot)
      ensures effects == old(effects)
    {
      booking := booking.(timeSlot := slot);
    }

    /** `updateCount`: the named counter moves by `delta`, clamped at its floor. */
    method UpdateCount(kind: CountKind, delta: int)
      requires Valid()
      modifies this
      ensures Valid()
      ensures booking == CountUpdate(old(booking), kind, delta)
      ensures effects == old(effects)
    {
      CountUpdateKeepsInvariant(booking, kind, delta);
      booking := CountUpdate(booking, kind, delta);
    }

    /**
     * `handleBookingSubmit`: raise the flag, post the snapshot to the log
     * (a failure is reported and otherwise ignored), open the messaging link
     * with the encoded confirmation text, and clear the flag. `outcome` is
     * what the network does with the post; `encode` is `encodeURIComponent`.
     */
    method Submit(timestamp: string, outcome: LogOutcome, encode: string -> string)
      requires Valid()
      modifies this
      ensures Valid()
      ensures booking == old(booking)
      ensures effects == old(effects) + SubmitEffects(booking, timestamp, outcome, encode)
    {
      var snapshot := booking;
      ghost var before := effects;
      isSubmitting := true;
      effects := effects + [SubmittingSet(true)];

      var formData := Payload(snapshot, timestamp);
      var logged := LogAttempted(LogRequestFor(formData), outcome);
      effects := effects + [logged];
      var report: seq<Effect> := [];
      if outcome.Failed? {
        report := [ErrorReported(LogErrorLabel, outcome.reason)];
        effects := effects + report;
      }
      assert effects == before + ([SubmittingSet(true), logged] + report);

      var message := Message(snapshot);
      var encodedMessage := encode(message);
      var linkOpened := LinkOpened(WhatsAppLink(encodedMessage), "_blank");
      effects := effects + [linkOpened];

      isSubmitting := false;
      effects := effects + [SubmittingSet(false)];
      assert effects == before + (([SubmittingSet(true), logged] + report) + [linkOpened, SubmittingSet(false)]);
    }
  }

  /**
   * Every record a session holds between events, and so the snapshot each
   * `Submit` takes, yields a confirmation text that reads back as the payload
   * it logs, whatever the timestamp.
   */
  lemma SessionMessageReadsBack(s: BookingSession, timestamp: string)
    requires s.Valid()
    ensures MessageReadsBack(s.booking, timestamp)
  {
    MessageMatchesPayload(s.booking, timestamp);
  }
}
