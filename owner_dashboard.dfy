/**
 * The turf owner's dashboard component (OwnerDashboard in
 * app/dashboard/turf-owner/page.tsx) as an object: one field per piece of
 * component state, one method per handler. Each handler runs as a single
 * atomic update; the simulated network delays between its steps are not
 * modelled.
 */
module OwnerDashboard {
  import opened Options
  import opened TurfFormText
  import opened OwnerRecords

  class Dashboard {
    var summary: Option<Summary>
    var turfs: seq<OwnerTurf>
    var selectedTurf: Option<OwnerTurf>
    var bookings: seq<Booking>
    var notifications: seq<Notification>
    var showAddEditModal: bool
    var editingTurf: Option<OwnerTurf>
    var turfForm: TurfForm
    var isSaving: bool
    var paymentModalOpen: bool
    var paymentModalBooking: Option<Booking>
    var isProcessingPaymentAction: bool

    /** The state when the component mounts, before anything has loaded. */
    constructor ()
      ensures summary == None
      ensures turfs == [] && selectedTurf == None && bookings == [] && notifications == []
      ensures !showAddEditModal && editingTurf == None && turfForm == BlankForm && !isSaving
      ensures !paymentModalOpen && paymentModalBooking == None && !isProcessingPaymentAction
    {
      summary := None;
      turfs := [];
      selectedTurf := None;
      bookings := [];
      notifications := [];
      showAddEditModal := false;
      editingTurf := None;
      turfForm := BlankForm;
      isSaving := false;
      paymentModalOpen := false;
      paymentModalBooking := None;
      isProcessingPaymentAction := false;
    }

    /** The number on the bell's badge (`unreadCount`). */
    function Unread(): nat
      reads this
    {
      UnreadCount(notifications)
    }

    /** Whether the bell shows its badge. */
    predicate ShowsBadge()
      reads this
    {
      Unread() > 0
    }

    /** Whether the payment modal shows Verify Payment and Request Refund. */
    predicate ShowsPaymentButtons()
      reads this
    {
      paymentModalOpen && paymentModalBooking.Some? && PaymentActionsOffered(paymentModalBooking.value)
    }

    /**
     * The initial load: the summary figures, the owner's turfs and the
     * notifications arrive. No handler changes the summary afterwards.
     */
    method Load(loadedSummary: Summary, loadedTurfs: seq<OwnerTurf>, loadedNotifications: seq<Notification>)
      modifies this`summary, this`turfs, this`notifications
      ensures summary == Some(loadedSummary)
      ensures turfs == loadedTurfs && notifications == loadedNotifications
    {
      summary := Some(loadedSummary);
      turfs := loadedTurfs;
      notifications := loadedNotifications;
    }

    /**
     * "View bookings" on a turf of the list. Selecting the turf that is
     * already selected changes nothing: the state does not change, so the
     * loading effect does not run again. Otherwise the bookings list becomes
     * that turf's bookings out of `allBookings`.
     */
    method SelectTurf(t: OwnerTurf, allBookings: seq<Booking>)
      modifies this`selectedTurf, this`bookings
      ensures selectedTurf == Some(t)
      ensures Some(t) == old(selectedTurf) ==> bookings == old(bookings)
      ensures Some(t) != old(selectedTurf) ==> bookings == BookingsOf(allBookings, t.id)
    {
      if Some(t) != selectedTurf {
        selectedTurf := Some(t);
        bookings := BookingsOf(allBookings, t.id);
      }
    }

    method OpenAddModal()
      modifies this`editingTurf, this`turfForm, this`showAddEditModal
      ensures editingTurf == None && turfForm == BlankForm && showAddEditModal
    {
      editingTurf := None;
      turfForm := BlankForm;
      showAddEditModal := true;
    }

    method OpenEditModal(t: OwnerTurf)
      modifies this`editingTurf, this`turfForm, this`showAddEditModal
      ensures editingTurf == Some(t) && turfForm == FormOf(t) && showAddEditModal
    {
      editingTurf := Some(t);
      turfForm := FormOf(t);
      showAddEditModal := true;
    }

    /** The Close and Cancel buttons of the add/edit modal. */
    method CloseModal()
      modifies this`showAddEditModal
      ensures !showAddEditModal
    {
      showAddEditModal := false;
    }

    // The form's plain inputs each replace one field of the form and nothing
    // else. The number inputs pass the number `Number(e.target.value)` gives.

    method EditName(name: string)
      modifies this`turfForm
      ensures turfForm == old(turfForm).(name := name)
    {
      turfForm := turfForm.(name := name);
    }

    method EditPricePerHour(price: int)
      modifies this`turfForm
      ensures turfForm == old(turfForm).(pricePerHour := price)
    {
      turfForm := turfForm.(pricePerHour := price);
    }

    method EditMaxPlayers(players: int)
      modifies this`turfForm
      ensures turfForm == old(turfForm).(maxPlayers := players)
    {
      turfForm := turfForm.(maxPlayers := players);
    }

    /** The status select offers `active` and `paused`. */
    method EditStatus(status: string)
      modifies this`turfForm
      ensures turfForm == old(turfForm).(status := status)
    {
      turfForm := turfForm.(status := status);
    }

    method EditAddress(address: string)
      modifies this`turfForm
      ensures turfForm == old(turfForm).(address := address)
    {
      turfForm := turfForm.(address := address);
    }

    method EditDescription(description: string)
      modifies this`turfForm
      ensures turfForm == old(turfForm).(description := description)
    {
      turfForm := turfForm.(description := description);
    }

    /** The turf-type select offers `synthetic` and `grass`. */
    method EditTurfType(turfType: string)
      modifies this`turfForm
      ensures turfForm == old(turfForm).(turfType := turfType)
    {
      turfForm := turfForm.(turfType := turfType);
    }

    method EditBufferMins(mins: int)
      modifies this`turfForm
      ensures turfForm == old(turfForm).(bufferMins := mins)
    {
      turfForm := turfForm.(bufferMins := mins);
    }

    /** Typing into the amenities field: the form's list becomes the parse of the text. */
    method EditAmenities(text: string)
      modifies this`turfForm
      ensures turfForm == old(turfForm).(amenities := ParseAmenities(text))
      ensures forall i :: 0 <= i < |turfForm.amenities| ==> IsAmenity(turfForm.amenities[i])
    {
      turfForm := turfForm.(amenities := ParseAmenities(text));
    }

    /** Typing into the time-slots field: the form's slots become the parse of the text. */
    method EditTimeSlots(text: string)
      modifies this`turfForm
      ensures turfForm == old(turfForm).(timeSlots := ParseTimeSlots(text))
      ensures |turfForm.timeSlots| == |Entries(text)|
    {
      turfForm := turfForm.(timeSlots := ParseTimeSlots(text));
    }

    /**
     * `saveTurf`: write the form back into the turf being edited, or add a new
     * turf in front; then close the modal. `now` stands for `Date.now()`, `uid`
     * for the signed-in user's uid and `createdAt` for the current ISO time.
     * The name input is `required`, so the form is submitted only with a name.
     */
    method SaveTurf(now: nat, uid: Option<string>, createdAt: string)
      requires turfForm.name != ""
      modifies this`turfs, this`isSaving, this`showAddEditModal
      ensures turfs == SavedTurfs(old(turfs), editingTurf, turfForm, now, uid, createdAt)
      ensures editingTurf.None? ==> |turfs| == |old(turfs)| + 1 && turfs[1..] == old(turfs)
      ensures editingTurf.Some? ==> |turfs| == |old(turfs)|
      ensures !isSaving && !showAddEditModal
    {
      isSaving := true;
      if editingTurf.Some? {
        turfs := WithEdits(turfs, editingTurf.value.id, turfForm);
      } else {
        turfs := [NewTurf(turfForm, now, uid, createdAt)] + turfs;
      }
      isSaving := false;
      showAddEditModal := false;
    }

    /** Approve, Reject, Mark completed and Cancel. */
    method UpdateBookingStatus(id: string, status: BookingStatus)
      modifies this`bookings
      ensures bookings == WithStatus(old(bookings), id, status)
    {
      bookings := WithStatus(bookings, id, status);
    }

    /** "Mark read" on a notification; the badge drops by the unread notifications with that id. */
    method MarkNotificationRead(id: string)
      modifies this`notifications
      ensures notifications == MarkedRead(old(notifications), id)
      ensures Unread() == old(Unread()) - UnreadWithId(old(notifications), id)
      ensures ShowsBadge() <==> exists i :: 0 <= i < |notifications| && !notifications[i].read
    {
      UnreadAfterMarkRead(notifications, id);
      notifications := MarkedRead(notifications, id);
      UnreadBadge(notifications);
    }

    /** Clicking a payment thumbnail opens the modal on a snapshot of that booking. */
    method OpenPaymentProof(b: Booking)
      modifies this`paymentModalBooking, this`paymentModalOpen
      ensures paymentModalBooking == Some(b) && paymentModalOpen
      ensures ShowsPaymentButtons() <==> PaymentActionsOffered(b)
    {
      paymentModalBooking := Some(b);
      paymentModalOpen := true;
    }

    /** The payment modal's Close button. */
    method ClosePaymentProof()
      modifies this`paymentModalBooking, this`paymentModalOpen
      ensures paymentModalBooking == None && !paymentModalOpen && !ShowsPaymentButtons()
    {
      paymentModalOpen := false;
      paymentModalBooking := None;
    }

    /**
     * Verify Payment: mark the booking's payment verified and close the
     * modal. The modal's snapshot of the booking is left as it was.
     */
    method VerifyPayment(id: string)
      modifies this`bookings, this`isProcessingPaymentAction, this`paymentModalOpen
      ensures bookings == WithPaymentVerified(old(bookings), id)
      ensures !isProcessingPaymentAction && !paymentModalOpen && !ShowsPaymentButtons()
    {
      isProcessingPaymentAction := true;
      bookings := WithPaymentVerified(bookings, id);
      isProcessingPaymentAction := false;
      paymentModalOpen := false;
    }

    /** Request Refund: cancel the booking and close the modal; `paymentVerified` is untouched. */
    method RequestRefund(id: string)
      modifies this`bookings, this`isProcessingPaymentAction, this`paymentModalOpen
      ensures bookings == WithStatus(old(bookings), id, Cancelled)
      ensures !isProcessingPaymentAction && !paymentModalOpen && !ShowsPaymentButtons()
    {
      isProcessingPaymentAction := true;
      bookings := WithStatus(bookings, id, Cancelled);
      isProcessingPaymentAction := false;
      paymentModalOpen := false;
    }
  }
}
