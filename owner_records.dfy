/**
 * The records of the turf owner's dashboard (app/dashboard/turf-owner/page.tsx)
 * and the list updates its handlers perform: each handler rewrites one list,
 * changing the entries whose id matches and keeping every other entry.
 */
module OwnerRecords {
  import opened Options
  import opened JsText
  import opened TurfFormText

  datatype BookingStatus = Pending | Confirmed | Completed | Cancelled

  /** A booking of one of the owner's turfs. `paymentProof` is the uploaded screenshot, if any. */
  datatype Booking = Booking(
    id: string,
    turfId: string,
    userName: string,
    phone: string,
    startTime: string,
    endTime: string,
    price: int,
    status: BookingStatus,
    paymentId: Option<string>,
    paymentProof: Option<string>,
    paymentVerified: bool)

  /** A notification in the dashboard's side panel; `bookingId` is its `meta.bookingId`. */
  datatype Notification = Notification(
    id: string,
    ownerId: string,
    kind: string,
    title: string,
    body: string,
    bookingId: string,
    read: bool,
    createdAt: string)

  /** One of the owner's turfs. */
  datatype OwnerTurf = OwnerTurf(
    id: string,
    ownerId: string,
    name: string,
    description: string,
    address: string,
    images: seq<string>,
    amenities: seq<string>,
    turfType: string,
    pricePerHour: int,
    maxPlayers: int,
    timeSlots: seq<TimeSlot>,
    bufferMins: int,
    status: string,
    createdAt: string)

  /** The figures on the dashboard's summary cards; only shown, never recomputed. */
  datatype Summary = Summary(
    totalBookingsToday: int,
    upcomingBookings: int,
    pendingApprovals: int,
    earningsToday: int,
    earningsMonth: int)

  /** The fields the add/edit form edits. */
  datatype TurfForm = TurfForm(
    name: string,
    description: string,
    address: string,
    images: seq<string>,
    amenities: seq<string>,
    turfType: string,
    pricePerHour: int,
    maxPlayers: int,
    timeSlots: seq<TimeSlot>,
    bufferMins: int,
    status: string)

  /** The form `openAddModal` starts from. */
  const BlankForm: TurfForm := TurfForm("", "", "", [], [], "synthetic", 0, 6, [], 15, "active")

  /** The owner id of a new turf when the signed-in user has no uid. */
  const FallbackOwnerId: string := "owner_1"

  /** The form `openEditModal` fills in from a turf (`{ ...turf }`). */
  function FormOf(t: OwnerTurf): TurfForm {
    TurfForm(t.name, t.description, t.address, t.images, t.amenities, t.turfType,
             t.pricePerHour, t.maxPlayers, t.timeSlots, t.bufferMins, t.status)
  }

  // ----- Bookings (page.tsx lines 216, 252-258, 272-292) -----

  /** `MOCK_BOOKINGS.filter(b => b.turfId === turfId)`: the bookings of one turf, in order. */
  function BookingsOf(all: seq<Booking>, turfId: string): (r: seq<Booking>)
    ensures |r| <= |all|
    ensures forall b :: b in r <==> b in all && b.turfId == turfId
  {
    if |all| == 0 then []
    else (if all[0].turfId == turfId then [all[0]] else []) + BookingsOf(all[1..], turfId)
  }

  /** The filter keeps each booking of the turf as many times as the full list holds it. */
  lemma {:induction false} BookingsOfCount(all: seq<Booking>, turfId: string)
    ensures forall b :: multiset(BookingsOf(all, turfId))[b] ==
                        if b.turfId == turfId then multiset(all)[b] else 0
  {
    if |all| > 0 {
      assert all == [all[0]] + all[1..];
      BookingsOfCount(all[1..], turfId);
    }
  }

  /** The filter keeps order: filtering a concatenation filters each part. */
  lemma {:induction false} BookingsOfAppend(a: seq<Booking>, b: seq<Booking>, turfId: string)
    ensures BookingsOf(a + b, turfId) == BookingsOf(a, turfId) + BookingsOf(b, turfId)
  {
    if |a| > 0 {
      assert (a + b)[0] == a[0];
      assert (a + b)[1..] == a[1..] + b;
      BookingsOfAppend(a[1..], b, turfId);
    } else {
      assert a + b == b;
    }
  }



  /** `prev.map(b => b._id === id ? { ...b, status } : b)`. */
  function WithStatus(bs: seq<Booking>, id: string, status: BookingStatus): (r: seq<Booking>)
    ensures |r| == |bs|
  {
    if |bs| == 0 then []
    else [if bs[0].id == id then bs[0].(status := status) else bs[0]] + WithStatus(bs[1..], id, status)
  }

  /** `prev.map(b => b._id === id ? { ...b, paymentVerified: true } : b)`. */
  function WithPaymentVerified(bs: seq<Booking>, id: string): (r: seq<Booking>)
    ensures |r| == |bs|
  {
    if |bs| == 0 then []
    else [if bs[0].id == id then bs[0].(paymentVerified := true) else bs[0]] + WithPaymentVerified(bs[1..], id)
  }

  /**
   * Setting a status changes the status of the bookings with that id and
   * nothing else: no other booking, and no other field.
   */
  lemma {:induction false} WithStatusAt(bs: seq<Booking>, id: string, status: BookingStatus, i: nat)
    requires i < |bs|
    ensures var r := WithStatus(bs, id, status);
      && r[i].(status := bs[i].status) == bs[i]
      && r[i].status == if bs[i].id == id then status else bs[i].status
  {
    if i > 0 {
      WithStatusAt(bs[1..], id, status, i - 1);
    }
  }

  /**
   * Verifying a payment sets `paymentVerified` on the bookings with that id
   * and nothing else; in particular their status is left alone.
   */
  lemma {:induction false} WithPaymentVerifiedAt(bs: seq<Booking>, id: string, i: nat)
    requires i < |bs|
    ensures var r := WithPaymentVerified(bs, id);
      && r[i].(paymentVerified := bs[i].paymentVerified) == bs[i]
      && r[i].status == bs[i].status
      && r[i].paymentVerified == (bs[i].paymentVerified || bs[i].id == id)
  {
    if i > 0 {
      WithPaymentVerifiedAt(bs[1..], id, i - 1);
    }
  }

  lemma {:induction false} WithStatusIdempotent(bs: seq<Booking>, id: string, status: BookingStatus)
    ensures WithStatus(WithStatus(bs, id, status), id, status) == WithStatus(bs, id, status)
  {
    if |bs| > 0 {
      WithStatusIdempotent(bs[1..], id, status);
    }
  }

  lemma {:induction false} WithPaymentVerifiedIdempotent(bs: seq<Booking>, id: string)
    ensures WithPaymentVerified(WithPaymentVerified(bs, id), id) == WithPaymentVerified(bs, id)
  {
    if |bs| > 0 {
      WithPaymentVerifiedIdempotent(bs[1..], id);
    }
  }

  /** Verifying a payment and requesting a refund touch different fields, so their order does not matter. */
  lemma {:induction false} VerifyAndRefundCommute(bs: seq<Booking>, id: string, other: string)
    ensures WithPaymentVerified(WithStatus(bs, id, Cancelled), other)
         == WithStatus(WithPaymentVerified(bs, other), id, Cancelled)
  {
    if |bs| > 0 {
      VerifyAndRefundCommute(bs[1..], id, other);
    }
  }

  // ----- The status buttons (page.tsx lines 504-516) -----

  /** The statuses the buttons under a booking move it to: Approve/Reject, Mark completed/Cancel, none. */
  function StatusActions(s: BookingStatus): seq<BookingStatus> {
    match s
    case Pending => [Confirmed, Cancelled]
    case Confirmed => [Completed, Cancelled]
    case Completed => []
    case Cancelled => []
  }

  /** A cancelled booking shows a "Cancelled" badge instead of buttons. */
  predicate ShowsCancelledBadge(s: BookingStatus) {
    s == Cancelled
  }

  /** How far along the booking lifecycle a status is. */
  function Stage(s: BookingStatus): nat {
    match s
    case Pending => 0
    case Confirmed => 1
    case Completed => 2
    case Cancelled => 2
  }

  /** Every offered action moves a booking strictly forward, never back to pending. */
  lemma ActionsAdvance(s: BookingStatus, next: BookingStatus)
    requires next in StatusActions(s)
    ensures Stage(s) < Stage(next) && next != Pending
  {
  }

  /** Buttons are offered exactly until the booking is completed or cancelled, and cancelling is always one of them. */
  lemma ActionsUntilFinal(s: BookingStatus)
    ensures StatusActions(s) == [] <==> Stage(s) == 2
    ensures Stage(s) < 2 ==> Cancelled in StatusActions(s)
  {
  }

  /** The status after clicking the buttons for `steps` in turn, or None if one of them is not on offer. */
  function AfterActions(s: BookingStatus, steps: seq<BookingStatus>): Option<BookingStatus>
    decreases |steps|
  {
    if |steps| == 0 then Some(s)
    else if steps[0] in StatusActions(s) then AfterActions(steps[0], steps[1..])
    else None
  }

  /** Every run of offered actions has at most two steps, and one step per stage gained at most. */
  lemma {:induction false} RunsAreShort(s: BookingStatus, steps: seq<BookingStatus>)
    requires AfterActions(s, steps).Some?
    ensures |steps| <= Stage(AfterActions(s, steps).value) - Stage(s) <= 2
    decreases |steps|
  {
    if |steps| > 0 {
      RunsAreShort(steps[0], steps[1..]);
    }
  }

  // ----- The payment buttons (page.tsx lines 675-688) -----

  /** A payment screenshot is present (a non-empty data URL). */
  predicate HasProof(b: Booking) {
    b.paymentProof.Some? && b.paymentProof.value != ""
  }

  /** Verify Payment and Request Refund are offered only for an unverified payment with a screenshot. */
  predicate PaymentActionsOffered(b: Booking) {
    !b.paymentVerified && HasProof(b)
  }

  /** The payment buttons look at the payment fields only: a booking's status never hides or shows them. */
  lemma PaymentActionsIgnoreStatus(b: Booking, status: BookingStatus)
    ensures PaymentActionsOffered(b.(status := status)) == PaymentActionsOffered(b)
  {
  }

  /** After verifying, the booking shows "already verified" and offers no payment action. */
  lemma VerifyEndsPaymentActions(bs: seq<Booking>, id: string, i: nat)
    requires i < |bs| && bs[i].id == id
    ensures var b := WithPaymentVerified(bs, id)[i];
      b.paymentVerified && !PaymentActionsOffered(b)
  {
    WithPaymentVerifiedAt(bs, id, i);
  }

  /**
   * A refund cancels the booking but leaves `paymentVerified` false, so the
   * payment buttons stay on offer for it while its status buttons are gone.
   */
  lemma RefundKeepsPaymentActions(bs: seq<Booking>, id: string, i: nat)
    requires i < |bs| && bs[i].id == id
    ensures var b := WithStatus(bs, id, Cancelled)[i];
      && PaymentActionsOffered(b) == PaymentActionsOffered(bs[i])
      && StatusActions(b.status) == [] && ShowsCancelledBadge(b.status)
  {
    WithStatusAt(bs, id, Cancelled, i);
  }

  /**
   * A completed booking shows no status button, yet when its payment is
   * unverified and has a proof the payment modal still offers Request
   * Refund, which turns it into a cancelled booking.
   */
  lemma CompletedRefundable(bs: seq<Booking>, id: string, i: nat)
    requires i < |bs| && bs[i].id == id && bs[i].status == Completed
    requires PaymentActionsOffered(bs[i])
    ensures StatusActions(bs[i].status) == []
    ensures var b := WithStatus(bs, id, Cancelled)[i];
      b.status == Cancelled && b.(status := Completed) == bs[i]
  {
    WithStatusAt(bs, id, Cancelled, i);
  }

  // ----- Notifications (page.tsx lines 220, 260-263) -----

  /** `notifications.filter(n => !n.read).length`. */
  function UnreadCount(ns: seq<Notification>): (n: nat)
    ensures n <= |ns|
  {
    if |ns| == 0 then 0 else (if ns[0].read then 0 else 1) + UnreadCount(ns[1..])
  }

  /** The `read` flags of the notifications, in order. */
  function ReadFlags(ns: seq<Notification>): seq<bool> {
    seq(|ns|, i requires 0 <= i < |ns| => ns[i].read)
  }

  /** The unread count is the number of `false` flags among the notifications. */
  lemma {:induction false} UnreadCountCountsFalse(ns: seq<Notification>)
    ensures UnreadCount(ns) == multiset(ReadFlags(ns))[false]
  {
    if |ns| > 0 {
      UnreadCountCountsFalse(ns[1..]);
      assert ReadFlags(ns) == [ns[0].read] + ReadFlags(ns[1..]);
    }
  }

  /** The number of unread notifications with the given id. */
  function UnreadWithId(ns: seq<Notification>, id: string): nat {
    if |ns| == 0 then 0
    else (if !ns[0].read && ns[0].id == id then 1 else 0) + UnreadWithId(ns[1..], id)
  }

  /** The bell shows a badge exactly when some notification is unread. */
  lemma {:induction false} UnreadBadge(ns: seq<Notification>)
    ensures UnreadCount(ns) > 0 <==> exists i :: 0 <= i < |ns| && !ns[i].read
  {
    if |ns| > 0 {
      UnreadBadge(ns[1..]);
      if exists i :: 0 <= i < |ns[1..]| && !ns[1..][i].read {
        var i :| 0 <= i < |ns[1..]| && !ns[1..][i].read;
        assert !ns[i + 1].read;
      }
      if exists i :: 0 <= i < |ns| && !ns[i].read {
        var i :| 0 <= i < |ns| && !ns[i].read;
        if i > 0 {
          assert !ns[1..][i - 1].read;
        }
      }
    }
  }

  /** `prev.map(n => n._id === id ? { ...n, read: true } : n)`. */
  function MarkedRead(ns: seq<Notification>, id: string): (r: seq<Notification>)
    ensures |r| == |ns|
  {
    if |ns| == 0 then []
    else [if ns[0].id == id then ns[0].(read := true) else ns[0]] + MarkedRead(ns[1..], id)
  }

  /** Marking read sets `read` on the notifications with that id and changes nothing else. */
  lemma {:induction false} MarkedReadAt(ns: seq<Notification>, id: string, i: nat)
    requires i < |ns|
    ensures var r := MarkedRead(ns, id);
      && r[i].(read := ns[i].read) == ns[i]
      && r[i].read == (ns[i].read || ns[i].id == id)
  {
    if i > 0 {
      MarkedReadAt(ns[1..], id, i - 1);
    }
  }

  lemma {:induction false} MarkedReadIdempotent(ns: seq<Notification>, id: string)
    ensures MarkedRead(MarkedRead(ns, id), id) == MarkedRead(ns, id)
  {
    if |ns| > 0 {
      MarkedReadIdempotent(ns[1..], id);
    }
  }

  /** Marking read lowers the unread count by the number of unread notifications with that id. */
  lemma {:induction false} UnreadAfterMarkRead(ns: seq<Notification>, id: string)
    ensures UnreadCount(MarkedRead(ns, id)) == UnreadCount(ns) - UnreadWithId(ns, id)
  {
    if |ns| > 0 {
      UnreadAfterMarkRead(ns[1..], id);
    }
  }

  ghost predicate UniqueIds(ns: seq<Notification>) {
    forall i, j :: 0 <= i < j < |ns| ==> ns[i].id != ns[j].id
  }

  /** With distinct ids, the one notification `ns[k]` is the only one its id can match. */
  lemma {:induction false} UnreadWithUniqueId(ns: seq<Notification>, k: nat)
    requires UniqueIds(ns) && k < |ns|
    ensures UnreadWithId(ns, ns[k].id) == if ns[k].read then 0 else 1
  {
    if k == 0 {
      UnreadWithIdAbsent(ns[1..], ns[0].id);
    } else {
      UnreadWithUniqueId(ns[1..], k - 1);
    }
  }

  lemma {:induction false} UnreadWithIdAbsent(ns: seq<Notification>, id: string)
    requires forall i :: 0 <= i < |ns| ==> ns[i].id != id
    ensures UnreadWithId(ns, id) == 0
  {
    if |ns| > 0 {
      UnreadWithIdAbsent(ns[1..], id);
    }
  }

  /**
   * With distinct ids, marking `ns[k]` read lowers the unread count by one
   * exactly when it was unread, and leaves it alone otherwise.
   */
  lemma MarkReadLowersUnreadByOne(ns: seq<Notification>, k: nat)
    requires UniqueIds(ns) && k < |ns|
    ensures UnreadCount(MarkedRead(ns, ns[k].id)) == UnreadCount(ns) - (if ns[k].read then 0 else 1)
  {
    UnreadAfterMarkRead(ns, ns[k].id);
    UnreadWithUniqueId(ns, k);
  }

  // ----- Turfs (page.tsx lines 236-249) -----

  /** `{ ...t, ...turfForm }`: the form's fields over the turf's; id, owner and creation time stay. */
  function ApplyForm(t: OwnerTurf, form: TurfForm): OwnerTurf {
    t.(name := form.name, description := form.description, address := form.address,
       images := form.images, amenities := form.amenities, turfType := form.turfType,
       pricePerHour := form.pricePerHour, maxPlayers := form.maxPlayers,
       timeSlots := form.timeSlots, bufferMins := form.bufferMins, status := form.status)
  }

  /** `prev.map(t => t._id === id ? { ...t, ...turfForm } : t)`. */
  function WithEdits(ts: seq<OwnerTurf>, id: string, form: TurfForm): (r: seq<OwnerTurf>)
    ensures |r| == |ts|
  {
    if |ts| == 0 then []
    else [if ts[0].id == id then ApplyForm(ts[0], form) else ts[0]] + WithEdits(ts[1..], id, form)
  }

  /** The id of a turf created at time `now` (milliseconds): `turf_${Date.now()}`. */
  function NewTurfId(now: nat): string {
    "turf_" + DecimalString(now)
  }

  /** `user?.uid || 'owner_1'`: a missing or empty uid falls back. */
  function OwnerIdFor(uid: Option<string>): string {
    if uid.Some? && uid.value != "" then uid.value else FallbackOwnerId
  }

  /** `{ ...turfForm, _id, ownerId, createdAt }`. */
  function NewTurf(form: TurfForm, now: nat, uid: Option<string>, createdAt: string): OwnerTurf {
    OwnerTurf(NewTurfId(now), OwnerIdFor(uid), form.name, form.description, form.address,
              form.images, form.amenities, form.turfType, form.pricePerHour, form.maxPlayers,
              form.timeSlots, form.bufferMins, form.status, createdAt)
  }

  /** The turfs list after saving the form: edit the turf being edited, or put a new turf first. */
  function SavedTurfs(ts: seq<OwnerTurf>, editing: Option<OwnerTurf>, form: TurfForm,
                      now: nat, uid: Option<string>, createdAt: string): seq<OwnerTurf>
  {
    match editing
    case Some(e) => WithEdits(ts, e.id, form)
    case None => [NewTurf(form, now, uid, createdAt)] + ts
  }

  /**
   * Saving an edit gives every turf with the edited id exactly the form's
   * fields, keeps its id, owner and creation time, and leaves every other
   * turf as it was.
   */
  lemma {:induction false} EditReplacesTarget(ts: seq<OwnerTurf>, id: string, form: TurfForm, i: nat)
    requires i < |ts|
    ensures var r := WithEdits(ts, id, form);
      && r[i].id == ts[i].id && r[i].ownerId == ts[i].ownerId && r[i].createdAt == ts[i].createdAt
      && (ts[i].id == id ==> FormOf(r[i]) == form)
      && (ts[i].id != id ==> r[i] == ts[i])
  {
    if i > 0 {
      EditReplacesTarget(ts[1..], id, form, i - 1);
    }
  }

  /** Saving an add puts one new turf, holding the form's fields, in front of the old list. */
  lemma AddPrepends(ts: seq<OwnerTurf>, form: TurfForm, now: nat, uid: Option<string>, createdAt: string)
    ensures var r := SavedTurfs(ts, None, form, now, uid, createdAt);
      && |r| == |ts| + 1 && r[1..] == ts
      && FormOf(r[0]) == form && r[0].id == NewTurfId(now) && r[0].createdAt == createdAt
      && r[0].ownerId == (if uid.Some? && uid.value != "" then uid.value else FallbackOwnerId)
  {
  }

  /** Turfs added at different times get different ids. */
  lemma NewTurfIdsDiffer(now: nat, later: nat)
    requires now != later
    ensures NewTurfId(now) != NewTurfId(later)
  {
    if NewTurfId(now) == NewTurfId(later) {
      assert DecimalString(now) == NewTurfId(now)[5..];
      assert DecimalString(later) == NewTurfId(later)[5..];
      DecimalInjective(now, later);
    }
  }

  ghost predicate UniqueTurfIds(ts: seq<OwnerTurf>) {
    forall i, j :: 0 <= i < j < |ts| ==> ts[i].id != ts[j].id
  }

  /** Opening a turf for editing and saving without a change leaves the list as it was. */
  lemma UnchangedEditIsNoOp(ts: seq<OwnerTurf>, k: nat, now: nat, uid: Option<string>, createdAt: string)
    requires UniqueTurfIds(ts) && k < |ts|
    ensures SavedTurfs(ts, Some(ts[k]), FormOf(ts[k]), now, uid, createdAt) == ts
  {
    var r := WithEdits(ts, ts[k].id, FormOf(ts[k]));
    forall i | 0 <= i < |ts| ensures r[i] == ts[i] {
      EditReplacesTarget(ts, ts[k].id, FormOf(ts[k]), i);
      if ts[i].id == ts[k].id {
        assert i == k;
      }
    }
  }
}
