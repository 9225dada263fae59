# TurfBook: browse filter and owner dashboard, modelled in Dafny

This project models two parts of the TurfBook web app, a Next.js site where players find and book sports turfs and turf owners manage them. It proves properties of both models.

- **Browse list** (`components/browse/TurfGrid.tsx`). The page filters the turfs by location, sport, price range, minimum rating, required amenities and a free-text search. It then sorts them by rating, by price ascending or by price descending, or keeps the filtered order for any other choice. Module `Browse` has the filter as a predicate with a recursive `FilterTurfs`, and the sort as a method with a loop (`SortTurfs`). `ShownTurfs` puts the two together.
- **Owner dashboard** (`app/dashboard/turf-owner/page.tsx`). The component keeps the summary figures, the owner's turfs, the bookings of the selected turf and the notifications in state. Its handlers rewrite those lists by id:
  - changing a booking's status;
  - verifying a payment;
  - requesting a refund;
  - marking a notification read;
  - saving the add/edit turf form.

  Module `OwnerRecords` holds the records and the pure list updates. It also holds what the JSX decides: which status buttons a booking shows, when the payment buttons appear, and the unread badge. Module `OwnerDashboard` holds the component as class `Dashboard`: one field per piece of state, and one method per event handler of the page (the buttons, and each input of the add/edit form), with `modifies` restricted to the fields that handler sets. Logout is the one handler left out.
- **Form text fields** (`page.tsx` lines 617 and 623-630). Module `TurfFormText` has the amenities and time-slot fields' serialisers and parsers, with their round trips. Module `JsText` models the JavaScript string built-ins they use: `trim`, `split`, `join`, ASCII `toLowerCase`, `includes` and the decimal rendering of `Date.now()`.

Modelling choices:
- Ratings are integer tenths of a star (4.8 is 48).
- A missing `priceRange` bound reads as `undefined`, and no comparison against `undefined` is true. So a missing bound does not constrain the price.
- The time-slot parser leaves `end` as `undefined` when an entry's times part has no `-`. The model keeps that case as `None`, and the serialiser prints it as `undefined`, as a template literal does.
- `Array.prototype.sort` is stable, so the sort is proved stable. Turfs the comparator ties keep their filtered order.

Observations about the code, proved as lemmas:
- The payment buttons are gated on the payment fields alone, never on the booking's status (`PaymentActionsIgnoreStatus`).
- After a refund the booking is cancelled, but `paymentVerified` is still false, so reopening its screenshot offers Verify Payment and Request Refund again (`RefundKeepsPaymentActions`).
- A completed booking shows no status button, yet with an unverified proof it can still be refunded into `cancelled` (`CompletedRefundable`).

- Nothing in the code allocates booking slots. `timeSlots` and `bufferMins` are stored in a turf, shown and edited in the form, but no logic uses them: nothing generates slots or checks availability from them. So no allocator is modelled.

## Model

| member | source | states |
|---|---|---|
| JsText.IsSpace | app/dashboard/turf-owner/page.tsx:617 | the characters `trim` removes: ECMAScript's white space and line terminators; `TrimStart`, `TrimEnd` and `Trim` are stated against it |
| JsText.Join | app/dashboard/turf-owner/page.tsx:623 | `join`: the pieces with the separator between consecutive pieces and none at either end; `JoinSplit` and `SplitJoin` make it the inverse of `Split` |
| JsText.Includes | components/browse/TurfGrid.tsx:141-145 | `includes` on strings; `IncludesIff` ties it to an occurrence of the query at some position, so the empty query always matches |
| JsText.Trim | app/dashboard/turf-owner/page.tsx:617 | `trim` leaves no ECMAScript white space at either end, adds no character, and leaves a trimmed string alone |
| JsText.TrimStart | app/dashboard/turf-owner/page.tsx:617 | removes exactly the longest all-white-space prefix |
| JsText.TrimEnd | app/dashboard/turf-owner/page.tsx:617 | removes exactly the longest all-white-space suffix |
| JsText.TrimAfterSpaces | app/dashboard/turf-owner/page.tsx:617 | white space before a trimmed string is all that `trim` removes |
| JsText.Split | app/dashboard/turf-owner/page.tsx:617 | `split` always yields at least one piece, and no piece holds the separator |
| JsText.SplitWithoutSeparator | app/dashboard/turf-owner/page.tsx:627 | a string without the separator splits into itself alone |
| JsText.SplitAround | app/dashboard/turf-owner/page.tsx:627-628 | splitting at one separator splits the two sides independently |
| JsText.SplitJoin | app/dashboard/turf-owner/page.tsx:623-626 | `split` undoes `join` when no piece holds the separator |
| JsText.JoinSplit | app/dashboard/turf-owner/page.tsx:627 | `join` undoes `split`: no character is lost or added |
| JsText.JoinWithPad | app/dashboard/turf-owner/page.tsx:623 | joining with `"; "` is joining with `";"` after a space is put before every piece but the first |
| JsText.JoinPrepend | app/dashboard/turf-owner/page.tsx:623 | text put before the first piece comes first in the joined string |
| JsText.Lower | components/browse/TurfGrid.tsx:140-144 | `toLowerCase` keeps the length, turns the k-th capital letter A-Z into the k-th small letter a-z, and leaves every other character as it is |
| JsText.IncludesIff | components/browse/TurfGrid.tsx:141-145 | `includes` holds exactly when the query occurs at some position |
| JsText.DecimalString | app/dashboard/turf-owner/page.tsx:244 | a timestamp prints as a non-empty string of decimal digits |
| JsText.DecimalRoundTrip | app/dashboard/turf-owner/page.tsx:244 | the printed digits read back as the same number |
| JsText.DecimalInjective | app/dashboard/turf-owner/page.tsx:244 | different timestamps print differently |
| Browse.LocationPasses | components/browse/TurfGrid.tsx:119 | an empty location filter admits every turf; otherwise only turfs at exactly that location pass |
| Browse.SportPasses | components/browse/TurfGrid.tsx:122 | an empty sport filter admits every turf; otherwise only turfs whose sports list holds that sport pass |
| Browse.PricePasses | components/browse/TurfGrid.tsx:125 | a price below the low bound or above the high bound fails; a missing bound, read as `undefined`, fails no price; `PriceRangeInclusive` gives the closed range |
| Browse.RatingPasses | components/browse/TurfGrid.tsx:128 | a minimum rating above 0 rejects the turfs rated below it; 0 admits every turf |
| Browse.EveryIncluded | components/browse/TurfGrid.tsx:132-134 | `every(amenity => includes(amenity))`; `EveryIncludedIff` makes it inclusion of the wanted amenities in the turf's |
| Browse.AmenitiesPass | components/browse/TurfGrid.tsx:131-136 | an empty amenities request admits every turf; otherwise the turf must offer every requested amenity (`AmenitiesPassIff`) |
| Browse.SomeSportIncludes | components/browse/TurfGrid.tsx:143-145 | `some(sport => sport.toLowerCase().includes(query))`; `SomeSportIncludesIff` makes it an existential over the sports |
| Browse.SearchPasses | components/browse/TurfGrid.tsx:139-147 | an empty query admits every turf; otherwise the lower-cased query must occur in the lower-cased name, location or one sport (`SearchPassesIff`) |
| Browse.Passes | components/browse/TurfGrid.tsx:117-150 | the filter callback: a turf passes exactly when all six checks pass, in the order the callback tries them |
| Browse.FilterTurfs | components/browse/TurfGrid.tsx:117-150 | the filtered list is no longer than the input |
| Browse.EveryIncludedIff | components/browse/TurfGrid.tsx:132-134 | `every(... includes ...)` holds exactly when every wanted amenity is offered |
| Browse.AmenitiesPassIff | components/browse/TurfGrid.tsx:131-136 | a turf passes the amenities filter exactly when it offers every requested amenity; asking for none admits any turf |
| Browse.SomeSportIncludesIff | components/browse/TurfGrid.tsx:143-145 | `some` holds exactly when one lower-cased sport contains the query |
| Browse.SearchPassesIff | components/browse/TurfGrid.tsx:139-147 | the search admits a turf exactly when it is empty, or when the lower-cased query occurs in the lower-cased name, location or one of the sports |
| Browse.PriceRangeInclusive | components/browse/TurfGrid.tsx:125 | with both bounds given, the price filter admits exactly the prices in the closed range |
| Browse.InactiveFiltersAdmit | components/browse/TurfGrid.tsx:119-139 | an empty location, sport, amenities list or search, or a rating of 0, imposes no constraint |
| Browse.FilterCount | components/browse/TurfGrid.tsx:117-150 | each turf appears in the result as often as in the input if it passes every filter, and not at all otherwise |
| Browse.FilterMembership | components/browse/TurfGrid.tsx:117-150 | a turf is in the result exactly when it is one of the turfs and passes all six checks |
| Browse.FilterKeepsOrder | components/browse/TurfGrid.tsx:117 | the result is the input at the increasing sequence of exactly the passing positions, so the original order is kept |
| Browse.FilterIsKept | components/browse/TurfGrid.tsx:117-150 | the filter keeps exactly the turfs whose flag is set |
| Browse.KeptPositions | components/browse/TurfGrid.tsx:117 | keeping by flags gives the input at the increasing sequence of exactly the flagged positions |
| Browse.ShiftedKept | components/browse/TurfGrid.tsx:117 | the flagged positions of the tail, moved on by one, are the flagged positions after the first |
| Browse.ConsPositions | components/browse/TurfGrid.tsx:117 | the flagged positions of a list follow from those of its tail |
| Browse.KeptFirst | components/browse/TurfGrid.tsx:117 | a flagged first turf puts position 0 in front |
| Browse.InactiveFiltersKeepAll | components/browse/TurfGrid.tsx:117-150 | with no active filter and every price in range, all turfs are shown in order |
| Browse.FilterIdempotent | components/browse/TurfGrid.tsx:117-150 | filtering the filtered list again changes nothing |
| Browse.OrderFor | components/browse/TurfGrid.tsx:153-166 | `rating`, `price-low` and `price-high` choose their comparator; any other `sortBy` chooses none, so the filtered order stays |
| Browse.Compare | components/browse/TurfGrid.tsx:155-161 | the three comparators: `b.rating - a.rating`, `a.price - b.price` and `b.price - a.price` (`CompareIsRankDifference`) |
| Browse.Insert | components/browse/TurfGrid.tsx:153-162 | one step of a stable sort: the new turf goes before the first turf that the comparator puts after it (`InsertPermutes`, `InsertSorted`, `InsertStable`) |
| Browse.CompareIsRankDifference | components/browse/TurfGrid.tsx:155-161 | each comparator is the difference of one per-turf rank |
| Browse.InsertPermutes | components/browse/TurfGrid.tsx:153-162 | one insertion step adds exactly the inserted turf |
| Browse.InsertSorted | components/browse/TurfGrid.tsx:153-162 | one insertion step keeps the list in comparator order |
| Browse.InsertFrom | components/browse/TurfGrid.tsx:153-162 | every turf after an insertion step is the inserted turf or one of the list's |
| Browse.SortedCons | components/browse/TurfGrid.tsx:153-162 | a turf ranked no later than all of a sorted list can go in front of it |
| Browse.InsertStable | components/browse/TurfGrid.tsx:153-162 | one insertion step puts the new turf after all earlier turfs it ties with |
| Browse.WithRankNone | components/browse/TurfGrid.tsx:153-162 | a list with no turf of a rank has an empty class for that rank |
| Browse.WithRankAppend | components/browse/TurfGrid.tsx:153-162 | appending a turf appends it to its own rank class only |
| Browse.SortTurfs | components/browse/TurfGrid.tsx:153-162 | the sort returns a permutation ordered by the comparator, and tied turfs keep their input order (stability) |
| Browse.ShownTurfs | components/browse/TurfGrid.tsx:117-166 | the shown list is a permutation of the filtered turfs, holding exactly the passing turfs. Ratings do not increase under `rating`, prices do not decrease under `price-low` and do not increase under `price-high`, ties keep their filtered order, and any other `sortBy` keeps the filtered order |
| TurfFormText.TrimAll | app/dashboard/turf-owner/page.tsx:617 | `map(s => s.trim())` keeps the number of pieces and trims each |
| TurfFormText.DropEmpty | app/dashboard/turf-owner/page.tsx:617 | `filter(Boolean)` keeps exactly the non-empty pieces, each as many times as the input holds it |
| TurfFormText.DropEmptyAppend | app/dashboard/turf-owner/page.tsx:617 | the filter keeps order: on a concatenation it filters each part and concatenates the results |
| TurfFormText.DropEmptyKeepsNonEmpty | app/dashboard/turf-owner/page.tsx:617 | a list with no empty piece is kept whole |
| TurfFormText.ParseAmenities | app/dashboard/turf-owner/page.tsx:617 | every parsed amenity is non-empty, trimmed and comma-free |
| TurfFormText.ShowAmenities | app/dashboard/turf-owner/page.tsx:617 | the field's text is the amenities joined with `, `; `AmenitiesRoundTrip` parses it back |
| TurfFormText.TrimAllPadded | app/dashboard/turf-owner/page.tsx:617 | trimming the pieces of a `", "`-joined list of trimmed items gives the items |
| TurfFormText.TrimPadded | app/dashboard/turf-owner/page.tsx:617 | each piece of a `", "`-joined list trims back to its item |
| TurfFormText.TrimAllEach | app/dashboard/turf-owner/page.tsx:617 | trimming every piece gives the list when each piece trims to its item |
| TurfFormText.PaddedWithout | app/dashboard/turf-owner/page.tsx:617 | padding the pieces with a space adds no separator |
| TurfFormText.SplitTrimJoin | app/dashboard/turf-owner/page.tsx:617-626 | join with `sep + " "`, split on `sep` and trim gives the list back |
| TurfFormText.AmenitiesRoundTrip | app/dashboard/turf-owner/page.tsx:617 | parsing `amenities.join(', ')` gives the amenities back when each is non-empty, trimmed and comma-free |
| TurfFormText.AmenitiesReparseStable | app/dashboard/turf-owner/page.tsx:617 | the field re-parses its own rendering to the same list |
| TurfFormText.ParseSlot | app/dashboard/turf-owner/page.tsx:627-629 | the day is the entry's first space-separated word (a prefix ending at the first space or at the end), has no space, and is non-empty when the entry does not start with a space; neither time has a `-` |
| TurfFormText.DayOnlyEntry | app/dashboard/turf-owner/page.tsx:628 | an entry that is only a day gets 06:00 to 22:00 |
| TurfFormText.Entries | app/dashboard/turf-owner/page.tsx:626 | the `;`-separated entries are non-empty, trimmed and free of `;` |
| TurfFormText.ParseTimeSlots | app/dashboard/turf-owner/page.tsx:626-630 | one slot per non-empty trimmed entry, each parsed on its own |
| TurfFormText.ParsedSlots | app/dashboard/turf-owner/page.tsx:626-630 | every parsed day is its entry's first word, non-empty and free of space and `;`, the times are free of `-`, and a day-only entry gets the default window |
| TurfFormText.JoinFirst | app/dashboard/turf-owner/page.tsx:627 | the first word begins the entry, and is followed by the separator unless it is the only word |
| TurfFormText.EndText | app/dashboard/turf-owner/page.tsx:623 | a missing end prints as `undefined`, as a template literal prints it |
| TurfFormText.SlotText | app/dashboard/turf-owner/page.tsx:623 | one slot prints as `${day} ${start}-${end}` |
| TurfFormText.ShowTimeSlots | app/dashboard/turf-owner/page.tsx:623 | the field's text is the printed slots joined with `; `; `TimeSlotsRoundTrip` parses it back |
| TurfFormText.SlotRoundTrip | app/dashboard/turf-owner/page.tsx:623-629 | parsing `${day} ${start}-${end}` gives the slot back when its fields are white-space-free tokens and the times have no `-` |
| TurfFormText.TimeSlotsRoundTrip | app/dashboard/turf-owner/page.tsx:623-630 | parsing the field's rendering of such slots gives the list back |
| OwnerRecords.BookingsOf | app/dashboard/turf-owner/page.tsx:216 | the selected turf's bookings are exactly the bookings with its id |
| OwnerRecords.BookingsOfCount | app/dashboard/turf-owner/page.tsx:216 | the filter keeps each booking with the turf's id as many times as the full list holds it, and no other booking |
| OwnerRecords.BookingsOfAppend | app/dashboard/turf-owner/page.tsx:216 | the filter keeps order: on a concatenation it filters each part and concatenates the results |
| OwnerRecords.WithStatus | app/dashboard/turf-owner/page.tsx:254 | the booking list keeps its length |
| OwnerRecords.WithPaymentVerified | app/dashboard/turf-owner/page.tsx:275 | the booking list keeps its length |
| OwnerRecords.WithStatusAt | app/dashboard/turf-owner/page.tsx:252-258 | a status update sets the status of bookings with that id and changes no other field and no other booking |
| OwnerRecords.WithPaymentVerifiedAt | app/dashboard/turf-owner/page.tsx:272-281 | verifying sets only `paymentVerified` on the bookings with that id and leaves their status alone |
| OwnerRecords.WithStatusIdempotent | app/dashboard/turf-owner/page.tsx:254 | setting the same status twice is setting it once |
| OwnerRecords.WithPaymentVerifiedIdempotent | app/dashboard/turf-owner/page.tsx:275 | verifying twice is verifying once |
| OwnerRecords.VerifyAndRefundCommute | app/dashboard/turf-owner/page.tsx:272-292 | verifying a payment and refunding a booking give the same list in either order |
| OwnerRecords.StatusActions | app/dashboard/turf-owner/page.tsx:504-516 | the status buttons: Approve and Reject for pending, Mark completed and Cancel for confirmed, none for completed or cancelled (`ActionsAdvance`, `ActionsUntilFinal`) |
| OwnerRecords.ShowsCancelledBadge | app/dashboard/turf-owner/page.tsx:516 | the Cancelled badge shows exactly for cancelled bookings |
| OwnerRecords.ActionsAdvance | app/dashboard/turf-owner/page.tsx:504-516 | every status button moves the booking strictly forward, never back to pending |
| OwnerRecords.ActionsUntilFinal | app/dashboard/turf-owner/page.tsx:504-516 | buttons are shown exactly for pending and confirmed bookings, and cancelling is always one of them |
| OwnerRecords.RunsAreShort | app/dashboard/turf-owner/page.tsx:504-516 | any run of status buttons clicked in turn has at most two steps |
| OwnerRecords.HasProof | app/dashboard/turf-owner/page.tsx:675 | a booking has a proof when its `paymentProof` is present and not the empty string, the only falsy string |
| OwnerRecords.PaymentActionsOffered | app/dashboard/turf-owner/page.tsx:675 | Verify Payment and Request Refund show exactly for an unverified booking with a proof (`PaymentActionsIgnoreStatus`) |
| OwnerRecords.VerifyEndsPaymentActions | app/dashboard/turf-owner/page.tsx:675-688 | after verify, the booking is verified and offers no payment action |
| OwnerRecords.RefundKeepsPaymentActions | app/dashboard/turf-owner/page.tsx:675-688 | after a refund the booking is cancelled with its badge and no status button, and still offers payment actions exactly when it did before |
| OwnerRecords.CompletedRefundable | app/dashboard/turf-owner/page.tsx:504-688 | a completed booking offers no status button, but when its payment actions are offered, Request Refund makes it cancelled and changes nothing else in it |
| OwnerRecords.PaymentActionsIgnoreStatus | app/dashboard/turf-owner/page.tsx:675 | whether verify/refund is offered does not depend on the booking's status |
| OwnerRecords.UnreadCount | app/dashboard/turf-owner/page.tsx:220 | the unread count is at most the number of notifications |
| OwnerRecords.UnreadCountCountsFalse | app/dashboard/turf-owner/page.tsx:220 | the unread count is the number of `read == false` notifications |
| OwnerRecords.UnreadBadge | app/dashboard/turf-owner/page.tsx:337-339 | the badge shows exactly when some notification is unread |
| OwnerRecords.MarkedRead | app/dashboard/turf-owner/page.tsx:261 | the notification list keeps its length |
| OwnerRecords.MarkedReadAt | app/dashboard/turf-owner/page.tsx:260-263 | marking read sets only `read` on the notifications with that id |
| OwnerRecords.MarkedReadIdempotent | app/dashboard/turf-owner/page.tsx:261 | marking read twice is marking read once |
| OwnerRecords.UnreadAfterMarkRead | app/dashboard/turf-owner/page.tsx:220-263 | marking read lowers the unread count by the number of unread notifications with that id |
| OwnerRecords.UnreadWithUniqueId | app/dashboard/turf-owner/page.tsx:261 | with distinct ids, a notification's id matches only itself |
| OwnerRecords.UnreadWithIdAbsent | app/dashboard/turf-owner/page.tsx:261 | an id that matches nothing matches no unread notification |
| OwnerRecords.MarkReadLowersUnreadByOne | app/dashboard/turf-owner/page.tsx:220-263 | with distinct ids, marking one notification read lowers the count by one exactly when it was unread |
| OwnerRecords.FormOf | app/dashboard/turf-owner/page.tsx:232 | the edit form starts from the turf's own editable fields (`UnchangedEditIsNoOp`) |
| OwnerRecords.ApplyForm | app/dashboard/turf-owner/page.tsx:242 | `{ ...t, ...turfForm }`: the form's fields replace the turf's, and its id, owner and creation time stay |
| OwnerRecords.NewTurfId | app/dashboard/turf-owner/page.tsx:244 | a new turf's id is `turf_` followed by the timestamp's decimal digits (`NewTurfIdsDiffer`) |
| OwnerRecords.OwnerIdFor | app/dashboard/turf-owner/page.tsx:244 | the signed-in user's uid, or `owner_1` when the uid is missing or empty |
| OwnerRecords.NewTurf | app/dashboard/turf-owner/page.tsx:244 | a new turf holds the form's fields, the new id, the owner id and the creation time (`AddPrepends`) |
| OwnerRecords.SavedTurfs | app/dashboard/turf-owner/page.tsx:241-246 | saving an edit maps the list through `ApplyForm` at the edited id; saving an add puts the new turf in front (`EditReplacesTarget`, `AddPrepends`) |
| OwnerRecords.WithEdits | app/dashboard/turf-owner/page.tsx:242 | the turf list keeps its length |
| OwnerRecords.EditReplacesTarget | app/dashboard/turf-owner/page.tsx:241-242 | saving an edit gives the matching turf the form's fields, keeps its id, owner and creation time, and leaves every other turf as it was |
| OwnerRecords.AddPrepends | app/dashboard/turf-owner/page.tsx:243-245 | saving an add puts one new turf with the form's fields before the old list. Its id is `turf_` and the timestamp, and its owner is the uid, or `owner_1` when the uid is missing or empty |
| OwnerRecords.NewTurfIdsDiffer | app/dashboard/turf-owner/page.tsx:244 | turfs added at different times get different ids |
| OwnerRecords.UnchangedEditIsNoOp | app/dashboard/turf-owner/page.tsx:230-242 | opening a turf for editing and saving without changes leaves the list as it was |
| OwnerDashboard.Dashboard.constructor | app/dashboard/turf-owner/page.tsx:182-197 | the initial state: empty lists, closed modals, blank form |
| OwnerDashboard.Dashboard.Unread | app/dashboard/turf-owner/page.tsx:220 | the bell's number is the unread count of the notifications in state |
| OwnerDashboard.Dashboard.ShowsBadge | app/dashboard/turf-owner/page.tsx:337-339 | the badge shows exactly when the unread count is positive (see `MarkNotificationRead`) |
| OwnerDashboard.Dashboard.ShowsPaymentButtons | app/dashboard/turf-owner/page.tsx:648-688 | the payment buttons show exactly when the modal is open on a booking that offers them (see `OpenPaymentProof`) |
| OwnerDashboard.Dashboard.Load | app/dashboard/turf-owner/page.tsx:200-207 | the initial load sets the summary, the turfs and the notifications and nothing else |
| OwnerDashboard.Dashboard.SelectTurf | app/dashboard/turf-owner/page.tsx:210-218 | View bookings on another turf loads that turf's bookings; on the turf already selected it leaves the bookings as they are |
| OwnerDashboard.Dashboard.OpenAddModal | app/dashboard/turf-owner/page.tsx:222-228 | the add modal opens on the blank form with no turf being edited |
| OwnerDashboard.Dashboard.OpenEditModal | app/dashboard/turf-owner/page.tsx:230-234 | the edit modal opens on the turf's own fields |
| OwnerDashboard.Dashboard.CloseModal | app/dashboard/turf-owner/page.tsx:637 | Cancel closes the modal and changes nothing else |
| OwnerDashboard.Dashboard.EditAmenities | app/dashboard/turf-owner/page.tsx:617 | typing replaces only the form's amenities, with their parse, each a valid amenity |
| OwnerDashboard.Dashboard.EditTimeSlots | app/dashboard/turf-owner/page.tsx:623-632 | typing replaces only the form's time slots, with one per entry of the text |
| OwnerDashboard.Dashboard.EditName | app/dashboard/turf-owner/page.tsx:569 | typing a name replaces only the form's name |
| OwnerDashboard.Dashboard.EditPricePerHour | app/dashboard/turf-owner/page.tsx:574 | typing a price replaces only the form's price per hour |
| OwnerDashboard.Dashboard.EditMaxPlayers | app/dashboard/turf-owner/page.tsx:579 | typing a player limit replaces only the form's maximum players |
| OwnerDashboard.Dashboard.EditStatus | app/dashboard/turf-owner/page.tsx:584-587 | choosing a status replaces only the form's status |
| OwnerDashboard.Dashboard.EditAddress | app/dashboard/turf-owner/page.tsx:592 | typing an address replaces only the form's address |
| OwnerDashboard.Dashboard.EditDescription | app/dashboard/turf-owner/page.tsx:598 | typing a description replaces only the form's description |
| OwnerDashboard.Dashboard.EditTurfType | app/dashboard/turf-owner/page.tsx:603-606 | choosing a turf type replaces only the form's turf type |
| OwnerDashboard.Dashboard.EditBufferMins | app/dashboard/turf-owner/page.tsx:611 | typing a buffer replaces only the form's buffer minutes |
| OwnerDashboard.Dashboard.SaveTurf | app/dashboard/turf-owner/page.tsx:236-249 | given a non-empty name, as the `required` name input (line 569) demands, the turfs become the saved list (an add grows it by one in front, an edit keeps its length), saving ends, and the modal closes |
| OwnerDashboard.Dashboard.UpdateBookingStatus | app/dashboard/turf-owner/page.tsx:252-258 | only the bookings change, by the status update |
| OwnerDashboard.Dashboard.MarkNotificationRead | app/dashboard/turf-owner/page.tsx:260-263 | only the notifications change, the badge count drops by the unread notifications with that id, and the badge shows exactly while some notification is still unread |
| OwnerDashboard.Dashboard.OpenPaymentProof | app/dashboard/turf-owner/page.tsx:266-269 | the modal opens on the booking, and it shows the payment buttons exactly when that booking offers them |
| OwnerDashboard.Dashboard.ClosePaymentProof | app/dashboard/turf-owner/page.tsx:662 | the modal closes and forgets its booking |
| OwnerDashboard.Dashboard.VerifyPayment | app/dashboard/turf-owner/page.tsx:272-281 | the bookings get the payment verified, processing ends and the modal closes |
| OwnerDashboard.Dashboard.RequestRefund | app/dashboard/turf-owner/page.tsx:284-292 | the booking is cancelled, `paymentVerified` is untouched, processing ends and the modal closes |

## Left out

- JSX rendering: layout, icons, images and the summary cards. The decisions the JSX makes about buttons and badges are modelled as predicates.
- The `setTimeout` and `await` delays that simulate network latency. Each handler is modelled as one atomic update, so the moments while `isSaving` or `isProcessingPaymentAction` is true are not modelled.
- The TODO server calls (PATCH, POST, GET), authentication, the user API route, the MongoDB connection and the user schema. They are network and database I/O outside these components.
- `Date.now()`, `new Date().toISOString()` and the signed-in user's uid become parameters of `SaveTurf`.
- `Number(e.target.value)` in the price, player and buffer inputs: the setters take the resulting number as an integer, so the empty field's 0, fractions and `NaN` are not modelled.
- `handleLogout` (page.tsx:294-300): it only calls the authentication context's `logout`, which is outside these components.
- `formatCurrency`: locale number formatting. `timeAgo`: it reads the wall clock. `getAmenityIcon`: an icon lookup table.
- Floating-point ratings: they are modelled as integer tenths.
- JsText.Lower: lower-cases ASCII letters only; the non-ASCII case mappings of `toLowerCase` are not modelled.
- Browse.SortTurfs: sorts a sequence and returns it; the in-place update of the `filteredTurfs` array is not modelled.
- A turf's display-only fields, on the browse page and in the dashboard: image, reviews, availability text, description, opening hours, and the map position `location: {lat, lng}`. None of them takes part in any filter, sort or handler.
- The mock data tables. The model is stated for all inputs.
- The form's copies of a turf's id, owner and creation time, which `{ ...turf }` puts into the edit form. The model's form holds only the editable fields, so an edit keeps the list entry's own id, owner and creation time. These are equal to the copies, because no handler changes those fields.
- `updateBookingStatus` takes a free string, but every call site passes one of the four statuses, which the model's `BookingStatus` covers.
- The bookings' and notifications' display-only data, such as the notification's `type`, are kept as plain strings with no behaviour.
- Booking-slot allocation: the code has none. `timeSlots` and `bufferMins` are stored, shown and edited, but no logic uses them: nothing generates slots or checks availability from them.
- OwnerDashboard.Dashboard.SelectTurf: React compares the new `selectedTurf` with the old one by object identity, and the model compares them by value. They differ exactly when the turf selected again is a new object equal in value to the selected one. Only saving an edit creates such an object: an edit saved unchanged, or edits that restore the selected turf's values. There the source reloads the bookings, losing status changes made since, and the model keeps them.
