# Travel package booking site — a verified model of its core

The site sells travel packages. Customers browse and search a catalogue, open a package, book
it or send an inquiry. An administrator manages the packages, bookings and inquiries, and
answers the inquiries. The data lives in three in-memory service tables (packages, bookings,
inquiries) that the pages call into.

This project models, in Dafny:

- the three services as classes whose `seq` field is the table that `create`, `update`,
  `delete`, `respond` and `getRecentBookings` change in place, with `searchPackages` as the
  loop of filters it is;
- the booking and inquiry dialogs: their forms, per-field error maps, validation and submit;
- the admin package editor: its three list editors, edit, submit and delete;
- the package page's image gallery;
- the dashboard counters, the top-five slices and the status badges;
- the admin booking and inquiry lists: status filter, package title, badge, status change,
  respond and delete;
- the filter sidebar and the listing page: the load, the search term, the clear-all and the
  URL parameters.

The modules are `Common` (string helpers: white space, trim, lower case, includes, split and
join), `Numbers` (decimal text and back), `Records` (the table operations the services share:
next Id, find index, remove, filter, slice, newest-first sort), `FormRules` (the required-field
test and the e-mail pattern), one module per service, and one per page or dialog.

Values of the source become the following Dafny types:

- prices and counts are `int`; texts are `string`;
- a list field that a record may hold as text or as an array is `ListValue`;
- timestamps are `int` values passed in as `now`;
- a call that may throw returns a `Result`.

## Model

| member | source | states |
|---|---|---|
| Records.NextKey | src/services/api/packageService.js:25-28 | the new Id is above every Id in the table, is 1 for an empty table, and is otherwise one more than an existing Id (the maximum) |
| Records.IndexOf | src/services/api/packageService.js:38-41 | `findIndex`: the result is the first position holding the Id, and None exactly when no record has it |
| Records.RemoveAt | src/services/api/packageService.js:62 | `splice(index, 1)`: one record fewer; the records before stay in place and those after move up by one |
| Records.AppendNextKeepsDistinct | src/services/api/packageService.js:25-31 | appending a record with the next Id keeps the Ids distinct |
| Records.ReplaceKeepsDistinct | src/services/api/packageService.js:43-50 | replacing a record by one with the same Id keeps the Ids distinct |
| Records.RemoveKeepsDistinct | src/services/api/packageService.js:62 | removing a record keeps the Ids distinct |
| Records.Filter | src/services/api/bookingService.js:69 | `filter`: every kept record passes, every record in the list that passes is present, nothing else is, and the result is no longer than the list |
| Records.FilterMultiset | src/services/api/bookingService.js:69 | `filter` keeps every copy of a passing record and no copy of a failing one: each record occurs in the result exactly as often as in the list when it passes, and not at all otherwise |
| Records.FilterIsSubseq | src/services/api/bookingService.js:69 | a filtered list keeps the table's order (it is a subsequence) |
| Records.NarrowStep | src/services/api/packageService.js:75-101 | one `if (criterion) filtered = filtered.filter(...)` step equals filtering the table once by the conjunction of the criteria so far |
| Records.FilterSplit | src/components/pages/AdminDashboard.jsx:39 | the records that pass a test and those that fail it add up to the list's length |
| Records.Prefix | src/components/pages/AdminDashboard.jsx:42-43 | `slice(0, end)` (also `bookingService.js:76`) is a prefix of the list; for `end >= 0` its length is `min(end, length)`, and for a negative `end` it is `length + end`, or 0 when that is negative |
| Records.SortNewest | src/services/api/bookingService.js:75 | the sort by `createdAt` descending gives a newest-first list with the same records (same multiset) |
| Records.NewestFirstOrdered | src/services/api/bookingService.js:75 | in a newest-first list every earlier record is at least as new as every later one |
| Common.TrimEmptyIffBlank | src/components/molecules/BookingModal.jsx:32 | `!s.trim()` holds exactly when every character of `s` is white space |
| Common.LowerIdempotent | src/services/api/packageService.js:77-79 | `toLowerCase()` applied twice gives the same text as once |
| Common.IncludesIgnoringCaseOfIncludes | src/services/api/packageService.js:77-79 | a text that `includes` finds as it is is also found ignoring case |
| Common.JoinSplit | src/components/pages/AdminPackages.jsx:81 | `split('\n')` loses nothing: joining the parts with newlines gives the text back |
| Common.SplitJoin | src/components/pages/AdminPackages.jsx:81 | entries without a newline, split after joining, come back as the same entries |
| Numbers.IntToStringRoundTrip | src/components/pages/AdminPackages.jsx:77 | a number's `toString()` read back as a number is the same number |
| PackageService.MergeFullPatch | src/services/api/packageService.js:43-48 | a patch that supplies every field replaces all stored fields |
| PackageService.MergeFields | src/services/api/packageService.js:43-48 | `{ ...packages[index], ...packageData }`: each field is the one the patch supplies, or the stored one when the patch leaves it out |
| PackageService.MergeEmptyPatch | src/services/api/packageService.js:43-48 | a patch that supplies nothing keeps every stored field |
| PackageService.MergeIdempotent | src/services/api/packageService.js:43-48 | applying the same patch twice gives the fields of applying it once |
| PackageService.SearchResultFacts | src/services/api/packageService.js:71-104 | the search result (the packages satisfying `Matches`: every criterion that is set holds) is in table order, holds only matching packages and each matching one as often as the table does, and is the whole table when no criterion is set |
| PackageService.NumericBounds | src/services/api/packageService.js:89-95 | a price bound typed as the text of a number keeps exactly the packages priced at least (or at most) that number |
| PackageService.NonNumericBoundExcludes | src/services/api/packageService.js:89-95 | a price bound that is set but is not a number compares as NaN and lets no package through |
| PackageService.QueryFindsExactText | src/services/api/packageService.js:75-81 | a query that occurs as it is in the title, destination or description finds the package |
| PackageService.QueryCaseDoesNotMatter | src/services/api/packageService.js:75-81 | the query and its lower-case form find the same packages |
| PackageService.PackageTitle | src/components/pages/AdminBookings.jsx:74-77 | the title of the first package with the Id, else "Unknown Package" (the same code is at src/components/pages/AdminInquiries.jsx:82-85) |
| PackageService.PackageStore.GetAll | src/services/api/packageService.js:8-11 | a copy of the whole table |
| PackageService.PackageStore.GetById | src/services/api/packageService.js:13-21 | succeeds exactly when some package has the Id and returns the first one; otherwise fails with "Package not found" |
| PackageService.PackageStore.Create | src/services/api/packageService.js:23-33 | appends the package with the next Id and the creation time; its Id is above every earlier Id; distinct Ids stay distinct |
| PackageService.PackageStore.Update | src/services/api/packageService.js:35-52 | the first package with the Id gets the merged fields, the same Id, its creation time and the update time; everything else is kept; a missing Id fails and changes nothing |
| PackageService.PackageStore.Delete | src/services/api/packageService.js:54-64 | removes the first package with the Id and keeps the rest in order; a missing Id fails and changes nothing |
| PackageService.PackageStore.GetFeatured | src/services/api/packageService.js:66-69 | the first six featured packages in table order |
| PackageService.PackageStore.SearchPackages | src/services/api/packageService.js:71-104 | the step-by-step narrowing ends with exactly the matching packages in table order, and with the whole table when no criterion is set |
| BookingService.MergeBooking | src/services/api/bookingService.js:44-49 | the merged booking has the requested Id, keeps the creation time, takes the update time, and for the status and each of the seven details fields takes the supplied value or keeps the stored one |
| BookingService.MergeEmptyBookingPatch | src/services/api/bookingService.js:44-49 | an update that supplies nothing keeps the booking and only moves its update time |
| BookingService.StatusPatchKeepsDetails | src/services/api/bookingService.js:44-49 | merging a status-only change alters the status and the update time, nothing else |
| BookingService.StatusFilterFacts | src/services/api/bookingService.js:67-70 | the status query returns, in table order, exactly the bookings with the status, each as often as the table holds it |
| BookingService.BookingStore.GetAll | src/services/api/bookingService.js:8-11 | a copy of the whole table |
| BookingService.BookingStore.GetById | src/services/api/bookingService.js:13-21 | the first booking with the Id, or "Booking not found" |
| BookingService.BookingStore.Create | src/services/api/bookingService.js:23-34 | appends the booking with the next Id, the status "pending" whatever was sent, and the creation time |
| BookingService.BookingStore.Update | src/services/api/bookingService.js:36-53 | merges into the first booking with the Id and keeps the length; a missing Id fails and changes nothing |
| BookingService.BookingStore.Delete | src/services/api/bookingService.js:55-65 | removes exactly the first booking with the Id and keeps the others in order; a missing Id fails and changes nothing |
| BookingService.BookingStore.GetByStatus | src/services/api/bookingService.js:67-70 | exactly the bookings with the status, in table order |
| BookingService.BookingStore.GetRecentBookings | src/services/api/bookingService.js:72-78 | sorts the table itself newest first (same records), then returns at most `limit` bookings, newest first, each at least as new as every booking left out |
| InquiryService.MergeInquiry | src/services/api/inquiryService.js:45-50 | the merged inquiry has the requested Id and the update time, keeps the creation and response times, and for the status, the response and each of the four details fields takes the supplied value or keeps the stored one |
| InquiryService.MergeEmptyInquiryPatch | src/services/api/inquiryService.js:45-50 | an update that supplies nothing keeps the inquiry and only moves its update time |
| InquiryService.Responded | src/services/api/inquiryService.js:87-92 | the answered inquiry has the response, the status "responded" and the response time, and keeps its Id, details and other times |
| InquiryService.RespondTwice | src/services/api/inquiryService.js:87-92 | answering twice with the same text gives the status and response of answering once; only the response time moves |
| InquiryService.StatusFilterFacts | src/services/api/inquiryService.js:74-77 | the status query returns, in table order, exactly the inquiries with the status, each as often as the table holds it |
| InquiryService.InquiryStore.GetAll | src/services/api/inquiryService.js:8-11 | a copy of the whole table |
| InquiryService.InquiryStore.GetById | src/services/api/inquiryService.js:13-21 | the first inquiry with the Id, or "Inquiry not found" |
| InquiryService.InquiryStore.Create | src/services/api/inquiryService.js:23-35 | appends the inquiry with the next Id, the status "pending" and an empty response whatever was sent |
| InquiryService.InquiryStore.Update | src/services/api/inquiryService.js:37-54 | merges into the first inquiry with the Id and puts the Id back; a missing Id fails and changes nothing |
| InquiryService.InquiryStore.Delete | src/services/api/inquiryService.js:56-66 | the table shrinks by exactly one and keeps the others in order; a missing Id fails and changes nothing |
| InquiryService.InquiryStore.GetByPackageId | src/services/api/inquiryService.js:68-72 | exactly the inquiries about the package, in table order |
| InquiryService.InquiryStore.GetByStatus | src/services/api/inquiryService.js:74-77 | exactly the inquiries with the status, in table order |
| InquiryService.InquiryStore.Respond | src/services/api/inquiryService.js:79-96 | the first inquiry with the Id is answered and the others are untouched; a missing Id fails with "Inquiry not found" and changes nothing |
| FormRules.EmailError | src/components/molecules/BookingModal.jsx:36-40 | at most one e-mail error: "Email is required" for a blank value, else "Please enter a valid email" when the pattern fails; none exactly when the value is filled in and matches |
| FormRules.ClearError | src/components/molecules/BookingModal.jsx:24-26 | editing a field blanks that field's shown error and keeps every other entry |
| FormRules.WellFormedAddressMatches | src/components/molecules/BookingModal.jsx:38 | every name@domain.tld with space-free, non-empty parts passes the pattern test `LooksLikeEmail` (`\S+@\S+\.\S+` matched anywhere) |
| FormRules.EmailNeedsAtAndDot | src/components/molecules/BookingModal.jsx:38 | a text `LooksLikeEmail` accepts has an `@` followed later by a `.` and at least five characters, so a text without `@` never passes |
| FormRules.EmailExamples | src/components/molecules/InquiryModal.jsx:34 | `LooksLikeEmail` accepts "a@b.c" and rejects "a @b.c" |
| BookingModal.TravelersEntered | src/components/molecules/BookingModal.jsx:174 | `parseInt(value) \|\| 1`: NaN and 0 become 1, any other number is kept |
| BookingModal.ApplyInput | src/components/molecules/BookingModal.jsx:22-23 | the input sets its own field and leaves the other four unchanged |
| BookingModal.ValidateBooking | src/components/molecules/BookingModal.jsx:29-53 | one error per failing field, with its message: blank name, the e-mail error, blank phone, empty date, a count outside `1..maxTravelers` |
| BookingModal.ValidIffAcceptable | src/components/molecules/BookingModal.jsx:54-55 | the error map is empty exactly when every field is acceptable |
| BookingModal.BookingData | src/components/molecules/BookingModal.jsx:66-70 | the record sent: the package Id, the form's fields, and the total `TotalPrice`, which is `price * travelerCount` (line 69, shown at line 84) |
| BookingModal.TotalPriceBounds | src/components/molecules/BookingModal.jsx:84 | for an acceptable form and a price that is not negative, the total lies between the price and `price * maxTravelers` |
| BookingModal.Dialog.HandleInputChange | src/components/molecules/BookingModal.jsx:22-27 | changes only the named field and clears only that field's error |
| BookingModal.Dialog.ValidateForm | src/components/molecules/BookingModal.jsx:29-56 | shows the new error map and returns true exactly when it is empty, which is exactly when the form is acceptable |
| BookingModal.Dialog.HandleSubmit | src/components/molecules/BookingModal.jsx:58-82 | an unacceptable form (or a failing backend) creates nothing; otherwise the booking is created with "pending" and returned |
| InquiryModal.ApplyInput | src/components/molecules/InquiryModal.jsx:18-19 | the input sets its own field and leaves the others unchanged |
| InquiryModal.ValidateInquiry | src/components/molecules/InquiryModal.jsx:25-41 | one error per failing field: blank name, the e-mail error, blank message |
| InquiryModal.ValidIffAcceptable | src/components/molecules/InquiryModal.jsx:42-43 | the error map is empty exactly when the form is acceptable |
| InquiryModal.InquiryData | src/components/molecules/InquiryModal.jsx:54-57 | the record sent is the package Id and the three form fields |
| InquiryModal.Dialog.HandleInputChange | src/components/molecules/InquiryModal.jsx:18-23 | changes only the named field and clears only its error |
| InquiryModal.Dialog.ValidateForm | src/components/molecules/InquiryModal.jsx:25-44 | shows the new error map and returns true exactly when the form is acceptable |
| InquiryModal.Dialog.HandleSubmit | src/components/molecules/InquiryModal.jsx:46-69 | an unacceptable form never reaches the service; a sent inquiry is appended and the form resets to three empty texts; a failure keeps the form |
| InquiryModal.Dialog.Send | src/components/molecules/InquiryModal.jsx:59-62 | creates the inquiry from the form, then empties the form |
| AdminPackages.WithList | src/components/pages/AdminPackages.jsx:131-134 | `{ ...prev, [field]: list }` replaces the named list and keeps every other field |
| AdminPackages.SetEntry | src/components/pages/AdminPackages.jsx:133 | same length; position `index` takes the value and every other position is kept |
| AdminPackages.SetEntryOutOfRange | src/components/pages/AdminPackages.jsx:133 | an index outside the list changes nothing |
| AdminPackages.AppendBlank | src/components/pages/AdminPackages.jsx:140 | one `''` is appended after the existing entries, which keep their order |
| AdminPackages.RemoveEntry | src/components/pages/AdminPackages.jsx:147 | exactly the entry at `index` is removed; an index outside the list changes nothing |
| AdminPackages.RemoveEntryShape | src/components/pages/AdminPackages.jsx:147 | after removing an existing entry the list is one shorter and the other entries keep their order |
| AdminPackages.KeepFilledExactly | src/components/pages/AdminPackages.jsx:110-112 | submit keeps exactly the entries that are not blank, in their order, and a list without blank entries whole |
| AdminPackages.ListEntries | src/components/pages/AdminPackages.jsx:81-84 | a text list is split at newlines (at least one entry, and nothing lost); an array is passed through |
| AdminPackages.EditAsWrittenAlwaysThrows | src/components/pages/AdminPackages.jsx:80 | the edit as written throws for every package, since no package record has a `max_travelers` property (see Findings) |
| AdminPackages.HandleEditAsWritten | src/components/pages/AdminPackages.jsx:72-87 | the edit as written throws exactly when the package has no `max_travelers` property, and otherwise fills the same form as the corrected edit except for the party size |
| AdminPackages.EditForm | src/components/pages/AdminPackages.jsx:72-87 | the form filled from a package shows its title and destination, its numbers as text that reads back to them, and its lists as entries |
| AdminPackages.SubmittedFields | src/components/pages/AdminPackages.jsx:106-113 | the `packageData` sent: nothing when either number does not read; otherwise the price and party size are the numbers their texts stand for, each list keeps only its filled entries, and every other field is the form's |
| AdminPackages.EditThenSubmitRoundTrip | src/components/pages/AdminPackages.jsx:103-113 | editing a package whose lists are arrays of filled entries and submitting unchanged sends exactly the package's fields |
| AdminPackages.EditThenSubmitLines | src/components/pages/AdminPackages.jsx:81 | a list kept as text is submitted as the array of its non-blank lines |
| AdminPackages.Page.LoadPackages | src/components/pages/AdminPackages.jsx:39-51 | the page shows the whole table |
| AdminPackages.Page.ResetForm | src/components/pages/AdminPackages.jsx:53-70 | the default form (each list `['']`, not featured), nothing being edited, the form closed |
| AdminPackages.Page.OpenForm | src/components/pages/AdminPackages.jsx:195 | the Add Package button opens the form and changes nothing else |
| AdminPackages.Page.HandleEdit | src/components/pages/AdminPackages.jsx:72-89 | remembers the package, fills the form from it and opens it (with the corrected field name, see Findings) |
| AdminPackages.Page.HandleArrayFieldChange | src/components/pages/AdminPackages.jsx:130-135 | one entry of one list changes; lists with entries keep them |
| AdminPackages.Page.AddArrayField | src/components/pages/AdminPackages.jsx:137-142 | one blank entry more at the end of one list |
| AdminPackages.Page.RemoveArrayField | src/components/pages/AdminPackages.jsx:144-149 | reachable only with two or more entries (the button is disabled at one, lines 305, 339, 373), so a list never drops below one entry |
| AdminPackages.Page.HandleDelete | src/components/pages/AdminPackages.jsx:91-101 | nothing without confirmation; with it, the package is deleted and the list reloaded, or a missing Id changes nothing |
| AdminPackages.Page.HandleSubmit | src/components/pages/AdminPackages.jsx:103-128 | updates the edited package's Id (with the submitted fields, its creation time and the new update time), or creates a package when nothing is edited; a success resets the form and reloads, a failure keeps the form |
| PackageDetails.ImageAt | src/components/pages/PackageDetails.jsx:120 | `images[index]` exists exactly for an index below the image count |
| PackageDetails.NextIndex | src/components/pages/PackageDetails.jsx:46 | `(i + 1) % n` stays in `[0, n)`, and steps forward, wrapping from the last image to the first |
| PackageDetails.PrevIndex | src/components/pages/PackageDetails.jsx:52 | `(i - 1 + n) % n` stays in `[0, n)`, and steps back, wrapping from the first image to the last |
| PackageDetails.PrevUndoesNext | src/components/pages/PackageDetails.jsx:46-52 | next then prev, and prev then next, come back to the starting index |
| PackageDetails.NextTimesWraps | src/components/pages/PackageDetails.jsx:46 | up to `n` presses of next move that many images on, wrapping once |
| PackageDetails.FullCycle | src/components/pages/PackageDetails.jsx:46 | `n` presses of next come back to the starting image |
| PackageDetails.Page.LoadPackage | src/components/pages/PackageDetails.jsx:30-42 | shows the package with the Id, or sets the error "Package not found" and keeps the previous package; the gallery index is kept |
| PackageDetails.Page.HandleNextImage | src/components/pages/PackageDetails.jsx:44-48 | with truthy images, the index moves to the next one and an image is shown; with none, nothing changes |
| PackageDetails.Page.HandlePrevImage | src/components/pages/PackageDetails.jsx:50-54 | with truthy images, the index moves to the previous one and an image is shown; with none, nothing changes |
| PackageDetails.Page.SelectImage | src/components/pages/PackageDetails.jsx:149 | clicking indicator `k` sets the index to exactly `k` |
| AdminDashboard.FilterLengthIsCount | src/components/pages/AdminDashboard.jsx:38-39 | `filter(...).length` is the number of records that pass |
| AdminDashboard.DashboardStats | src/components/pages/AdminDashboard.jsx:35-40 | the totals are the table sizes; pending inquiries are at most all inquiries, confirmed bookings at most all bookings |
| AdminDashboard.StatsCountStatuses | src/components/pages/AdminDashboard.jsx:38-39 | the two status counters are the numbers of records with "pending" and "confirmed" |
| AdminDashboard.ConfirmedAndOthers | src/components/pages/AdminDashboard.jsx:39 | confirmed bookings plus the others are all the bookings |
| AdminDashboard.Recent | src/components/pages/AdminDashboard.jsx:42-43 | the first `min(5, length)` records in the order fetched |
| AdminDashboard.DashboardBadge | src/components/pages/AdminDashboard.jsx:82-90 | pending→warning, confirmed→success, cancelled→error, responded→info, and "default" exactly for every other status |
| AdminBookings.FilteredBookingsFacts | src/components/pages/AdminBookings.jsx:79-81 | "all" shows the whole list; any other choice shows exactly the bookings with that status, in order, each as often as the list holds it |
| AdminBookings.FilteredBookingsDisjoint | src/components/pages/AdminBookings.jsx:79-81 | two different status choices share no booking |
| AdminBookings.BookingBadge | src/components/pages/AdminBookings.jsx:65-72 | pending→warning, confirmed→success, cancelled→error, and "default" exactly for every other status |
| AdminBookings.Page.LoadData | src/components/pages/AdminBookings.jsx:25-41 | the page shows both tables as they are |
| AdminBookings.Page.SetStatusFilter | src/components/pages/AdminBookings.jsx:137 | the status select sets the filter and nothing else |
| AdminBookings.Page.HandleStatusChange | src/components/pages/AdminBookings.jsx:43-51 | the update sent carries only the status: the booking's status and update time change and nothing else, and both lists reload; a missing Id changes nothing |
| AdminBookings.Page.HandleDelete | src/components/pages/AdminBookings.jsx:53-63 | nothing without confirmation; with it, the booking is removed and both lists reload, or a missing Id changes nothing |
| AdminInquiries.FilteredInquiriesFacts | src/components/pages/AdminInquiries.jsx:87-89 | "all" shows the whole list; any other choice shows exactly the inquiries with that status, in order, each as often as the list holds it |
| AdminInquiries.InquiryBadge | src/components/pages/AdminInquiries.jsx:74-80 | pending→warning, responded→success, and "default" exactly for every other status |
| AdminInquiries.RespondedNotOffered | src/components/pages/AdminInquiries.jsx:260 | an answered inquiry is never offered the Respond button (`RespondOffered`: the form is not open under it and it is "pending") |
| AdminInquiries.Page.LoadData | src/components/pages/AdminInquiries.jsx:27-43 | the page shows both tables as they are |
| AdminInquiries.Page.SetStatusFilter | src/components/pages/AdminInquiries.jsx:144 | the status select sets the filter and nothing else |
| AdminInquiries.Page.StartResponding | src/components/pages/AdminInquiries.jsx:264 | opens the response form under the inquiry; text typed earlier stays |
| AdminInquiries.Page.EditResponse | src/components/pages/AdminInquiries.jsx:232 | the typed text becomes the response text |
| AdminInquiries.Page.Cancel | src/components/pages/AdminInquiries.jsx:248-251 | the form closes and its text is dropped |
| AdminInquiries.Page.HandleRespond | src/components/pages/AdminInquiries.jsx:45-60 | a blank response calls nothing and changes nothing; otherwise the inquiry is answered, the form closes, its text is dropped, both lists reload, and the answered inquiry no longer offers Respond |
| AdminInquiries.Page.HandleDelete | src/components/pages/AdminInquiries.jsx:62-72 | nothing without confirmation; with it, the inquiry is removed and the lists reload, or a missing Id changes nothing |
| FilterSidebar.WithKey | src/components/molecules/FilterSidebar.jsx:16 | `{ ...filters, [key]: value }` sets exactly that key and leaves the other three |
| FilterSidebar.LastChangeWins | src/components/molecules/FilterSidebar.jsx:16 | two changes to the same key leave only the last value |
| FilterSidebar.ChangesCommute | src/components/molecules/FilterSidebar.jsx:16 | changes to different keys can be made in either order |
| FilterSidebar.ChangeToSameValue | src/components/molecules/FilterSidebar.jsx:16 | setting a key to its current value changes nothing |
| FilterSidebar.Sidebar.HandleFilterChange | src/components/molecules/FilterSidebar.jsx:15-19 | the key takes the value, and the page gets the same filters the sidebar keeps |
| FilterSidebar.Sidebar.HandleClearFilters | src/components/molecules/FilterSidebar.jsx:21-30 | all four filters are emptied here and on the page, so clearing twice is clearing once |
| FilterSidebar.ClearAllThenChange | src/components/pages/Packages.jsx:92-101 | after the page's clear-all, a sidebar change sends the filters the sidebar held before plus the one change (see Findings) |
| FilterSidebar.StaleDestinationExample | src/components/pages/Packages.jsx:92-101 | Nepal, then clear-all, then a maximum price of 1000: the page searches for Nepal again |
| FilterSidebar.ClearAllSynced | src/components/pages/Packages.jsx:92-101 | the intended clear-all: the page and both sidebars end with empty filters |
| FilterSidebar.ClearAllSyncedThenChange | src/components/pages/Packages.jsx:92-101 | after the intended clear-all, a change in either sidebar sends exactly that one filter |
| PackagesPage.NoCriteriaIffCleared | src/components/pages/Packages.jsx:42 | `HasSearchCriteria` is false exactly when the term is empty and the filters are the cleared ones |
| PackagesPage.LoadErrorMessage | src/components/pages/Packages.jsx:65 | `err.message \|\| default`: the error's own message, or the default when it is empty; never empty |
| PackagesPage.DispatchAgrees | src/components/pages/Packages.jsx:44-52 | choosing `getAll` when no criterion is set gives the same list the search would |
| PackagesPage.Page.constructor | src/components/pages/Packages.jsx:24-30 | the term starts as the URL's `search` parameter, or empty; the filters start cleared |
| PackagesPage.Page.LoadPackages | src/components/pages/Packages.jsx:36-72 | the page shows exactly the packages matching the current criteria (the whole table when none is set); a non-array result or an error leaves the list empty, and an error sets its message |
| PackagesPage.Page.HandleSearch | src/components/pages/Packages.jsx:74-81 | keeps the term; the URL parameters become `{search: term}`, or `{}` for an empty term |
| PackagesPage.Page.HandleFiltersChange | src/components/pages/Packages.jsx:83-85 | takes the filters a sidebar sends |
| PackagesPage.Page.HandleClearAll | src/components/pages/Packages.jsx:92-103 | empties the term, the filters and the URL parameters, after which `HasActiveFilters` (line 103) is false |

## Left out

- Delays, `async`/`await` and `Promise.all`: every service call is a synchronous method that returns or fails.
- Loading flags, toasts, console messages, animation, navigation and the JSX itself.
- The admin SDK wrapper, the login and callback pages, the presentational components, routing and the layout. The search bar on the listing page is not part of this model; its query is the argument of `HandleSearch`.
- The admin pages' load error branches (`setError` and the retry view) are not modelled, because the services' `getAll` never throws.
- Timestamps: `new Date().toISOString()` is the `now` argument, an `int`.
- `window.confirm`: the `confirmed` argument.
- The booking and inquiry dialogs' `fails` argument stands for a service that throws. The services as written here never throw on `create`.
- Prices are whole amounts. The rating is an opaque `int`; the default 4.5 is stored as 45.
- `parseInt(id, 10)` in the services: Ids are taken as `int`s, on which it is the identity.
- `BookingModal.TravelersEntered`: takes `parseInt` of the count's text as a given `Option<int>`; the parse itself (leading digits, signs, white space) is not modelled.
- `AdminPackages.SubmittedFields`: reads price and party size with `Numbers.DecimalValue`, which accepts only an optional `-` followed by digits. The two inputs are `type="number"` and `required` (`AdminPackages.jsx:240-256`), so the browser does not submit them empty or with non-numeric text, and there the model agrees by sending nothing. A number input also accepts fractions and exponents such as "1.5" or "1e3", which `parseFloat`/`parseInt` read, while the model sends nothing.
- `PackageService.PriceAtLeast`, `PackageService.PriceAtMost`: the comparison `pkg.price >= filters.minPrice` coerces the text with `Number()`, which also accepts white space, fractions, exponents and hex. The model reads the text with the same decimal reader; text it rejects fails every comparison, as NaN does.
- `Common.Lower`: lower-cases through `LowerChar`, not the full Unicode `toLowerCase` mapping.
- `AdminDashboard.DashboardBadge`, `AdminBookings.BookingBadge`, `AdminInquiries.InquiryBadge`: a status that names a built-in object property, such as "constructor", makes `variants[status]` a function rather than a colour. That case is not modelled.
- `PackageDetails.Page.HandleNextImage`, `PackageDetails.Page.HandlePrevImage`: require a truthy image list to be non-empty. An empty array would make the index NaN; the arrows are only shown for two or more images.
- `PackageDetails.ImageCount`: a list held as text counts its characters, as JavaScript's `length` does; UTF-16 code units are not distinguished from characters.
- `BookingService.BookingStore.GetRecentBookings`: the model sorts by insertion. That it puts bookings with equal creation times in the same order as the JavaScript sort is not stated; the contract says only that the result is newest first and holds the same bookings. The timestamps are `int`s, not ISO texts read by `new Date`.
- The update payloads are modelled as optional-field overrides over the known fields. Fields a caller might add beyond these are not modelled.
- Each sidebar instance keeps its own state. The listing page has two (desktop and mobile), and a change in one is not seen by the other. This is modelled by giving each `Sidebar` its own `filters`.

## Findings

| source | as written | input that shows it | evidently intended | confidence | as-written member | corrected member |
|---|---|---|---|---|---|---|
| src/components/pages/AdminPackages.jsx:80 | `handleEdit` reads `pkg.max_travelers.toString()`, but records carry `maxTravelers` (the form, the submit, the booking dialog and the cards all use that name), so the read is undefined and the call throws | clicking Edit on any package | fill the party size from `pkg.maxTravelers` | high; not executed | AdminPackages.HandleEditAsWritten, AdminPackages.EditAsWrittenAlwaysThrows | AdminPackages.EditForm, AdminPackages.EditThenSubmitRoundTrip |
| src/components/pages/Packages.jsx:92-101 | "Clear all" resets the page's filters but not the sidebars' own copies, so a sidebar still shows the old choices, and its next change sends them back to the page | choose Nepal, press Clear all, then set a maximum price of 1000: the page searches for Nepal under 1000 | clear the sidebars too, so the next change starts from empty filters | medium; not executed | FilterSidebar.ClearAllThenChange, FilterSidebar.StaleDestinationExample | FilterSidebar.ClearAllSynced, FilterSidebar.ClearAllSyncedThenChange |
