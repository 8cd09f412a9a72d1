# Group trip planner: a Dafny model of its rules

This project models the rules of a group-trip-planning application. Its
backend is an Express API over a relational database, and its web client is
written in React. Every table the handlers touch is kept in one in-memory store,
the class `Store.Db`. An append-only table is a `seq`, and a row's id is its
index. The TripMember table is a `map` keyed by `(tripId, userId)`. Each route
handler is a method that changes only the tables it writes. A handler returns
`Ok` with its response, or `Err` with an `HttpError` carrying a status and a
message, as the error constructors of `backend/src/middleware/error.js` build
them.

The model covers the following:

- the membership and role guards (`rbac.js`);
- trip creation, with the creator as organizer and one itinerary day per date;
- the role-change and removal rules;
- invites: lookup, join and preview;
- single-use magic links, with find-or-create of the user;
- itinerary items: validation, normalisation, create and partial update, and
  the "TBD last" ordering;
- the change-request state machine: submit, approve, deny and list;
- notification fan-out and the notification inbox;
- trip essentials: coercion, create-or-update and the default row;
- comments, with soft delete;
- announcements: create and pin;
- the helpers of the PDF export;
- the CORS origin policy;
- analytics events;
- three parts of the web client: the change-request dialog, the essentials
  form helpers and the link helpers.

Time is a number of milliseconds and is passed in as a parameter (`now`). The
same goes for the pieces the model cannot see: `JSON.parse` is a `parse`
parameter, `new Date(x)` is a `parseDate` parameter, and email syntax is an
`isEmail` parameter. A text column that holds JSON is a `Cell`:

- `Encoded(doc)` is the text `JSON.stringify` gave for `doc`, and it parses
  back to `doc`;
- `Plain(v)` is any other value.

Two module-level invariants are proved:

- `Store.Db.Valid()` holds before and after every handler. It says that rows
  refer to existing rows, that days have unique dates and counted positions,
  and that a change request carries a decider exactly when it has been
  decided.
- `DecisionsFinal` says that a decided change request never changes again.

## Model

| member | source | states |
|---|---|---|
| Errors.ErrorHandler | backend/src/middleware/error.js:1-6 | the response body is exactly `{ error: message }`, holding the error's message or 'Internal server error' when it has none; the status is `status` when set (even beside `statusCode`), else `statusCode`, else 500 |
| Errors.HandlerReportsRaisedError | backend/src/middleware/error.js:3-5 | an error built by a constructor reaches the client with its own status and message |
| Errors.ConstructorStatuses | backend/src/middleware/error.js:8-30 | badRequest/unauthorized/forbidden/notFound carry 400/401/403/404, keep a given message and use 'Bad request'/'Unauthorized'/'Forbidden'/'Not found' when it is null or undefined |
| Errors.HandlerFallsBackToStatusCode | backend/src/middleware/error.js:3 | an error with only `statusCode` is reported with that status |
| Rbac.RoleFromName | backend/src/routes/trips.js:142 | a role text is recognised exactly when it is one of organizer, co_organizer, member |
| Rbac.RoleNameRoundTrip | backend/src/routes/trips.js:142 | reading back a role's stored text gives the role |
| Rbac.GetMember | backend/src/middleware/rbac.js:4-13 | no userId gives null; otherwise the caller's row is returned exactly when it exists and is active |
| Rbac.RequireMember | backend/src/middleware/rbac.js:15-23 | passes exactly the active members, attaching their role; everyone else gets 404 'Trip not found or you are not a member', never 403 |
| Rbac.RequireRole | backend/src/middleware/rbac.js:25-33 | passes iff UNLOCK_ALL is 'true' or the attached role is listed; a rejection is 403, 'Not a trip member' without a member |
| Rbac.OrganizerOrCoAdmits | backend/src/middleware/rbac.js:35 | requireOrganizerOrCo admits exactly organizers and co-organizers; a member gets 403 'Insufficient role' |
| Rbac.OrganizerAdmits | backend/src/middleware/rbac.js:36 | requireOrganizer admits exactly organizers; co-organizers and members get 403 'Insufficient role' |
| Rbac.OrganizerGuardIsStricter | backend/src/middleware/rbac.js:35-36 | whoever passes requireOrganizer passes requireOrganizerOrCo |
| Rbac.Authorize | backend/src/middleware/rbac.js:15-33 | the requireMember-then-requireRole chain: non-members get 404, members without the role 403, and a pass carries the caller's role |
| Notify.UserIds | backend/src/lib/notifications.js:8-9 | one user id per notification row: entry i is the user of row i |
| Notify.FindRecipients | backend/src/lib/notifications.js:4-7 | the recipient list has no repeats and holds exactly the active members of the trip with an allowed role who are not excluded |
| Notify.Records | backend/src/lib/notifications.js:8-13 | one unread row per recipient, in order, all with the same trip, type and payload |
| Notify.NotifyTripMembers | backend/src/lib/notifications.js:3-15 | appends one row for each active member other than the excluded user; a null exclusion notifies every active member |
| Notify.NotifyUser | backend/src/lib/notifications.js:17-26 | appends exactly one unread row for the user |
| Notify.FanOutSize | backend/src/lib/notifications.js:14 | the fan-out adds as many rows as there are recipients, and nothing when there are none |
| NotificationsRoute.Newest | backend/src/routes/notifications.js:9-14 | at most `limit` ids, all of the caller's rows, newest first, and no newer row of the caller is skipped |
| NotificationsRoute.NewestIsWholeInboxWhenSmall | backend/src/routes/notifications.js:9-14 | under the cap, a row is listed iff it belongs to the caller |
| NotificationsRoute.Marked | backend/src/routes/notifications.js:23-30 | a missing row or another user's row is 404 'Not found'; otherwise only that row's readAt changes, to now |
| NotificationsRoute.MarkedTwiceKeepsLaterTime | backend/src/routes/notifications.js:27-30 | there is no set-once guard: marking again overwrites readAt |
| NotificationsRoute.MarkedKeepsInbox | backend/src/routes/notifications.js:27-30 | marking read changes no user's inbox listing |
| NotificationsRoute.SameOwnersSameNewest | backend/src/routes/notifications.js:9-12 | the listing depends only on who owns each row |
| NotificationsRoute.MarkRead | backend/src/routes/notifications.js:21-35 | the table becomes exactly what `Marked` gives, or stays unchanged with 404 |
| ChangeRequests.PatchCell | backend/src/routes/change-requests.js:39-40 | an array `externalLinks` is stored as its JSON text; every other value is copied verbatim, null included |
| ChangeRequests.PatchData | backend/src/routes/change-requests.js:34-44 | the update is always a valid item update |
| ChangeRequests.PatchDataKeys | backend/src/routes/change-requests.js:35-42 | the update holds exactly the allowed keys the patch defines, unknown keys dropped, each with its patch value |
| ChangeRequests.ApplyPatch | backend/src/routes/change-requests.js:34-44 | the loop over the allow-list builds exactly `PatchData(patch)` |
| ChangeRequests.ApprovalWritesPatch | backend/src/routes/change-requests.js:57-60 | approval writes each allowed patch value onto the item, stamps updatedBy and keeps every other column |
| ChangeRequests.Decide | backend/src/routes/change-requests.js:63 | a decided request has its new status, a decider and a time, and keeps its trip, item, requester and patch |
| ChangeRequests.Approve | backend/src/routes/change-requests.js:46-73 | organizers only; 404 for a request missing or of another trip, 400 'Request already decided' unless pending; on success the item and the request change together, the requester and every active member are notified, and on error nothing is written |
| ChangeRequests.RecordApproval | backend/src/routes/change-requests.js:56-67 | the item update, the decision and both notifications of an approval |
| ChangeRequests.Deny | backend/src/routes/change-requests.js:75-92 | organizers only; the same 404 and 400 guards; only the request changes, to denied with decider and time, and the requester is notified |
| ChangeRequests.ListRequests | backend/src/routes/change-requests.js:17-22 | exactly this trip's requests, of the given status when one is given, newest first |
| ChangeRequests.List | backend/src/routes/change-requests.js:14-32 | members get `ListRequests`; anyone else gets 404 |
| Itinerary.InvalidKeys | backend/src/routes/itinerary.js:34-35 | lists each key outside the seven-key allow-list once, and no other |
| Itinerary.ValidateProposedPatch | backend/src/routes/itinerary.js:31-38 | passes iff proposed_patch is an object of allowed keys; otherwise 'proposed_patch required', 'proposed_patch must be an object' or the invalid-keys message |
| Itinerary.ValidateCreateItem | backend/src/routes/itinerary.js:14-30 | passes iff the trimmed title is non-empty, every optional field is well formed and a day_id or date is given; 'title required' and 'day_id or date required' exactly in their cases |
| Itinerary.CreateStartTime | backend/src/routes/itinerary.js:104 | null iff the value is absent, null, '' or 'TBD'; a string is otherwise stored as sent |
| Itinerary.CreateEndTime | backend/src/routes/itinerary.js:105 | null iff the value is absent, null or ''; a string is otherwise stored as sent |
| Itinerary.CreateText | backend/src/routes/itinerary.js:106-108 | null iff absent, null or blank; otherwise trimmed non-empty text |
| Itinerary.CreateLinks | backend/src/routes/itinerary.js:98 | an array is stored as its JSON text; a falsy value as '[]' |
| Itinerary.PatchStartTime | backend/src/routes/itinerary.js:133 | null iff the value is null, '' or 'TBD'; otherwise stored as sent |
| Itinerary.PatchEndTime | backend/src/routes/itinerary.js:134 | null iff the value is null or ''; otherwise stored as sent |
| Itinerary.PatchTextAsWritten | backend/src/routes/itinerary.js:135-137 | as the handler writes it: null exactly when the value's string form trims to '', otherwise that trimmed text, so a JSON null (string form 'null') is kept as text |
| Itinerary.PatchTextAsWrittenStoresNullText | backend/src/routes/itinerary.js:135-137 | a null sent to clear a text field is stored as the text "null", where creation stores null |
| Itinerary.PatchText | backend/src/routes/itinerary.js:106-108 | the corrected PATCH value: null or trimmed non-empty text |
| Itinerary.PatchTextAgreesWithCreate | backend/src/routes/itinerary.js:106-108 | the corrected PATCH stores what creation stores, and agrees with the handler on every non-null value |
| Itinerary.PatchLinks | backend/src/routes/itinerary.js:138 | an array is stored as its JSON text; anything else as its string form |
| Itinerary.ItemPatchData | backend/src/routes/itinerary.js:130-138 | the update is a valid item update |
| Itinerary.PatchColumn | backend/src/routes/itinerary.js:131-138 | day_id is stored as sent; the title trimmed; start_time null iff null, '' or 'TBD' and end_time null iff null or '', otherwise as sent; a text column null iff sent null or blank, otherwise its trimmed text (a null clears it, the corrected rule); external_links encoded iff an array |
| Itinerary.PatchColumnCorrectsOnlyNullText | backend/src/routes/itinerary.js:135-137 | the model's column differs from the handler as written exactly when a text column is sent null: the model stores null, the handler the text "null" |
| Itinerary.PatchTouchesOnlyGivenFields | backend/src/routes/itinerary.js:130-139 | only the columns whose fields the body carries change, each to its PatchColumn value (a null text field cleared, the corrected rule), and updatedBy becomes the editor |
| Itinerary.EmptyPatchOnlyStamps | backend/src/routes/itinerary.js:139 | an empty PATCH body only records who edited the item |
| Itinerary.PatchItem | backend/src/routes/itinerary.js:121-149 | organizers only; 404 'Item not found' for an item missing or of another trip; otherwise the item is updated and every other active member is notified; on error nothing is written |
| Itinerary.FindDayByDate | backend/src/routes/itinerary.js:84-86 | finds a day of the trip on that date, or there is none |
| Itinerary.FindDayById | backend/src/routes/itinerary.js:96 | finds the day with that id when it belongs to the trip, or there is none |
| Itinerary.FindDayByOwnId | backend/src/routes/itinerary.js:96 | an existing day is found by its own id |
| Itinerary.DayForDate | backend/src/routes/itinerary.js:84-93 | reuses the trip's day on the date; otherwise appends one at position = the trip's day count |
| Itinerary.NewItem | backend/src/routes/itinerary.js:99-113 | the new row's trip, day, trimmed title, creator and editor |
| Itinerary.NewItemNormalised | backend/src/routes/itinerary.js:99-113 | a created item has a non-empty trimmed title of at most 500 characters; start_time is neither '' nor 'TBD' and end_time not ''; location_text, cover_image and notes are each null or non-empty trimmed text; external_links is stored as a JSON array |
| Itinerary.DayError | backend/src/routes/itinerary.js:79-97 | 400 'Invalid date' iff no truthy day_id and a truthy date that does not parse; 400 'day_id or date required' iff neither is truthy; 404 'Day not found' iff a truthy day_id names no day of the trip; no error otherwise |
| Itinerary.ResolveDay | backend/src/routes/itinerary.js:79-97 | 400 'Invalid date', 400 'day_id or date required' or 404 'Day not found' exactly in their cases; otherwise the day is a day of the trip, the one named by day_id or the one on the date |
| Itinerary.CreateItem | backend/src/routes/itinerary.js:74-119 | organizers only; a body failing the validators is 400; on success the new item sits on the day whose id day_id names when it is truthy, otherwise on the trip's day on date, which was reused or appended at the trip's day count; every other active member is notified; on error nothing is written |
| Itinerary.PlaceItem | backend/src/routes/itinerary.js:79-114 | after validation: the DayError cases exactly, with nothing written; otherwise the item is appended on the day day_id names, or on the day on date, reused or appended, and fanned out |
| Itinerary.StoreItem | backend/src/routes/itinerary.js:99-114 | appends the new item as the last row and notifies every active member except its creator |
| Itinerary.CreateChangeRequest | backend/src/routes/itinerary.js:164-194 | members only (404 otherwise); a failing proposed_patch is 400 with the validator's message ('proposed_patch required', 'proposed_patch must be an object', or 'Invalid keys in proposed_patch: ' and the unknown keys); 404 for an item missing or of another trip; stores a pending request with the patch, then notifies the organizers; on error nothing is written |
| Itinerary.NotifyOrganizers | backend/src/routes/itinerary.js:181-189 | one row for each active organizer and co-organizer except the requester |
| ItemOrder.StrCompare | backend/src/routes/itinerary.js:65 | a three-way comparison that is 0 exactly on equal strings |
| ItemOrder.StrCompareFlip | backend/src/routes/itinerary.js:65 | swapping the arguments flips the sign |
| ItemOrder.StrCompareTrans | backend/src/routes/itinerary.js:65 | the comparison is transitive |
| ItemOrder.Compare | backend/src/routes/itinerary.js:60-66 | the `tbd` comparator returns -1, 0 or 1 |
| ItemOrder.UntimedLast | backend/src/routes/itinerary.js:61-64 | an item without a start time or with 'TBD' sorts after every timed item |
| ItemOrder.SameKindByTimeThenTitle | backend/src/routes/itinerary.js:65 | items of the same kind are ordered by start time, then by title |
| ItemOrder.CompareFlip | backend/src/routes/itinerary.js:60-66 | the comparator is antisymmetric |
| ItemOrder.BeforeTotal | backend/src/routes/itinerary.js:60-66 | any two items are ordered one way or the other |
| ItemOrder.BeforeTrans | backend/src/routes/itinerary.js:60-66 | the order is transitive, so it is a consistent sort order |
| ItemOrder.BeforeIsTotalPreorder | backend/src/routes/itinerary.js:60-66 | the comparator is a total preorder |
| ItemOrder.SortItems | backend/src/routes/itinerary.js:67 | sorts a day's items in place: sorted, a permutation, untimed items last |
| ItemOrder.InsertionSort | backend/src/routes/itinerary.js:67 | an in-place sort by any total preorder gives a sorted permutation |
| ItemOrder.InsertIntoSorted | backend/src/routes/itinerary.js:67 | one insertion step extends the sorted prefix and keeps a permutation |
| Export.SortEachDay | backend/src/routes/export.js:35 | every day's items end sorted by the same comparator, each a permutation of itself |
| Export.FileStem | backend/src/routes/export.js:38 | same length; each character that is not an ASCII letter or digit becomes '-', the rest are kept |
| Export.FileStemIsSafe | backend/src/routes/export.js:38 | the stem holds only letters, digits and dashes, and sanitising again changes nothing |
| Export.FileName | backend/src/routes/export.js:38 | 'issavie-' + stem + '-itinerary.pdf', 22 characters longer than the name |
| Export.FileNameCannotBreakHeader | backend/src/routes/export.js:38 | the file name holds only letters, digits, '-' and '.', so no quote, line break or path separator |
| Export.DateLabel | backend/src/routes/export.js:48 | the first ten characters of the ISO text |
| Export.TimeLabel | backend/src/routes/export.js:53 | 'TBD' when both times are missing; exactly 'start – end' or 'TBD – end' when the end is set; the start alone when only it is set |
| Export.LinkHref | backend/src/routes/export.js:61-62 | a non-empty string link is used as is; an object by its url when truthy, else by its href when truthy, else skipped; any other entry is skipped |
| Export.Hrefs | backend/src/routes/export.js:60-63 | at most one href per entry |
| Export.HrefsOfOne | backend/src/routes/export.js:60-63 | a single entry prints exactly its LinkHref, or nothing |
| Export.HrefsAppend | backend/src/routes/export.js:60-63 | the hrefs of a concatenation are the hrefs of each part, in the entries' order |
| Export.HrefsOfStrings | backend/src/routes/export.js:60-63 | a list of non-empty link strings is printed exactly as stored |
| Export.ExportLinks | backend/src/routes/export.js:57-65 | the hrefs of a stored array, nothing for a non-array or text that is not JSON |
| Trips.DayStart | backend/src/routes/trips.js:47-50 | the start of the UTC day that holds the instant |
| Trips.DayStartMonotone | backend/src/routes/trips.js:23-25 | a later instant never falls on an earlier day |
| Trips.DayStartsWholeDaysApart | backend/src/routes/trips.js:69 | two day starts lie a whole number of days apart |
| Trips.ValidateCreateTrip | backend/src/routes/trips.js:13-39 | passes iff name and destination are present and short enough, both dates are ISO 8601, the start day lies between today and six months on, the end is not before the start and the timezone is short enough |
| Trips.TripTimezone | backend/src/routes/trips.js:59 | never empty; 'UTC' when the timezone is absent, null or blank; otherwise exactly the trimmed timezone |
| Trips.NewTrip | backend/src/routes/trips.js:47-62 | each date is the UTC midnight of the day holding the given instant; the trimmed name and destination, the creator and TripTimezone are recorded |
| Trips.FirstDaysRows | backend/src/routes/trips.js:67-75 | row i of the loop is day i of the trip, i days after the first |
| Trips.DayCountBound | backend/src/routes/trips.js:69 | the loop reaches exactly the dates not past the end day |
| Trips.TripDaysSpanTrip | backend/src/routes/trips.js:66-75 | one row per date from the first day to the last, a day apart, positions 0..n-1 |
| Trips.AppendTripDay | backend/src/routes/trips.js:69-75 | adding the trip's next day keeps the day table's constraints |
| Trips.FirstDaysCount | backend/src/routes/trips.js:68-73 | the first k rows count k days of the trip |
| Trips.FirstDaysBefore | backend/src/routes/trips.js:69 | the first k rows all fall before day k |
| Trips.FirstDaysKeepValid | backend/src/routes/trips.js:66-78 | appending the new trip's days keeps the table valid: unique dates, counted positions |
| Trips.NoDaysKeepValid | backend/src/routes/trips.js:76 | writing no days changes nothing |
| Trips.NextDayKeepsValid | backend/src/routes/trips.js:69-75 | one more loop step keeps the table valid |
| Trips.BuildTripDays | backend/src/routes/trips.js:67-75 | the loop builds exactly one row per date from start day to end day, positions counting from 0 |
| Trips.NewTripKeepsValid | backend/src/routes/trips.js:52-80 | the trip, its organizer and its days keep every table valid |
| Trips.CreateTrip | backend/src/routes/trips.js:41-85 | a rejected body writes nothing; an accepted one creates the trip, makes the creator its only (active organizer) member and writes its days |
| Trips.StoreTrip | backend/src/routes/trips.js:52-80 | the writes of one creation transaction |
| Trips.AcceptedTripHasDays | backend/src/routes/trips.js:66-78 | an accepted trip always gets at least one day, and its days span its start to its end |
| Trips.RequestedRole | backend/src/routes/trips.js:141-143 | a role is accepted only as the text of a role |
| Trips.RequestedRoleAcceptsNames | backend/src/routes/trips.js:142 | each role's text is accepted |
| Trips.RoleChange | backend/src/routes/trips.js:153-171 | promotion to organizer only by the organizer, who becomes co-organizer; an organizer demoted only by the organizer; otherwise only the target's role changes |
| Trips.NonOrganizerLeavesOrganizers | backend/src/routes/trips.js:153-171 | a caller who is not the organizer never makes anyone organizer nor takes the role from anyone |
| Trips.Roster | backend/src/routes/trips.js:172-175 | the listed members are exactly the active ones with their roles |
| Trips.ChangeRole | backend/src/routes/trips.js:144-180 | organizers and co-organizers only; 400 for an invalid role; 404 'Member not found' for a target that is not active; otherwise `RoleChange`; on error nothing changes |
| Trips.Removal | backend/src/routes/trips.js:182-203 | self-removal always succeeds; a member cannot remove others; the target must be active (404); only the organizer removes an organizer; a removal only marks the row removed |
| Trips.RemoveMember | backend/src/routes/trips.js:182-207 | members only; the table becomes what `Removal` gives, or is unchanged on error |
| Invites.ValidateInviteToken | backend/src/routes/invites.js:14 | passes iff the token is non-empty and at most 200 characters once trimmed; 'Invite token required' iff it is empty |
| Invites.FirstUsable | backend/src/routes/invites.js:24-31 | the first invite, at or after a row, whose hash matches and which is unexpired and unrevoked |
| Invites.FindValidInvite | backend/src/routes/invites.js:19-33 | a blank token finds nothing; otherwise a usable invite of the trimmed token's hash, or none exists |
| Invites.UsableUntilExpiry | backend/src/routes/invites.js:26-28 | an invite is usable iff now is strictly before its expiry and it is not revoked |
| Invites.InviteTrip | backend/src/routes/invites.js:35-38 | a bad token is 400 with its message; otherwise the invite's trip, or 400 'Invalid or expired invite link' |
| Invites.JoinMembers | backend/src/routes/invites.js:45-66 | an active member is left as is; a removed one is re-activated as a plain member; anyone else gets a new active member row; no other row changes |
| Invites.JoinIdempotent | backend/src/routes/invites.js:45-47 | joining again changes nothing |
| Invites.Join | backend/src/routes/invites.js:35-71 | the same guard as preview; the membership table becomes `JoinMembers`; alreadyMember iff the caller was active |
| Invites.Preview | backend/src/routes/invites.js:73-91 | the same guard as join; the invited trip's id, name, destination and dates |
| Auth.NormalisedEmailIsCanonical | backend/src/routes/auth.js:21 | the stored address has no surrounding white space, no upper-case letter, and is no longer than the input |
| Auth.IssueMagicLink | backend/src/routes/auth.js:19-34 | a rejected email is 400 and writes nothing; otherwise a link for the normalised address, expiring fifteen minutes after now, unused |
| Auth.ValidateEmail | backend/src/routes/auth.js:13-14 | passes iff the trimmed email is non-empty, an address and at most 255 characters; 'Email required' iff it is empty and 'Valid email required' iff it is not an address |
| Auth.ValidateVerifyToken | backend/src/routes/auth.js:15-17 | passes iff the token is a string of 1 to 500 characters; 'Token required' iff it is missing, null or has an empty string form |
| Auth.IssuedLinkLifetime | backend/src/routes/auth.js:42 | a new link works up to and including fifteen minutes after issue, and not after |
| Auth.FindUser | backend/src/routes/auth.js:49 | the first user with the address, or none has it |
| Auth.FindOrCreateUser | backend/src/routes/auth.js:49-54 | the existing user, or a new one appended; unique addresses stay unique |
| Auth.FindOrCreateIdempotent | backend/src/routes/auth.js:49-54 | signing in twice with one address gives the same user and no second row |
| Auth.VerifyMagicLink | backend/src/routes/auth.js:36-60 | a missing, used or expired link is 400 and writes nothing; otherwise the link is marked used at now and the user is found or created |
| Auth.VerifiedLinkIsSpent | backend/src/routes/auth.js:45-48 | once used, a link never verifies again |
| Essentials.NormalizeObjectJson | backend/src/routes/essentials.js:13-16 | the encoding of an object; '{}' for null, arrays and every other value |
| Essentials.ListColumn | backend/src/routes/essentials.js:70-78 | a list column always holds an array: the given one, or '[]' |
| Essentials.TextColumn | backend/src/routes/essentials.js:71-76 | null iff the value is null or blank; otherwise trimmed non-empty text |
| Essentials.PatchData | backend/src/routes/essentials.js:69-85 | one coerced entry for each column the body supplies, and no other |
| Essentials.CoerceWellFormed | backend/src/routes/essentials.js:70-85 | each coerced value suits its column |
| Essentials.DefaultRow | backend/src/routes/essentials.js:25-40 | the default row is well formed |
| Essentials.Upsert | backend/src/routes/essentials.js:87-111 | supplied columns take their new value; an existing row keeps the others; a new row takes the defaults for the others |
| Essentials.PatchKeepsRowWellFormed | backend/src/routes/essentials.js:69-111 | a PATCH keeps a well-formed row well formed, and creates a well-formed one |
| Essentials.PatchTouchesOnlyGivenFields | backend/src/routes/essentials.js:69-85 | a column the body does not supply keeps its value |
| Essentials.PatchIdempotent | backend/src/routes/essentials.js:87-111 | sending the same PATCH twice leaves the row as after the first |
| Essentials.PatchCreatesLikeGetThenPatch | backend/src/routes/essentials.js:88-105 | a PATCH without a row gives the same row as a GET followed by the PATCH |
| Essentials.Get | backend/src/routes/essentials.js:18-46 | members only; the row, created with the defaults when missing |
| Essentials.Patch | backend/src/routes/essentials.js:48-117 | organizers and co-organizers only; create or update with `PatchData`, then notify every other active member; on error nothing is written |
| Comments.ValidateComment | backend/src/routes/comments.js:13-17 | passes iff the entity type is allowed, the entity id is a non-empty string of at most 100 characters and the trimmed body is 1 to 10000 characters; the first failing message otherwise |
| Comments.NewComment | backend/src/routes/comments.js:39-46 | the stored body is trimmed and non-empty; the row is live and belongs to the author |
| Comments.Create | backend/src/routes/comments.js:36-53 | members only; a failing body is 400 and writes nothing; otherwise one comment is appended |
| Comments.ListComments | backend/src/routes/comments.js:21-27 | exactly the trip's live comments matching the given filters, oldest first |
| Comments.List | backend/src/routes/comments.js:19-34 | members get `ListComments`; anyone else 404 |
| Comments.SoftDelete | backend/src/routes/comments.js:57-66 | 404 for a comment missing, of another trip or already deleted; 400 unless author or organizer/co-organizer; otherwise only deletedAt is set |
| Comments.SoftDeleteHides | backend/src/routes/comments.js:57-66 | a deleted comment leaves every listing, and deleting it again is 404 |
| Comments.Delete | backend/src/routes/comments.js:55-71 | members only; the table becomes what `SoftDelete` gives, or is unchanged on error |
| Announcements.Title | backend/src/routes/announcements.js:31 | null iff the title is absent, null or blank; otherwise the trimmed text |
| Announcements.NewAnnouncement | backend/src/routes/announcements.js:26-33 | the body is trimmed and non-empty, the title normalised, the row unpinned |
| Announcements.Create | backend/src/routes/announcements.js:23-42 | organizers and co-organizers only; a blank body is 400 'body required'; otherwise one row appended and every active member but the author notified; on error nothing is written |
| Announcements.PinnedValue | backend/src/routes/announcements.js:47 | pinned iff the value is the boolean true or the text 'true' |
| Announcements.SetPinned | backend/src/routes/announcements.js:48-56 | 404 for an announcement missing or of another trip; otherwise only its pinned flag changes |
| Announcements.SetPinnedLastWins | backend/src/routes/announcements.js:53-56 | pinning is a plain assignment: the last request wins |
| Announcements.Pin | backend/src/routes/announcements.js:44-62 | organizers and co-organizers only; the table becomes what `SetPinned` gives, or is unchanged on error |
| Announcements.ListAnnouncements | backend/src/routes/announcements.js:12-16 | exactly the trip's announcements, newest first |
| Announcements.PostedFirst | backend/src/routes/announcements.js:14 | a new announcement heads its trip's list |
| Announcements.List | backend/src/routes/announcements.js:10-21 | members get `ListAnnouncements`; anyone else 404 |
| Cors.TrimmedNonEmpty | backend/src/app.js:21-22 | exactly the non-empty trimmed pieces |
| Cors.AllowedOrigins | backend/src/app.js:19-22 | every listed origin is non-empty, trimmed and free of commas |
| Cors.DefaultIsLocalDevServer | backend/src/app.js:19 | without FRONTEND_URL only http://localhost:5173 is listed |
| Cors.SingleOrigin | backend/src/app.js:19-22 | a single clean origin lists just itself |
| Cors.OriginDecision | backend/src/app.js:31-35 | a missing Origin is allowed; otherwise allowed iff listed or a Vercel deployment; a refusal raises no error |
| Cors.OriginPolicy | backend/src/app.js:24-28 | every https Vercel deployment is allowed; an origin not starting with https:// only when listed |
| Cors.PaddedOriginNotListed | backend/src/app.js:21-25 | an origin with surrounding white space never matches a listed one |
| Analytics.EventName | backend/src/routes/analytics.js:9-12 | a missing, empty or non-string event is 400 'event required' |
| Analytics.Prefix | backend/src/routes/analytics.js:15 | the first n characters, or the whole of a shorter string |
| Analytics.PrefixKeepsShortAndIsIdempotent | backend/src/routes/analytics.js:15 | a short name is kept, and truncating twice is truncating once |
| Analytics.PayloadColumn | backend/src/routes/analytics.js:16 | objects, arrays and null are JSON-encoded; other truthy values stringified; anything else '{}' |
| Analytics.ObjectPayloadRoundTrips | backend/src/routes/analytics.js:16 | an object payload is stored so that it decodes to itself |
| Analytics.Record | backend/src/routes/analytics.js:7-24 | a bad event stores nothing; otherwise one row under the caller with the truncated name |
| Analytics.StoredNameBounds | backend/src/routes/analytics.js:10-15 | a stored event name has 1 to 100 characters |
| RequestChange.ProposedPatch | frontend/src/components/RequestChangeModal.jsx:19-24 | a field appears iff it differs from the item's value (null shown as ''); the title verbatim, other cleared fields as null; keys among the five inputs |
| RequestChange.HandleSubmit | frontend/src/components/RequestChangeModal.jsx:14-30 | shows 'No changes to submit' iff nothing changed; otherwise sends the non-empty `ProposedPatch` |
| RequestChange.SentPatchPassesServerCheck | frontend/src/components/RequestChangeModal.jsx:19-24 | every patch the dialog sends passes the server's proposed_patch validation |
| RequestChange.ApprovedPatchShowsSubmittedForm | frontend/src/components/RequestChangeModal.jsx:6-24 | after approval, reopening the dialog on the item shows exactly the submitted inputs |
| RequestChange.ColumnAfterApproval | backend/src/routes/change-requests.js:37-41 | approval writes a dialog field's column iff the patch names it |
| EssentialsForm.ParseArrayJson | frontend/src/components/TripEssentials.jsx:67-74 | the parsed value when it is an array, the fallback otherwise |
| EssentialsForm.ParseObjectJson | frontend/src/components/TripEssentials.jsx:76-83 | the parsed value when it is a non-null, non-array object, the fallback otherwise |
| EssentialsForm.StoredColumnsReadBack | frontend/src/components/TripEssentials.jsx:67-83 | a column the server stored reads back as stored, never as the fallback |
| EssentialsForm.InferDestinationRules | frontend/src/components/TripEssentials.jsx:85-94 | '' for blank input; France, then Italy, then Mexico rules, case-insensitively; otherwise text starting with the trimmed destination, the US-state text for a listed state as a whole word |
| EssentialsForm.SuggestionIffDestination | frontend/src/components/TripEssentials.jsx:86-87 | a suggestion is empty iff the destination is blank |
| EssentialsForm.LeadingSpaceIgnored | frontend/src/components/TripEssentials.jsx:86 | white space before the destination changes nothing |
| EssentialsForm.EmptyForm | frontend/src/components/TripEssentials.jsx:96-106 | every section with its fields; [] exactly for list fields; '' for every other text field |
| EssentialsForm.EmptyFormHoldsRules | frontend/src/components/TripEssentials.jsx:100 | the destination rules field holds the argument |
| EssentialsForm.UpdateChangesOneField | frontend/src/components/TripEssentials.jsx:165 | update sets form[section][key] and changes no other field of any section |
| EssentialsForm.UpdateLastWins | frontend/src/components/TripEssentials.jsx:165 | setting a field twice keeps the later value |
| EssentialsForm.UpdatesCommute | frontend/src/components/TripEssentials.jsx:165 | updates of two different fields can be made in either order |
| EssentialsForm.UpdateKeepsShape | frontend/src/components/TripEssentials.jsx:165 | updating an existing field keeps the form's shape |
| EssentialsForm.AddedPacking | frontend/src/components/TripEssentials.jsx:197-202 | blank input and case-insensitive duplicates leave the list; otherwise the trimmed value is appended |
| EssentialsForm.AddedPackingKeepsDistinct | frontend/src/components/TripEssentials.jsx:200-201 | a list without case-insensitive duplicates keeps that property, and nothing blank is added |
| EssentialsForm.PackingItems | frontend/src/components/TripEssentials.jsx:200 | one text per packing-list entry |
| EssentialsForm.AddPacking | frontend/src/components/TripEssentials.jsx:197-202 | the packing list becomes `AddedPacking`, and the form is unchanged or changed by one `update` of that field |
| Links.KeepTruthy | frontend/src/utils/links.jsx:7 | keeps exactly the truthy entries, no more than there were |
| Links.KeepTruthyAppend | frontend/src/utils/links.jsx:7 | filtering a concatenation filters each part, keeping order |
| Links.KeepTruthyOfTruthy | frontend/src/utils/links.jsx:7 | a list with no falsy entry is kept as it is |
| Links.KeepTruthyIdempotent | frontend/src/utils/links.jsx:7 | filtering twice is filtering once |
| Links.ParseExternalLinks | frontend/src/utils/links.jsx:5-14 | [] for a falsy value; the truthy entries of an array; of the array the text parses to; [] otherwise |
| Links.StoredLinksReadBack | frontend/src/utils/links.jsx:5-14 | links stored by item creation read back as the truthy entries sent, and none when none were sent |
| Links.ExtensionMakesImage | frontend/src/utils/links.jsx:37-40 | a trimmed name ending in '.' and an image extension, in any case, is an image |
| Links.QueryAfterExtension | frontend/src/utils/links.jsx:39 | a query after the extension keeps it an image, unless it spans lines |
| Links.NoDotNoImage | frontend/src/utils/links.jsx:39 | text without '.' that does not start with data:image/ is never an image |
| Validators.TrimmedOrNull | backend/src/routes/itinerary.js:135-137 | null iff the string form is blank; otherwise trimmed text |
| Json.NatToString | backend/src/routes/itinerary.js:96 | a row id's text is a non-empty string of digits |
| Json.NatToStringInjective | backend/src/routes/itinerary.js:96 | different row ids have different texts |
| Json.ParseColumn | backend/src/lib/notifications.js:12 | JSON text written by the handlers parses back to the document it encodes |
| Json.Field | backend/src/routes/itinerary.js:77 | a body field is defined exactly when the key is present, with its value |
| Store.IdJson | backend/src/routes/itinerary.js:187 | an id in a payload is the JSON string of its text |
| Store.CountTripDays | backend/src/routes/itinerary.js:88 | the trip's day count is at most the table size |
| Store.CountTripDaysAppend | backend/src/routes/itinerary.js:88-91 | appending a day counts it for its own trip only |
| Store.PositionsIncrease | backend/src/routes/itinerary.js:90 | within one trip a later day has a larger position |
| Store.AppendDayKeepsPositions | backend/src/routes/itinerary.js:88-91 | appending a day at the trip's day count keeps the numbering |
| Store.UpdateItem | backend/src/routes/change-requests.js:58-60 | an update keeps the item's trip and creator and stamps the editor |
| Store.UpdateItemColumns | backend/src/routes/change-requests.js:60 | an update writes each column it names and keeps every other |
| Strings.TrimSpec | backend/src/routes/auth.js:21 | `trim` keeps no more than the input and leaves no white space at either end |
| Strings.TrimIsSlice | backend/src/routes/auth.js:21 | `trim` keeps a slice of the input |
| Strings.TrimFixedPoint | backend/src/app.js:21 | a string trims to itself iff it has no white space at either end |
| Strings.TrimIdempotent | backend/src/app.js:21 | trimming twice is trimming once |
| Strings.TrimEmptyIffBlank | backend/src/routes/itinerary.js:106-108 | a string trims to '' iff it is white space only |
| Strings.ToLowerIdempotent | backend/src/routes/auth.js:21 | lower-casing twice is lower-casing once |
| Strings.ToLowerKeepsTrimmed | backend/src/routes/auth.js:21 | a trimmed string stays trimmed when lower-cased |
| Strings.Split | backend/src/app.js:20 | the pieces contain no separator and join back to the input |
| Strings.JoinWith | backend/src/routes/itinerary.js:36 | joining no parts gives ''; otherwise the result starts with the first part |

## Left out

- Authentication plumbing (`backend/src/middleware/auth.js`: JWT signing and checks, bearer tokens) is not part of this model. Handlers receive the signed-in user's id as a parameter.
- Rate limiting (backend/src/app.js:40-48, backend/src/routes/invites.js:10) is left out because it depends on wall-clock windows.
- Email delivery (backend/src/routes/auth.js:29) is left out. It is I/O with no effect on the tables.
- PDF rendering (backend/src/routes/export.js:40-71) is left out; only its helpers are modelled. The helpers are the sort, the file name, the date and time labels and the link list.
- The React UI is left out. That covers state hooks, rendering and fetch calls.
- TripEssentials load merge (frontend/src/components/TripEssentials.jsx:148-163) and save (167-195) are left out. They are fetch plumbing over the modelled helpers.
- The countdown (frontend/src/components/TripEssentials.jsx:138-146) is left out. It rounds milliseconds in local time.
- `linkifyText` (frontend/src/utils/links.jsx:16-35) is left out. It only renders text as React elements.
- Concurrency is left out: handlers run one at a time. Two approvals of one request could both pass the pending check (backend/src/routes/change-requests.js:55) before either writes. A sequential model cannot show that race.
- The clock, `new Date(x)`, `setUTCMonth(+6)` and `toISOString().slice(0, 10)` are parameters: `now`, `parseDate`, `addSixMonths` and `isoDay`. Only the UTC-midnight rounding and whole-day steps are written out.
- `JSON.parse` is a parameter. Text the handlers wrote with `JSON.stringify` is an `Encoded` cell that parses back to its document.
- `JSON.stringify` of a non-JSON value is not modelled.
- Object key order is not modelled, since objects are maps. The invalid-keys message lists the keys in some order, not in insertion order.
- Strings are sequences of code points, so `substring` and `length` on text outside the Basic Multilingual Plane count differently than in JavaScript.
- `toLowerCase` is modelled for ASCII letters only. That is exact for the fixed keywords and patterns the code searches for, but not for user text: the e-mail address lower-cased at sign-in (backend/src/routes/auth.js:21) and the duplicate check of packing items (frontend/src/components/TripEssentials.jsx:200) keep a non-ASCII capital, so 'Émile@x.io' and 'émile@x.io' are two addresses, and 'Äpfel' and 'äpfel' two items, in the model.
- `replace(/[^a-z0-9]/gi, '-')` in the export file name (backend/src/routes/export.js:38) works on UTF-16 units in JavaScript, so a character outside the Basic Multilingual Plane becomes '--' there and '-' in the model.
- JSON numbers are unbounded integers (`JNum`). Fractions are not represented, and `String(n)` is written in decimal digits, whereas JavaScript switches to exponent form from 1e21 on.
- `localeCompare` is modelled as code-point lexicographic order.
- Rows ordered by `createdAt` are ordered by row index. Rows are stored in creation order.
- The database pre-sort before the in-memory sort (backend/src/routes/itinerary.js:48-56) is left out. It only decides the order of ties.
- Invite token hashing is an injective symbolic function, and random tokens are parameters.
- Auth.IssueMagicLink: requires the drawn token to be new to the table. A random 32-byte token is assumed not to collide.
- Trips.ValidateCreateTrip: one `parseDate` parameter stands for both `isISO8601()` and `new Date(...)` (backend/src/routes/trips.js:16-34). Text that `isISO8601` accepts but `new Date` cannot read, such as the ISO week date 2026-W20-1, passes the source's custom checks, because every comparison with NaN is false. The insert then fails with a 500 and writes nothing. The model instead rejects that text with 400 'Invalid start_date' or 'Invalid end_date'.
- Itinerary.PatchItem: the handler model clears a location_text, cover_image or notes sent as null, following the corrected rule of the finding below. The handler as written stores the text "null" (backend/src/routes/itinerary.js:135-137). `PatchColumnAsWritten` is the as-written column, and `PatchColumnCorrectsOnlyNullText` proves that this is the only difference.
- ItemPatchData: builds the text columns with the corrected rule, so a null text field becomes null rather than the text "null". The same holds for PatchColumn and PatchTouchesOnlyGivenFields.
- PatchTouchesOnlyGivenFields: states the corrected value for a text field sent null, not the text "null" that the handler as written stores.
- Validators on array-valued fields check the whole value. Per-element handling by the validator library is not modelled.
- The `handleValidationErrors` wrapper (`backend/src/middleware/validate.js`) is not part of this model. It is modelled as its effect: 400 with the first message.
- URL ids are row indices, and ids in bodies and payloads are their decimal text.
- Other trip routes are left out: listing a user's trips, reading and deleting a trip, creating an invite, and listing members (backend/src/routes/trips.js:87-139). They are plain queries and inserts with no rule beyond the modelled guards.
- The itinerary GET query (backend/src/routes/itinerary.js:45-72) is modelled only as its sort.
- The item DELETE route (backend/src/routes/itinerary.js:151-162) is left out.
- `GET /auth/me` is left out.
- Comments store `entity_type` as sent. The validator admits only the two allowed texts, so the model stores that text.
- Essentials text columns are nullable, as the handler writes null into them.
- EssentialsForm: the form's sections are an enumeration rather than string keys.
- EssentialsForm.AddPacking: requires the packing list to be a list of strings. The page would throw on any other entry, when it calls `trim` on it.

## Findings

| source | as written | input that shows it | evidently intended | confidence | as-written member | corrected member |
|---|---|---|---|---|---|---|
| backend/src/routes/itinerary.js:135-137 | item PATCH writes `String(v).trim() \|\| null` for location_text, cover_image and notes, so a null becomes the text "null" | PATCH body `{ "location_text": null }` | null clears the field, as item creation does (backend/src/routes/itinerary.js:106-108) | not executed | Itinerary.PatchTextAsWrittenStoresNullText | Itinerary.PatchTextAgreesWithCreate |
