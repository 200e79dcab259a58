# Dealer dashboard: list controllers and OTP reset flow

A Dafny model of the UI state logic of a vehicle-dealer admin dashboard:

- the **dealers table** and the **submissions table**: a list of records shown four
  per page, with a page count, a clamped current page, the slice of visible rows, the
  footer label and the Previous/Next buttons; a modal (view/add/edit for dealers, view
  for submissions) with its selected record; delete after a confirmation; and the body
  scroll lock that the modal installs while it is open;
- the **OTP page**: six boxes of at most one character, the change handler with its focus move, the
  countdown that gates resending, and the verify step;
- the **auth hook**: the four password-reset request handlers with their `loading`,
  `error` and `result` state and their client-side URL preconditions.

Modules: `Pagination` (the arithmetic both tables share), `RecordList` (delete by id),
`ScrollLock` (the effect keyed on `open`), `Dealers`, `SubmissionForms`, `Auth`,
`VerifyOtp`, and `Wrappers` (an `Option` for JavaScript's `null`).

Modelling choices:

- A React handler, the re-render it causes and the effects that re-run are one method.
  Each table handler ends by committing the scroll-lock effect (`ScrollLock.Commit`).
- `confirm()` is a boolean argument of `HandleDelete`.
- The browser's `overflow` style is the `scroll` field: the current value plus the value
  the installed cleanup will restore.
- An `await` on the auth service is split into three steps. `Begin` sets `loading` and
  clears `error`. `Send` records the request in `sent` (every request ever sent) and in
  `pending` (requests still waiting for a reply). `Settle` takes the reply. Each
  whole handler runs these steps in order, and the service's reply is a parameter.
- The URL query is a map from parameter name to value. `router.push` becomes a `Route`
  record inside the page's `Outcome`.
- Strings are sequences of Unicode characters. Where the source tests a string's
  `length`, the model counts UTF-16 code units (`VerifyOtp.Utf16Length`), as JavaScript does.
- Page numbers are unbounded integers. The source only ever passes whole numbers to
  `goToPage`.

## Model

| member | source | states |
|---|---|---|
| Pagination.TotalPages | src/components/Dashboard/Dealers/Dealers.tsx:138-142 | the page count is at least 1 and is the least count whose pages hold every item (one page for an empty list) |
| Pagination.TotalPagesIsCeiling | src/components/Dashboard/Dealers/Dealers.tsx:142 | the page count equals `max(1, ceil(n / 4))` computed on real numbers |
| Pagination.ClampPage | src/components/Dashboard/Dealers/Dealers.tsx:144 | the shown page lies in `[1, totalPages]` for any stored page; an in-range page is kept exactly, one below 1 gives 1, one above the count gives the last page |
| Pagination.StartIndex | src/components/Dashboard/Dealers/Dealers.tsx:146 | the first shown row index is a multiple of 4, is at most the item count, is below it for a non-empty list, and belongs to the shown page |
| Pagination.EndIndex | src/components/Dashboard/Dealers/Dealers.tsx:147 | `startIndex <= endIndex <= totalItems`; at most 4 rows; at least one for a non-empty list; a page that is not the last is full |
| Pagination.PageItems | src/components/Dashboard/Dealers/Dealers.tsx:148 | the visible page is exactly rows `startIndex` to `endIndex - 1` of the list, in order: 1 to 4 rows, none only for an empty list |
| Pagination.ItemOnPage | src/components/Dashboard/Dealers/Dealers.tsx:146-148 | list row `i` is shown on page `i / 4 + 1` at position `i % 4` |
| Pagination.PagesPartition | src/components/Dashboard/Dealers/Dealers.tsx:141-148 | the pages from first to last, concatenated, give back the whole list in order with no gap or overlap |
| Pagination.PrevNextStep | src/components/Dashboard/Dealers/Dealers.tsx:299-336 | an enabled Previous or Next button moves exactly one page; Previous is disabled exactly on page 1 and Next exactly on the last page, where the click would change nothing |
| Pagination.PrevDisabled | src/components/Dashboard/Dealers/Dealers.tsx:301 | Previous is disabled exactly when the stored page is at most 1 or there is only one page |
| Pagination.NextDisabled | src/components/Dashboard/Dealers/Dealers.tsx:331 | Next is disabled exactly when the stored page is at or beyond the last page, or there is only one page |
| Pagination.ShrinkOffLastPage | src/components/Dashboard/Dealers/Dealers.tsx:132-148 | deleting the only row of the last page makes the table show the previous page, which is full |
| Pagination.NatToString | src/components/Dashboard/Dealers/Dealers.tsx:291-293 | a number prints as at least one decimal digit, with no leading zero (only 0 itself starts with '0') |
| Pagination.NatToStringValue | src/components/Dashboard/Dealers/Dealers.tsx:291-293 | the footer's printed digits read back as the number that was printed |
| Pagination.Render | src/components/Dashboard/Dealers/Dealers.tsx:287-295 | the footer text is "Showing " and " entries" around either "0" (no entries) or "first to last of total" in decimal |
| RecordList.RemoveId | src/components/Dashboard/Dealers/Dealers.tsx:132 | after delete, a record is in the list exactly when it was before and its id differs from the deleted id |
| RecordList.RemoveIdAppend | src/components/Dashboard/Dealers/Dealers.tsx:132 | filtering commutes with concatenation, so kept records keep their relative order |
| RecordList.RemoveIdAbsent | src/components/Dashboard/SubmissionForms/SubmissionForms.tsx:93 | deleting an id that no record carries leaves the list unchanged |
| RecordList.RemoveIdIdempotent | src/components/Dashboard/SubmissionForms/SubmissionForms.tsx:93 | deleting the same id twice removes nothing more |
| RecordList.RemoveIdCount | src/components/Dashboard/Dealers/Dealers.tsx:132 | the list shrinks by exactly the number of records carrying the id |
| ScrollLock.Commit | src/components/Dashboard/Dealers/Dealers.tsx:156-173 | when the modal opens, the previous overflow is saved and the body is set to "hidden"; when it closes, exactly the saved value comes back; while `open` is unchanged nothing happens |
| ScrollLock.RunRestores | src/components/Dashboard/SubmissionForms/SubmissionForms.tsx:113-125 | over any history of opens and closes that starts unlocked, the body shows "hidden" while the modal is open and its original value whenever the modal is closed |
| Dealers.InitialDealers | src/components/Dashboard/Dealers/Dealers.tsx:19-83 | the table starts with the six fixture dealers |
| Dealers.DealersFooter | src/components/Dashboard/Dealers/Dealers.tsx:287-295 | the footer reads "Showing 0 entries" exactly for an empty list; otherwise it shows the 1-based first and last shown positions (at most 4 apart, a full page unless it is the last) and the total |
| Dealers.SixDealersFirstFooter | src/components/Dashboard/Dealers/Dealers.tsx:287-295 | with six dealers, page 1 reads "Showing 1 to 4 of 6 entries" |
| Dealers.SixDealersSecondFooter | src/components/Dashboard/Dealers/Dealers.tsx:287-295 | with six dealers, page 2 reads "Showing 5 to 6 of 6 entries" |
| Dealers.SixDealersPages | src/components/Dashboard/Dealers/Dealers.tsx:146-153 | with the six initial dealers, page 1 shows the first four and page 2 the last two; asking for page 3 stores page 2 |
| Dealers.DealersTable.constructor | src/components/Dashboard/Dealers/Dealers.tsx:86-93 | the table mounts with the initial dealers on page 1 and the modal closed and unlocked |
| Dealers.DealersTable.GoToPage | src/components/Dashboard/Dealers/Dealers.tsx:150-153 | the stored page becomes the clamped request, always in `[1, totalPages]` |
| Dealers.DealersTable.HandleView | src/components/Dashboard/Dealers/Dealers.tsx:95-99 | the modal is open in view mode on that dealer, whatever mode it was in; the list and page do not change |
| Dealers.DealersTable.HandleAdd | src/components/Dashboard/Dealers/Dealers.tsx:101-105 | the modal is open in add mode with no dealer selected |
| Dealers.DealersTable.HandleEdit | src/components/Dashboard/Dealers/Dealers.tsx:107-111 | the modal is open in edit mode on that dealer |
| Dealers.DealersTable.CloseModal | src/components/Dashboard/Dealers/Dealers.tsx:113-117 | from any state, the modal is closed with no mode and no selection, and the saved overflow is restored |
| Dealers.DealersTable.HandleSubmit | src/components/Dashboard/Dealers/Dealers.tsx:119-125 | submitting always ends with the modal closed and the list unchanged |
| Dealers.DealersTable.HandleDelete | src/components/Dashboard/Dealers/Dealers.tsx:127-135 | declined, nothing changes; confirmed, exactly the dealers with that id go; the modal closes exactly when it showed a dealer with that id |
| Dealers.OpenEditThenClose | src/components/Dashboard/Dealers/Dealers.tsx:156-173 | opening in view, then add, then edit mode and then closing leaves the body's overflow as it was before the modal opened |
| SubmissionForms.InitialSubmissions | src/components/Dashboard/SubmissionForms/SubmissionForms.tsx:18-72 | the table starts with the five fixture submissions |
| SubmissionForms.SubmissionsFooter | src/components/Dashboard/SubmissionForms/SubmissionForms.tsx:223-230 | the footer's first number is 0 exactly for an empty list and `startIndex + 1` otherwise; the second is `endIndex`: 0 for an empty list, a full page past the first unless it is the total |
| SubmissionForms.EmptyFooter | src/components/Dashboard/SubmissionForms/SubmissionForms.tsx:223-230 | an empty table reads "Showing 0 to 0 of 0 entries" |
| SubmissionForms.SubmissionFormsTable.constructor | src/components/Dashboard/SubmissionForms/SubmissionForms.tsx:74-77 | the table mounts with the initial submissions on page 1 and the modal closed |
| SubmissionForms.SubmissionFormsTable.ShownIffOpen | src/components/Dashboard/SubmissionForms/SubmissionForms.tsx:264 | the detail modal (`open && selectedSubmission`) is shown exactly when `open` is set |
| SubmissionForms.SubmissionFormsTable.GoToPage | src/components/Dashboard/SubmissionForms/SubmissionForms.tsx:107-110 | the stored page becomes the clamped request, in `[1, totalPages]` |
| SubmissionForms.SubmissionFormsTable.HandleView | src/components/Dashboard/SubmissionForms/SubmissionForms.tsx:79-82 | the modal is open and shown on that submission |
| SubmissionForms.SubmissionFormsTable.CloseModal | src/components/Dashboard/SubmissionForms/SubmissionForms.tsx:84-87 | the modal is closed with nothing selected, and the saved overflow is restored |
| SubmissionForms.SubmissionFormsTable.HandleDelete | src/components/Dashboard/SubmissionForms/SubmissionForms.tsx:89-95 | declined, nothing changes; confirmed, exactly the submissions with that id go, in order; the modal closes exactly when it showed one of them |
| Auth.Param | src/lib/hooks/useAuth.ts:57-58 | a URL parameter reads as its value, and an absent one reads as "" |
| Auth.ErrorText | src/lib/hooks/useAuth.ts:28 | the error shown is the reply's message when it is non-empty, and "Something went wrong" otherwise |
| Auth.AfterReply | src/lib/hooks/useAuth.ts:25-29 | on success `result` becomes the reply's data and `error` is untouched; on failure `error` becomes the reply's message, or "Something went wrong" when it is empty, and `result` is untouched |
| Auth.AuthHook.constructor | src/lib/hooks/useAuth.ts:15-17 | the hook starts not loading, with no result, no error and no request sent |
| Auth.AuthHook.Begin | src/lib/hooks/useAuth.ts:20-21 | every handler starts by setting `loading` and clearing `error` |
| Auth.AuthHook.Send | src/lib/hooks/useAuth.ts:23 | a service call records exactly one request, which then waits for its reply |
| Auth.AuthHook.Settle | src/lib/hooks/useAuth.ts:25-32 | when the reply arrives it is recorded as in `AfterReply`, `loading` is cleared, and the reply is returned unchanged |
| Auth.AuthHook.HandleForgotPassword | src/lib/hooks/useAuth.ts:19-33 | one forgot-password request for the email is sent; the reply is recorded and returned unchanged; `loading` ends false |
| Auth.AuthHook.HandleVerifyOtp | src/lib/hooks/useAuth.ts:36-50 | exactly `{otp, email}` as given is sent; the reply is recorded and returned unchanged |
| Auth.AuthHook.HandleResendOtp | src/lib/hooks/useAuth.ts:53-76 | with an empty or absent URL token, no request is sent, `error` is "Invalid or missing token" and the result is "No token found in URL"; otherwise the token is sent and the reply returned |
| Auth.AuthHook.HandleResetPassword | src/lib/hooks/useAuth.ts:79-103 | with an empty or absent URL email, no request is sent, `error` is "Email not found" and the result is "Email not found in URL"; otherwise exactly `{email, newPassword}` is sent |
| VerifyOtp.Join | src/components/Dashboard/Auth/VerifyOTP/VerifyOTP.tsx:45 | the code is the boxes in order with no separator: six one-character boxes give a six-character code whose `k`-th character is box `k`; a single box joins to its own content, so with `JoinAppend` an empty box adds nothing |
| VerifyOtp.JoinAppend | src/components/Dashboard/Auth/VerifyOTP/VerifyOTP.tsx:45 | joining splits over concatenation of the boxes |
| VerifyOtp.JoinExample | src/components/Dashboard/Auth/VerifyOTP/VerifyOTP.tsx:45 | boxes 4 2 0 1 9 9 submit "420199" |
| VerifyOtp.Utf16Length | src/components/Dashboard/Auth/VerifyOTP/VerifyOTP.tsx:33 | a string's JavaScript `length` counts UTF-16 code units: between its character count and twice that, and equal to it when no character lies above U+FFFF; the length is at most 1 exactly for the empty string and a single character up to U+FFFF |
| VerifyOtp.AstralCharRefused | src/components/Dashboard/Auth/VerifyOTP/VerifyOTP.tsx:33 | typing U+1F600 (two code units) into any box changes no box and moves no focus |
| VerifyOtp.UpdateSlot | src/components/Dashboard/Auth/VerifyOTP/VerifyOTP.tsx:33-37 | a value longer than one UTF-16 code unit leaves every box unchanged (it is not truncated); otherwise only box `index` changes, to the value; six boxes of at most one code unit stay so |
| VerifyOtp.NextFocus | src/components/Dashboard/Auth/VerifyOTP/VerifyOTP.tsx:33-40 | focus moves to box `index + 1` exactly when a value of one UTF-16 code unit was typed and the box is not the last |
| VerifyOtp.VerifyOutcome | src/components/Dashboard/Auth/VerifyOTP/VerifyOTP.tsx:51-63 | success navigates to the reset page with the URL token ("" when absent) and email; failure shows the reply's message, or "Failed to verify OTP" when it is empty |
| VerifyOtp.OtpForm.constructor | src/components/Dashboard/Auth/VerifyOTP/VerifyOTP.tsx:9-29 | the page starts with six empty boxes and no countdown, so resending is allowed once the effect has run |
| VerifyOtp.OtpForm.HandleChange | src/components/Dashboard/Auth/VerifyOTP/VerifyOTP.tsx:32-41 | the boxes become `UpdateSlot` of the old boxes and the focus is `NextFocus`; six boxes of at most one UTF-16 code unit are kept |
| VerifyOtp.OtpForm.Tick | src/components/Dashboard/Auth/VerifyOTP/VerifyOTP.tsx:19-29 | one tick lowers a positive timer by 1 and never goes below 0; `canResend` holds exactly when the timer is 0 |
| VerifyOtp.OtpForm.HandleVerify | src/components/Dashboard/Auth/VerifyOTP/VerifyOTP.tsx:44-64 | the joined code and the URL email ("" when absent, with no client-side guard) are sent, and the outcome is `VerifyOutcome` of the reply |

## Left out

- Rendering, styling, the `InfoItem` and `FormInput` components, and icons.
- The Escape-key listener: the model captures what it triggers, which is `CloseModal`.
- `HandleSubmit`: the form values and the console message ("Adding"/"Editing") are only
  logged. Nothing is stored, so the model has no create or update mutation.
- DOM focus: `HandleChange` returns the index of the box to focus.
- Toasts, and the one-second delay before navigating after a successful verification.
- `setInterval` timing: the countdown is a discrete `Tick`. Nothing in the OTP page
  sets the timer above 0, so with the source as written `Tick` never fires.
- `encodeURIComponent` and `URLSearchParams` parsing: the query is already a map, and
  the route carries the raw token and email.
- The auth services' HTTP calls: their replies are parameters. The services turn every
  transport failure into a failure reply with a fixed non-empty message.
- Number formatting in the footer beyond plain decimal digits of a natural number.
- Dealers.DealersTable.HandleView, Dealers.DealersTable.HandleEdit and
  SubmissionForms.SubmissionFormsTable.HandleView require the record to be in the list.
  Their only callers are the row buttons of the visible page.
- VerifyOtp.OtpForm.HandleChange requires the box index to be below 6. Its only callers
  are the six input boxes.
- The remaining files: the Overview page, the forgot-password page, the data-fetching
  hooks, the dealer, submission and overview services, and the type files. They are
  display code or HTTP wrappers with no state logic of their own.
