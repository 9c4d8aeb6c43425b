# Crowdfunding campaign store and kick-off form, in Dafny

This project models two pieces of a crowdfunding web application.

**The campaign slice of the client store** (`app/lib/features/campaignSlice.jsx`). The slice
caches four collections of campaign documents: all campaigns, the user's own campaigns, the
campaigns the user donated to, and the current campaign. It also keeps one status (idle,
loading, succeeded, failed) and one error message, shared by all operations. Seven
asynchronous thunks read and write the `campaigns` collection of a document database and a file
storage. Each thunk goes through a pending action and then a fulfilled or a rejected action.
`returnToInitialState` resets the store. The model covers the following:

- `CampaignSlice.Reduce` is the reducer as a specification function.
- `CampaignSlice.CampaignStore` is the store object. Its `Dispatch` assigns the fields that
  each case names, and its contract ties it to `Reduce`.
- `CampaignDocs` holds the campaign document and the collection operations the thunks perform:
  create, donate, edit, and the two user queries.
- `CampaignThunks.RemoteDb` holds the collection and the file storage as mutable fields. Each
  thunk body is a method on it, with the set of remote calls that fail as a parameter.

**The kick-off form** (`app/components/KickOff/KickOff.jsx`). The form is the component in which
a user creates a campaign. The model covers the following:

- `FormRules`: the goal pattern and the project-name/about pattern, including the `(?=.*…)`
  look-ahead and the JavaScript `\s` class.
- `Decimal` and `DateText`: `formatDate` and the timeline text, with `String(n)`, `padStart`
  and `substr(-2)`/`slice(-2)` written out.
- `KickOffForm.KickOffForm`: the component's state as a class, with the handlers as methods.
- `KickOffForm.KickOffForm.OnSubmit` and `Submit`: the submission. They dispatch against the
  store and the remote stand-in, and return the log of dispatched actions.

Some behaviour of the code is easy to misread:

- Thunks catch remote failures and return `undefined`. Such a failure therefore *fulfils* the
  thunk: the store shows `succeeded`, with `undefined` in the thunk's collection. Only code
  before the `try` rejects a thunk: `file[0].name` on an empty file list.
- `addUserCampaign` resolves with the reference of the new document, not the document itself.
  `addUserDonation` and `updateCurrentCampaign` resolve with `undefined`, because `updateDoc`
  resolves with nothing. So after a donation or an edit, `currentCampaign` is `undefined`.
- No positivity check is made on a donation amount. The amount is any integer.
- The goal is stored as the text the form accepted. A picked date is stored as the date value.
  A default date is stored as the `formatDate` text.
- `onSubmit` passes neither `currentUserName` nor `category`, so both document fields are
  `undefined`. The model writes them as absent (`None`). Whether the real database accepts
  such a document depends on its `ignoreUndefinedProperties` setting (see "## Left out").
- The name look-ahead `(?=.*[a-zA-Z])` does not look past a line terminator, while `\s` does
  accept one between words. A single-line input strips LF and CR from its value, but it keeps
  the line separators U+2028 and U+2029.

## Model

| member | source | states |
|---|---|---|
| `CampaignSlice.InitialState` | app/lib/features/campaignSlice.jsx:5-12 | Every collection is the empty array, the status is idle and there is no error. |
| `CampaignSlice.SlotOf` | app/lib/features/campaignSlice.jsx:150-256 | `getAllCampaigns` writes `allCampaigns`. `getAllUserCampaigns` writes `userCampaigns`. `getAllUserDonations` writes `userDonations`. The four remaining thunks, and only they, write `currentCampaign`. |
| `CampaignSlice.Settle` | app/lib/features/campaignSlice.jsx:14-22 | A thunk whose body returns is fulfilled with the returned value. One whose body throws is rejected with the error's message. The action belongs to that thunk. |
| `CampaignSlice.CampaignStore.constructor` | app/lib/features/campaignSlice.jsx:5-12 | The store starts with four empty collections, status idle and no error. |
| `CampaignSlice.Reduce` | app/lib/features/campaignSlice.jsx:150-256 | A reset gives the initial state. Any thunk action writes only that thunk's collection: pending and rejected clear it, fulfilled stores the payload. The other three collections keep their values. Status becomes loading, succeeded or failed. The error becomes the rejection's message, or none. |
| `CampaignSlice.CampaignStore.Dispatch` | app/lib/features/campaignSlice.jsx:141-256 | Each of the 22 cases rewrites the store's fields so that the new state is the reducer applied to the old state and the action. |
| `CampaignSlice.ResetIsIdempotent` | app/lib/features/campaignSlice.jsx:141-148 | `returnToInitialState` yields the initial state from any state. Applying it twice equals applying it once. |
| `CampaignSlice.UntouchedSlotKeepsValue` | app/lib/features/campaignSlice.jsx:150-256 | A series of actions with no reset and no action of a thunk that writes a collection leaves that collection unchanged. |
| `CampaignSlice.LastActionDecidesStatus` | app/lib/features/campaignSlice.jsx:150-256 | After any non-empty series of actions, status and error are those of the last action. They are shared, not kept per collection. |
| `CampaignSlice.CaughtFailureLooksLikeSuccess` | app/lib/features/campaignSlice.jsx:14-22 | A thunk that caught its error resolves with `undefined`. This fulfils it: status succeeded, no error, and an `undefined` collection. |
| `CampaignDocs.NewCampaign` | app/lib/features/campaignSlice.jsx:29-41 | A new document has raised 0, no donors and the owner's id. Its owner, project name, goal, description, category and image are the given values. Each date is the given one when set, otherwise `formatDate(today)` or `formatDate(nextMonth)`. |
| `CampaignDocs.Donate` | app/lib/features/campaignSlice.jsx:52-60 | A missing campaign leaves the collection as it was. Otherwise that campaign's `raised` grows by the amount and the donor joins `donators`. No other field and no other document changes. |
| `CampaignDocs.Edit` | app/lib/features/campaignSlice.jsx:83-93 | A missing campaign leaves the collection as it was. Otherwise only `projectName`, `about`, `image` and `category` change. Goal, raised, donors, dates, owner and owner id keep their values, and other documents are untouched. |
| `CampaignDocs.OwnedBy` | app/lib/features/campaignSlice.jsx:103-110 | The query result holds exactly the documents whose `id` is the user's; `OwnedByCounts` adds that each comes back exactly as often as the collection holds it. |
| `CampaignDocs.OwnedByCounts` | app/lib/features/campaignSlice.jsx:103-110 | Each document appears in the owner query exactly as many times as in the collection when its `id` is the user's, and never otherwise: no repeats, no omissions. |
| `CampaignDocs.DonatedBy` | app/lib/features/campaignSlice.jsx:121-128 | The query result holds exactly the documents whose donors include the user; `DonatedByCounts` adds that each comes back exactly as often as the collection holds it. |
| `CampaignDocs.DonatedByCounts` | app/lib/features/campaignSlice.jsx:121-128 | Each document appears in the donations query exactly as many times as in the collection when its donors include the user, and never otherwise. |
| `CampaignDocs.OwnedByAppend` | app/lib/features/campaignSlice.jsx:101-117 | A document added at the end of the collection appears, last, in its owner's query, after the earlier results. This is the model's collection order (see "## Left out"). |
| `CampaignDocs.DonorSeesDonation` | app/lib/features/campaignSlice.jsx:119-135 | After a donation to an existing campaign, the donor's donations query contains that campaign. |
| `CampaignDocs.DonationsAccumulate` | app/lib/features/campaignSlice.jsx:55-58 | After a series of donations, raised is the old amount plus their total, and the donors are the old donors plus every giver. Nothing else changes. |
| `CampaignDocs.RaisedNeverFalls` | app/lib/features/campaignSlice.jsx:56-57 | With non-negative amounts, raised never decreases and no donor is lost. |
| `CampaignThunks.RemoteDb.constructor` | app/lib/features/campaignSlice.jsx:2-3 | The stand-in for the document database and the file storage starts with the given documents and files. |
| `CampaignThunks.RemoteDb.GetAllCampaigns` | app/lib/features/campaignSlice.jsx:14-22 | Resolves with every document, or with `undefined` when the read fails. |
| `CampaignThunks.RemoteDb.AddUserCampaign` | app/lib/features/campaignSlice.jsx:24-47 | An empty file list throws (rejects) and changes nothing. Otherwise the file is stored under its key unless the upload fails. When upload, URL and `addDoc` all succeed, exactly one new document is appended and the thunk resolves with its reference. On any failure it resolves with `undefined` and adds no document. |
| `CampaignThunks.RemoteDb.AddUserDonation` | app/lib/features/campaignSlice.jsx:49-65 | Always resolves with `undefined` and leaves the file storage untouched. The collection becomes `Donate(...)` when both calls succeed; otherwise it is unchanged. |
| `CampaignThunks.RemoteDb.GetCurrentCampaign` | app/lib/features/campaignSlice.jsx:67-76 | Resolves with the document's data when it exists. Resolves with `undefined` when it is missing or the read fails. |
| `CampaignThunks.RemoteDb.UpdateCurrentCampaign` | app/lib/features/campaignSlice.jsx:78-99 | An empty file list throws and changes nothing. Otherwise the file is re-uploaded and the thunk resolves with `undefined`. The collection becomes `Edit(...)` when every call succeeds; otherwise it is unchanged. |
| `CampaignThunks.RemoteDb.GetAllUserCampaigns` | app/lib/features/campaignSlice.jsx:101-117 | Resolves with the user's own campaigns, or with `undefined` when the read fails. |
| `CampaignThunks.RemoteDb.GetAllUserDonations` | app/lib/features/campaignSlice.jsx:119-135 | Resolves with the campaigns the user donated to, or with `undefined` when the read fails. |
| `CampaignThunks.DispatchAddUserCampaign` | app/lib/features/campaignSlice.jsx:24-47 | The store passes through the pending action and then the settling action of `addUserCampaign`. An empty file list rejects it with the `TypeError` message and stores nothing. A failing upload, URL or `addDoc` fulfils it with `undefined` and adds no document. Otherwise it is fulfilled with the new reference and the document is appended. The file is stored whenever a file was given and the upload succeeds. |
| `CampaignThunks.DispatchGetAllUserCampaigns` | app/lib/features/campaignSlice.jsx:101-117 | The store passes through pending and then fulfilled, with the user's campaigns or `undefined`. The database is only read. |
| `Decimal.DecimalString` | app/components/KickOff/KickOff.jsx:33-35 | `String(n)` is a non-empty digit string. It starts with 0 exactly for 0, and has one digit exactly below 10. |
| `DateText.PadStart` | app/components/KickOff/KickOff.jsx:33-34 | The result has length at least the width. It ends with the original text and begins with fill characters only. |
| `DateText.TwoDigits` | app/components/KickOff/KickOff.jsx:33-34 | A day or month number below 100, padded, is two digits that read back as the number. |
| `DateText.YearDigits` | app/components/KickOff/KickOff.jsx:35 | The last two characters of a year of at least two digits are digits that read back as the year modulo 100. |
| `DateText.FormatDate` | app/components/KickOff/KickOff.jsx:32-37 | For a valid day and month and a year of at least two digits, `formatDate` is 8 characters `dd/mm/yy`. They read back as the day, month index + 1 and year modulo 100. |
| `DateText.ShortYearText` | app/components/KickOff/KickOff.jsx:35 | For years -9 to 9, the year part is not two digits, so the text is not `dd/mm/yy`. |
| `DateText.Timeline` | app/components/KickOff/KickOff.jsx:117 | For displayable dates, the text is 19 characters, two `dd/mm/yy` dates around " - ". They read back as the picked range when both dates are set, otherwise as today and next month. |
| `FormRules.GoalValid` | app/components/KickOff/KickOff.jsx:102 | An accepted goal is a string of digits denoting a positive number. |
| `FormRules.GoalAcceptsPositiveNumerals` | app/components/KickOff/KickOff.jsx:102 | The goal is accepted iff it is the canonical decimal text of a positive integer: digits only, no sign, no leading zero. |
| `FormRules.WordIsShape` | app/components/KickOff/KickOff.jsx:93 | `[a-zA-Z\d]+(?:-[a-zA-Z\d]+)*` matches exactly the alphanumeric/hyphen texts that start and end with an alphanumeric and have no two hyphens side by side. |
| `FormRules.PhraseIsShape` | app/components/KickOff/KickOff.jsx:93 | The pattern after the look-ahead matches exactly texts of words separated by single white-space characters, with no separator at either end and none doubled. |
| `FormRules.LetterAheadMeansLetter` | app/components/KickOff/KickOff.jsx:93 | The look-ahead implies a letter. On text without line breaks, it is equivalent to containing a letter. |
| `FormRules.TextFieldValid` | app/components/KickOff/KickOff.jsx:93 | An accepted project name or description has the phrase shape and contains a letter. |
| `FormRules.TextFieldRule` | app/components/KickOff/KickOff.jsx:168 | The project-name/about rule is, character by character, the phrase shape plus a letter before any line break. Without line breaks, it is the phrase shape plus at least one letter. |
| `FormRules.LetterAfterLineBreakRejected` | app/components/KickOff/KickOff.jsx:168 | "123", the line separator U+2028, then "abc": this text has the phrase shape and a letter, yet the rule rejects it. |
| `KickOffForm.FormValid` | app/components/KickOff/KickOff.jsx:93-175 | Values the form accepts have a goal denoting a positive number, a project name and a description that each contain a letter, and at least one file. |
| `KickOffForm.KickOffForm.constructor` | app/components/KickOff/KickOff.jsx:24-28 | Calendar hidden, no dates, upload prompt shown, no file name. |
| `KickOffForm.KickOffForm.HandleCalendarIconClick` | app/components/KickOff/KickOff.jsx:39-41 | Negates `showCalendar` and changes nothing else. |
| `KickOffForm.CalendarToggleTwice` | app/components/KickOff/KickOff.jsx:39-41 | Two clicks leave every field of the form as it was: the calendar flag, both dates, the upload state and the uploaded file name. |
| `KickOffForm.KickOffForm.HandleCancel` | app/components/KickOff/KickOff.jsx:67-69 | Hides the calendar and changes nothing else. |
| `KickOffForm.KickOffForm.HandleDateChange` | app/components/KickOff/KickOff.jsx:43-47 | Stores both ends of the range and changes nothing else. |
| `KickOffForm.KickOffForm.HandleFileChangeAsWritten` | app/components/KickOff/KickOff.jsx:57-65 | As written: an empty list throws and changes nothing. A non-empty list stores the first name and hides the prompt. The prompt is never turned back on. |
| `KickOffForm.KickOffForm.HandleFileChange` | app/components/KickOff/KickOff.jsx:57-65 | Corrected: the prompt shows exactly when no file is chosen, and a chosen file's name is kept. |
| `KickOffForm.KickOffForm.OnSubmit` | app/components/KickOff/KickOff.jsx:49-55 | Without a user nothing is dispatched or written. Otherwise the log is exactly: pending `addUserCampaign`; its settling action (rejected for an empty file list, fulfilled with `undefined` after a remote failure, fulfilled with the new reference otherwise); pending `getAllUserCampaigns`; its fulfilment with the user's campaigns or `undefined`; `closeModal`. The store is the reducer run over those actions, so it always ends succeeded with no error. A new document is appended only when it was written. The file is stored under its storage key unless the list is empty or the upload fails. When it was written and the refresh reads, the user's campaigns in the store are the earlier ones followed by it, in the model's collection order. |
| `KickOffForm.KickOffForm.Submit` | app/components/KickOff/KickOff.jsx:78 | Invalid form values dispatch nothing and change neither the store nor the database. Valid values carry everything `onSubmit` states. Without a user, nothing is dispatched or written. With a user, the log is the exact five-entry log, the documents and files change as the remote calls allow, and the store ends succeeded. A valid form always has a file, so the second entry is never a rejection. |

## Left out

- Remote calls: `getDocs`, `getDoc`, `addDoc`, `updateDoc`, `uploadBytes` and `getDownloadURL` are modelled only by their effect on an in-memory collection and file map. Which of them fail is a parameter. The id the database assigns and the download URL are parameters too. The new id is required to be unused.
- The collection is an ordered sequence, not a map keyed by id. A document is looked up by its first occurrence.
- Query order: the model returns query results in insertion order, so a new campaign comes last. The real database returns a query without `orderBy` in ascending document-id order, and the ids `addDoc` assigns are random. So `CampaignDocs.OwnedByAppend` and the `OnSubmit` statement about the refreshed user campaigns hold for the model's order only. In the program, the same documents come back in id order.
- Undefined fields: `addUserCampaign` writes `owner` and `category` as `undefined` when `onSubmit` calls it. With the database's default settings, `addDoc` rejects `undefined` field values. The error is caught, the thunk is fulfilled with `undefined`, and the uploaded file stays orphaned: that is the model's `AddDoc` failure case. The model writes the document only when the instance sets `ignoreUndefinedProperties`. The Firebase configuration is not part of this model, so which of the two happens is left open.
- `arrayUnion` and `increment`: donors are a set, so no claim is made on whether a repeated donor is kept twice. Amounts are unbounded integers; floating-point amounts are not modelled.
- Redux Toolkit itself: concurrent in-flight thunks, interleaving, and last-writer-wins on the shared status are not modelled. Dispatches are sequential, and every thunk settles before the next dispatch.
- `null` and `undefined` error values are both `None`. A rejection's message is whatever the thrown error carries. `CampaignThunks.ReadNameOfUndefined` is the `TypeError` text of V8, the engine in Chrome and Node. Other engines, such as Firefox's SpiderMonkey and Safari's JavaScriptCore, word that error differently, so the exact string is engine-specific.
- `console.log` diagnostics, and whether storage keys are unique (a key that repeats overwrites the stored file).
- The `checkbox` field of the donation argument, which the thunk never uses.
- An invalid document path (for example an empty campaign id) is not modelled as an error of `doc(...)`.
- `new Date()` and the month arithmetic of `nextMonth`: today and next month are inputs. A date is its year, month index and day.
- JSX rendering, CSS, icons, the date-picker widget, `react-hook-form` internals (`register`, error display) and `useAuthState`. The signed-in user is an input. The form values arrive already collected.
- `handleModalToggle` and the `closeModal` action: the modal slice is not part of this model. `closeModal` appears only as the last entry of the submit log.
- The end-to-end browser tests under `cypress/`.

## Findings

| source | as written | input that shows it | evidently intended | confidence | as-written member | corrected member |
|---|---|---|---|---|---|---|
| app/components/KickOff/KickOff.jsx:57-65 | `handleFileChange` reads `files[0].name` before it checks that the list is non-empty. | An input event whose file list is empty (the selection cleared): `files[0]` is undefined and reading `.name` throws a `TypeError`. The branch that shows the upload prompt again is never reached. | Check the list first. With no file, show the upload prompt again; with a file, keep its name and hide the prompt. | medium, not executed | `KickOffForm.KickOffForm.HandleFileChangeAsWritten` | `KickOffForm.KickOffForm.HandleFileChange` |
