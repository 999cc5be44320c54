# Tour-operator site: a Dafny model of its component state

This project models the in-memory state handling of a small tour-operator web
site, written as React components. There is no server and no persistence: the
catalogue of tour packages, the list of booking requests, the admin login and
the chat transcript live in component state and change only through event
handlers. The model covers four components:

- **App** (`Site.App`): the public site. It holds which view is shown (HOME or
  ADMIN), whether the admin is authenticated, whether the login dialog is open,
  and the booking dialog with its form. It owns the catalogue and the bookings.
  A submitted booking goes to the front of the list as PENDING. The invariant
  "the ADMIN view implies authenticated" holds in every state (`Site.App.Valid`).
- **AdminPanel** (`Admin.Panel` over the pure functions of `Ledger`): the
  new-package draft and the "generating" flag. It appends a package with
  defaults, deletes packages by id after a confirmation, changes a booking's
  status by id, merges generated copy into the draft, and computes the
  dashboard figures: confirmed revenue, pending count and package count. The
  catalogue and bookings are App's, handed down with their setters. The panel
  therefore writes them through its reference to the App object.
- **ChatWidget** (`Chat.ChatWidget`): a transcript that starts with a greeting.
  A send is guarded by "trimmed input not blank and no reply awaited", and the
  trim is JavaScript's `trim`, modelled in `Text`. The send appends the user's
  turn and hands the prior transcript to the chat service as history. When the
  call completes, exactly one model turn is appended. The invariant: the
  transcript alternates model and user turns. It ends on a user turn exactly
  while a reply is awaited.
- **LoginModal** (`Login.LoginModal`): a fixed credential check. On success it
  calls App's login handler and clears the form. On failure it shows the hint
  and keeps what was typed.

External effects are inputs. The generator's result is `Option<Details>`
(success or failure). The chat call's result is `ChatOutcome` (a text, possibly
empty, or a throw). The confirmation prompt's answer is a `bool`. The clock
readings used for ids and timestamps are `string` parameters. Each async
handler is split into a start step and a completion step. The completion step
requires the flag that the start step sets.

Two facts about the content service shape these inputs:

- The service asks for a response schema in which all four keys are required
  (`services/geminiService.ts:12-34`), but it only calls `JSON.parse` on the
  reply and checks nothing (`services/geminiService.ts:51`). So every field of
  `Ledger.Details` is optional, and a missing field makes the draft field
  undefined.
- The chat call turns errors of the vendor SDK into a fixed fallback reply
  (`services/geminiService.ts:72-74`), but it throws before its `try` when the
  API key is missing (`services/geminiService.ts:59`). That is the only way the
  widget's "glitch" branch is reached, and `Chat.Threw` models it.

## Model

| member | source | states |
|---|---|---|
| Site.App.constructor | App.tsx:47-57 | starts on HOME with the three initial packages, no bookings, not authenticated, login closed, nothing selected, empty form; the admin-view invariant holds |
| Site.App.SubmitBooking | App.tsx:59-79 | with nothing selected nothing changes; otherwise exactly one booking is prepended and the old list follows unchanged; the selection is cleared and the form reset; packages, view and auth are not in its frame |
| Site.NewBooking | App.tsx:63-73 | the new booking is PENDING, takes packageId and packageTitle from the selected package and name, email, phone and date from the form |
| Site.App.AdminClick | App.tsx:81-87 | authenticated: view becomes ADMIN; otherwise only the login opens and the view is kept; invariant preserved |
| Site.App.LoginSuccess | App.tsx:89-93 | authenticated, login closed, view ADMIN |
| Site.App.Logout | App.tsx:95-98 | not authenticated, view HOME |
| Site.App.Render | App.tsx:101-106 | an ADMIN view without authentication is reset to HOME and renders nothing; afterwards the invariant holds whatever the state was before |
| Site.App.GoHome | App.tsx:132 | the logo sets view HOME |
| Site.App.SelectPackage | App.tsx:244 | a card's book button selects that package |
| Site.App.CloseBooking | App.tsx:311 | the dialog's close button clears the selection |
| Site.App.EditForm | App.tsx:326-356 | one form field is replaced |
| Site.App.CloseLogin | App.tsx:376 | the login dialog closes; invariant preserved |
| Admin.Panel.constructor | components/AdminPanel.tsx:15-26 | the draft starts at its initial value and the flag is down |
| Admin.Panel.Edit | components/AdminPanel.tsx:166-217 | one draft field is set |
| Admin.Panel.StartGenerate | components/AdminPanel.tsx:28-33 | a request is made exactly when none is in flight (the button is disabled then, :181) and title and destination are both filled; otherwise nothing changes |
| Admin.Panel.CompleteGenerate | components/AdminPanel.tsx:34-47 | success merges the generated fields into the draft, failure leaves it unchanged; the flag ends down either way |
| Ledger.MergeGenerated | components/AdminPanel.tsx:36-42 | only description, highlights, price and duration are replaced; title, destination and image are kept |
| Ledger.MergeThenAdd | components/AdminPanel.tsx:36-60 | a merged draft can still be added, and the package carries the generated description, highlights, price and (when non-empty) duration |
| Ledger.MergeLastWins | components/AdminPanel.tsx:36-42 | a second generation overrides the first entirely |
| Admin.Panel.AddPackage | components/AdminPanel.tsx:50-73 | without title or destination nothing changes; otherwise exactly one package is appended, prior packages unchanged, and the draft resets |
| Ledger.NewPackage | components/AdminPanel.tsx:52-61 | filled draft fields are kept, missing ones default (description '', price 0, duration 'TBD', the default image, highlights []); title, destination, duration and image are never empty |
| Admin.Panel.DeletePackage | components/AdminPanel.tsx:75-79 | confirmed: the catalogue becomes the filter without the id; declined: unchanged |
| Ledger.RemovePackage | components/AdminPanel.tsx:77 | the result is no longer, and holds exactly the input's packages whose id differs |
| Ledger.RemovePackageConcat | components/AdminPanel.tsx:77 | deletion distributes over concatenation, so the kept packages keep their relative order |
| Ledger.RemovePackageAbsent | components/AdminPanel.tsx:77 | deleting an id nobody has changes nothing |
| Ledger.RemovePackageCount | components/AdminPanel.tsx:77 | the catalogue shrinks by exactly the number of packages with that id |
| Admin.Panel.UpdateBookingStatus | components/AdminPanel.tsx:81-83 | the booking list becomes the status map over the old list |
| Ledger.SetStatus | components/AdminPanel.tsx:82 | the list keeps its length |
| Ledger.SetStatusAt | components/AdminPanel.tsx:82 | at every position a matching booking gets the new status and keeps every other field; a non-matching one is untouched |
| Ledger.SetStatusAbsent | components/AdminPanel.tsx:82 | an id nobody has leaves the list unchanged |
| Ledger.WithStatus | components/AdminPanel.tsx:86-90 | the status filter is no longer than the list and holds exactly its bookings of that status |
| Ledger.WithStatusCount | components/AdminPanel.tsx:90 | the filter keeps every booking of the status, duplicates included: its length is their count |
| Ledger.WithStatusConcat | components/AdminPanel.tsx:86-90 | the filter distributes over concatenation, so the kept bookings keep their relative order |
| Ledger.FindPackage | components/AdminPanel.tsx:87 | None exactly when no package has the id; otherwise the package at the first index with that id |
| Ledger.PriceOf | components/AdminPanel.tsx:87-88 | a confirmed booking adds a non-negative amount when every price is non-negative |
| Ledger.FoldPrices | components/AdminPanel.tsx:86-89 | with non-negative prices the reducer never falls below its start value |
| Ledger.FoldPricesShift | components/AdminPanel.tsx:86-89 | the reducer's start value only adds to its result |
| Ledger.FoldConfirmedIsConfirmedValue | components/AdminPanel.tsx:86-89 | the filter/reduce from 0 equals the sum, over CONFIRMED bookings, of the first matching package's price or 0 |
| Ledger.TotalRevenue | components/AdminPanel.tsx:86-89 | the dashboard's revenue equals the reference sum over the CONFIRMED bookings |
| Ledger.PendingCount | components/AdminPanel.tsx:90 | the pending figure is the number of PENDING bookings, and at most the number of bookings |
| Ledger.ConfirmedValueNonNegative | components/AdminPanel.tsx:86-89 | the revenue is non-negative when every price is |
| Ledger.ComputeStats | components/AdminPanel.tsx:85-92 | revenue is the confirmed sum and non-negative with non-negative prices; pending count is the number of PENDING bookings; package count is the catalogue's length |
| Admin.Panel.Dashboard | components/AdminPanel.tsx:85-92 | the overview figures of the current App state: the confirmed sum, the number of PENDING bookings and the catalogue's length |
| Ledger.ResolveLowersPending | components/AdminPanel.tsx:292-301 | resolving an offered (PENDING) booking whose id is unique lowers the pending count by exactly one |
| Ledger.ConfirmAddsRevenue | components/AdminPanel.tsx:294 | confirming an offered booking whose id is unique adds its package's price to the revenue |
| Ledger.CancelKeepsRevenue | components/AdminPanel.tsx:297 | cancelling pending bookings leaves the revenue unchanged |
| Admin.SubmittedBookingIsPending | App.tsx:71-75 | a newly prepended PENDING booking raises the dashboard's pending count by one and leaves the revenue unchanged |
| Chat.ChatWidget.constructor | components/ChatWidget.tsx:7-12 | the transcript is the single greeting; input empty; not loading; closed |
| Chat.ChatWidget.Toggle | components/ChatWidget.tsx:118 | the launcher flips the panel open or closed |
| Chat.ChatWidget.Close | components/ChatWidget.tsx:64 | the header's close button closes the panel; the invariant is kept |
| Chat.ChatWidget.SetInput | components/ChatWidget.tsx:100 | the input line takes the typed text |
| Chat.ChatWidget.StartSend | components/ChatWidget.tsx:23-38 | a blank trimmed input or an awaited reply changes nothing; otherwise the trimmed input is appended as a user turn, the input clears, loading is set, and the history is the transcript before that turn |
| Chat.ToHistory | components/ChatWidget.tsx:33-36 | the history has the transcript's length |
| Chat.ToHistoryAt | components/ChatWidget.tsx:33-36 | each entry keeps its message's role and carries its text as the single part, in the same order |
| Chat.HistoryRoundTrip | components/ChatWidget.tsx:33-36 | the transcript can be read back from the history unchanged |
| Chat.ChatWidget.CompleteSend | components/ChatWidget.tsx:38-46 | exactly one model turn is appended after the user turn; loading ends false; the alternation invariant is kept |
| Chat.ReplyText | components/ChatWidget.tsx:40-43 | the service text if non-empty, otherwise the "couldn't understand" text; the glitch text when the call throws; never empty |
| Chat.AppendTurn | components/ChatWidget.tsx:28-43 | appending a non-empty turn of the role due next keeps the transcript alternating and free of empty texts |
| Text.LeadingSpace | components/ChatWidget.tsx:24-26 | the length of the longest white-space prefix: that prefix is all white space and the next character is not |
| Text.TrailingSpace | components/ChatWidget.tsx:24-26 | where the longest white-space suffix begins: that suffix is all white space and the character before it is not |
| Text.TrimStart | components/ChatWidget.tsx:24-26 | the result does not start with white space |
| Text.TrimEnd | components/ChatWidget.tsx:24-26 | the result does not end with white space |
| Text.Trim | components/ChatWidget.tsx:24-26 | the trimmed input (guard and user turn) is no longer than the input and neither starts nor ends with white space |
| Text.TrimIsCore | components/ChatWidget.tsx:24-26 | the trimmed input is a slice of the input with only white space cut off either side, and neither of its ends is white space |
| Text.TrimEmptyIff | components/ChatWidget.tsx:24 | the send guard's "trimmed input is empty" holds exactly when the input is all white space |
| Text.TrimIdempotent | components/ChatWidget.tsx:26 | the user turn's text is already trimmed |
| Login.LoginModal.constructor | components/LoginModal.tsx:11-13 | both fields and the error start empty |
| Login.LoginModal.SetUsername | components/LoginModal.tsx:54 | the username field takes the typed text |
| Login.LoginModal.SetPassword | components/LoginModal.tsx:65 | the password field takes the typed text |
| Login.LoginModal.Submit | components/LoginModal.tsx:15-28 | callable only while the dialog is open; succeeds exactly when the username is "admin" and the password "admin123"; success logs in through App, clears the error and both fields; failure sets the hint, keeps the fields and leaves App alone |

## Left out

- `services/geminiService.ts` is not part of this model. It wraps a vendor SDK with network calls and process configuration. Its results enter only as the `Option<Details>` and `ChatOutcome` inputs. Its swallowing of SDK errors into a fixed "having trouble connecting" reply is, for the widget, just one more `Replied` text.
- Rendering, styling and the chat's scroll-to-bottom effect are left out, and so is `components/PackageCard.tsx`, whose only logic is a display-time cut of the highlights to three. The admin panel's tab switch only chooses what is drawn, so it is left out too.
- `alert`, `console.error` and `confirm` are left out: the first two only inform the user, and the answer to `confirm` is the `confirmed` argument.
- `Date.now()` and `toISOString()` become the `id` and `createdAt` parameters. Ids are not assumed unique: the lemmas that need a unique id say so in their requires.
- Prices are integers. The source's numbers can be fractional or NaN from `Number(...)`, and `toLocaleString` only formats them.
- React's asynchronous semantics are left out, because each handler is one atomic step (async ones as a start and a completion step). That means setState batching, closures that read state from before an await, and the remount that resets the admin panel's draft when the admin view is left. Concurrent sends are excluded by the widget's own loading guard.
- The chat's send button is disabled exactly when its handler returns early (components/ChatWidget.tsx:107 against :24), so only the handler's guard is modelled. The generate button is disabled on `isGenerating || !newPkg.title` (components/AdminPanel.tsx:181). Its title check repeats the handler's guard; its `isGenerating` check, which the handler does not have, is part of `Admin.Panel.StartGenerate`, where a click during a pending request does nothing.
- The chat widget and the login dialog are rendered only on the public site (App.tsx:374-381). Entering the ADMIN view (App.tsx:101-122) unmounts them, so after a logout the transcript restarts at the greeting, the input is empty and a reply still awaited is thrown away. In the model `Chat.ChatWidget` and `Login.LoginModal` are separate objects that keep their state whatever `Site.App.view` is.
- Site.App.SubmitBooking: accepts any form. In the source the browser refuses to submit while one of the four `required` fields is empty or the email field does not look like an address (App.tsx:322, 332, 333, 342, 352), so `handleBookingSubmit` never sees such a form; the browser's validation is not modelled.
- Login.LoginModal.Submit: requires the dialog to be open. The source renders the form, and so lets it be submitted, only then (components/LoginModal.tsx:15).
- Admin.Panel.CompleteGenerate and Chat.ChatWidget.CompleteSend: require their in-flight flag, because a completion only follows a started request.
- Chat.ChatWidget.StartSend: states the guard as "trimmed input is empty", as the source writes it. The equivalence with "all white space" is the separate lemma `Text.TrimEmptyIff`.
