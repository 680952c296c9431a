# ARGOS maintenance pages: contact log and submission state machine

A Dafny model of the logic inside the two "maintenance" pages of the Argos
Sea site.

- **Desktop page** (`components/PCMaintenancePage.tsx`). A contact form (name, email, message) is posted once to a relay. Only when the relay answers `ok` does the page:
  - build a `Message` from the form, with a random id and a formatted date;
  - put it at the front of a local log;
  - write the whole log back to browser storage under the key `argos_messages`;
  - switch to its "sent" panel and reset the form.
- Any failure shows a fixed Italian error text and changes nothing else.
- The `isSubmitting` flag is raised for the duration of the handler and lowered on every path.
- The log is loaded from storage when the page mounts. A missing key gives the empty log.
- The log can be cleared after a confirmation dialog.
- The log can be exported as a download named `argos_backup_<YYYY-MM-DD>.json`. Export does nothing when the log is empty.
- **Mobile page** (`components/MobileMaintenancePage.tsx`). It runs the same flag machine with its own error text. It keeps no log and does not reset the form on success.

Layout:

- `wrappers.dfy` (`Wrappers`): `Option`, standing for JavaScript `null` and for a missing storage key.
- `contact_form.dfy` (`ContactForm`): the shared pieces:
  - the form and its `onChange` updates;
  - the `Flags` record;
  - the remote outcome;
  - the flag machine `Start` / `Settle` / `Reopen`.
- `pc_maintenance.dfy` (`ContactLog`): the desktop page.
  - A value-level specification: `PageState` and one step function per handler.
  - `Replay` over a sequence of user actions.
  - The class `ContactPage`. Its fields are the component's state hooks, plus `stored`, which stands for the value `localStorage` holds under `argos_messages` (not a hook); its methods are the handlers. The constructor establishes the invariant `Valid()`: the log equals what storage holds, and no submit is in flight. Each handler that changes state is proved to perform exactly its step function and to keep `Valid()`. `ExportData` changes no field: it has no `modifies` clause.
- `mobile_maintenance.dfy` (`MobileSupport`): the mobile page, built the same way.

The outside world enters as parameters:

- The relay's answer is a `RemoteOutcome`: `Accepted` means `response.ok`; `Rejected` means a response that is not ok; `Unreachable` means `fetch` threw.
- Whether `localStorage.setItem` accepted the write is a `bool`.
- The random id, the `it-IT` formatted date and the ISO date are opaque strings.
- The answer to `window.confirm` is a `bool`.

Storage is modelled as `Option<seq<Message>>`: the value under `argos_messages`, or `None` when the key is absent. JSON encoding and decoding are treated as exact inverses and are not modelled as text.

What the page does not do:

- It saves a message locally only when the relay accepts it, never otherwise.
- The handler validates nothing. `required` is only an HTML attribute.
- There is no import operation.

## Model

| member | source | states |
|---|---|---|
| ContactForm.WithField | components/PCMaintenancePage.tsx:137-162 | editing one input sets exactly that field of the form and leaves the other two as they were |
| ContactForm.Start | components/PCMaintenancePage.tsx:31-32 | a submit begins with `isSubmitting` raised and `error` cleared, `isSubmitted` untouched |
| ContactForm.Settle | components/PCMaintenancePage.tsx:44-64 | after the attempt, `isSubmitting` is lowered on every path; success raises `isSubmitted` and keeps `error`; failure sets `error` to the page's fixed text and keeps `isSubmitted` |
| ContactForm.Reopen | components/PCMaintenancePage.tsx:186 | the "send another" button lowers `isSubmitted` and changes neither `isSubmitting` nor `error` |
| ContactForm.SubmitSettles | components/MobileMaintenancePage.tsx:14-39 | over a whole submit, no path leaves `isSubmitting` raised, the error shows exactly when the attempt failed, and afterwards the "sent" state holds exactly when this attempt succeeded or the "sent" panel was already showing before it |
| ContactLog.Mount | components/PCMaintenancePage.tsx:17-27 | after mounting, the log is empty when the storage key is absent and is exactly the stored list otherwise; the form is empty and all flags are down |
| ContactLog.SubmitStep | components/PCMaintenancePage.tsx:29-65 | on an ok response with a successful write, the log becomes the new message (id and date as supplied, the other fields from the form) followed by the old log, storage holds exactly the new log, the form is emptied and `isSubmitted` raised with no error; on a non-ok response, a thrown fetch or a failed write, the log, storage, form and `isSubmitted` are unchanged and `error` is the fixed retry text; `isSubmitting` ends lowered on every path |
| ContactLog.ClearStep | components/PCMaintenancePage.tsx:77-82 | a confirmed clear leaves the log empty and the storage key absent (so still in sync); a declined one changes nothing; form and flags are never touched |
| ContactLog.ClearIdempotent | components/PCMaintenancePage.tsx:77-82 | clearing a second time, with either answer, gives the same state as clearing once |
| ContactLog.DayPart | components/PCMaintenancePage.tsx:73 | `slice(0, 10)` of the ISO date: its first ten characters, or the whole string when shorter |
| ContactLog.BackupFileName | components/PCMaintenancePage.tsx:73 | the export name starts with `argos_backup_`, ends with `.json`, and reads back (through `BackupDay`) as the day part of the ISO date |
| ContactLog.BackupDayNamesFile | components/PCMaintenancePage.tsx:73 | conversely, every name that reads back as a day is exactly the export name of that day |
| ContactLog.Apply | components/PCMaintenancePage.tsx:165-167 | every user action, with a submit ignored while the button is disabled, keeps the log equal to what storage holds when it started so, and from a state with no submit in flight keeps no submit in flight |
| ContactLog.Replay | components/PCMaintenancePage.tsx:24-82 | from a state in sync and with no submit in flight, any sequence of actions keeps the log equal to what storage holds and ends with no submit in flight |
| ContactLog.ApplyPrepends | components/PCMaintenancePage.tsx:45-51 | from a state with no submit in flight, an action other than a confirmed clear either puts in front of an otherwise unchanged log one message built from the submit's id and date and the current form (accepted and saved submit), or leaves the log as it was |
| ContactLog.ReplayNewestFirst | components/PCMaintenancePage.tsx:51 | from a state with no submit in flight, over any sequence of actions without a confirmed clear, the log is one message per accepted and saved submit, whose ids and dates are those submits' ids and dates, latest first, followed by the starting log unchanged; failed submits add nothing |
| ContactLog.ContactPage.constructor | components/PCMaintenancePage.tsx:17-27 | mounting the page yields `Mount` of the stored value and establishes the invariant |
| ContactLog.ContactPage.HandleSubmit | components/PCMaintenancePage.tsx:29-65 | callable only with `isSubmitting` down; performs exactly `SubmitStep` on the page's fields and keeps the invariant |
| ContactLog.ContactPage.ExportData | components/PCMaintenancePage.tsx:67-75 | offers nothing exactly when the log is empty; otherwise offers the whole log under `BackupFileName` of the ISO date; changes no field (it has no `modifies` clause) |
| ContactLog.ContactPage.ClearDatabase | components/PCMaintenancePage.tsx:77-82 | performs exactly `ClearStep` with the confirmation answer and keeps the invariant |
| ContactLog.ContactPage.SendAnother | components/PCMaintenancePage.tsx:186 | lowers `isSubmitted` only, keeping the invariant |
| ContactLog.ContactPage.EditField | components/PCMaintenancePage.tsx:131-163 | updates one form field only, keeping the invariant |
| MobileSupport.SubmitStep | components/MobileMaintenancePage.tsx:14-39 | the form is never reset; on an ok response `isSubmitted` is raised with no error; otherwise `isSubmitted` is unchanged and `error` is "Errore di invio. Riprova più tardi."; `isSubmitting` ends lowered on every path |
| MobileSupport.SameFlagMachine | components/MobileMaintenancePage.tsx:14-39 | from the same flags and outcome, the mobile and the desktop page (with a successful write) reach the same `isSubmitting` and `isSubmitted` and show an error in the same cases |
| MobileSupport.MobileSupportPage.constructor | components/MobileMaintenancePage.tsx:9-12 | the page starts with an empty form and all flags down |
| MobileSupport.MobileSupportPage.HandleSubmit | components/MobileMaintenancePage.tsx:14-39 | callable only while the button is enabled (`isSubmitting` down, line 100); performs exactly `SubmitStep` and leaves `isSubmitting` down |
| MobileSupport.MobileSupportPage.WriteAgain | components/MobileMaintenancePage.tsx:116-117 | "Scrivi ancora" lowers `isSubmitted` and leaves the form, `error` and `isSubmitting` untouched |
| MobileSupport.MobileSupportPage.EditField | components/MobileMaintenancePage.tsx:70-96 | updates one form field only |

## Left out

- The `fetch` call to the Formspree relay (its endpoint, headers and JSON body) is network I/O. Only its outcome is modelled.
- `localStorage` and the JSON text:
  - `JSON.parse` / `JSON.stringify` are taken as exact inverses.
  - A stored value that is not a JSON list, and the empty string (which `|| '[]'` also maps to the empty list), cannot be represented. The page itself never writes either.
  - Other storage keys are not modelled.
- `Math.random()` ids are a parameter. Nothing is claimed about their uniqueness, because the code does not guarantee it.
- `toLocaleString('it-IT')` and `toISOString()` are opaque string parameters. Only the `slice(0, 10)` of the latter is modelled.
- The export download is not modelled: the data URI, `encodeURIComponent`, the anchor element and `click()`. Export returns the file name and the log it serialises. The pretty-printed JSON text is not modelled.
- `window.confirm` is a `bool` parameter.
- The render before the load effect runs, when the log is still `[]`, is not a model state. `Mount` is the state after the effect.
- Async interleaving is not modelled: each submit is one atomic step. During the `await`, the handler's closure holds the log and the form from the render that submitted. The model does not capture what follows from this:
  - A clear made while a submit is in flight is undone when the submit succeeds: the stale log is written back to storage and memory.
  - An edit made while a submit is in flight does not reach the saved message, which is built from the stale form. On success the form is then reset to empty, so the edit is lost. On failure the edit survives.
- The invariant `Valid()` (the log equals what storage holds) assumes this page instance is the only writer of `argos_messages` after it mounts. The page reads storage only once, when it mounts, and each successful submit overwrites the key with the new message followed by its own log. The model therefore does not capture what another writer does to this page:
  - A message saved by another tab or window of the desktop page leaves this page's log stale, and the next successful submit here silently drops that message from storage.
  - A submit still in flight when the page is left and reopened writes its stale log over what the new mount loaded.
- JSX rendering, the `showDatabase` toggle, navigation, `components/EntryPage.tsx` and the route table in `App.tsx` are presentation with no logic.
- The browser's `required` and `type="email"` checks are enforced by the browser, not the handler. The model adds no validation.
