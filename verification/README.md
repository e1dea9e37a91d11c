# Consent dashboard: a Dafny model of the client-side workflows

This project models the client side of a patient-consent registry for a
healthcare data-sharing platform. It covers four screens of the web dashboard:

- **Consent management** (`ConsentFlow`). A patient's consent for a named purpose
  is a statement signed by a connected wallet. The screen builds the canonical
  statement `I consent to: <purpose> for patient: <patientId>` and has the wallet
  sign it. It posts the statement with the signature and the wallet address.
  It lists consents under a status filter, and it approves or revokes pending
  ones.
- **Transaction history** (`TransactionView`). The blockchain transactions,
  optionally filtered by the connected wallet, and how the table shows them.
- **Patient list** (`PatientListing`). A searchable list, paged twelve patients
  at a time, with Previous/Next buttons.
- **Patient detail** (`PatientProfile`). One patient, then that patient's medical
  records.

Each screen keeps its state in fields that its handlers update step by step.
So each screen is a class whose fields are that state, and each handler is a
method whose postconditions give the whole new state. The wallet signer and
the HTTP service are outside the model. Each awaited call is an `Outcome` the
caller supplies: `Ok(value)`, or `Err(message)` when the call throws. A handler
returns the calls it issued, in order. With that trace, the contracts can state
several things: a call that never happens, the arguments a call receives, and
that a refresh runs only after a write succeeded. A fetch effect that has one
await is split in two. `BeginFetch` runs up to the await (loading on, error
cleared, request issued). `FinishFetch` runs after it. Setters return
`refetch`, which says whether React would run the dependent effect again:
that happens only when the value changed.

Two shared modules hold what every screen uses:

- `Responses` normalises a list reply. A reply is an array or another object,
  and may carry the named list field. Normalisation is field-first everywhere
  except in patient detail, which checks for an array first. The module also
  gives `err.message || fallback`.
- `JsText` gives JavaScript `slice` semantics and the `head...tail` abbreviation
  of addresses and hashes. A string shorter than the bounds is clamped. It is
  not an error.

Properties proved about these:

- The statement reads back. `ParseStatement` is the inverse of the template: it
  takes the purpose up to the first separator. Its result always re-renders to
  the same statement. It recovers the purpose and the patient id whenever the
  purpose has no colon, which holds for every purpose the form offers.
- Clicks on the pagination bar never leave the page range.
- The update actions offered on a card are transitions the consent state
  machine allows.

JavaScript's falsy values `null`, `undefined` and `''` behave the same in every
test this code makes, so a missing string is `""` throughout.

## Model

| member | source | states |
|---|---|---|
| `Responses.FieldFirst` | frontend/src/components/ConsentManagement.js:28-34 | First match wins: the named field when it is set, otherwise the array itself, otherwise unrecognised |
| `Responses.ArrayFirst` | frontend/src/components/PatientDetail.js:23-29 | The array itself first, then the named field; it agrees with the field-first order except on an array that also carries the field |
| `Responses.Loaded` | frontend/src/components/TransactionHistory.js:22-32 | A fetch stores the recognised list; an unrecognised shape or a call that threw stores the empty list |
| `Responses.Reloaded` | frontend/src/components/ConsentManagement.js:77-82 | A refresh stores the recognised list like a fetch, and otherwise keeps the current list instead of emptying it |
| `Responses.OrElse` | frontend/src/components/ConsentManagement.js:36 | `value || fallback` on strings: the value unless it is empty, else the fallback; never empty when the fallback is not |
| `JsText.Slice` | frontend/src/components/TransactionHistory.js:43 | `slice` on in-range indices is the plain subsequence; crossed indices give the empty string; a negative start counts from the end and is clamped at 0 |
| `JsText.Abbreviate` | frontend/src/components/TransactionHistory.js:43 | The first `min(head, len)` characters, `...`, the last `min(tail, len)` characters; a long string shows disjoint ends, a short one appears whole twice |
| `JsText.WalletLabel` | frontend/src/components/PatientDetail.js:108 | A wallet shows its first six and last four characters (the same rule as a consent card's wallet); a short address appears twice |
| `ConsentFlow.ConsentMessage` | frontend/src/components/ConsentManagement.js:55 | The statement is the fixed prefix, the purpose, the fixed separator and the patient id, at the stated positions |
| `ConsentFlow.ParseStatement` | frontend/src/components/ConsentManagement.js:55 | Whatever a statement reads back as re-renders through the template to that same statement |
| `ConsentFlow.FindSeparator` | frontend/src/components/ConsentManagement.js:55 | The first position at or after the start where the separator occurs, and none before it |
| `ConsentFlow.StatementRoundTrip` | frontend/src/components/ConsentManagement.js:55 | A statement built from a purpose without a colon reads back as exactly that purpose and patient id |
| `ConsentFlow.PurposeStatementRoundTrip` | frontend/src/components/ConsentManagement.js:157-161 | Every purpose the form offers gives a statement that reads back |
| `ConsentFlow.TemplateAmbiguousForFreeFormPurpose` | frontend/src/components/ConsentManagement.js:55 | A purpose containing the separator makes two different inputs give one statement, so the colon restriction is needed |
| `ConsentFlow.StatusParam` | frontend/src/components/ConsentManagement.js:24 | The status parameter is null exactly for the `all` filter and is the filter value otherwise |
| `ConsentFlow.ActionsFor` | frontend/src/components/ConsentManagement.js:238-253 | Approve (to `active`) and Revoke (to `revoked`) are offered exactly for a pending consent with a wallet connected, and both are legal transitions |
| `ConsentFlow.TxHashLabel` | frontend/src/components/ConsentManagement.js:229-236 | The anchoring hash is shown only when set, as its first ten and last eight characters |
| `ConsentFlow.ConsentManagement.constructor` | frontend/src/components/ConsentManagement.js:8-16 | Mount state: no consents, loading, no error, filter `all`, form hidden and empty |
| `ConsentFlow.ConsentManagement.SelectFilter` | frontend/src/components/ConsentManagement.js:171-190 | Sets the filter; the fetch effect re-runs exactly when the value changed; nothing else changes |
| `ConsentFlow.ConsentManagement.ToggleCreateForm` | frontend/src/components/ConsentManagement.js:121-127 | Flips the form's visibility when a wallet is connected; the button does nothing when disabled |
| `ConsentFlow.ConsentManagement.EditPatientId` | frontend/src/components/ConsentManagement.js:145 | Replaces the patient id and keeps the purpose |
| `ConsentFlow.ConsentManagement.EditPurpose` | frontend/src/components/ConsentManagement.js:154 | Replaces the purpose and keeps the patient id |
| `ConsentFlow.ConsentManagement.BeginFetch` | frontend/src/components/ConsentManagement.js:19-25 | Loading on and error cleared, then the query with no subject and the filter's status parameter |
| `ConsentFlow.ConsentManagement.FinishFetch` | frontend/src/components/ConsentManagement.js:26-40 | Stores the field-first list, or empty for an unrecognised shape; on a throw stores empty and the message or `Failed to fetch consents`; loading always ends off |
| `ConsentFlow.ConsentManagement.HandleCreateConsent` | frontend/src/components/ConsentManagement.js:46-88 | No wallet: only the alert, no call, state unchanged. Otherwise sign the form's statement, then post it with that same statement, the signature and the wallet. Only after both succeed: reset and hide the form, then refresh with the filter. A refresh keeps the list on an unrecognised shape or a throw. The alert text says which step threw |
| `ConsentFlow.ConsentManagement.HandleUpdateStatus` | frontend/src/components/ConsentManagement.js:90-107 | Patches the status, and refreshes only after the patch succeeded; the list changes only on a recognised refresh; the alert names the new status or the failure |
| `TransactionView.WalletParam` | frontend/src/components/TransactionHistory.js:19 | The wallet parameter is null exactly when no filter is set, and the filter otherwise |
| `TransactionView.FormatAddress` | frontend/src/components/TransactionHistory.js:41-44 | `N/A` exactly for a missing address; else its first eight and last six characters, a short address appearing twice |
| `TransactionView.WalletCell` | frontend/src/components/TransactionHistory.js:140-154 | The wallet cell always equals `FormatAddress` of the sender |
| `TransactionView.HashCell` | frontend/src/components/TransactionHistory.js:123-137 | `Pending` without a hash, else its first ten and last eight characters |
| `TransactionView.TypeLabel` | frontend/src/components/TransactionHistory.js:119 | The type, or `Unknown` when missing (`OrElse`); never empty |
| `TransactionView.StatusLabel` | frontend/src/components/TransactionHistory.js:161 | The status, or `confirmed` when missing (`OrElse`); never empty |
| `TransactionView.CountNoun` | frontend/src/components/TransactionHistory.js:172 | `transaction`, with an `s` unless the count is exactly one |
| `TransactionView.FilterControls` | frontend/src/components/TransactionHistory.js:84-96 | The filter button shows only with a wallet and no filter; the clear control shows exactly when a filter is set; never both |
| `TransactionView.TransactionHistory.constructor` | frontend/src/components/TransactionHistory.js:8-11 | Mount state: no transactions, loading, no error, no filter |
| `TransactionView.TransactionHistory.BeginFetch` | frontend/src/components/TransactionHistory.js:15-20 | Loading on and error cleared, then the query with the filter's wallet parameter |
| `TransactionView.TransactionHistory.FinishFetch` | frontend/src/components/TransactionHistory.js:22-35 | Stores the field-first list or empty; on a throw empty and the message or `Failed to fetch transactions`; loading ends off |
| `TransactionView.TransactionHistory.FilterByConnectedWallet` | frontend/src/components/TransactionHistory.js:51-57 | Filter becomes the account when one is connected, else unchanged with the wallet alert; refetch exactly when it changed |
| `TransactionView.TransactionHistory.ClearFilter` | frontend/src/components/TransactionHistory.js:59-61 | Filter becomes empty, so the parameter is null; refetch exactly when a filter was set |
| `PatientListing.PaginationView` | frontend/src/components/PatientList.js:119-136 | The bar shows exactly when there is more than one page; Previous disabled exactly on page 1, Next exactly on the last page |
| `PatientListing.Press` | frontend/src/components/PatientList.js:121-136 | Previous moves back one and Next forward one unless disabled; a page in range stays in range |
| `PatientListing.PressesStayInRange` | frontend/src/components/PatientList.js:119-136 | From a page in range, any series of clicks on the bar stays within 1..totalPages |
| `PatientListing.PatientList.constructor` | frontend/src/components/PatientList.js:6-12 | Mount state: no patients, loading, no error, empty terms, page 1, no pagination |
| `PatientListing.PatientList.HandleSearch` | frontend/src/components/PatientList.js:53-56 | Sets the term and resets to page 1; refetch at once exactly when the page changed |
| `PatientListing.PatientList.DebounceElapsed` | frontend/src/components/PatientList.js:15-21 | The searched term catches up with the typed term; refetch exactly when it changed |
| `PatientListing.PatientList.HandlePageChange` | frontend/src/components/PatientList.js:58-60 | Sets the page; refetch exactly when it changed |
| `PatientListing.PatientList.BeginFetch` | frontend/src/components/PatientList.js:23-31 | Loading on and error cleared, then the current page with page size 12 and the settled term |
| `PatientListing.PatientList.FinishFetch` | frontend/src/components/PatientList.js:33-46 | Wrapped reply sets patients and pagination; bare array only patients; other shapes or a throw empty the patients, a throw recording the error; loading ends off |
| `PatientProfile.ErrorView` | frontend/src/components/PatientDetail.js:50-56 | Shown exactly when a non-empty error is set or there is no patient, with that error or else `Patient not found` |
| `PatientProfile.PatientDetail.constructor` | frontend/src/components/PatientDetail.js:6-9 | Mount state: no patient, no records, loading, no error |
| `PatientProfile.PatientDetail.FetchPatientData` | frontend/src/components/PatientDetail.js:11-40 | No id: no call, state unchanged. Otherwise the patient is stored before the records are requested, and the records only after the patient succeeded. Records are normalised array first. A throw at either step records the error and clears neither records nor patient. Loading ends off |

## Left out

- Rendering: markup, styles and the loading views are not modelled. `alert` texts
  are output values. Copying to the clipboard is not modelled.
- The wallet signer and the HTTP service are foreign. Their results are the
  `Outcome` parameters of the handlers.
- Date formatting (`formatDate`, `toLocaleString`, `toLocaleDateString`)
  depends on locale and clock.
- `StatsDashboard.js` is not part of this model. It uses floating-point
  percentages and interval polling.
- The 500 ms debounce timer and its cancellation are not modelled.
  `DebounceElapsed` models only the moment the timer fires.
- Interleaving of async work is not modelled: stale responses, overlapping
  fetches, and a reply arriving after the filter changed. The code does not
  discard stale replies. `BeginFetch`/`FinishFetch` may be called in any order,
  and nothing in the model discards a reply either.
- A reply that is `null` or `undefined` makes the property access throw a
  `TypeError`. The model folds this into the `Err` outcome.
- A named list field that is truthy but not a list is not modelled. Such a value
  would be stored as is.
- `err.message` that is missing and one that is empty are both `Err("")`.
  `OrElse` treats them alike, as the code does.
- ConsentFlow.ConsentManagement.HandleCreateConsent: for a thrown error without
  a message, the alert in the code ends with `undefined`. The model's alert ends
  with the empty string.
- ConsentFlow.ConsentManagement.HandleUpdateStatus: same approximation of the
  failure alert as for creation.
- The footer's count is rendered as a decimal number. That rendering is not
  modelled. `TransactionView.CountNoun` covers only the pluralised noun.
- A consent card whose `walletAddress` is missing
  (frontend/src/components/ConsentManagement.js:225) and a patient detail
  without a wallet address (frontend/src/components/PatientDetail.js:108)
  throw a `TypeError` while rendering. This is not modelled: a missing address
  is the empty string, and `WalletLabel("")` is `"..."`.
- Strings are sequences of characters. JavaScript's UTF-16 code units (which
  `slice` counts) and surrogate pairs are not distinguished.
- The handlers do not check transitions, purposes or patient ids, and the
  model does not claim they do:
  - `HandleUpdateStatus` sends any status it is given; no transition is
    checked before the patch.
  - `HandleCreateConsent` signs any form content, including an empty patient
    id or a purpose outside the list.
  - Only the buttons offered (`ActionsFor`, the form's closed purpose list)
    restrict what a user can trigger.
  - A refresh after a write that fails keeps the list; it is not emptied.
