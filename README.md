# BlockFarm front end — a Dafny model of its core

BlockFarm is a React front end for a medicine-lot registry kept in an
Ethereum contract. A user connects a wallet. The application then asks the
contract which of four roles the account holds (administrator,
manufacturer, distributor, pharmacy). It shows only the tabs those roles
unlock. From those tabs the user registers a lot of medicine, or assigns and
revokes roles. After a transfer, a summary modal lists what was recorded.

This project models that core in Dafny:

- `appshell.dfy` (`AppShell`): the `App` component.
  - Its React state cells are the fields of the class `App`.
  - Each handler or effect is a method. A handler that awaits is split at
    its await into two methods: the synchronous start, and the continuation
    that receives the wallet's or the contract's answer as a parameter.
    This applies to connecting, registering a lot and loading the roles.
    Between the two steps the in-flight flags (`isConnecting`,
    `isRegistering`, `isLoadingRoles`) are set, so a second click in that
    window meets the guard.
  - The validation chain of `registrarLote` is a pair of functions
    (`RegistrationCheck`, `PayloadCheck`). The method is proved against them.
- `navigation.dfy` (`Navigation`): the role gating of the tabs
  (`availableTabs`) and the active-tab fallback.
- `roles.dfy` (`Roles`): the four role keys and the records keyed by them.
- `lotform.dfy` (`LotForm`): the lot record, the medicine catalogue and the
  select handler that fills in the dependent fields.
- `rolemanagement.dfy` (`RoleManagement`): the role panel, covering hash
  resolution, the checks and the single assign/revoke call.
- `transfersummary.dfy` (`TransferSummary`): the rows of the transfer
  summary (`filter(Boolean)` over eight slots, with defaults) and the
  explorer link.
- `jsstring.dfy` (`JsString`) and `jsbigint.dfy` (`JsBigInt`): the parts of
  ECMAScript the core relies on. These are `String.prototype.trim` and the
  `BigInt(string)` conversion (StringToBigInt in ECMA-262, section 7.1.14).
- `chain.dfy` (`Chain`) and `optional.dfy` (`Optional`): the contract calls
  the core makes, what a transaction can end in, and an `Option` type.

Some outside services become parameters of the methods and functions that
use them:

- `Date.parse` is `string -> Option<int>`, where `None` stands for `NaN`.
- `ethers.isAddress` is `string -> bool`.
- `ethers.id` is `string -> string`.
- `toLocaleDateString` is `string -> string`.
- The wallet connection is a `ConnectOutcome`.
- A transaction is a `TxOutcome`: confirmed with a hash, or thrown.

Each method that makes a contract call records it in a ghost `calls` log.
Its postcondition says exactly which calls were made.

### Where the code does not fail closed

- A fail-closed policy would drop all roles when the role queries fail.
  The code instead shows an error and keeps the role status it had
  (`src/App.tsx:189-195`). `ReceiveRoleHashes` and `ReceiveRoleStatus`
  model this: on failure they keep `roleStatus` unchanged.
- A session change does not reset the status before the new load
  (`src/App.tsx:136-153`). After a switch from account A to account B
  (`src/App.tsx:118-125`), a failed load therefore leaves A's roles, and
  A's tabs, in force for B indefinitely. `FailedSwitchKeepsRoles` runs
  exactly this sequence: the account change, the effect, then the failed
  load. It proves that the role status and the available tabs are those
  of the previous account.
- An empty quantity passes the "valid number" check: `BigInt("")` is `0n`.
  It is then rejected by the "must be greater than zero" check
  (`QuantityScreening`).
- The lot record of the form declares six fields in
  `src/components/LotForm.tsx:3-10`. The shell also keeps `quantity` and
  submits it. The model uses the shell's seven-field record.

## Model

| member | source | states |
|---|---|---|
| Roles.RoleTable.ToMap | src/components/RoleManagement.tsx:8-11 | the full role record seen as a partial record has all four keys, each with the record's value |
| Roles.NoRoles | src/App.tsx:137-143 | the reset role status holds no role |
| Roles.DefaultHashes | src/App.tsx:62-69 | the initial hash of each role is `id` of the role's name |
| Navigation.AnyHeldIff | src/App.tsx:213 | `some` over the required roles holds exactly when one listed role is held |
| Navigation.AvailableTabs | src/App.tsx:210-215 | the `availableTabs` filter: never more tabs than the list; which tabs and in what order is stated by AvailableTabsMembers and AvailableTabsInOrder |
| Navigation.AvailableTabsMembers | src/App.tsx:210-215 | a tab is available iff it is in the list and its required roles are absent, empty, or include a held role (both directions) |
| Navigation.AvailableTabsInOrder | src/App.tsx:210-215 | the available tabs are a subsequence of the full list, kept in its order |
| Navigation.NoRolesShowsOnlyUngated | src/App.tsx:136-147 | after the reset to no roles, exactly the ungated tabs are available |
| Navigation.MoreRolesMoreTabs | src/App.tsx:210-215 | holding more roles never hides a tab |
| Navigation.GatingExample | src/App.tsx:210-215 | with only the admin role, of the tabs gated by {admin}, {manufacturer} and {admin, pharmacy}, the first and the third are shown |
| Navigation.FallbackTab | src/App.tsx:217-230 | no active tab iff nothing is available; an available active tab is kept; otherwise the first available one; the result is always available |
| Navigation.FallbackIdempotent | src/App.tsx:217-230 | the active-tab effect reaches its fixed point after one run |
| LotForm.WithField | src/App.tsx:232-234 | the named field takes the value and every other field is unchanged |
| LotForm.Catalogue | src/components/LotForm.tsx:12-38 | the catalogue has five entries |
| LotForm.CatalogueNamesDistinct | src/components/LotForm.tsx:12-38 | catalogue names are non-empty and pairwise distinct |
| LotForm.Find | src/components/LotForm.tsx:61 | `find` is None iff no entry has the name; otherwise it returns a catalogue entry carrying that name |
| LotForm.FindByName | src/components/LotForm.tsx:61 | with distinct names, looking up entry i's name returns entry i |
| LotForm.AutoFill | src/components/LotForm.tsx:60-65 | the select handler's result: the name becomes the chosen value or "", and the series code, dates and quantity are untouched; AutoFillFromCatalogue and AutoFillClears state the three dependent fields |
| LotForm.AutoFillFromCatalogue | src/components/LotForm.tsx:60-65 | selecting a catalogue name copies its name, active ingredient and sanitary registration, and leaves the other four fields alone |
| LotForm.AutoFillClears | src/components/LotForm.tsx:60-65 | a value that is not a catalogue name blanks the three dependent fields and leaves the others alone |
| LotForm.PlaceholderClears | src/components/LotForm.tsx:67 | choosing the placeholder option blanks the three dependent fields |
| LotForm.LotDraft.constructor | src/App.tsx:73-82 | the lot record starts with every field empty |
| LotForm.LotDraft.Change | src/App.tsx:232-234 | one field of the record is replaced |
| LotForm.LotDraft.SelectMedicine | src/components/LotForm.tsx:60-65 | the three successive updates leave the record as `AutoFill` describes |
| JsString.Trim | src/components/RoleManagement.tsx:51 | `s.trim()`: never longer than `s`; what it keeps and drops is stated by TrimStartSuffix, TrimEndPrefix, TrimEnds, TrimIsInfix, TrimEmptyIffAllWhitespace, TrimNoop and TrimIdempotent |
| JsString.TrimStartSuffix | src/App.tsx:262 | trimming the start keeps a suffix that starts with no whitespace, and drops only whitespace |
| JsString.TrimEndPrefix | src/App.tsx:262 | trimming the end keeps a prefix that ends with no whitespace, and drops only whitespace |
| JsString.TrimEnds | src/components/RoleManagement.tsx:51 | a non-empty trimmed string neither starts nor ends with whitespace |
| JsString.TrimIsInfix | src/components/RoleManagement.tsx:51 | the trimmed string is one contiguous slice of the input, with only whitespace around it |
| JsString.TrimEmptyIffAllWhitespace | src/components/RoleManagement.tsx:51-56 | `!s.trim()` holds exactly when `s` is all whitespace |
| JsString.TrimNoop | src/App.tsx:277-280 | a string with no whitespace at either end is its own trim |
| JsString.TrimIdempotent | src/App.tsx:262 | trimming twice is trimming once |
| JsBigInt.BlankIsZero | src/App.tsx:262-265 | BigInt of a blank text is 0 |
| JsBigInt.ParseBigInt | src/App.tsx:265 | `BigInt(text)`: a negative result needs a trimmed literal that begins with '-'; what it accepts is stated by BlankIsZero, UnsignedDigits, NegatedDigits, DecimalRoundTrip, ParseIgnoresTrim and FractionRejected |
| JsBigInt.LiteralShape | src/App.tsx:265 | the digits start inside the literal, and only a leading '-' makes it negative |
| JsBigInt.UnsignedDigits | src/App.tsx:265 | a run of decimal digits parses to its value |
| JsBigInt.NegatedDigits | src/App.tsx:265 | a minus sign followed by decimal digits parses to the negated value |
| JsBigInt.DecimalRoundTrip | src/App.tsx:265 | the decimal numeral of n parses back to n, and with a minus sign to -n |
| JsBigInt.ParseIgnoresTrim | src/App.tsx:262-265 | trimming before BigInt never changes the result |
| JsBigInt.FractionRejected | src/App.tsx:264-268 | a decimal fraction such as "12.5" makes BigInt throw |
| AppShell.WithLegalField | src/App.tsx:236-238 | the named field of the responsible party takes the value and every other field is unchanged |
| AppShell.AlertText | src/App.tsx:247-314 | every outcome raises an alert except a click ignored as already registering and a confirmed registration |
| AppShell.FirstAccount | src/App.tsx:119-122 | the first account of the list, or "" for an empty list or a payload that is not an array |
| AppShell.Seconds | src/App.tsx:259-260 | `Math.floor(ms / 1000)`: the whole seconds s with s·1000 ≤ ms < s·1000 + 1000 |
| AppShell.PayloadCheck | src/App.tsx:258-296 | the checks inside the `try`: a ready verdict is a `registrarLote` call; specified further through RegistrationCheck |
| AppShell.RegistrationCheck | src/App.tsx:246-296 | the whole validation chain of a click: a ready verdict is a `registrarLote` call; RegistrationCheckOrder and RegistrationCheckCall state its order and the call |
| AppShell.RegistrationCheckOrder | src/App.tsx:246-286 | a rejection names a local check that fails while every earlier check passes; the call is ready iff all six checks pass |
| AppShell.RegistrationCheckCall | src/App.tsx:259-296 | the call carries the form's name, ingredient and series code, the dates in floored seconds, the trimmed responsible party with name and id present, and a positive quantity equal to BigInt of the quantity text |
| AppShell.QuantityScreening | src/App.tsx:262-274 | "0", "-5" and "" are rejected as not positive; " abc " as not a number; "100" reaches the contract as 100 |
| AppShell.FormatAccount | src/App.tsx:320-321 | "" iff the input is ""; otherwise the first six characters, "…", then the last four, all clipped to the input's length as `slice` does |
| AppShell.FormatAccountOfAddress | src/App.tsx:320-321 | a 42-character address shows as eleven characters: "0x" and four more, "…", then the last four |
| AppShell.App.Available | src/App.tsx:210-215 | the available tabs keep the order of the full list |
| AppShell.App.constructor | src/App.tsx:47-89 | the initial state: no session, no roles, default hashes, empty forms |
| AppShell.App.BeginConnect | src/App.tsx:92-94 | a click while a connection is pending is ignored; otherwise a connection becomes pending; either way one is pending afterwards |
| AppShell.App.FinishConnect | src/App.tsx:95-111 | once the wallet answers: an address with a built contract binds both; an address whose contract could not be built sets only the account; a wallet failure keeps both; nothing is pending afterwards |
| AppShell.DoubleConnectIgnored | src/App.tsx:93 | a second connect click while the first is pending does not ask the wallet again |
| AppShell.App.OnAccountsChanged | src/App.tsx:118-125 | the account becomes the first reported account; the contract is dropped exactly when there is none |
| AppShell.App.RoleEffect | src/App.tsx:136-153 | every run cancels the previous load; without a session it resets to no roles, no error, not loading; with one it starts a current load |
| AppShell.App.ReceiveRoleHashes | src/App.tsx:155-171 | answers only a load that is running or was cancelled; a cancelled load changes nothing; a failure sets the error and stops loading; otherwise the hashes are committed and the queries follow |
| AppShell.App.ReceiveRoleStatus | src/App.tsx:173-200 | answers only a load that is running or was cancelled; a cancelled load changes nothing; a failure sets the error and keeps the old status; success commits the status; a current load stops loading |
| AppShell.App.SyncActiveTab | src/App.tsx:217-230 | the active tab becomes `FallbackTab` of the available tabs: none iff nothing is available, and otherwise an available tab |
| AppShell.App.Navigate | src/App.tsx:331 | the chosen tab becomes active |
| AppShell.App.HandleLotChange | src/App.tsx:232-234 | one field of the lot record changes |
| AppShell.App.HandleLegalChange | src/App.tsx:236-238 | one field of the responsible party changes |
| AppShell.App.RegistrarLote | src/App.tsx:246-296 | the click up to the transaction: a rejection by `RegistrationCheck` makes no call and leaves the flag as it was; otherwise exactly the checked call is sent, a registration is pending, and the click's lot, account and responsible party are captured |
| AppShell.App.FinishRegistration | src/App.tsx:298-317 | continues only the registration whose call was sent; once the transaction settles: a confirmation records the captured lot with the hash and opens the popup; a failure changes neither; nothing is pending afterwards |
| AppShell.ClickAndSettle | src/App.tsx:246-318 | a whole click: a rejection by `RegistrationCheck` makes no call; otherwise exactly the checked call is made, the outcome follows the transaction, and nothing is pending afterwards |
| AppShell.DoubleClickIgnored | src/App.tsx:248 | a second click while a registration is pending stops as already registering and sends no second call |
| AppShell.FailedSwitchKeepsRoles | src/App.tsx:118-195 | after switching accounts, a failed role load shows the error but leaves the previous account's role status and tabs in force |
| RoleManagement.ResolveRoleHash | src/components/RoleManagement.tsx:39-40 | the given hash for the role, or `id` of the role's name when none was given |
| RoleManagement.ResolveFromTable | src/components/RoleManagement.tsx:39-40 | with the shell's complete table, the resolved hash is the table's hash |
| RoleManagement.ResolveWithoutHashes | src/components/RoleManagement.tsx:39-40 | with no hashes given, the fallback equals the shell's initial hash |
| RoleManagement.ErrorMessage | src/components/RoleManagement.tsx:83-86 | an `Error`'s own message, or the generic failure text |
| RoleManagement.ValidateRoleAction | src/components/RoleManagement.tsx:46-61 | valid iff there is a contract, a non-blank address and `isAddress` accepts its trim; each failure gives its own message, in order; a valid address is the non-empty trim |
| RoleManagement.ValidAddressIsTrimmed | src/components/RoleManagement.tsx:51-69 | the address sent to the contract has no whitespace at either end |
| RoleManagement.SuccessText | src/components/RoleManagement.tsx:76-78 | the success banner's text is never the failure text |
| RoleManagement.ActionCall | src/components/RoleManagement.tsx:66-69 | assign calls `asignarRol` and revoke calls `revocarRol`, with the resolved hash and the address |
| RoleManagement.RoleForm.constructor | src/components/RoleManagement.tsx:31-37 | the initial state: the manufacturer role, an empty address, no banner or error |
| RoleManagement.RoleForm.SelectRole | src/components/RoleManagement.tsx:31-33 | the chosen role becomes selected |
| RoleManagement.RoleForm.ChangeAddress | src/components/RoleManagement.tsx:34 | the typed text becomes the address |
| RoleManagement.RoleForm.HandleRoleAction | src/components/RoleManagement.tsx:42-91 | an invalid input sets its error and makes no call; a valid one makes exactly one call; success shows the banner and clears the address; failure shows the error and keeps the address; nothing is submitting afterwards |
| TransferSummary.OrDefault | src/components/TransferSummaryModal.tsx:37-40 | `value \|\| fallback`: the value when non-empty, else the fallback |
| TransferSummary.FormattedDate | src/components/TransferSummaryModal.tsx:24-26 | the formatted date, or "No registrada" for an empty date |
| TransferSummary.SummaryItems | src/components/TransferSummaryModal.tsx:28-41 | eight slots: the lot-number slot is filled iff the lot number is truthy, the medicine slot iff the medicine name is, and the other six always |
| TransferSummary.SummaryRows | src/components/TransferSummaryModal.tsx:59 | the listed rows, at most eight; SummaryLayout gives them exactly |
| TransferSummary.Present | src/components/TransferSummaryModal.tsx:59 | the filter never yields more rows than slots |
| TransferSummary.PresentAppend | src/components/TransferSummaryModal.tsx:59 | filtering a concatenation filters each part |
| TransferSummary.PresentMembers | src/components/TransferSummaryModal.tsx:59 | a row survives the filter iff it was in a slot |
| TransferSummary.SummaryLayout | src/components/TransferSummaryModal.tsx:28-41 | the exact rows in order: the lot number if truthy, the lot code, the medicine if truthy, then the five mandatory rows with their defaults |
| TransferSummary.SummaryRowCount | src/components/TransferSummaryModal.tsx:28-41 | six rows plus one per truthy optional field, so six to eight |
| TransferSummary.OptionalRows | src/components/TransferSummaryModal.tsx:29-35 | the lot-number row is listed iff the lot number is truthy, and the medicine row iff the medicine name is |
| TransferSummary.ExplorerLink | src/components/TransferSummaryModal.tsx:75 | the link is the Sepolia explorer prefix followed by the hash |
| TransferSummary.ExplorerLinkInjective | src/components/TransferSummaryModal.tsx:75 | distinct hashes give distinct links |

## Left out

- Rendering: the JSX, CSS classes, animations, the popup and the modal's
  close button. The modal's `if (!data) return null` guard is also left
  out, because `data` is always a record here.
- React scheduling: batching of state updates and re-renders. Each
  synchronous step runs on the current state. In React, two clicks handled
  before a re-render both read the old flag from their closures, so both
  could pass the guard. That race is not modelled.
- Promise concurrency. The four getters and the four `hasRole` queries are
  each one answer (`Option<…>`). A partial failure is a failure, as with
  `Promise.all`.
- `alert`, `console.error` and `window.location.reload` on a chain change.
  `AlertText` gives each outcome's alert text, but no method shows it.
- `generateSeriesCode`: it uses `Math.random`. Its only effect is a
  `seriesCode` update, which `HandleLotChange` covers.
- The wallet helper (`src/utils/wallet.ts`), the contract ABI and the
  contract itself. A transaction's fate is an input. Contract-side role
  checks are not part of this model.
- `Date.parse`, `ethers.isAddress`, `ethers.id` and `toLocaleDateString` are
  parameters. Their own behaviour is not modelled.
- Strings are sequences of code points. JavaScript strings are UTF-16, so
  `slice` in `FormatAccount` counts code points here, not code units.
- Only the trim and BigInt-parsing parts of ECMAScript are modelled.
  Numeric separators are not accepted, as in ECMAScript.
- The tab list (`sidebarNavigation`) is a constructor argument. The
  navigation bar file in this repository does not declare it.
- The option list of the role select (`ROLE_OPTIONS`). Any of the four
  roles can be selected in the model.
- AppShell.App.RegistrarLote spells out the first three checks as `if`
  statements. It evaluates `PayloadCheck` for the checks inside the `try`,
  and its postcondition is stated through `RegistrationCheck`.
- RoleManagement.RoleForm.HandleRoleAction evaluates `ValidateRoleAction`
  instead of spelling out the source's chain of `if` statements. That
  function is proved to follow the order of the checks.
- RoleManagement.RoleForm.HandleRoleAction runs to its end in one step.
  The panel has no in-flight guard, since `isSubmitting` only disables the
  buttons. Its transient `true` value during the await is therefore not
  stated.
- AppShell.App.ReceiveRoleStatus: it does not fail closed. This follows the
  code, which keeps the previous role status when the queries fail.
