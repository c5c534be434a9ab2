# Attendance tracker client — verified model

This project models the state machine of the `AttendanceTracker` React
component: the browser client through which course participants register a
profile on an attendance ledger contract, mark and check their attendance, and
through which the contract's admin modifies attendance records and evicts users.

The component keeps its state in hooks (account, admin flag, registration,
name, name input, loading flag, error, notification slot, selected date,
address under edit, Present checkbox). Each action handler makes at most one
local check (a blank name, a malformed address), then one awaited contract
call (followed by `tx.wait()` for a write), then updates state in
`try`/`catch`/`finally`. The mount effect awaits the account request,
`admin()` and `users()` in turn, the last inside a nested `try` of its own.
The model keeps that shape:

- `wrappers.dfy` (`Wrappers`): `Option`, and `Remote<T>`, the outcome of one
  awaited remote call (resolved with a value, or threw).
- `text.dfy` (`Text`): the JavaScript string operations the component uses —
  `trim` (the blank-name test), `toLowerCase` (the admin test) and `substring`
  (the account abbreviation).
- `tracker.dfy` (`Tracker`): the state record `Ui`, the mount effect and each
  handler as a function from the state before, and the remote outcome, to
  the state after and the contract call issued (`Step`). The properties each
  handler promises are its `ensures`.
- `render.dfy` (`Render`): what the render exposes — the header with the
  abbreviated account and badges, the notification banner, and the controls
  offered.
- `sessions.dfy` (`Sessions`): arbitrary sequences of interactions after
  mount, with the invariants that hold along all of them (proved by induction).
- `component.dfy` (`Component`): the component as a class with one field per
  hook. Its methods update the fields step by step as the handlers do, and
  each is proved to end in the state, and issue the call, that its `Tracker`
  step function gives.

The wallet, the contract and the Ethereum library are not modelled. Each
awaited call is a `Remote` parameter. `ethers.utils.isAddress` is a parameter
`isAddress: string -> bool`, applied to the address field and otherwise left
uninterpreted.

What the code does, where one might expect otherwise:
- There is no attendance-day validator. The valid weekdays are only listed on
  screen (`Render.VALID_DAY_NAMES`).
- There is no pending-operation lock. The only exclusion is that `loading`
  replaces the whole content.
- The timestamp is `floor(ms / 1000)` of the selected date. It is not
  normalised to UTC midnight. The initial date is the current instant.
- Role state is held as independent flags. An account change reloads the page;
  nothing resets role state in place.
- `checkAttendance` always queries the caller's own account.

## Model

| member | source | states |
|---|---|---|
| Text.TrimStart | src/components/AttendanceTracker.jsx:106 | the result is a suffix of the input with no leading whitespace, and all dropped characters are whitespace |
| Text.TrimEnd | src/components/AttendanceTracker.jsx:106 | the result is a prefix of the input with no trailing whitespace, and all dropped characters are whitespace |
| Text.Trim | src/components/AttendanceTracker.jsx:106 | `trim()` returns a string without whitespace at either end; it is empty exactly when the input is all whitespace |
| Text.TrimIsMiddle | src/components/AttendanceTracker.jsx:106 | the trimmed string is the slice of the input between a run of leading and a run of trailing whitespace |
| Text.IsBlank | src/components/AttendanceTracker.jsx:106 | the blank-name test holds exactly when the name is all whitespace (including the empty name) |
| Text.BlankIffTrimEmpty | src/components/AttendanceTracker.jsx:106 | that test is `!nameInput.trim()`: it holds exactly when the trimmed name is empty |
| Text.LowerChar | src/components/AttendanceTracker.jsx:65 | an upper-case letter maps to its own lower-case letter (code point + 32), every other character to itself; no upper-case letter remains |
| Text.LowerEqualCharwise | src/components/AttendanceTracker.jsx:65 | two strings lower-case to the same string iff they have equal length and agree character by character up to letter case |
| Text.ToLowerIdempotent | src/components/AttendanceTracker.jsx:65 | lower-casing twice is lower-casing once |
| Text.ToLowerIgnoresUpper | src/components/AttendanceTracker.jsx:65 | upper-casing first does not change the lower-cased form |
| Text.Clamp | src/components/AttendanceTracker.jsx:224 | a substring index is kept when inside [0, length], becomes 0 when negative and the length when past it |
| Text.Substring | src/components/AttendanceTracker.jsx:224 | `substring` never returns more than the string, and returns exactly the slice for in-range ordered indices |
| Text.SubstringSwaps | src/components/AttendanceTracker.jsx:224 | `substring(a, b)` equals `substring(b, a)`: reversed arguments are swapped |
| Text.SubstringClamps | src/components/AttendanceTracker.jsx:224 | out-of-range arguments act as the nearest end of the string; with the two rows above this fixes the result for all arguments |
| Tracker.IsAdminAccount | src/components/AttendanceTracker.jsx:64-65 | the admin flag holds iff account and admin address have equal length and agree character by character up to letter case |
| Tracker.AdminMatchSymmetric | src/components/AttendanceTracker.jsx:65 | the admin comparison is symmetric |
| Tracker.AdminMatchReflexive | src/components/AttendanceTracker.jsx:65 | an account identical to the admin address is recognised as admin |
| Tracker.AdminMatchIgnoresRecasing | src/components/AttendanceTracker.jsx:65 | re-casing either the account or the admin address to lower or upper case does not change the admin verdict |
| Tracker.Initial | src/components/AttendanceTracker.jsx:24-37 | the hooks start disconnected, with no account, role, registration or name, loading on, no error, the slot hidden, the current date and Present checked |
| Tracker.Seconds | src/components/AttendanceTracker.jsx:132 | the timestamp sent is the whole second containing the selected instant: `ts*1000 <= ms < ts*1000 + 1000` |
| Tracker.SecondsUnique | src/components/AttendanceTracker.jsx:154 | that bound determines the timestamp uniquely, as `Math.floor` does |
| Tracker.SecondsMonotone | src/components/AttendanceTracker.jsx:192 | a later selected instant never yields an earlier timestamp |
| Tracker.Notify | src/components/AttendanceTracker.jsx:208-209 | showNotification puts `{show: true, message, type}` in the slot and changes nothing else |
| Tracker.Hide | src/components/AttendanceTracker.jsx:212-214 | the hide step resets the slot to `{false, "", ""}` and changes nothing else |
| Tracker.NotifyOverwrites | src/components/AttendanceTracker.jsx:208-215 | a new notification replaces the previous one outright: one slot, no queue |
| Tracker.HideAfterNotify | src/components/AttendanceTracker.jsx:208-215 | hiding after showing leaves the state as hiding alone would |
| Tracker.RegistrationRead | src/components/AttendanceTracker.jsx:67-79 | a failed `users` read changes nothing; a successful one sets the registration flag from the record and the name only when the record says registered; no other field changes |
| Tracker.InitStep | src/components/AttendanceTracker.jsx:48-102 | no wallet sets only the install error; a failed account request or admin read, or no account, sets only the connection error; otherwise account, admin flag and contract are stored, the registration read is applied when it succeeds and ignored when it fails: the name becomes the record's name exactly when the read succeeds and reports registered; loading ends false on every path |
| Tracker.ConnectStep | src/components/AttendanceTracker.jsx:53-88 | the successful branch stores the account, its admin verdict and the contract, applies a successful registration read, reports a failed subscription as the connection error, and changes nothing else |
| Tracker.MountOutcomes | src/components/AttendanceTracker.jsx:24-98 | from the initial hook values: no wallet leaves account, admin and registration at their defaults; a failing users read leaves the user unregistered and nameless but the account set; a name is held only if the read reported registered |
| Tracker.CreateProfileStep | src/components/AttendanceTracker.jsx:105-126 | a blank name is refused before any call and changes only the notification; otherwise `createProfile(nameInput)` is issued, a confirmed write sets registered and the name and raises "Profile created successfully!" as success, a failure keeps both and raises "Failed to create profile" as an error; loading ends false and the input is cleared; identity fields never change |
| Tracker.SubmitProfileStep | src/components/AttendanceTracker.jsx:111-125 | once the name is accepted: the call is issued iff the contract is connected; the outcome decides registration, name and the exact notification; loading ends false, the input is cleared, and nothing else changes |
| Tracker.MarkStep | src/components/AttendanceTracker.jsx:129-143 | issues `markAttendance(floor(ms/1000))`; only the notification (success or the valid-day error) and loading change |
| Tracker.ModifyStep | src/components/AttendanceTracker.jsx:146-165 | a target failing `isAddress` is refused before any call, changing only the notification; otherwise `modifyAttendance(target, floor(ms/1000), Present)` is issued and only the notification and loading change |
| Tracker.EvictStep | src/components/AttendanceTracker.jsx:168-186 | same validation as modify; otherwise `evictUser(target)` is issued and only the notification and loading change |
| Tracker.CheckStep | src/components/AttendanceTracker.jsx:189-205 | issues `checkAttendance(account, floor(ms/1000))` for the caller's own account; present gives "You were present on this date!" as success, absent "You were absent on this date" as a warning, a failed read (or no contract) "Failed to check attendance" as an error; only the notification and loading change |
| Tracker.MarkThenCheckSameRecord | src/components/AttendanceTracker.jsx:132-193 | marking and then checking the same selected date address the same second and the same account |
| Render.Abbreviate | src/components/AttendanceTracker.jsx:224 | the shortened account is its first six characters, "...", and its last four, with JavaScript's clamping for short accounts |
| Render.AccountHeader | src/components/AttendanceTracker.jsx:222-228 | the account block appears iff the account is non-empty, with the admin badge iff admin and the name badge (the user name) iff registered |
| Render.NotificationBanner | src/components/AttendanceTracker.jsx:231-235 | the banner appears iff the slot says show, with the message text and class `notification <type>` |
| Render.BodyOf | src/components/AttendanceTracker.jsx:237-316 | the loading banner exactly while loading, else the error banner with the error's text exactly when mount failed, else the content, listing the valid days exactly for a registered user |
| Render.Offered | src/components/AttendanceTracker.jsx:237-316 | while loading or after an error nothing is offered; otherwise registration iff unregistered, mark and check iff registered, admin controls iff admin |
| Sessions.MountedConsistent | src/components/AttendanceTracker.jsx:48-102 | after mount a name is held only by a registered user, and account, admin flag or registration only with a connected contract |
| Sessions.ApplyKeeps | src/components/AttendanceTracker.jsx:105-215 | one interaction keeps account, admin flag, connection and error, never unregisters, never leaves loading on, and keeps that invariant |
| Sessions.RunKeepsIdentity | src/components/AttendanceTracker.jsx:105-215 | no sequence of interactions changes account, admin flag, connection or error |
| Sessions.RunKeepsRegistration | src/components/AttendanceTracker.jsx:116 | once registered, registered after any sequence of interactions |
| Sessions.RunEndsIdle | src/components/AttendanceTracker.jsx:122-203 | every handler that sets loading clears it in `finally` |
| Sessions.RunKeepsConsistent | src/components/AttendanceTracker.jsx:105-215 | the invariant of `MountedConsistent` holds along every session |
| Sessions.ErrorLocksOut | src/components/AttendanceTracker.jsx:237-240 | after a failed mount no control is ever offered again |
| Sessions.NoAdminControlsForOthers | src/components/AttendanceTracker.jsx:281-313 | a non-admin is never offered modify or evict |
| Sessions.NoRegistrationTwice | src/components/AttendanceTracker.jsx:243-255 | a registered user is never offered registration again |
| Sessions.RegisterThenAttend | src/components/AttendanceTracker.jsx:105-126 | a non-admin visitor sees only registration; after a confirmed registration they are offered mark and check, no admin controls, and the header shows their name |
| Component.AttendanceTracker.constructor | src/components/AttendanceTracker.jsx:24-37 | the hooks start at their initial values (loading true, empty strings, hidden notification, Present checked, the current date) |
| Component.AttendanceTracker.Init | src/components/AttendanceTracker.jsx:48-102 | the mount effect ends in the state `InitStep` gives |
| Component.AttendanceTracker.ConnectAccount | src/components/AttendanceTracker.jsx:53-88 | the successful branch of the mount effect ends in the state `ConnectStep` gives (registration read, then account, admin flag, contract, then the subscription) |
| Component.AttendanceTracker.CheckRegistration | src/components/AttendanceTracker.jsx:67-79 | the inner registration read ends in the state `RegistrationRead` gives |
| Component.AttendanceTracker.ShowNotification | src/components/AttendanceTracker.jsx:208-209 | only the notification field changes, to `{show: true, message, type}` |
| Component.AttendanceTracker.HideNotification | src/components/AttendanceTracker.jsx:212-214 | only the notification field changes, to the hidden slot |
| Component.AttendanceTracker.HandleCreateProfile | src/components/AttendanceTracker.jsx:105-126 | ends in the state, and issues the call, that `CreateProfileStep` gives |
| Component.AttendanceTracker.SubmitProfile | src/components/AttendanceTracker.jsx:111-125 | the `try`/`finally` of profile creation ends in the state, and issues the call, that `SubmitProfileStep` gives |
| Component.AttendanceTracker.HandleMarkAttendance | src/components/AttendanceTracker.jsx:129-143 | ends in the state, and issues the call, that `MarkStep` gives |
| Component.AttendanceTracker.HandleModifyAttendance | src/components/AttendanceTracker.jsx:146-165 | ends in the state, and issues the call, that `ModifyStep` gives |
| Component.AttendanceTracker.HandleEvictUser | src/components/AttendanceTracker.jsx:168-186 | ends in the state, and issues the call, that `EvictStep` gives |
| Component.AttendanceTracker.HandleCheckAttendance | src/components/AttendanceTracker.jsx:189-205 | ends in the state, and issues the call, that `CheckStep` gives |
| Component.AttendanceTracker.SetNameInput | src/components/AttendanceTracker.jsx:251 | the name field's edit changes only the name input |
| Component.AttendanceTracker.SetSelectedDate | src/components/AttendanceTracker.jsx:263 | a date pick changes only the selected date |
| Component.AttendanceTracker.SetUserToModify | src/components/AttendanceTracker.jsx:289 | the address field's edit changes only the target address |
| Component.AttendanceTracker.SetAttendanceStatus | src/components/AttendanceTracker.jsx:304 | the Present checkbox changes only the status |

## Left out

- src/main.jsx: root-render plumbing with no logic.
- The wallet and the contract: `eth_requestAccounts`, provider, signer and
  contract construction, the contract reads and writes, and `tx.wait()`. Each
  awaited step is a `Remote` outcome parameter. A write's submission and its
  confirmation are folded into one outcome, since either failing takes the
  same `catch` branch.
- `ethers.utils.isAddress`: a parameter; address and checksum rules are not
  modelled.
- JavaScript `Date` parsing and formatting, and the clock: `selectedDate` is an
  integer count of milliseconds, and the initial date is a constructor
  parameter.
- Tracker.Seconds: does not model an invalid date. Clearing a date field
  stores `new Date("")`, and the next render's `selectedDate.toISOString()`
  (lines 262 and 295) throws a RangeError, so the component fails to render
  before any handler could send the timestamp. `selectedDate` is always a
  valid instant in the model.
- Text.Trim: its own contract does not place the result inside the input;
  `Text.TrimIsMiddle` states that it is the slice between the leading and
  the trailing whitespace. Kept apart because, inside the function's
  contract, the existential makes every proof that uses `Trim` costly.
- Text.LowerChar: lower-cases only ASCII letters, because account and admin
  addresses are hexadecimal. JavaScript's full Unicode case mapping is not
  modelled.
- The `setTimeout` that hides a notification after 5 seconds: hiding is the
  explicit `HideNotification` transition and the `NotificationExpired` event,
  with no time attached. An earlier timer may therefore hide a later
  notification, and the model allows that order.
- The `accountsChanged` listener's page reload: outside the component's state.
  Its failure to subscribe is modelled (`Wallet.subscribe`).
- The intermediate render while a handler awaits: each handler is one atomic
  transition. The `loading = true` state it passes through is not a state of
  the model. While it lasts, `Render.Offered` offers nothing.
- `attendanceData`: declared and never used.
- `console.error` logging, JSX markup and CSS beyond the header, banner and
  offered controls.
