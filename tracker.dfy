/** The state held by the AttendanceTracker component's hooks and the effect of
    each of its transitions (the mount effect, the five action handlers, the
    notification slot and the input fields), as functions from the state before
    to the state after. Remote calls are replaced by their outcome, given as a
    parameter; each handler also reports which ledger call it issued. */
module Tracker {
  import opened Wrappers
  import opened Text

  /** The `error` hook: empty, or the reason the mount effect failed. */
  datatype Fault = NoFault | NoWallet | ConnectFailed

  function FaultText(f: Fault): string {
    match f
    case NoFault => ""
    case NoWallet => "Please install MetaMask to use this application"
    case ConnectFailed => "Failed to connect to the blockchain"
  }

  /** The notification texts the handlers raise, and the empty one of a
      hidden slot. */
  datatype Message =
    | NoMessage
    | EnterName | ProfileCreated | ProfileFailed
    | Marked | MarkFailed
    | BadAddress | Modified | ModifyFailed | Evicted | EvictFailed
    | Present | Absent | CheckFailed

  function MessageText(m: Message): string {
    match m
    case NoMessage => ""
    case EnterName => "Please enter your name"
    case ProfileCreated => "Profile created successfully!"
    case ProfileFailed => "Failed to create profile"
    case Marked => "Attendance marked successfully!"
    case MarkFailed => "Failed to mark attendance. Make sure it's a valid class day."
    case BadAddress => "Please enter a valid Ethereum address"
    case Modified => "Attendance modified successfully!"
    case ModifyFailed => "Failed to modify attendance"
    case Evicted => "User evicted successfully!"
    case EvictFailed => "Failed to evict user"
    case Present => "You were present on this date!"
    case Absent => "You were absent on this date"
    case CheckFailed => "Failed to check attendance"
  }

  /** The notification's `type`: "success", "warning", "error", or "" when hidden. */
  datatype Kind = NoKind | Success | Warning | Error

  function KindText(k: Kind): string {
    match k
    case NoKind => ""
    case Success => "success"
    case Warning => "warning"
    case Error => "error"
  }

  /** The single notification slot. */
  datatype Notification = Notification(show: bool, message: Message, kind: Kind)

  const HIDDEN := Notification(false, NoMessage, NoKind)

  /** The component's state. `connected` stands for the provider and contract
      hooks being non-null; `selectedDate` is the picked date in milliseconds. */
  datatype Ui = Ui(
    connected: bool,
    account: string,
    isAdmin: bool,
    isRegistered: bool,
    userName: string,
    nameInput: string,
    loading: bool,
    error: Fault,
    notification: Notification,
    selectedDate: int,
    userToModify: string,
    attendanceStatus: bool)

  /** The hooks' initial values; `now` is the clock reading behind `new Date()`. */
  function Initial(now: int): (s: Ui)
    ensures !s.connected && s.account == "" && !s.isAdmin && !s.isRegistered && s.userName == ""
    ensures s.loading && s.error == NoFault && s.notification == HIDDEN
    ensures s.nameInput == "" && s.selectedDate == now && s.userToModify == "" && s.attendanceStatus
  {
    Ui(false, "", false, false, "", "", true, NoFault, HIDDEN, now, "", true)
  }

  /** A call this client makes on the attendance ledger contract. */
  datatype Call =
    | CreateProfileCall(name: string)
    | MarkAttendanceCall(timestamp: int)
    | ModifyAttendanceCall(user: string, timestamp: int, status: bool)
    | EvictUserCall(user: string)
    | CheckAttendanceCall(user: string, timestamp: int)

  /** The state after a handler and the ledger call it issued, if any. */
  datatype Step = Step(next: Ui, call: Option<Call>)

  /** `users(address)` returns the stored name and the registered flag. */
  datatype UserRecord = UserRecord(name: string, registered: bool)

  /** What the browser and the ledger answered during the mount effect:
      no injected wallet, or the outcome of each step in order — the awaited
      account request (with provider and contract construction), the awaited
      `admin()` and `users(account)` reads, and the (not awaited) subscription
      call for account changes. */
  datatype Wallet =
    | NoProvider
    | Provider(accounts: Remote<seq<string>>, admin: Remote<string>,
               users: Remote<UserRecord>, subscribe: Remote<()>)

  /** The mount effect reaches the point where account and role are stored. */
  predicate Connects(w: Wallet) {
    w.Provider? && w.accounts.Done? && w.accounts.value != [] && w.admin.Done?
  }

  /** Everything equal except the notification. */
  predicate OnlyNotificationChanged(s: Ui, t: Ui) {
    t == s.(notification := t.notification)
  }

  /** Everything equal except the notification, and loading ended false. */
  predicate OnlyNotificationAndLoadingChanged(s: Ui, t: Ui) {
    t == s.(notification := t.notification, loading := false)
  }

  /** The role fields a handler could affect. */
  predicate SameRole(s: Ui, t: Ui) {
    t.account == s.account && t.isAdmin == s.isAdmin
    && t.isRegistered == s.isRegistered && t.userName == s.userName
  }

  // ---------------------------------------------------------------------------
  // Pure helpers

  /** The admin test: the active account and the contract's admin address
      are equal once both are lower-cased, that is, they have the same length
      and agree character by character up to the case of letters. */
  function IsAdminAccount(account: string, adminAddress: string): (r: bool)
    ensures r <==> |account| == |adminAddress|
                   && forall i :: 0 <= i < |account| ==> LowerChar(account[i]) == LowerChar(adminAddress[i])
  {
    LowerEqualCharwise(account, adminAddress);
    ToLower(account) == ToLower(adminAddress)
  }

  /** `Math.floor(ms / 1000)`: the whole second containing the instant ms. */
  function Seconds(ms: int): (ts: int)
    ensures ts * 1000 <= ms < ts * 1000 + 1000
  {
    ms / 1000
  }

  // ---------------------------------------------------------------------------
  // Notification slot

  /** showNotification: the one slot now holds the new message. */
  function Notify(s: Ui, message: Message, kind: Kind): (t: Ui)
    ensures t.notification == Notification(true, message, kind) && OnlyNotificationChanged(s, t)
  {
    s.(notification := Notification(true, message, kind))
  }

  /** The timer's hide step: the slot is emptied. */
  function Hide(s: Ui): (t: Ui)
    ensures t.notification == HIDDEN && OnlyNotificationChanged(s, t)
  {
    s.(notification := HIDDEN)
  }

  // ---------------------------------------------------------------------------
  // Mount effect

  /** The inner try of the mount effect: a successful `users(account)` read
      sets the registered flag, and the name only when registered; a failed
      read is caught and changes nothing. */
  function RegistrationRead(s: Ui, users: Remote<UserRecord>): (t: Ui)
    ensures users.Failed? ==> t == s
    ensures users.Done? ==> t.isRegistered == users.value.registered
    ensures t.userName == if users.Done? && users.value.registered then users.value.name else s.userName
    ensures t == s.(isRegistered := t.isRegistered, userName := t.userName)
  {
    match users
    case Done(r) => s.(isRegistered := r.registered, userName := if r.registered then r.name else s.userName)
    case Failed => s
  }

  /** The mount effect. Without a wallet only `error` is set. When the account
      request or the admin read fails (or no account is returned) only `error`
      is set. Otherwise the registration read is applied when it succeeds, and
      account, admin flag and contract are stored whatever it did. `loading`
      ends false on every path. */
  function InitStep(s: Ui, w: Wallet): (t: Ui)
    ensures !t.loading
    ensures !Connects(w) ==> t == s.(loading := false, error := if w.NoProvider? then NoWallet else ConnectFailed)
    ensures Connects(w) ==> t.connected && t.account == w.accounts.value[0]
                            && t.isAdmin == IsAdminAccount(w.accounts.value[0], w.admin.value)
    ensures Connects(w) ==> t.error == (if w.subscribe.Failed? then ConnectFailed else s.error)
    ensures Connects(w) && w.users.Failed? ==> t.isRegistered == s.isRegistered && t.userName == s.userName
    ensures Connects(w) && w.users.Done? ==> t.isRegistered == w.users.value.registered
    ensures t.userName == if Connects(w) && w.users.Done? && w.users.value.registered then w.users.value.name
                          else s.userName
    ensures t.nameInput == s.nameInput && t.notification == s.notification && t.selectedDate == s.selectedDate
    ensures t.userToModify == s.userToModify && t.attendanceStatus == s.attendanceStatus
  {
    match w
    case NoProvider => s.(loading := false, error := NoWallet)
    case Provider(accounts, admin, users, subscribe) =>
      if !Connects(w) then s.(loading := false, error := ConnectFailed)
      else ConnectStep(s.(loading := true), accounts.value[0], admin.value, users, subscribe).(loading := false)
  }

  /** The successful branch of the mount effect: the registration read, then
      the account, its admin match and the contract, then the subscription,
      whose failure is reported as a connection error. */
  function ConnectStep(s: Ui, account: string, adminAddress: string, users: Remote<UserRecord>, subscribe: Remote<()>): (t: Ui)
    ensures t.connected && t.account == account && t.isAdmin == IsAdminAccount(account, adminAddress)
    ensures t.error == if subscribe.Failed? then ConnectFailed else s.error
    ensures t.isRegistered == if users.Done? then users.value.registered else s.isRegistered
    ensures t.userName == if users.Done? && users.value.registered then users.value.name else s.userName
    ensures t == s.(connected := true, account := account, isAdmin := t.isAdmin, error := t.error,
                    isRegistered := t.isRegistered, userName := t.userName)
  {
    RegistrationRead(s, users).(account := account, isAdmin := IsAdminAccount(account, adminAddress), connected := true,
                                error := if subscribe.Failed? then ConnectFailed else s.error)
  }

  /** The state the component shows once the mount effect has settled. */
  function Mounted(now: int, w: Wallet): Ui {
    InitStep(Initial(now), w)
  }

  // ---------------------------------------------------------------------------
  // Action handlers

  /** handleCreateProfile. A blank name is refused before any remote call and
      only the notification changes. Otherwise the profile is created under the
      current name input (unless there is no contract, when the call throws
      first); a confirmed write registers that name; either way loading ends
      false and the name input is cleared. Identity, error and the other
      inputs never change. */
  function CreateProfileStep(s: Ui, outcome: Remote<()>): (r: Step)
    ensures r.call.Some? <==> !IsBlank(s.nameInput) && s.connected
    ensures r.call.Some? ==> r.call.value == CreateProfileCall(s.nameInput)
    ensures IsBlank(s.nameInput) ==>
              OnlyNotificationChanged(s, r.next)
              && r.next.notification == Notification(true, EnterName, Error)
    ensures !IsBlank(s.nameInput) ==> !r.next.loading && r.next.nameInput == ""
    ensures r.next.isRegistered == (s.isRegistered || (r.call.Some? && outcome.Done?))
    ensures r.next.userName == if r.call.Some? && outcome.Done? then s.nameInput else s.userName
    ensures !IsBlank(s.nameInput) ==>
              r.next.notification == if r.call.Some? && outcome.Done? then Notification(true, ProfileCreated, Success)
                                     else Notification(true, ProfileFailed, Error)
    ensures r.next.connected == s.connected && r.next.account == s.account && r.next.isAdmin == s.isAdmin
    ensures r.next.error == s.error && r.next.selectedDate == s.selectedDate
    ensures r.next.userToModify == s.userToModify && r.next.attendanceStatus == s.attendanceStatus
  {
    if IsBlank(s.nameInput) then Step(Notify(s, EnterName, Error), None)
    else SubmitProfileStep(s, outcome)
  }

  /** The try/finally of handleCreateProfile, once the name is accepted. */
  function SubmitProfileStep(s: Ui, outcome: Remote<()>): (r: Step)
    ensures r.call.Some? <==> s.connected
    ensures r.call.Some? ==> r.call.value == CreateProfileCall(s.nameInput)
    ensures r.next.isRegistered == (s.isRegistered || (r.call.Some? && outcome.Done?))
    ensures r.next.userName == if r.call.Some? && outcome.Done? then s.nameInput else s.userName
    ensures r.next.notification == if r.call.Some? && outcome.Done? then Notification(true, ProfileCreated, Success)
                                   else Notification(true, ProfileFailed, Error)
    ensures r.next == s.(loading := false, nameInput := "", isRegistered := r.next.isRegistered,
                         userName := r.next.userName, notification := r.next.notification)
  {
    var busy := s.(loading := true);
    var call := if s.connected then Some(CreateProfileCall(s.nameInput)) else None;
    var after := if call.Some? && outcome.Done? then
        Notify(busy.(isRegistered := true, userName := s.nameInput), ProfileCreated, Success)
      else
        Notify(busy, ProfileFailed, Error);
    Step(after.(loading := false, nameInput := ""), call)
  }

  /** handleMarkAttendance: marks the caller present for the second containing
      the selected date. Only the notification and loading change. */
  function MarkStep(s: Ui, outcome: Remote<()>): (r: Step)
    ensures OnlyNotificationAndLoadingChanged(s, r.next) && SameRole(s, r.next)
    ensures r.call.Some? <==> s.connected
    ensures r.call.Some? ==> r.call.value == MarkAttendanceCall(Seconds(s.selectedDate))
    ensures r.next.notification.show
    ensures r.next.notification == if r.call.Some? && outcome.Done? then Notification(true, Marked, Success)
                                   else Notification(true, MarkFailed, Error)
  {
    var busy := s.(loading := true);
    var timestamp := Seconds(s.selectedDate);
    var call := if s.connected then Some(MarkAttendanceCall(timestamp)) else None;
    var after := if call.Some? && outcome.Done? then Notify(busy, Marked, Success)
                 else Notify(busy, MarkFailed, Error);
    Step(after.(loading := false), call)
  }

  /** handleModifyAttendance (admin): a target that is not an address is refused
      before any remote call and only the notification changes; otherwise the
      target's record for the selected second is set to the Present checkbox.
      Only the notification and loading change. */
  function ModifyStep(s: Ui, isAddress: string -> bool, outcome: Remote<()>): (r: Step)
    ensures !isAddress(s.userToModify) ==>
              OnlyNotificationChanged(s, r.next) && r.call == None
              && r.next.notification == Notification(true, BadAddress, Error)
    ensures isAddress(s.userToModify) ==> OnlyNotificationAndLoadingChanged(s, r.next)
    ensures SameRole(s, r.next)
    ensures r.call.Some? <==> isAddress(s.userToModify) && s.connected
    ensures r.call.Some? ==> r.call.value == ModifyAttendanceCall(s.userToModify, Seconds(s.selectedDate), s.attendanceStatus)
    ensures isAddress(s.userToModify) ==>
              r.next.notification == if r.call.Some? && outcome.Done? then Notification(true, Modified, Success)
                                     else Notification(true, ModifyFailed, Error)
  {
    if !isAddress(s.userToModify) then
      Step(Notify(s, BadAddress, Error), None)
    else
      var busy := s.(loading := true);
      var timestamp := Seconds(s.selectedDate);
      var call := if s.connected then Some(ModifyAttendanceCall(s.userToModify, timestamp, s.attendanceStatus)) else None;
      var after := if call.Some? && outcome.Done? then Notify(busy, Modified, Success)
                   else Notify(busy, ModifyFailed, Error);
      Step(after.(loading := false), call)
  }

  /** handleEvictUser (admin): same validation as modify; evicts the target.
      Only the notification and loading change. */
  function EvictStep(s: Ui, isAddress: string -> bool, outcome: Remote<()>): (r: Step)
    ensures !isAddress(s.userToModify) ==>
              OnlyNotificationChanged(s, r.next) && r.call == None
              && r.next.notification == Notification(true, BadAddress, Error)
    ensures isAddress(s.userToModify) ==> OnlyNotificationAndLoadingChanged(s, r.next)
    ensures SameRole(s, r.next)
    ensures r.call.Some? <==> isAddress(s.userToModify) && s.connected
    ensures r.call.Some? ==> r.call.value == EvictUserCall(s.userToModify)
    ensures isAddress(s.userToModify) ==>
              r.next.notification == if r.call.Some? && outcome.Done? then Notification(true, Evicted, Success)
                                     else Notification(true, EvictFailed, Error)
  {
    if !isAddress(s.userToModify) then
      Step(Notify(s, BadAddress, Error), None)
    else
      var busy := s.(loading := true);
      var call := if s.connected then Some(EvictUserCall(s.userToModify)) else None;
      var after := if call.Some? && outcome.Done? then Notify(busy, Evicted, Success)
                   else Notify(busy, EvictFailed, Error);
      Step(after.(loading := false), call)
  }

  /** handleCheckAttendance: reads the caller's own record (the active account,
      never the admin's target field) for the selected second and reports
      present as success, absent as a warning and a failed read as an error.
      Only the notification and loading change. */
  function CheckStep(s: Ui, outcome: Remote<bool>): (r: Step)
    ensures OnlyNotificationAndLoadingChanged(s, r.next) && SameRole(s, r.next)
    ensures r.call.Some? <==> s.connected
    ensures r.call.Some? ==> r.call.value == CheckAttendanceCall(s.account, Seconds(s.selectedDate))
    ensures r.next.notification.show
    ensures r.next.notification.kind == Success <==> r.call.Some? && outcome == Done(true)
    ensures r.next.notification.kind == Warning <==> r.call.Some? && outcome == Done(false)
    ensures r.next.notification.kind == Error <==> r.call.None? || outcome.Failed?
    ensures r.next.notification ==
              if r.call.Some? && outcome.Done? then
                (if outcome.value then Notification(true, Present, Success) else Notification(true, Absent, Warning))
              else Notification(true, CheckFailed, Error)
  {
    var busy := s.(loading := true);
    var timestamp := Seconds(s.selectedDate);
    var call := if s.connected then Some(CheckAttendanceCall(s.account, timestamp)) else None;
    var after := match (call, outcome)
      case (Some(_), Done(attended)) =>
        Notify(busy, if attended then Present else Absent, if attended then Success else Warning)
      case _ => Notify(busy, CheckFailed, Error);
    Step(after.(loading := false), call)
  }

  // ---------------------------------------------------------------------------
  // Lemmas

  /** The admin test does not depend on the order of its arguments. */
  lemma AdminMatchSymmetric(a: string, b: string)
    ensures IsAdminAccount(a, b) == IsAdminAccount(b, a)
  {
  }

  /** An account is always recognised as an admin address equal to it. */
  lemma AdminMatchReflexive(a: string)
    ensures IsAdminAccount(a, a)
  {
  }

  /** Re-casing the account (to lower or upper case) does not change the verdict. */
  lemma AdminMatchIgnoresRecasing(a: string, b: string)
    ensures IsAdminAccount(ToLower(a), b) == IsAdminAccount(a, b)
    ensures IsAdminAccount(ToUpper(a), b) == IsAdminAccount(a, b)
    ensures IsAdminAccount(a, ToLower(b)) == IsAdminAccount(a, b)
    ensures IsAdminAccount(a, ToUpper(b)) == IsAdminAccount(a, b)
  {
    ToLowerIdempotent(a);
    ToLowerIgnoresUpper(a);
    ToLowerIdempotent(b);
    ToLowerIgnoresUpper(b);
  }

  /** The timestamp is the unique whole second containing the instant. */
  lemma SecondsUnique(ms: int, ts: int)
    requires ts * 1000 <= ms < ts * 1000 + 1000
    ensures Seconds(ms) == ts
  {
  }

  /** Later instants never map to earlier seconds. */
  lemma SecondsMonotone(a: int, b: int)
    requires a <= b
    ensures Seconds(a) <= Seconds(b)
  {
  }

  /** Marking and then checking the same selected date address the same
      ledger second, and the check asks about the account that marked. */
  lemma MarkThenCheckSameRecord(s: Ui, marked: Remote<()>, checked: Remote<bool>)
    requires s.connected
    ensures var m := MarkStep(s, marked);
            var c := CheckStep(m.next, checked);
            m.call.Some? && c.call.Some?
            && c.call.value.timestamp == m.call.value.timestamp
            && c.call.value.user == s.account
  {
  }

  /** A newer notification replaces an older one outright: single slot, no queue. */
  lemma NotifyOverwrites(s: Ui, m1: Message, k1: Kind, m2: Message, k2: Kind)
    ensures Notify(Notify(s, m1, k1), m2, k2) == Notify(s, m2, k2)
  {
  }

  /** Hiding after showing leaves the state as it was, apart from an empty slot. */
  lemma HideAfterNotify(s: Ui, m: Message, k: Kind)
    ensures Hide(Notify(s, m, k)) == Hide(s)
  {
  }

  /** The mount effect's partial failures, from the hooks' initial values. */
  lemma MountOutcomes(now: int, w: Wallet)
    ensures !Mounted(now, w).loading
    ensures w.NoProvider? ==> Mounted(now, w).error == NoWallet && Mounted(now, w).account == ""
                              && !Mounted(now, w).isAdmin && !Mounted(now, w).isRegistered
    ensures Connects(w) && w.users.Failed? ==> !Mounted(now, w).isRegistered && Mounted(now, w).userName == ""
                                               && Mounted(now, w).account == w.accounts.value[0]
    ensures Mounted(now, w).userName != "" ==> w.Provider? && w.users.Done? && w.users.value.registered
  {
  }
}
