/** The AttendanceTracker component as an object: one field per state hook,
    and one method per transition, each changing the fields step by step as
    the source does and proved to end in the state its step function gives. */
module Component {
  import opened Wrappers
  import opened Text
  import opened Tracker

  class AttendanceTracker {
    var connected: bool
    var account: string
    var isAdmin: bool
    var isRegistered: bool
    var userName: string
    var nameInput: string
    var loading: bool
    var error: Fault
    var notification: Notification
    var selectedDate: int
    var userToModify: string
    var attendanceStatus: bool

    /** The fields as one state value. */
    function State(): Ui
      reads this
    {
      Ui(connected, account, isAdmin, isRegistered, userName, nameInput, loading, error,
         notification, selectedDate, userToModify, attendanceStatus)
    }

    /** The hooks' initial values; `now` is the current time in milliseconds. */
    constructor(now: int)
      ensures State() == Initial(now)
    {
      connected, account, isAdmin, isRegistered := false, "", false, false;
      userName, nameInput, loading, error := "", "", true, NoFault;
      notification := HIDDEN;
      selectedDate, userToModify, attendanceStatus := now, "", true;
    }

    /** The mount effect. */
    method Init(wallet: Wallet)
      modifies this`loading, this`error, this`isRegistered, this`userName, this`account, this`isAdmin, this`connected
      ensures State() == InitStep(old(State()), wallet)
    {
      loading := true;
      match wallet {
        case NoProvider =>
          error := NoWallet;
        case Provider(accounts, admin, users, subscribe) =>
          if accounts.Done? && accounts.value != [] && admin.Done? {
            ConnectAccount(accounts.value[0], admin.value, users, subscribe);
          } else {
            error := ConnectFailed;
          }
      }
      loading := false;
    }

    /** The successful branch of the mount effect. */
    method ConnectAccount(userAccount: string, adminAddress: string, users: Remote<UserRecord>, subscribe: Remote<()>)
      modifies this`error, this`isRegistered, this`userName, this`account, this`isAdmin, this`connected
      ensures State() == ConnectStep(old(State()), userAccount, adminAddress, users, subscribe)
    {
      var isAdminAccount := IsAdminAccount(userAccount, adminAddress);
      CheckRegistration(users);
      account := userAccount;
      isAdmin := isAdminAccount;
      connected := true;
      if subscribe.Failed? {
        error := ConnectFailed;
      }
    }

    /** The inner try of the mount effect: applies the `users(account)` read. */
    method CheckRegistration(users: Remote<UserRecord>)
      modifies this`isRegistered, this`userName
      ensures State() == RegistrationRead(old(State()), users)
    {
      if users.Done? {
        isRegistered := users.value.registered;
        if users.value.registered {
          userName := users.value.name;
        }
      }
    }

    /** showNotification: replaces whatever the slot held. */
    method ShowNotification(message: Message, kind: Kind)
      modifies this`notification
      ensures State() == Notify(old(State()), message, kind)
    {
      notification := Notification(true, message, kind);
    }

    /** The timer's hide step. */
    method HideNotification()
      modifies this`notification
      ensures notification == HIDDEN
      ensures State() == Hide(old(State()))
    {
      notification := HIDDEN;
    }

    method HandleCreateProfile(outcome: Remote<()>) returns (call: Option<Call>)
      modifies this`loading, this`isRegistered, this`userName, this`nameInput, this`notification
      ensures State() == CreateProfileStep(old(State()), outcome).next
      ensures call == CreateProfileStep(old(State()), outcome).call
    {
      if IsBlank(nameInput) {
        ShowNotification(EnterName, Error);
        return None;
      }
      call := SubmitProfile(outcome);
    }

    /** The try/finally of handleCreateProfile, once the name is accepted. */
    method SubmitProfile(outcome: Remote<()>) returns (call: Option<Call>)
      modifies this`loading, this`isRegistered, this`userName, this`nameInput, this`notification
      ensures State() == SubmitProfileStep(old(State()), outcome).next
      ensures call == SubmitProfileStep(old(State()), outcome).call
    {
      loading := true;
      call := if connected then Some(CreateProfileCall(nameInput)) else None;
      if call.Some? && outcome.Done? {
        isRegistered := true;
        userName := nameInput;
        ShowNotification(ProfileCreated, Success);
      } else {
        ShowNotification(ProfileFailed, Error);
      }
      loading := false;
      nameInput := "";
    }

    method HandleMarkAttendance(outcome: Remote<()>) returns (call: Option<Call>)
      modifies this`loading, this`notification
      ensures State() == MarkStep(old(State()), outcome).next
      ensures call == MarkStep(old(State()), outcome).call
    {
      loading := true;
      var timestamp := Seconds(selectedDate);
      call := if connected then Some(MarkAttendanceCall(timestamp)) else None;
      if call.Some? && outcome.Done? {
        ShowNotification(Marked, Success);
      } else {
        ShowNotification(MarkFailed, Error);
      }
      loading := false;
    }

    method HandleModifyAttendance(isAddress: string -> bool, outcome: Remote<()>) returns (call: Option<Call>)
      modifies this`loading, this`notification
      ensures State() == ModifyStep(old(State()), isAddress, outcome).next
      ensures call == ModifyStep(old(State()), isAddress, outcome).call
    {
      if !isAddress(userToModify) {
        ShowNotification(BadAddress, Error);
        return None;
      }
      loading := true;
      var timestamp := Seconds(selectedDate);
      call := if connected then Some(ModifyAttendanceCall(userToModify, timestamp, attendanceStatus)) else None;
      if call.Some? && outcome.Done? {
        ShowNotification(Modified, Success);
      } else {
        ShowNotification(ModifyFailed, Error);
      }
      loading := false;
    }

    method HandleEvictUser(isAddress: string -> bool, outcome: Remote<()>) returns (call: Option<Call>)
      modifies this`loading, this`notification
      ensures State() == EvictStep(old(State()), isAddress, outcome).next
      ensures call == EvictStep(old(State()), isAddress, outcome).call
    {
      if !isAddress(userToModify) {
        ShowNotification(BadAddress, Error);
        return None;
      }
      loading := true;
      call := if connected then Some(EvictUserCall(userToModify)) else None;
      if call.Some? && outcome.Done? {
        ShowNotification(Evicted, Success);
      } else {
        ShowNotification(EvictFailed, Error);
      }
      loading := false;
    }

    method HandleCheckAttendance(outcome: Remote<bool>) returns (call: Option<Call>)
      modifies this`loading, this`notification
      ensures State() == CheckStep(old(State()), outcome).next
      ensures call == CheckStep(old(State()), outcome).call
    {
      loading := true;
      var timestamp := Seconds(selectedDate);
      call := if connected then Some(CheckAttendanceCall(account, timestamp)) else None;
      if call.Some? && outcome.Done? {
        var attended := outcome.value;
        ShowNotification(if attended then Present else Absent, if attended then Success else Warning);
      } else {
        ShowNotification(CheckFailed, Error);
      }
      loading := false;
    }

    /** The name field's onChange. */
    method SetNameInput(text: string)
      modifies this`nameInput
      ensures State() == old(State()).(nameInput := text)
    {
      nameInput := text;
    }

    /** The date pickers' onChange; `ms` is the picked date in milliseconds. */
    method SetSelectedDate(ms: int)
      modifies this`selectedDate
      ensures State() == old(State()).(selectedDate := ms)
    {
      selectedDate := ms;
    }

    /** The admin address field's onChange. */
    method SetUserToModify(text: string)
      modifies this`userToModify
      ensures State() == old(State()).(userToModify := text)
    {
      userToModify := text;
    }

    /** The Present checkbox's onChange. */
    method SetAttendanceStatus(checked: bool)
      modifies this`attendanceStatus
      ensures State() == old(State()).(attendanceStatus := checked)
    {
      attendanceStatus := checked;
    }
  }
}
