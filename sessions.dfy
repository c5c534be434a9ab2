/** Sessions of the mounted component: sequences of user interactions (each
    button click carrying what the ledger answered, each input edit, each
    expiry of the notification timer) and what holds along all of them. */
module Sessions {
  import opened Wrappers
  import opened Text
  import opened Tracker
  import opened Render

  /** One interaction after mount. */
  datatype Event =
    | RegisterClicked(written: Remote<()>)
    | MarkClicked(written: Remote<()>)
    | ModifyClicked(written: Remote<()>)
    | EvictClicked(written: Remote<()>)
    | CheckClicked(attended: Remote<bool>)
    | NameTyped(text: string)
    | DatePicked(ms: int)
    | AddressTyped(text: string)
    | PresentToggled(checked: bool)
    | NotificationExpired

  /** The state after one interaction; `isAddress` is the address-format test
      of the Ethereum library, left uninterpreted. */
  function Apply(s: Ui, e: Event, isAddress: string -> bool): Ui {
    match e
    case RegisterClicked(o) => CreateProfileStep(s, o).next
    case MarkClicked(o) => MarkStep(s, o).next
    case ModifyClicked(o) => ModifyStep(s, isAddress, o).next
    case EvictClicked(o) => EvictStep(s, isAddress, o).next
    case CheckClicked(o) => CheckStep(s, o).next
    case NameTyped(text) => s.(nameInput := text)
    case DatePicked(ms) => s.(selectedDate := ms)
    case AddressTyped(text) => s.(userToModify := text)
    case PresentToggled(checked) => s.(attendanceStatus := checked)
    case NotificationExpired => Hide(s)
  }

  function Run(s: Ui, events: seq<Event>, isAddress: string -> bool): Ui
    decreases |events|
  {
    if events == [] then s else Run(Apply(s, events[0], isAddress), events[1..], isAddress)
  }

  /** The invariant of every state reachable after mount: a name is only held
      for a registered user, and an account, a role or a registration is only
      held once the contract is connected. */
  predicate Consistent(s: Ui) {
    (!s.isRegistered ==> s.userName == "")
    && (s.account != "" || s.isAdmin || s.isRegistered ==> s.connected)
  }

  /** Mounting always yields a consistent state. */
  lemma MountedConsistent(now: int, w: Wallet)
    ensures Consistent(Mounted(now, w))
  {
  }

  /** What every interaction keeps, from the state before to the state after. */
  predicate Keeps(s: Ui, t: Ui) {
    t.account == s.account && t.isAdmin == s.isAdmin && t.connected == s.connected
    && t.error == s.error
    && (s.isRegistered ==> t.isRegistered)
    && (!s.loading ==> !t.loading)
    && (Consistent(s) ==> Consistent(t))
  }

  /** One interaction keeps identity, connection and error, never drops a
      registration, never leaves loading on
      when it was off, and keeps the state consistent. */
  lemma ApplyKeeps(s: Ui, e: Event, isAddress: string -> bool)
    ensures Keeps(s, Apply(s, e, isAddress))
  {
    match e
    case RegisterClicked(o) => CreateProfileKeeps(s, o);
    case MarkClicked(o) => MarkKeeps(s, o);
    case ModifyClicked(o) => ModifyKeeps(s, isAddress, o);
    case EvictClicked(o) => EvictKeeps(s, isAddress, o);
    case CheckClicked(o) => CheckKeeps(s, o);
    case _ =>
  }

  /** Each handler on its own keeps what every interaction keeps. */
  lemma CreateProfileKeeps(s: Ui, o: Remote<()>)
    ensures Keeps(s, CreateProfileStep(s, o).next)
  {
  }

  lemma MarkKeeps(s: Ui, o: Remote<()>)
    ensures Keeps(s, MarkStep(s, o).next)
  {
  }

  lemma ModifyKeeps(s: Ui, isAddress: string -> bool, o: Remote<()>)
    ensures Keeps(s, ModifyStep(s, isAddress, o).next)
  {
  }

  lemma EvictKeeps(s: Ui, isAddress: string -> bool, o: Remote<()>)
    ensures Keeps(s, EvictStep(s, isAddress, o).next)
  {
  }

  lemma CheckKeeps(s: Ui, o: Remote<bool>)
    ensures Keeps(s, CheckStep(s, o).next)
  {
  }

  /** No sequence of interactions changes the account, the admin flag, the
      connection or the error shown by mount: only a page reload does. */
  lemma {:induction false} RunKeepsIdentity(s: Ui, events: seq<Event>, isAddress: string -> bool)
    ensures var t := Run(s, events, isAddress);
            t.account == s.account && t.isAdmin == s.isAdmin && t.connected == s.connected
            && t.error == s.error
    decreases |events|
  {
    if events != [] {
      ApplyKeeps(s, events[0], isAddress);
      RunKeepsIdentity(Apply(s, events[0], isAddress), events[1..], isAddress);
    }
  }

  /** Once registered, always registered. */
  lemma {:induction false} RunKeepsRegistration(s: Ui, events: seq<Event>, isAddress: string -> bool)
    requires s.isRegistered
    ensures Run(s, events, isAddress).isRegistered
    decreases |events|
  {
    if events != [] {
      ApplyKeeps(s, events[0], isAddress);
      RunKeepsRegistration(Apply(s, events[0], isAddress), events[1..], isAddress);
    }
  }

  /** Every handler that sets loading clears it again. */
  lemma {:induction false} RunEndsIdle(s: Ui, events: seq<Event>, isAddress: string -> bool)
    requires !s.loading
    ensures !Run(s, events, isAddress).loading
    decreases |events|
  {
    if events != [] {
      ApplyKeeps(s, events[0], isAddress);
      RunEndsIdle(Apply(s, events[0], isAddress), events[1..], isAddress);
    }
  }

  /** The invariant holds along every session. */
  lemma {:induction false} RunKeepsConsistent(s: Ui, events: seq<Event>, isAddress: string -> bool)
    requires Consistent(s)
    ensures Consistent(Run(s, events, isAddress))
    decreases |events|
  {
    if events != [] {
      ApplyKeeps(s, events[0], isAddress);
      RunKeepsConsistent(Apply(s, events[0], isAddress), events[1..], isAddress);
    }
  }

  /** A failed mount locks the user out: after any interactions nothing is offered. */
  lemma ErrorLocksOut(s: Ui, events: seq<Event>, isAddress: string -> bool)
    requires s.error != NoFault
    ensures Offered(Run(s, events, isAddress)) == {}
  {
    RunKeepsIdentity(s, events, isAddress);
  }

  /** A non-admin never gets the admin controls, whatever they do. */
  lemma NoAdminControlsForOthers(s: Ui, events: seq<Event>, isAddress: string -> bool)
    requires !s.isAdmin
    ensures ModifyButton !in Offered(Run(s, events, isAddress))
    ensures EvictButton !in Offered(Run(s, events, isAddress))
  {
    RunKeepsIdentity(s, events, isAddress);
  }

  /** A registered user is never offered registration again. */
  lemma NoRegistrationTwice(s: Ui, events: seq<Event>, isAddress: string -> bool)
    requires s.isRegistered
    ensures RegisterButton !in Offered(Run(s, events, isAddress))
  {
    RunKeepsRegistration(s, events, isAddress);
  }

  /** A visitor who is neither admin nor registered sees only registration;
      after a confirmed registration under a non-blank name they are offered
      marking and checking (and still no admin controls), and the header shows
      their name. */
  lemma RegisterThenAttend(now: int, account: string, adminAddress: string, name: string, subscribed: Remote<()>)
    requires account != "" && !IsAdminAccount(account, adminAddress) && !IsBlank(name)
    ensures var w := Provider(Done([account]), Done(adminAddress), Done(UserRecord("", false)), Done(()));
            var s := Mounted(now, w);
            var t := Run(s, [NameTyped(name), RegisterClicked(Done(()))], _ => true);
            Offered(s) == {NameField, RegisterButton}
            && MarkButton in Offered(t) && CheckButton in Offered(t)
            && RegisterButton !in Offered(t) && ModifyButton !in Offered(t)
            && AccountHeader(t) == Some(Header("Connected: " + Abbreviate(account), false, Some(name)))
  {
    var w := Provider(Done([account]), Done(adminAddress), Done(UserRecord("", false)), Done(()));
    var s := Mounted(now, w);
    var f: string -> bool := _ => true;
    var typed := Apply(s, NameTyped(name), f);
    assert Run(s, [NameTyped(name), RegisterClicked(Done(()))], f)
        == Run(typed, [RegisterClicked(Done(()))], f);
    assert Offered(s) == {NameField, RegisterButton};
  }
}
