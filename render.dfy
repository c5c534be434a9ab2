/** What the component's render exposes for a given state: the account header,
    the notification banner, and the body (a loading banner, an error banner,
    or the content with the controls it offers). */
module Render {
  import opened Wrappers
  import opened Text
  import opened Tracker

  /** The interactive controls the content can contain. */
  datatype Control =
    | NameField | RegisterButton
    | DatePicker | MarkButton | CheckButton
    | AddressField | PresentToggle | ModifyButton | EvictButton

  /** The header's account line and its two badges. */
  datatype Header = Header(caption: string, adminBadge: bool, nameBadge: Option<string>)

  /** The body: Loading... replaces everything, then an error replaces the
      content; otherwise the sections' controls and the valid-day list. */
  datatype Body =
    | LoadingBody
    | ErrorBody(message: string)
    | ContentBody(controls: set<Control>, validDays: seq<string>)

  /** The weekday names listed under "Valid Class Days" (keys 0, 4, 5, 6 in order).
      The list is only displayed; no handler consults it. */
  const VALID_DAY_NAMES: seq<string> := ["Sunday", "Thursday", "Friday", "Saturday"]

  const REGISTRATION_CONTROLS: set<Control> := {NameField, RegisterButton}
  const ATTENDANCE_CONTROLS: set<Control> := {DatePicker, MarkButton, CheckButton}
  const ADMIN_CONTROLS: set<Control> := {AddressField, DatePicker, PresentToggle, ModifyButton, EvictButton}

  /** The shortened account: its first six characters, "...", its last four,
      with JavaScript's clamping for accounts shorter than that. */
  function Abbreviate(account: string): (r: string)
    ensures var p, q := Min(6, |account|), Min(4, |account|);
            |r| == p + 3 + q && r[..p] == account[..p] && r[p..p + 3] == "..."
            && r[p + 3..] == account[|account| - q..]
  {
    Substring(account, 0, 6) + "..." + Substring(account, |account| - 4, |account|)
  }

  /** The header's account block: present only for a non-empty account, with
      the admin badge exactly for an admin and the name badge exactly for a
      registered user. */
  function AccountHeader(s: Ui): (h: Option<Header>)
    ensures h.Some? <==> s.account != ""
    ensures h.Some? ==> h.value.caption == "Connected: " + Abbreviate(s.account)
    ensures h.Some? ==> (h.value.adminBadge <==> s.isAdmin)
    ensures h.Some? ==> (h.value.nameBadge.Some? <==> s.isRegistered)
    ensures h.Some? && s.isRegistered ==> h.value.nameBadge == Some(s.userName)
  {
    if s.account == "" then None
    else Some(Header("Connected: " + Abbreviate(s.account), s.isAdmin,
                     if s.isRegistered then Some(s.userName) else None))
  }

  /** A drawn notification: its text and its CSS class. */
  datatype Banner = Banner(text: string, className: string)

  /** The notification banner is drawn exactly while the slot says show, with
      the message's text and the class "notification <type>". */
  function NotificationBanner(s: Ui): (b: Option<Banner>)
    ensures b.Some? <==> s.notification.show
    ensures b.Some? ==> b.value.text == MessageText(s.notification.message)
                        && b.value.className == "notification " + KindText(s.notification.kind)
  {
    if s.notification.show
    then Some(Banner(MessageText(s.notification.message), "notification " + KindText(s.notification.kind)))
    else None
  }

  /** The body: the loading banner while loading, else the error banner with
      the error's text when the mount failed, else the content, which lists
      the valid days exactly for a registered user. */
  function BodyOf(s: Ui): (b: Body)
    ensures b.LoadingBody? <==> s.loading
    ensures b.ErrorBody? <==> !s.loading && s.error != NoFault
    ensures b.ErrorBody? ==> b.message == FaultText(s.error)
    ensures b.ContentBody? ==> b.validDays == if s.isRegistered then VALID_DAY_NAMES else []
  {
    if s.loading then LoadingBody
    else if s.error != NoFault then ErrorBody(FaultText(s.error))
    else
      var own := if s.isRegistered then ATTENDANCE_CONTROLS else REGISTRATION_CONTROLS;
      ContentBody(own + (if s.isAdmin then ADMIN_CONTROLS else {}),
                  if s.isRegistered then VALID_DAY_NAMES else [])
  }

  /** The controls on screen. Nothing while loading or after an error;
      otherwise registration exactly for an unregistered user, marking and
      checking exactly for a registered one, and the admin controls exactly for
      the admin, whether registered or not. */
  function Offered(s: Ui): (cs: set<Control>)
    ensures s.loading || s.error != NoFault ==> cs == {}
    ensures !s.loading && s.error == NoFault ==>
              (NameField in cs <==> !s.isRegistered) && (RegisterButton in cs <==> !s.isRegistered)
              && (MarkButton in cs <==> s.isRegistered) && (CheckButton in cs <==> s.isRegistered)
              && (DatePicker in cs <==> s.isRegistered || s.isAdmin)
              && (AddressField in cs <==> s.isAdmin) && (PresentToggle in cs <==> s.isAdmin)
              && (ModifyButton in cs <==> s.isAdmin) && (EvictButton in cs <==> s.isAdmin)
  {
    match BodyOf(s)
    case ContentBody(controls, _) => controls
    case _ => {}
  }
}
