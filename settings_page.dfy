/** The settings page: the account card's name and email inputs and the
    three notification toggles. Saving only logs, so it is not modelled. */
module Settings {
  import Types
  import Avatar

  datatype Notifications = Notifications(email: bool, push: bool, marketing: bool)

  /** Email and push on, marketing off. */
  const InitialNotifications := Notifications(true, true, false)

  datatype Channel = EmailChannel | PushChannel | MarketingChannel

  function Enabled(n: Notifications, c: Channel): bool {
    match c
    case EmailChannel => n.email
    case PushChannel => n.push
    case MarketingChannel => n.marketing
  }

  /** A toggle button's `onClick`: `{ ...notifications, [c]: !notifications[c] }`. */
  function Toggled(n: Notifications, c: Channel): (r: Notifications)
    ensures Enabled(r, c) == !Enabled(n, c)
    ensures forall d :: d != c ==> Enabled(r, d) == Enabled(n, d)
  {
    match c
    case EmailChannel => n.(email := !n.email)
    case PushChannel => n.(push := !n.push)
    case MarketingChannel => n.(marketing := !n.marketing)
  }

  /** A record is determined by its three flags. */
  lemma NotificationsByFlags(a: Notifications, b: Notifications)
    requires forall c :: Enabled(a, c) == Enabled(b, c)
    ensures a == b
  {
    assert Enabled(a, EmailChannel) == Enabled(b, EmailChannel);
    assert Enabled(a, PushChannel) == Enabled(b, PushChannel);
    assert Enabled(a, MarketingChannel) == Enabled(b, MarketingChannel);
  }

  /** Toggling the same channel twice restores the record. */
  lemma ToggleTwice(n: Notifications, c: Channel)
    ensures Toggled(Toggled(n, c), c) == n
  {
    var r := Toggled(Toggled(n, c), c);
    forall d ensures Enabled(r, d) == Enabled(n, d) {
    }
    NotificationsByFlags(r, n);
  }

  /** Toggles of different channels commute. */
  lemma TogglesCommute(n: Notifications, c: Channel, d: Channel)
    ensures Toggled(Toggled(n, c), d) == Toggled(Toggled(n, d), c)
  {
    var a, b := Toggled(Toggled(n, c), d), Toggled(Toggled(n, d), c);
    forall e ensures Enabled(a, e) == Enabled(b, e) {
    }
    NotificationsByFlags(a, b);
  }

  /** The button text. */
  function ButtonLabel(on: bool): (s: string)
    ensures s == "Enabled" <==> on
    ensures s == "Disabled" <==> !on
  {
    if on then "Enabled" else "Disabled"
  }

  /** The button variant: filled when on. */
  function ButtonVariant(on: bool): (s: string)
    ensures s == "default" <==> on
    ensures s == "outline" <==> !on
  {
    if on then "default" else "outline"
  }

  class SettingsPage {
    var user: Types.User
    var notifications: Notifications

    constructor (mock: Types.User)
      ensures user == mock && notifications == InitialNotifications
    {
      user := mock;
      notifications := InitialNotifications;
    }

    function AvatarInitials(): string
      reads this
    {
      Avatar.Initials(user.name)
    }

    method Toggle(c: Channel)
      modifies this`notifications
      ensures notifications == Toggled(old(notifications), c)
    {
      notifications := Toggled(notifications, c);
    }

    /** The full-name input's `onChange`. */
    method EditName(v: string)
      modifies this`user
      ensures user == old(user).(name := v)
    {
      user := user.(name := v);
    }

    /** The email input's `onChange`. */
    method EditEmail(v: string)
      modifies this`user
      ensures user == old(user).(email := v)
    {
      user := user.(email := v);
    }
  }
}
