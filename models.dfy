/** GingerTemplate.Core.Models: the notification record, the result of a send
    and the user record. Fresh ids and clock readings are parameters. */
module Models {
  import opened Base
  import opened Text

  /** A 128-bit `Guid`; 0 is `Guid.Empty`. */
  newtype Guid = x: int | 0 <= x < 0x1_0000_0000_0000_0000_0000_0000_0000_0000
  const EmptyGuid: Guid := 0

  /** The status values the notification record uses. */
  datatype NotificationStatus = Pending | Sent | Delivered | Failed | Cancelled

  /** Declared in this order, so `Email` (0) is the default channel. */
  datatype NotificationChannel = Email | Sms | Push | InApp

  datatype NotificationPriority = Low | Normal | High | Critical

  /** `Notification`; times are clock readings. */
  datatype Notification = Notification(
    id: Guid,
    recipient: string,
    subject: string,
    message: string,
    channel: NotificationChannel,
    priority: NotificationPriority,
    status: NotificationStatus,
    createdAt: int,
    sentAt: Option<int>,
    deliveredAt: Option<int>,
    metadata: map<string, string>,
    errorMessage: Option<string>,
    retryCount: int)

  /** A notification that has not been dispatched: nothing sent, delivered,
      failed or retried yet. */
  predicate Undispatched(n: Notification) {
    && n.status == Pending
    && n.sentAt.None? && n.deliveredAt.None?
    && n.errorMessage.None? && n.retryCount == 0
  }

  /** The parameterless constructor with its field initialisers: `id` is the
      fresh `Guid`, `now` the clock reading. */
  function NewNotification(id: Guid, now: int): (n: Notification)
    ensures Undispatched(n)
    ensures n.id == id && n.createdAt == now
    ensures n.priority == Normal && n.channel == Email
    ensures n.recipient == [] && n.subject == [] && n.message == [] && n.metadata == map[]
  {
    Notification(id, "", "", "", Email, Normal, Pending, now, None, None, map[], None, 0)
  }

  /** `NotificationResult`; the timestamp is taken when it is built. */
  datatype NotificationResult = NotificationResult(
    success: bool, notificationId: Guid, errorMessage: Option<string>, timestamp: int)

  /** `SuccessResult(id)`. */
  function SuccessResult(notificationId: Guid, now: int): (r: NotificationResult)
    ensures r.success && r.notificationId == notificationId
    ensures r.errorMessage.None? && r.timestamp == now
  {
    NotificationResult(true, notificationId, None, now)
  }

  /** `FailureResult(msg)`: the id stays at its default, `Guid.Empty`. */
  function FailureResult(errorMessage: string, now: int): (r: NotificationResult)
    ensures !r.success && r.errorMessage == Some(errorMessage)
    ensures r.notificationId == EmptyGuid && r.timestamp == now
  {
    NotificationResult(false, EmptyGuid, Some(errorMessage), now)
  }

  /** `User`; `CreatedAt` is the clock reading at construction. */
  datatype User = User(
    id: int,
    email: string,
    firstName: string,
    lastName: string,
    passwordHash: string,
    isActive: bool,
    role: string,
    createdAt: int,
    updatedAt: Option<int>,
    loginAttempts: int,
    isLocked: bool)

  /** The field initialisers of `User`. */
  function NewUser(now: int): (u: User)
    ensures u.isActive && u.role == "User" && u.loginAttempts == 0 && !u.isLocked
    ensures u.firstName == [] && u.lastName == [] && u.email == [] && u.passwordHash == []
    ensures u.createdAt == now && u.updatedAt.None? && u.id == 0
  {
    User(0, "", "", "", "", true, "User", now, None, 0, false)
  }

  /** `FullName`: first and last name joined by a space, then trimmed. */
  function FullName(u: User): (name: string)
    ensures name == [] || (!IsWhiteSpace(name[0]) && !IsWhiteSpace(name[|name| - 1]))
  {
    TrimHasNoOuterWhiteSpace(u.firstName + " " + u.lastName);
    Trim(u.firstName + " " + u.lastName)
  }

  /** A name with no white space at either end. */
  predicate Trimmed(s: string) {
    s == [] || (!IsWhiteSpace(s[0]) && !IsWhiteSpace(s[|s| - 1]))
  }

  /** With both names empty the full name is empty. */
  lemma FullNameOfNoNames(u: User)
    requires u.firstName == [] && u.lastName == []
    ensures FullName(u) == []
  {
    assert u.firstName + " " + u.lastName == " ";
    assert AllWhiteSpace(" ");
  }

  /** With no last name, the full name is the first name trimmed: the
      separating space never shows. */
  lemma FullNameOfFirstOnly(u: User)
    requires u.lastName == []
    ensures FullName(u) == Trim(u.firstName)
  {
    var s := u.firstName + " " + u.lastName;
    assert s == u.firstName + " ";
    if AllWhiteSpace(u.firstName) {
      assert AllWhiteSpace(s);
      TrimEmptyIffAllWhiteSpace(s);
      TrimEmptyIffAllWhiteSpace(u.firstName);
    } else {
      TrimStartAppend(u.firstName, " ");
      TrimEndAppendWhiteSpace(TrimStart(u.firstName), " ");
    }
  }

  /** With no first name, the full name is the last name trimmed. */
  lemma FullNameOfLastOnly(u: User)
    requires u.firstName == []
    ensures FullName(u) == Trim(u.lastName)
  {
    var s := u.firstName + " " + u.lastName;
    assert s == " " + u.lastName;
    TrimStartPrependWhiteSpace(" ", u.lastName);
  }

  /** With both names set, exactly one space separates them. */
  lemma FullNameOfBoth(u: User)
    requires u.firstName != [] && Trimmed(u.firstName)
    requires u.lastName != [] && Trimmed(u.lastName)
    ensures FullName(u) == u.firstName + " " + u.lastName
  {
    var s := u.firstName + " " + u.lastName;
    assert s[0] == u.firstName[0] && s[|s| - 1] == u.lastName[|u.lastName| - 1];
    TrimOfTrimmed(s);
  }

  /** A new user's full name is empty. */
  lemma NewUserHasNoName(now: int)
    ensures FullName(NewUser(now)) == []
  {
    FullNameOfNoNames(NewUser(now));
  }
}
