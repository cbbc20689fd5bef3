/** The access middleware (wispr_bot/middlewares/access.py), registered as
    an inner middleware: every update from a user that some registration's
    filters accept creates or refreshes that user's record, and only allowed
    users and administrators reach the handler. An update no registration
    takes never reaches the middleware. */
module Access {
  import opened Wrappers
  import opened Users
  import opened Outbox

  /** The `from_user` fields the middleware reads. */
  datatype Sender = Sender(id: int, username: Option<string>, firstName: Option<string>, lastName: Option<string>)

  datatype Event =
    | MessageEvent(from: Sender)
    | CallbackEvent(from: Sender)
    | OtherEvent

  /** What the middleware leaves behind: the users table, the record handed
      to the handler as `data["user"]`, whether the handler runs, and what
      is sent to a refused user. */
  datatype Admission = Admission(users: Directory, user: Option<User>, handled: bool, outs: seq<Out>)

  /** The record written for `from`: a fresh one, allowed exactly when the
      sender is an administrator, or the stored one with the three name
      fields taken from the event. */
  function Refreshed(users: Directory, admins: set<int>, from: Sender): (u: User)
    ensures u.telegramId == from.id || from.id in users
    ensures u.username == from.username && u.firstName == from.firstName && u.lastName == from.lastName
    ensures from.id !in users ==> u == NewUser(from.id).(username := from.username, firstName := from.firstName,
                                                         lastName := from.lastName, isAllowed := from.id in admins)
    ensures from.id in users ==>
      && u.telegramId == users[from.id].telegramId
      && u.isAllowed == users[from.id].isAllowed
      && u.openaiApiKey == users[from.id].openaiApiKey
      && u.preferredModel == users[from.id].preferredModel
  {
    if from.id in users then
      users[from.id].(username := from.username, firstName := from.firstName, lastName := from.lastName)
    else
      User(from.id, from.username, from.firstName, from.lastName, from.id in admins, None, None)
  }

  /** `AccessMiddleware.__call__`. */
  function Admit(users: Directory, admins: set<int>, e: Event): (r: Admission)
    ensures e.OtherEvent? ==> r == Admission(users, None, true, [])
    ensures !e.OtherEvent? ==>
      && r.user == Some(Refreshed(users, admins, e.from))
      && r.users == users[e.from.id := r.user.value]
      && (r.handled <==> r.user.value.isAllowed || e.from.id in admins)
      && (r.handled ==> r.outs == [])
      && (!r.handled && e.MessageEvent? ==> r.outs == [Say(AccessDenied)])
      && (!r.handled && e.CallbackEvent? ==> r.outs == [Say(AccessDeniedAlert)])
  {
    if e.OtherEvent? then Admission(users, None, true, [])
    else
      var u := Refreshed(users, admins, e.from);
      var users' := users[e.from.id := u];
      if u.isAllowed || e.from.id in admins then Admission(users', Some(u), true, [])
      else Admission(users', Some(u), false, [if e.MessageEvent? then Say(AccessDenied) else Say(AccessDeniedAlert)])
  }

  /** An administrator always reaches the handler, known to the table or not. */
  lemma AdminsAdmitted(users: Directory, admins: set<int>, e: Event)
    requires !e.OtherEvent? && e.from.id in admins
    ensures Admit(users, admins, e).handled
  {
  }

  /** A first-time sender is let through exactly when an administrator, and
      is stored allowed exactly then. */
  lemma NewcomerAdmission(users: Directory, admins: set<int>, e: Event)
    requires !e.OtherEvent? && e.from.id !in users
    ensures var r := Admit(users, admins, e);
      && (r.handled <==> e.from.id in admins)
      && (r.users[e.from.id].isAllowed <==> e.from.id in admins)
  {
  }

  /** Admission depends only on what is stored and who sends: a second event
      from the same sender right after the first writes nothing new and is
      decided the same way. */
  lemma AdmitIdempotent(users: Directory, admins: set<int>, e: Event)
    ensures var r := Admit(users, admins, e);
      var r2 := Admit(r.users, admins, e);
      r2.users == r.users && r2.handled == r.handled && r2.user == r.user
  {
  }
}
