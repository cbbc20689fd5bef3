/** The administrator commands of wispr_bot/routers/admin.py that change
    state: `/allow` and `/disallow`. Both run only for senders in the
    configured administrator set. */
module Admin {
  import opened Wrappers
  import opened Text
  import opened Users
  import opened Outbox
  import Access

  /** The `is_admin` filter. */
  predicate IsAdmin(senderId: int, admins: set<int>) {
    senderId in admins
  }

  /** What an administrator command leaves behind. */
  datatype Outcome = Outcome(users: Directory, notice: Notice)

  /** Shared body of both commands once the id is known and may be changed. */
  function SetAllowed(users: Directory, id: int, allowed: bool): (r: Outcome)
    ensures id !in users ==> r == Outcome(users, UserNotFound(id))
    ensures id in users ==> r.users == users[id := users[id].(isAllowed := allowed)]
    ensures id in users && allowed ==> r.notice == UserAllowed(FullName(users[id]), id)
    ensures id in users && !allowed ==> r.notice == UserDisallowed(FullName(users[id]), id)
  {
    if id !in users then Outcome(users, UserNotFound(id))
    else
      var u := users[id];
      Outcome(users[id := u.(isAllowed := allowed)], if allowed then UserAllowed(FullName(u), id) else UserDisallowed(FullName(u), id))
  }

  /** `/allow <user_id>`; `args` is the text after the command, if any. */
  function Allow(users: Directory, args: Option<string>): (r: Outcome)
    ensures !Truthy(args) ==> r == Outcome(users, AllowUsage)
    ensures Truthy(args) && ParseInt(args.value).None? ==> r == Outcome(users, InvalidUserId)
    ensures Truthy(args) && ParseInt(args.value).Some? ==>
      var id := ParseInt(args.value).value;
      && (id !in users ==> r == Outcome(users, UserNotFound(id)))
      && (id in users ==> r == Outcome(users[id := users[id].(isAllowed := true)], UserAllowed(FullName(users[id]), id)))
  {
    if !Truthy(args) then Outcome(users, AllowUsage)
    else match ParseInt(args.value)
      case None => Outcome(users, InvalidUserId)
      case Some(id) => SetAllowed(users, id, true)
  }

  /** `/disallow <user_id>`: like `/allow`, except that an administrator's
      id is refused before the table is consulted. */
  function Disallow(users: Directory, admins: set<int>, args: Option<string>): (r: Outcome)
    ensures !Truthy(args) ==> r == Outcome(users, DisallowUsage)
    ensures Truthy(args) && ParseInt(args.value).None? ==> r == Outcome(users, InvalidUserId)
    ensures Truthy(args) && ParseInt(args.value).Some? ==>
      var id := ParseInt(args.value).value;
      && (id in admins ==> r == Outcome(users, AdminProtected))
      && (id !in admins && id !in users ==> r == Outcome(users, UserNotFound(id)))
      && (id !in admins && id in users ==>
            r == Outcome(users[id := users[id].(isAllowed := false)], UserDisallowed(FullName(users[id]), id)))
  {
    if !Truthy(args) then Outcome(users, DisallowUsage)
    else match ParseInt(args.value)
      case None => Outcome(users, InvalidUserId)
      case Some(id) =>
        if id in admins then Outcome(users, AdminProtected)
        else SetAllowed(users, id, false)
  }

  /** After a successful `/allow`, the next update from that user passes the
      access check. */
  lemma AllowAdmits(users: Directory, admins: set<int>, id: int, e: Access.Event)
    requires id in users && !e.OtherEvent? && e.from.id == id
    ensures Access.Admit(Allow(users, Some(IntToString(id))).users, admins, e).handled
  {
    IntRoundTrip(id);
    assert IntToString(id) != "";
  }

  /** After a successful `/disallow`, the next update from that user is
      refused. */
  lemma DisallowRefuses(users: Directory, admins: set<int>, id: int, e: Access.Event)
    requires id in users && id !in admins && !e.OtherEvent? && e.from.id == id
    ensures !Access.Admit(Disallow(users, admins, Some(IntToString(id))).users, admins, e).handled
  {
    IntRoundTrip(id);
    assert IntToString(id) != "";
  }

  /** `/disallow` never touches an administrator's record, whatever its
      argument. */
  lemma DisallowSparesAdmins(users: Directory, admins: set<int>, args: Option<string>, a: int)
    requires IsAdmin(a, admins)
    ensures a in Disallow(users, admins, args).users <==> a in users
    ensures a in users ==> Disallow(users, admins, args).users[a] == users[a]
  {
  }
}
