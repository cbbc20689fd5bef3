/** The conversation handlers of wispr_bot/routers/chats.py other than the
    turn itself: the process-local session map (`active_chats`), the
    in-flight set (`processing_users`), the chat store and each user's FSM
    context, threaded through one function per handler. */
module Sessions {
  import opened Wrappers
  import opened Text
  import opened ChatModel
  import opened ChatStore
  import opened Users
  import opened Outbox

  /** The FSM states of the chat, settings and image routers; `Idle` is no state. */
  datatype FsmState = Idle | WaitingForTitle | InChat | WaitingForApiKey | WaitingForModel | WaitingForPrompt

  /** One user's FSM context: the state and the `chat_id` entry of its data. */
  datatype Fsm = Fsm(state: FsmState, chatId: Option<int>)

  /** `state.clear()`: no state and no data. */
  const Cleared := Fsm(Idle, None)

  datatype Session = Session(
    active: map<int, int>,
    processing: set<int>,
    store: Store,
    fsm: map<int, Fsm>)

  /** The state every session starts from after a restart. */
  const Fresh := Session(map[], {}, ChatStore.Empty, map[])

  /** What one handler call leaves behind and sends. */
  datatype Step = Step(session: Session, outs: seq<Out>)

  function FsmOf(s: Session, uid: int): Fsm {
    if uid in s.fsm then s.fsm[uid] else Cleared
  }

  function ActiveOf(s: Session, uid: int): Option<int> {
    if uid in s.active then Some(s.active[uid]) else None
  }

  /** Python truthiness of an optional chat id: `None` and `0` are both absent. */
  predicate TruthyId(x: Option<int>) {
    x.Some? && x.value != 0
  }

  /** `s` with `uid` detached: `active_chats.pop(uid, None)` and `state.clear()`. */
  function Detach(s: Session, uid: int): (r: Session)
    ensures uid !in r.active && FsmOf(r, uid) == Cleared
    ensures r.store == s.store && r.processing == s.processing
    ensures forall u :: u != uid ==> ActiveOf(r, u) == ActiveOf(s, u) && FsmOf(r, u) == FsmOf(s, u)
  {
    s.(active := s.active - {uid}, fsm := s.fsm[uid := Cleared])
  }

  /** `/newchat`: wait for a title. */
  function NewChatCommand(s: Session, uid: int): (r: Step)
    ensures FsmOf(r.session, uid) == FsmOf(s, uid).(state := WaitingForTitle)
    ensures r.session.store == s.store && r.session.active == s.active
    ensures r.session.processing == s.processing && r.outs == [Say(NewChatPrompt)]
    ensures forall u :: u != uid ==> FsmOf(r.session, u) == FsmOf(s, u)
  {
    Step(s.(fsm := s.fsm[uid := FsmOf(s, uid).(state := WaitingForTitle)]), [Say(NewChatPrompt)])
  }

  /** `/cancel` while waiting for a title. */
  function CancelNewChat(s: Session, uid: int): (r: Step)
    ensures FsmOf(r.session, uid) == Cleared
    ensures r.session.store == s.store && r.session.active == s.active
  {
    Step(s.(fsm := s.fsm[uid := Cleared]), [Say(NewChatCancelled)])
  }

  /** `db.create_chat` followed by `active_chats[uid] = chat.id`: the new
      chat is the user's active one, nobody else's session moves. */
  function OpenChat(s: Session, uid: int, title: string, model: string, systemPrompt: Option<string>): (r: (Session, int))
    requires Valid(s.store)
    ensures Valid(r.0.store)
    ensures r.1 >= 1 && r.1 !in s.store.chats
    ensures r.0.store.chats == s.store.chats[r.1 := Chat(r.1, uid, title, model, [], s.store.clock, s.store.clock, systemPrompt)]
    ensures r.0.active == s.active[uid := r.1]
    ensures r.0.fsm == s.fsm && r.0.processing == s.processing
  {
    var (st, id) := Create(s.store, uid, title, model, systemPrompt);
    (s.(store := st, active := s.active[uid := id]), id)
  }

  /** The empty chat a user's title opens: owned by the user, on the user's
      preferred model or the default, without a system prompt. */
  function NewChatOf(user: User, title: string, defaultModel: string, id: int, now: int): Chat {
    Chat(id, user.telegramId, title, ModelFor(user, defaultModel), [], now, now, None)
  }

  /** `process_new_chat_title`: a chat named by the stripped text, with the
      user's preferred or the default model, becomes the active one. */
  function ProcessNewChatTitle(s: Session, user: User, text: string, defaultModel: string): (r: Step)
    requires Valid(s.store)
    ensures Valid(r.session.store)
    ensures user.telegramId in r.session.active
    ensures var id := r.session.active[user.telegramId];
      && id !in s.store.chats
      && r.session.store.chats == s.store.chats[id := NewChatOf(user, Strip(text), defaultModel, id, s.store.clock)]
      && FsmOf(r.session, user.telegramId) == Fsm(InChat, Some(id))
    ensures r.session.processing == s.processing
    ensures r.outs == [Say(ChatCreated(Strip(text), ModelFor(user, defaultModel)))]
  {
    var uid := user.telegramId;
    var title := Strip(text);
    var model := ModelFor(user, defaultModel);
    var (s1, id) := OpenChat(s, uid, title, model, None);
    Step(s1.(fsm := s1.fsm[uid := Fsm(InChat, Some(id))]), [Say(ChatCreated(title, model))])
  }

  /** Opening a chat for one user leaves every other user's session alone. */
  lemma NewChatTitleIsLocal(s: Session, user: User, text: string, defaultModel: string, u: int)
    requires Valid(s.store) && u != user.telegramId
    ensures var r := ProcessNewChatTitle(s, user, text, defaultModel);
      ActiveOf(r.session, u) == ActiveOf(s, u) && FsmOf(r.session, u) == FsmOf(s, u)
  {
  }

  /** How many chats a chat list shows as buttons. */
  const ListCap := 10

  /** The chats a keyboard shows: the first ten of the listing. */
  function Capped(listing: seq<Chat>): (r: seq<Chat>)
    ensures |r| == (if |listing| < ListCap then |listing| else ListCap)
    ensures r == listing[..|r|]
  {
    if |listing| <= ListCap then listing else listing[..ListCap]
  }

  datatype ChatList = NoChatList | ChatButtons(shown: seq<Chat>, more: bool, total: nat)

  /** `list_chats` over the store's listing: the first ten, and a "more"
      button exactly when there are more than ten. */
  function ListChats(listing: seq<Chat>): (r: ChatList)
    ensures |listing| == 0 <==> r.NoChatList?
    ensures r.ChatButtons? ==> r.shown == Capped(listing) && (r.more <==> |listing| > ListCap) && r.total == |listing|
  {
    if |listing| == 0 then NoChatList
    else ChatButtons(Capped(listing), |listing| > ListCap, |listing|)
  }

  /** `delete_chat_command`: nothing to offer for no chats, else a delete
      button for each of the first ten (and a cancel button). */
  function DeleteMenu(listing: seq<Chat>): (r: Option<seq<Chat>>)
    ensures |listing| == 0 <==> r.None?
    ensures r.Some? ==> r.value == Capped(listing)
  {
    if |listing| == 0 then None else Some(Capped(listing))
  }

  /** The keyboards show the user's most recently updated chats: no chat of
      the user's left off a keyboard was updated later than one on it. */
  lemma CappedMostRecent(st: Store, uid: int, listing: seq<Chat>, i: nat, id: int)
    requires IsListing(st, uid, listing)
    requires i < |Capped(listing)|
    requires id in st.chats && st.chats[id].userId == uid && st.chats[id] !in Capped(listing)
    ensures Capped(listing)[i].updatedAt >= st.chats[id].updatedAt
  {
    var shown := Capped(listing);
    var k :| 0 <= k < |listing| && listing[k] == st.chats[id];
    assert shown[i] == listing[i];
    assert forall j :: 0 <= j < |shown| ==> shown[j] == listing[j];
  }

  /** `select_chat` with the text after `chat:`. A text `int` rejects raises
      out of the handler and changes nothing. */
  function SelectChat(s: Session, uid: int, payload: string): (r: Step)
    requires Valid(s.store)
    ensures var id := ParseInt(payload);
      id.Some? && id.value in s.store.chats && s.store.chats[id.value].userId == uid ==>
        && r.session == s.(active := s.active[uid := id.value], fsm := s.fsm[uid := Fsm(InChat, Some(id.value))])
        && r.outs == [Say(SwitchedChat(s.store.chats[id.value].title, s.store.chats[id.value].model))]
    ensures var id := ParseInt(payload);
      !(id.Some? && id.value in s.store.chats && s.store.chats[id.value].userId == uid) ==> r.session == s
  {
    match ParseInt(payload)
    case None => Step(s, [])
    case Some(id) =>
      match Get(s.store, id)
      case None => Step(s, [Say(ChatNotFoundOrDenied)])
      case Some(chat) =>
        if chat.userId != uid then Step(s, [Say(ChatNotFoundOrDenied)])
        else Step(s.(active := s.active[uid := chat.id], fsm := s.fsm[uid := Fsm(InChat, Some(chat.id))]),
                  [Say(SwitchedChat(chat.title, chat.model))])
  }

  /** `delete_chat_callback` with the text after `delete_chat:`. A text
      `int` rejects raises out of the handler, which then sends nothing;
      only the deleting user's session entries can change. */
  function DeleteChatCallback(s: Session, uid: int, payload: string): (r: Step)
    requires Valid(s.store)
    ensures Valid(r.session.store)
    ensures payload == "cancel" || ParseInt(payload).None? ==> r.session == s
    ensures payload == "cancel" ==> r.outs == [Say(DeleteCancelled)]
    ensures payload != "cancel" && ParseInt(payload).None? ==> r.outs == []
    ensures forall u :: u != uid ==> ActiveOf(r.session, u) == ActiveOf(s, u) && FsmOf(r.session, u) == FsmOf(s, u)
    ensures payload != "cancel" && ParseInt(payload).Some? ==>
      var id := ParseInt(payload).value;
      && r.session.store.chats == s.store.chats - {id}
      && r.session.processing == s.processing
      && (ActiveOf(s, uid) == Some(id) ==> uid !in r.session.active)
      && (ActiveOf(s, uid) != Some(id) ==> r.session.active == s.active && r.session.fsm == s.fsm)
      && (ActiveOf(s, uid) == Some(id) && FsmOf(s, uid).chatId == Some(id) ==> FsmOf(r.session, uid) == Cleared)
      && (ActiveOf(s, uid) == Some(id) && FsmOf(s, uid).chatId != Some(id) ==> r.session.fsm == s.fsm)
      && r.outs == [Say(ChatDeleted)]
  {
    if payload == "cancel" then Step(s, [Say(DeleteCancelled)])
    else match ParseInt(payload)
      case None => Step(s, [])
      case Some(id) =>
        var (st, success) := Delete(s.store, id);
        if !success then Step(s.(store := st), [Say(DeleteFailed)])
        else
          var s1 := s.(store := st);
          if ActiveOf(s, uid) == Some(id) then
            var s2 := s1.(active := s1.active - {uid});
            if FsmOf(s, uid).chatId == Some(id) then Step(s2.(fsm := s2.fsm[uid := Cleared]), [Say(ChatDeleted)])
            else Step(s2, [Say(ChatDeleted)])
          else Step(s1, [Say(ChatDeleted)])
  }

  /** Deleting is not checked against the chat's owner: any id sent in the
      callback data is removed, even one belonging to another user. */
  lemma DeleteIgnoresOwner(s: Session, uid: int, id: int)
    requires Valid(s.store)
    requires id in s.store.chats && s.store.chats[id].userId != uid
    ensures id !in DeleteChatCallback(s, uid, IntToString(id)).session.store.chats
  {
    IntRoundTrip(id);
  }

  /** `current_chat_info`: shows the active chat, or detaches from a chat
      that no longer exists. */
  function CurrentChatInfo(s: Session, uid: int): (r: Step)
    ensures !TruthyId(ActiveOf(s, uid)) ==> r == Step(s, [Say(NoActiveChat)])
    ensures TruthyId(ActiveOf(s, uid)) && s.active[uid] !in s.store.chats ==>
      r == Step(Detach(s, uid), [Say(ActiveChatMissing)])
    ensures TruthyId(ActiveOf(s, uid)) && s.active[uid] in s.store.chats ==>
      var c := s.store.chats[s.active[uid]];
      r == Step(s, [Say(ChatInfo(c.title, c.model, |c.messages|))])
  {
    var id := ActiveOf(s, uid);
    if !TruthyId(id) then Step(s, [Say(NoActiveChat)])
    else match Get(s.store, id.value)
      case None => Step(Detach(s, uid), [Say(ActiveChatMissing)])
      case Some(c) => Step(s, [Say(ChatInfo(c.title, c.model, |c.messages|))])
  }

  /** `/exit`: always detaches, never touches the store or a turn in flight. */
  function ExitChat(s: Session, uid: int): (r: Step)
    ensures uid !in r.session.active && FsmOf(r.session, uid) == Cleared
    ensures r.session.store == s.store && r.session.processing == s.processing
  {
    Step(Detach(s, uid), [Say(ExitedChat)])
  }

  /** `clear_chat_history`: the active chat is replaced by a fresh copy with
      the same model and system prompt, titled `"<title> (очищен)"`; the old
      chat and its messages stay in the store. */
  function ClearChatHistory(s: Session, uid: int): (r: Step)
    requires Valid(s.store)
    ensures Valid(r.session.store)
    ensures !TruthyId(ActiveOf(s, uid)) ==> r == Step(s, [Say(NoActiveChatToClear)])
    ensures TruthyId(ActiveOf(s, uid)) && s.active[uid] !in s.store.chats ==>
      r == Step(Detach(s, uid), [Say(ActiveChatMissing)])
    ensures TruthyId(ActiveOf(s, uid)) && s.active[uid] in s.store.chats ==>
      var prior := s.store.chats[s.active[uid]];
      && uid in r.session.active
      && var id := r.session.active[uid];
      && id !in s.store.chats
      && r.session.store.chats == s.store.chats[id := Chat(id, uid, prior.title + " (очищен)", prior.model, [],
                                                           s.store.clock, s.store.clock, prior.systemPrompt)]
      && FsmOf(r.session, uid) == FsmOf(s, uid).(chatId := Some(id))
  {
    var cur := ActiveOf(s, uid);
    if !TruthyId(cur) then Step(s, [Say(NoActiveChatToClear)])
    else match Get(s.store, cur.value)
      case None => Step(Detach(s, uid), [Say(ActiveChatMissing)])
      case Some(c) =>
        var title := c.title + " (очищен)";
        var (st, id) := Create(s.store, uid, title, c.model, c.systemPrompt);
        Step(s.(active := s.active[uid := id], store := st, fsm := s.fsm[uid := FsmOf(s, uid).(chatId := Some(id))]),
             [Say(HistoryCleared(title, c.model))])
  }

  /** A chat id a session may hold for user `u`: one the counter has handed
      out, and, while that chat exists, one of `u`'s own. */
  ghost predicate RefOk(st: Store, u: int, id: int) {
    id < st.nextId && (id in st.chats ==> st.chats[id].userId == u)
  }

  /** The session invariant: the store is valid, and every active chat and
      every FSM `chat_id` refers to a chat of its own user or to none. */
  ghost predicate Coherent(s: Session) {
    && Valid(s.store)
    && (forall u :: u in s.active ==> RefOk(s.store, u, s.active[u]))
    && (forall u :: u in s.fsm && s.fsm[u].chatId.Some? ==> RefOk(s.store, u, s.fsm[u].chatId.value))
  }

  lemma FreshCoherent()
    ensures Coherent(Fresh)
  {
  }

  /** The chat a turn wants before looking it up: the FSM's `chat_id` when
      it is truthy, else the active chat when that is truthy. */
  function Wanted(s: Session, uid: int): (r: Option<int>)
    ensures r.Some? ==> r.value != 0
    ensures r.Some? ==> r == FsmOf(s, uid).chatId || r == ActiveOf(s, uid)
    ensures r.None? <==> !TruthyId(FsmOf(s, uid).chatId) && !TruthyId(ActiveOf(s, uid))
  {
    if TruthyId(FsmOf(s, uid).chatId) then FsmOf(s, uid).chatId
    else if TruthyId(ActiveOf(s, uid)) then ActiveOf(s, uid)
    else None
  }

  /** Where a turn's messages go, and what finding it cost. */
  datatype Resolution = Resolution(session: Session, chatId: int, outs: seq<Out>)

  /** The chat lookup at the start of `process_chat_message`: the wanted chat
      when it exists; otherwise a new chat titled `title` on the user's
      model, made active. */
  function ResolveChat(s: Session, user: User, defaultModel: string, title: string): (r: Resolution)
    requires Valid(s.store)
    ensures Valid(r.session.store)
    ensures r.chatId in r.session.store.chats
    ensures r.session.processing == s.processing
    ensures Wanted(s, user.telegramId).Some? && Wanted(s, user.telegramId).value in s.store.chats ==>
      r == Resolution(s, Wanted(s, user.telegramId).value, [])
    ensures !(Wanted(s, user.telegramId).Some? && Wanted(s, user.telegramId).value in s.store.chats) ==>
      && r.chatId !in s.store.chats
      && r.session.store.chats == s.store.chats[r.chatId := Chat(r.chatId, user.telegramId, title, ModelFor(user, defaultModel), [],
                                                                 s.store.clock, s.store.clock, None)]
      && ActiveOf(r.session, user.telegramId) == Some(r.chatId)
      && FsmOf(r.session, user.telegramId).chatId == Some(r.chatId)
      && |r.outs| == 1
  {
    var uid := user.telegramId;
    var model := ModelFor(user, defaultModel);
    var want := Wanted(s, uid);
    if want.None? then
      var (s1, id) := OpenChat(s, uid, title, model, None);
      Resolution(s1.(fsm := s1.fsm[uid := FsmOf(s, uid).(chatId := Some(id))]), id, [Say(NoActiveChatCreating)])
    else if want.value in s.store.chats then Resolution(s, want.value, [])
    else
      var (s1, id) := OpenChat(Detach(s, uid), uid, title, model, None);
      Resolution(s1.(fsm := s1.fsm[uid := Fsm(InChat, Some(id))]), id, [Say(ActiveChatMissingCreating)])
  }

  /** Resolving twice finds the chat the first resolution settled on, and
      changes nothing the second time. */
  lemma ResolveIdempotent(s: Session, user: User, defaultModel: string, title: string, title2: string)
    requires Valid(s.store)
    ensures var r := ResolveChat(s, user, defaultModel, title);
      ResolveChat(r.session, user, defaultModel, title2) == Resolution(r.session, r.chatId, [])
  {
    var r := ResolveChat(s, user, defaultModel, title);
    var uid := user.telegramId;
    if !(Wanted(s, uid).Some? && Wanted(s, uid).value in s.store.chats) {
      assert r.chatId >= 1;
      assert Wanted(r.session, uid) == Some(r.chatId);
    }
  }

  /** Under the session invariant the chat a turn resolves to is the user's
      own, and the invariant still holds afterwards. */
  lemma ResolveOwned(s: Session, user: User, defaultModel: string, title: string)
    requires Coherent(s)
    ensures var r := ResolveChat(s, user, defaultModel, title);
      r.session.store.chats[r.chatId].userId == user.telegramId && Coherent(r.session)
  {
  }

  /** Each chat handler keeps the session invariant. */
  lemma NewChatCommandKeepsCoherent(s: Session, uid: int)
    requires Coherent(s)
    ensures Coherent(NewChatCommand(s, uid).session) && Coherent(CancelNewChat(s, uid).session)
  {
  }

  /** Opening a chat and pointing the user's FSM at it, or at nothing,
      keeps the invariant: the new id is the user's own and was never used. */
  lemma OpenChatKeepsCoherent(s: Session, uid: int, title: string, model: string, systemPrompt: Option<string>, f: Fsm)
    requires Coherent(s)
    requires f.chatId.None? || f.chatId == Some(OpenChat(s, uid, title, model, systemPrompt).1)
    ensures var (s1, _) := OpenChat(s, uid, title, model, systemPrompt); Coherent(s1.(fsm := s1.fsm[uid := f]))
  {
  }

  lemma NewChatTitleKeepsCoherent(s: Session, user: User, text: string, defaultModel: string)
    requires Coherent(s)
    ensures Coherent(ProcessNewChatTitle(s, user, text, defaultModel).session)
  {
    var title := Strip(text);
    var id := OpenChat(s, user.telegramId, title, ModelFor(user, defaultModel), None).1;
    OpenChatKeepsCoherent(s, user.telegramId, title, ModelFor(user, defaultModel), None, Fsm(InChat, Some(id)));
  }

  lemma SelectChatKeepsCoherent(s: Session, uid: int, payload: string)
    requires Coherent(s)
    ensures Coherent(SelectChat(s, uid, payload).session)
  {
  }

  lemma DeleteChatKeepsCoherent(s: Session, uid: int, payload: string)
    requires Coherent(s)
    ensures Coherent(DeleteChatCallback(s, uid, payload).session)
  {
  }

  lemma DetachKeepsCoherent(s: Session, uid: int)
    requires Coherent(s)
    ensures Coherent(CurrentChatInfo(s, uid).session) && Coherent(ExitChat(s, uid).session)
  {
  }

  lemma ClearHistoryKeepsCoherent(s: Session, uid: int)
    requires Coherent(s)
    ensures Coherent(ClearChatHistory(s, uid).session)
  {
  }
}
