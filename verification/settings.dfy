/** The user settings of wispr_bot/routers/settings.py: the settings view,
    the two input states for an API key and a preferred model, and key
    removal. The states live in the same per-user FSM context as the chat
    states, so entering or leaving them affects a chat in progress. Writes
    go through `UPDATE … WHERE telegram_id = …`, which changes nothing for
    an id without a record. */
module Settings {
  import opened Wrappers
  import opened Text
  import opened Users
  import opened Outbox
  import opened Sessions
  import opened ChatStore

  /** `settings_command`: whether a usable key is set, and the model new
      chats will use. */
  function ShowSettings(user: User, defaultModel: string): (r: Notice)
    ensures r.SettingsShown?
    ensures r.hasKey <==> user.openaiApiKey.Some? && user.openaiApiKey.value != ""
    ensures Truthy(user.preferredModel) ==> r.model == user.preferredModel.value
    ensures !Truthy(user.preferredModel) ==> r.model == defaultModel
  {
    SettingsShown(HasCustomApiKey(user), ModelFor(user, defaultModel))
  }

  /** The page tells the truth: the model it shows is the one a new chat of
      the user gets, and the key status decides which key the user's
      requests are made with. */
  lemma SettingsPageTruthful(user: User, defaultModel: string, title: string, id: int, now: int, botKey: string)
    ensures var r := ShowSettings(user, defaultModel);
      && r.model == NewChatOf(user, title, defaultModel, id, now).model
      && (r.hasKey ==> EffectiveApiKey(user, botKey) == user.openaiApiKey.value)
      && (!r.hasKey ==> EffectiveApiKey(user, botKey) == botKey)
  {
  }

  /** Entering a waiting state: `state.set_state`, which keeps the data. */
  function Await(s: Session, uid: int, st: FsmState, prompt: Notice): (r: Step)
    ensures FsmOf(r.session, uid) == Fsm(st, FsmOf(s, uid).chatId)
    ensures r.session == s.(fsm := r.session.fsm) && r.outs == [Say(prompt)]
    ensures forall u :: u != uid ==> FsmOf(r.session, u) == FsmOf(s, u)
  {
    Step(s.(fsm := s.fsm[uid := FsmOf(s, uid).(state := st)]), [Say(prompt)])
  }

  /** `/setapikey`. */
  function SetApiKeyCommand(s: Session, uid: int): (r: Step)
    ensures FsmOf(r.session, uid).state == WaitingForApiKey
    ensures FsmOf(r.session, uid).chatId == FsmOf(s, uid).chatId
    ensures r.session.active == s.active && r.session.store == s.store
  {
    Await(s, uid, WaitingForApiKey, ApiKeyPrompt)
  }

  /** `/setmodel`. */
  function SetModelCommand(s: Session, uid: int): (r: Step)
    ensures FsmOf(r.session, uid).state == WaitingForModel
    ensures FsmOf(r.session, uid).chatId == FsmOf(s, uid).chatId
    ensures r.session.active == s.active && r.session.store == s.store
  {
    Await(s, uid, WaitingForModel, ModelPrompt)
  }

  /** `/cancel` in either waiting state: `state.clear()`, which also drops
      the chat id a chat left in the data. */
  function CancelSetting(s: Session, uid: int, waiting: FsmState): (r: Step)
    requires waiting == WaitingForApiKey || waiting == WaitingForModel
    ensures FsmOf(r.session, uid) == Cleared
    ensures r.session.active == s.active && r.session.store == s.store
    ensures r.outs == [Say(if waiting == WaitingForApiKey then ApiKeyCancelled else ModelCancelled)]
  {
    Step(s.(fsm := s.fsm[uid := Cleared]), [Say(if waiting == WaitingForApiKey then ApiKeyCancelled else ModelCancelled)])
  }

  /** What a settings input leaves behind. */
  datatype SettingsStep = SettingsStep(session: Session, users: Directory, outs: seq<Out>)

  /** `process_api_key`; `valid` is the provider's verdict on the stripped
      key. A rejected key leaves everything as it was, still waiting. */
  function ProcessApiKey(s: Session, users: Directory, uid: int, text: string, valid: bool): (r: SettingsStep)
    ensures !valid ==> r == SettingsStep(s, users, [Say(ApiKeyInvalid)])
    ensures valid ==>
      && (uid in users ==> r.users == users[uid := users[uid].(openaiApiKey := Some(Strip(text)))])
      && (uid !in users ==> r.users == users)
      && FsmOf(r.session, uid) == Cleared
      && r.session.active == s.active && r.session.store == s.store
      && r.outs == [Say(ApiKeySaved)]
  {
    if !valid then SettingsStep(s, users, [Say(ApiKeyInvalid)])
    else
      var key := Strip(text);
      var users' := if uid in users then users[uid := users[uid].(openaiApiKey := Some(key))] else users;
      SettingsStep(s.(fsm := s.fsm[uid := Cleared]), users', [Say(ApiKeySaved)])
  }

  /** An accepted key with something left after stripping becomes the key
      the user's requests are made with. */
  lemma SavedKeyUsed(s: Session, users: Directory, uid: int, text: string, botKey: string)
    requires uid in users && Strip(text) != ""
    ensures var r := ProcessApiKey(s, users, uid, text, true);
      HasCustomApiKey(r.users[uid]) && EffectiveApiKey(r.users[uid], botKey) == Strip(text)
  {
  }

  /** `process_model_selection`: the stripped name must be one of the
      configured models; anything else leaves everything as it was, still
      waiting. */
  function ProcessModel(s: Session, users: Directory, uid: int, text: string, available: seq<string>): (r: SettingsStep)
    ensures Strip(text) !in available ==> r == SettingsStep(s, users, [Say(ModelInvalid)])
    ensures Strip(text) in available ==>
      && (uid in users ==> r.users == users[uid := users[uid].(preferredModel := Some(Strip(text)))])
      && (uid !in users ==> r.users == users)
      && FsmOf(r.session, uid) == Cleared
      && r.session.active == s.active && r.session.store == s.store
      && r.outs == [Say(ModelSaved(Strip(text)))]
  {
    var model := Strip(text);
    if model !in available then SettingsStep(s, users, [Say(ModelInvalid)])
    else
      var users' := if uid in users then users[uid := users[uid].(preferredModel := Some(model))] else users;
      SettingsStep(s.(fsm := s.fsm[uid := Cleared]), users', [Say(ModelSaved(model))])
  }

  /** A saved model is the one the settings view shows and new chats get,
      unless the configured list itself holds an empty name and that was
      chosen, in which case the default still applies. */
  lemma SavedModelUsed(s: Session, users: Directory, uid: int, text: string, available: seq<string>, defaultModel: string)
    requires uid in users && Strip(text) in available
    ensures var u := ProcessModel(s, users, uid, text, available).users[uid];
      ModelFor(u, defaultModel) == if Strip(text) == "" then defaultModel else Strip(text)
  {
  }

  /** `remove_api_key`: `user` is the record the access check loaded. */
  function RemoveApiKey(users: Directory, user: User): (r: (Directory, Notice))
    ensures !HasCustomApiKey(user) ==> r == (users, NoCustomKey)
    ensures HasCustomApiKey(user) ==>
      && r.1 == ApiKeyRemoved
      && (user.telegramId in users ==> r.0 == users[user.telegramId := users[user.telegramId].(openaiApiKey := None)])
      && (user.telegramId !in users ==> r.0 == users)
  {
    if !HasCustomApiKey(user) then (users, NoCustomKey)
    else
      var id := user.telegramId;
      (if id in users then users[id := users[id].(openaiApiKey := None)] else users, ApiKeyRemoved)
  }

  /** After removal the bot's own key is used again. */
  lemma RemovedKeyFallsBack(users: Directory, user: User, botKey: string)
    requires user.telegramId in users && HasCustomApiKey(user)
    ensures EffectiveApiKey(RemoveApiKey(users, user).0[user.telegramId], botKey) == botKey
  {
  }

  /** The settings handlers keep the chat session invariant: they only ever
      keep or drop the chat id in the FSM data. */
  lemma SettingsKeepCoherent(s: Session, users: Directory, uid: int, text: string, valid: bool, available: seq<string>)
    requires Coherent(s)
    ensures Coherent(SetApiKeyCommand(s, uid).session) && Coherent(SetModelCommand(s, uid).session)
    ensures Coherent(CancelSetting(s, uid, WaitingForApiKey).session)
    ensures Coherent(CancelSetting(s, uid, WaitingForModel).session)
    ensures Coherent(ProcessApiKey(s, users, uid, text, valid).session)
    ensures Coherent(ProcessModel(s, users, uid, text, available).session)
  {
  }
}
