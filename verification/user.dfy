/** The stored Telegram user record (wispr_bot/models/user.py). Timestamps
    (`created_at`, `last_active`) carry no behaviour and are not modelled. */
module Users {
  import opened Wrappers
  import opened Text

  datatype User = User(
    telegramId: int,
    username: Option<string>,
    firstName: Option<string>,
    lastName: Option<string>,
    isAllowed: bool,
    openaiApiKey: Option<string>,
    preferredModel: Option<string>)

  /** The users table, keyed by Telegram id. */
  type Directory = map<int, User>

  /** `User(telegram_id=id)`: every optional field absent, not allowed. */
  function NewUser(id: int): (u: User)
    ensures u.telegramId == id && !u.isAllowed
    ensures u.username.None? && u.firstName.None? && u.lastName.None?
    ensures u.openaiApiKey.None? && u.preferredModel.None?
  {
    User(id, None, None, None, false, None, None)
  }

  /** The `full_name` property. */
  function FullName(u: User): (r: string)
    ensures |r| >= 1
  {
    if Truthy(u.firstName) && Truthy(u.lastName) then u.firstName.value + " " + u.lastName.value
    else if Truthy(u.firstName) then u.firstName.value
    else if Truthy(u.username) then u.username.value
    else IntToString(u.telegramId)
  }

  /** `full_name` is one of the name fields, the two names joined by a space,
      or the printed id, chosen in that precedence. */
  lemma FullNameCases(u: User)
    ensures Truthy(u.firstName) && Truthy(u.lastName) ==>
      FullName(u) == u.firstName.value + " " + u.lastName.value
    ensures Truthy(u.firstName) && !Truthy(u.lastName) ==> FullName(u) == u.firstName.value
    ensures !Truthy(u.firstName) && Truthy(u.username) ==> FullName(u) == u.username.value
    ensures !Truthy(u.firstName) && !Truthy(u.username) ==>
      ParseInt(FullName(u)) == Some(u.telegramId)
  {
    if !Truthy(u.firstName) && !Truthy(u.username) {
      IntRoundTrip(u.telegramId);
    }
  }

  /** The `has_custom_api_key` property. */
  predicate HasCustomApiKey(u: User) {
    u.openaiApiKey.Some? && |u.openaiApiKey.value| > 0
  }

  /** The key an `OpenAIService` is built with for this user: the user's own
      key when it is usable, otherwise the bot's key (`api_key or config.openai_api_key`). */
  function EffectiveApiKey(u: User, botKey: string): (k: string)
    ensures HasCustomApiKey(u) ==> k == u.openaiApiKey.value
    ensures !HasCustomApiKey(u) ==> k == botKey
  {
    if HasCustomApiKey(u) then u.openaiApiKey.value else botKey
  }

  /** `user.preferred_model or config.default_model`. */
  function ModelFor(u: User, defaultModel: string): (m: string)
    ensures Truthy(u.preferredModel) ==> m == u.preferredModel.value
    ensures !Truthy(u.preferredModel) ==> m == defaultModel
  {
    if Truthy(u.preferredModel) then u.preferredModel.value else defaultModel
  }

  /** The cases spelled out by the model tests: a complete record, first name
      only, username only, and an empty key. */
  lemma CompleteUserExample()
    ensures var u := User(123456789, Some("testuser"), Some("Test"), Some("User"), true, Some("sk-test123"), Some("gpt-4"));
      FullName(u) == "Test User" && HasCustomApiKey(u)
  {
  }

  lemma PartialUserExamples()
    ensures FullName(NewUser(123456789).(firstName := Some("Test"))) == "Test"
    ensures FullName(NewUser(123456789).(username := Some("testuser"))) == "testuser"
    ensures !HasCustomApiKey(NewUser(123456789).(openaiApiKey := Some("")))
  {
    assert Truthy(Some("Test")) && Truthy(Some("testuser"));
  }
}
