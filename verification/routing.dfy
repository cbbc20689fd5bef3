/** How a text message finds its handler: aiogram tries the dispatcher's
    own handlers, then each included router in the order wispr_bot/bot.py
    includes them, and inside a router the handlers in the order they are
    registered; the first whose filters all pass takes the message. */
module Routing {
  import opened Wrappers
  import opened Text
  import opened Sessions

  /** The characters of `s` from `i` up to the first whitespace. */
  function WordFrom(s: string, i: nat): (w: string)
    requires i <= |s|
    ensures i + |w| <= |s| && w == s[i..i + |w|]
    ensures forall k :: 0 <= k < |w| ==> !IsSpace(w[k])
    ensures i + |w| < |s| ==> IsSpace(s[i + |w|])
    decreases |s| - i
  {
    if i < |s| && !IsSpace(s[i]) then [s[i]] + WordFrom(s, i + 1) else []
  }

  /** The part of `s` before its first `@`. */
  function BeforeAt(s: string): (r: string)
    ensures |r| <= |s| && r == s[..|r|]
    ensures forall k :: 0 <= k < |r| ==> r[k] != '@'
    ensures |r| < |s| ==> s[|r|] == '@'
  {
    if |s| == 0 || s[0] == '@' then [] else [s[0]] + BeforeAt(s[1..])
  }

  /** The command aiogram's `Command` filter reads from a text: the first
      whitespace-delimited word, when it starts with `/`, without the `/`
      and without its `@mention`. */
  function CommandOf(text: string): (c: Option<string>)
    ensures StartsWith(text, "/") ==> c.Some?
    ensures c.Some? && |text| > 0 && !IsSpace(text[0]) ==> StartsWith(text, "/")
  {
    var w := WordFrom(text, LeadEnd(text, 0));
    if |w| > 0 && w[0] == '/' then Some(BeforeAt(w[1..])) else None
  }

  /** Every message handler the bot registers, by the function it calls. */
  datatype Handler =
    | Start | Help
    | AdminPanel | Allow | Disallow | ListUsers | Stats
    | ShowSettings | SetApiKey | CancelApiKey | ApiKeyGiven | RemoveApiKey | SetModel | CancelModel | ModelGiven
    | NewChat | CancelTitle | TitleGiven | ListChats | DeleteChat | CurrentChat | ChatMessage | Exit | ClearHistory
    | Image | CancelPrompt | PromptGiven

  /** The filters of one registration: an FSM state, a command, the
      `is_admin` filter, and a filter that refuses any text carrying a
      command. */
  datatype Filter = Filter(state: Option<FsmState>, command: Option<string>, adminOnly: bool, plainOnly: bool)

  datatype Registration = On(filter: Filter, handler: Handler)

  function Cmd(name: string, h: Handler): Registration {
    On(Filter(None, Some(name), false, false), h)
  }

  function AdminCmd(name: string, h: Handler): Registration {
    On(Filter(None, Some(name), true, false), h)
  }

  function InState(st: FsmState, h: Handler): Registration {
    On(Filter(Some(st), None, false, false), h)
  }

  function CancelIn(st: FsmState, h: Handler): Registration {
    On(Filter(Some(st), Some("cancel"), false, false), h)
  }

  predicate Passes(f: Filter, st: FsmState, text: string, admin: bool) {
    && (f.state.None? || f.state.value == st)
    && (f.command.None? || CommandOf(text) == f.command)
    && (!f.adminOnly || admin)
    && (!f.plainOnly || CommandOf(text).None?)
  }

  /** The handler that takes a text sent in state `st` by a sender who is
      or is not an administrator, or `None` when no filter passes. */
  function Route(hs: seq<Registration>, st: FsmState, text: string, admin: bool): (r: Option<Handler>)
    ensures r.None? <==> forall k :: 0 <= k < |hs| ==> !Passes(hs[k].filter, st, text, admin)
    ensures r.Some? ==> exists k :: 0 <= k < |hs| && hs[k].handler == r.value && Passes(hs[k].filter, st, text, admin)
  {
    if |hs| == 0 then None
    else if Passes(hs[0].filter, st, text, admin) then Some(hs[0].handler)
    else Route(hs[1..], st, text, admin)
  }

  /** The registration at `k` takes the text when no earlier one passes. */
  lemma {:induction false} FirstPassingTakes(hs: seq<Registration>, k: nat, st: FsmState, text: string, admin: bool)
    requires k < |hs| && Passes(hs[k].filter, st, text, admin)
    requires forall j :: 0 <= j < k ==> !Passes(hs[j].filter, st, text, admin)
    ensures Route(hs, st, text, admin) == Some(hs[k].handler)
  {
    if k > 0 {
      FirstPassingTakes(hs[1..], k - 1, st, text, admin);
    }
  }

  /** Two registration lists whose filters decide a text alike route it alike. */
  lemma {:induction false} RouteAlike(hs: seq<Registration>, gs: seq<Registration>, st: FsmState, text: string, admin: bool)
    requires |hs| == |gs|
    requires forall k :: 0 <= k < |hs| ==>
      hs[k].handler == gs[k].handler && Passes(hs[k].filter, st, text, admin) == Passes(gs[k].filter, st, text, admin)
    ensures Route(hs, st, text, admin) == Route(gs, st, text, admin)
  {
    if |hs| > 0 {
      RouteAlike(hs[1..], gs[1..], st, text, admin);
    }
  }

  /** `/start` and `/help`, registered on the dispatcher itself. */
  const DispatcherOwn := [Cmd("start", Start), Cmd("help", Help)]

  const AdminRouter := [AdminCmd("admin", AdminPanel), AdminCmd("allow", Allow), AdminCmd("disallow", Disallow),
                        AdminCmd("list_users", ListUsers), AdminCmd("stats", Stats)]

  const SettingsRouter := [Cmd("settings", ShowSettings), Cmd("setapikey", SetApiKey),
                           CancelIn(WaitingForApiKey, CancelApiKey), InState(WaitingForApiKey, ApiKeyGiven),
                           Cmd("removeapikey", RemoveApiKey), Cmd("setmodel", SetModel),
                           CancelIn(WaitingForModel, CancelModel), InState(WaitingForModel, ModelGiven)]

  /** The chats router up to its catch-all, the catch-all, and after it. */
  const ChatsBefore := [Cmd("newchat", NewChat), CancelIn(WaitingForTitle, CancelTitle), InState(WaitingForTitle, TitleGiven),
                        Cmd("chats", ListChats), Cmd("deletechat", DeleteChat), Cmd("currentchat", CurrentChat)]
  const ChatsAfter := [Cmd("exit", Exit), Cmd("clear_history", ClearHistory)]

  const ImagesRouter := [Cmd("image", Image), CancelIn(WaitingForPrompt, CancelPrompt), InState(WaitingForPrompt, PromptGiven)]

  /** Everything registered ahead of the chat-message handler. */
  const Ahead := DispatcherOwn + AdminRouter + SettingsRouter + ChatsBefore

  /** The registrations as the bot makes them: the chat-message handler
      takes every message in the in-chat state. */
  const AsWritten := Ahead + [InState(InChat, ChatMessage)] + ChatsAfter + ImagesRouter

  /** The registrations with the chat-message handler refusing commands,
      as its own early return for texts starting with `/` intends. */
  const Intended := Ahead + [On(Filter(Some(InChat), None, false, true), ChatMessage)] + ChatsAfter + ImagesRouter

  /** The commands the help text offers inside a chat that no handler
      ahead of the chat-message handler takes. */
  predicate LaterCommand(c: Option<string>) {
    c == Some("exit") || c == Some("clear_history") || c == Some("image")
  }

  /** No handler ahead of the chat-message handler takes a later command
      in the in-chat state. */
  lemma AheadSkipsLater(text: string, admin: bool)
    requires LaterCommand(CommandOf(text))
    ensures forall j :: 0 <= j < |Ahead| ==> !Passes(Ahead[j].filter, InChat, text, admin)
  {
  }

  /** As registered, `/exit`, `/clear_history` and `/image` sent inside a
      chat all reach the chat-message handler, whose early return for
      texts starting with `/` drops them. */
  lemma CommandsSwallowedInChat(text: string, admin: bool)
    requires LaterCommand(CommandOf(text))
    ensures Route(AsWritten, InChat, text, admin) == Some(ChatMessage)
  {
    AheadSkipsLater(text, admin);
    FirstPassingTakes(AsWritten, |Ahead|, InChat, text, admin);
  }

  /** With the chat-message handler refusing commands, each of them reaches
      its own handler inside a chat. */
  lemma CommandsReachedInChat(text: string, admin: bool)
    requires LaterCommand(CommandOf(text))
    ensures CommandOf(text) == Some("exit") ==> Route(Intended, InChat, text, admin) == Some(Exit)
    ensures CommandOf(text) == Some("clear_history") ==> Route(Intended, InChat, text, admin) == Some(ClearHistory)
    ensures CommandOf(text) == Some("image") ==> Route(Intended, InChat, text, admin) == Some(Image)
  {
    AheadSkipsLater(text, admin);
    var n := |Ahead|;
    if CommandOf(text) == Some("exit") {
      FirstPassingTakes(Intended, n + 1, InChat, text, admin);
    } else if CommandOf(text) == Some("clear_history") {
      FirstPassingTakes(Intended, n + 2, InChat, text, admin);
    } else {
      FirstPassingTakes(Intended, n + 3, InChat, text, admin);
    }
  }

  /** The correction changes nothing for a text that carries no command,
      nor for any text outside the in-chat state. */
  lemma IntendedAgrees(st: FsmState, text: string, admin: bool)
    requires CommandOf(text).None? || st != InChat
    ensures Route(Intended, st, text, admin) == Route(AsWritten, st, text, admin)
  {
    RouteAlike(Intended, AsWritten, st, text, admin);
  }
}
