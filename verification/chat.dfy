/** Conversations and the prompt they produce (wispr_bot/models/chat.py). */
module ChatModel {
  import opened Wrappers
  import opened Text

  /** The marker that identifies a stored diagnostic: an assistant message
      beginning with it is an error notice, not dialogue. */
  const ErrorMarker := "⚠️ Ошибка"

  /** How many stored messages a prompt looks back over. */
  const HistoryWindow := 20

  /** The instruction sent when a chat has neither a system prompt nor usable history. */
  const DefaultSystemText := "Вы полезный ассистент, который отвечает на вопросы пользователя."

  datatype Role = SystemRole | UserRole | AssistantRole

  /** A stored message; the timestamp is the store's clock reading at append. */
  datatype ChatMessage = ChatMessage(role: Role, content: string, timestamp: int)

  datatype Chat = Chat(
    id: int,
    userId: int,
    title: string,
    model: string,
    messages: seq<ChatMessage>,
    createdAt: int,
    updatedAt: int,
    systemPrompt: Option<string>)

  /** One `{"role": …, "content": …}` entry of a prompt. */
  datatype Entry = Entry(role: Role, content: string)

  predicate IsErrorText(t: string) {
    StartsWith(t, ErrorMarker)
  }

  /** `Chat.add_message` with `now` standing for `datetime.now()`. */
  function AddMessage(c: Chat, role: Role, content: string, now: int): (r: Chat)
    ensures |r.messages| == |c.messages| + 1
    ensures r.messages[..|c.messages|] == c.messages
    ensures r.messages[|c.messages|] == ChatMessage(role, content, now)
    ensures r.updatedAt == now
    ensures now > c.updatedAt ==> r.updatedAt > c.updatedAt
    ensures r == c.(messages := r.messages, updatedAt := now)
  {
    c.(messages := c.messages + [ChatMessage(role, content, now)], updatedAt := now)
  }

  /** `messages[-20:]`: the most recent messages, oldest first. */
  function Window(ms: seq<ChatMessage>): (r: seq<ChatMessage>)
    ensures |r| == if |ms| < HistoryWindow then |ms| else HistoryWindow
    ensures ms == ms[..|ms| - |r|] + r
  {
    if |ms| <= HistoryWindow then ms else ms[|ms| - HistoryWindow..]
  }

  /** An error notice stored as an assistant answer; it is never replayed. */
  predicate IsDiagnostic(m: ChatMessage) {
    m.role == AssistantRole && IsErrorText(m.content)
  }

  function ToEntry(m: ChatMessage): Entry {
    Entry(m.role, m.content)
  }

  /** The history loop of `get_context_messages`: every message except
      diagnostics, as an entry, in order. */
  function History(ms: seq<ChatMessage>): (r: seq<Entry>)
    ensures |r| <= |ms|
  {
    if |ms| == 0 then []
    else (if IsDiagnostic(ms[0]) then [] else [ToEntry(ms[0])]) + History(ms[1..])
  }

  /** Number of diagnostics among `ms`. */
  function DiagnosticCount(ms: seq<ChatMessage>): (n: nat)
    ensures n <= |ms|
  {
    if |ms| == 0 then 0
    else (if IsDiagnostic(ms[0]) then 1 else 0) + DiagnosticCount(ms[1..])
  }

  /** Filtering distributes over concatenation, so it keeps the relative
      order of everything it keeps. */
  lemma {:induction false} HistoryAppend(a: seq<ChatMessage>, b: seq<ChatMessage>)
    ensures History(a + b) == History(a) + History(b)
  {
    if |a| > 0 {
      assert (a + b)[1..] == a[1..] + b;
      HistoryAppend(a[1..], b);
    } else {
      assert a + b == b;
    }
  }

  /** k diagnostics among n messages leave exactly n - k entries. */
  lemma {:induction false} HistoryCount(ms: seq<ChatMessage>)
    ensures |History(ms)| == |ms| - DiagnosticCount(ms)
  {
    if |ms| > 0 {
      HistoryCount(ms[1..]);
    }
  }

  /** A non-diagnostic message survives with its role and content; every
      surviving entry comes from a non-diagnostic message. */
  lemma {:induction false} HistoryMembers(ms: seq<ChatMessage>)
    ensures forall i :: 0 <= i < |ms| && !IsDiagnostic(ms[i]) ==> ToEntry(ms[i]) in History(ms)
    ensures forall e :: e in History(ms) ==>
      exists i :: 0 <= i < |ms| && !IsDiagnostic(ms[i]) && ToEntry(ms[i]) == e
  {
    if |ms| > 0 {
      HistoryMembers(ms[1..]);
      assert forall i :: 1 <= i < |ms| ==> ms[i] == ms[1..][i - 1];
      forall e | e in History(ms)
        ensures exists i :: 0 <= i < |ms| && !IsDiagnostic(ms[i]) && ToEntry(ms[i]) == e
      {
        if e !in History(ms[1..]) {
          assert !IsDiagnostic(ms[0]) && ToEntry(ms[0]) == e;
        } else {
          var j :| 0 <= j < |ms[1..]| && !IsDiagnostic(ms[1..][j]) && ToEntry(ms[1..][j]) == e;
          assert ms[j + 1] == ms[1..][j];
        }
      }
    }
  }

  /** `Chat.get_context_messages(current_user_message)`: the system prompt if
      there is one, the filtered window, a default system entry when both are
      missing, and the new text last. */
  function ContextMessages(c: Chat, current: Option<string>): (r: seq<Entry>)
    ensures |r| >= 1
    ensures Truthy(c.systemPrompt) ==> r[0] == Entry(SystemRole, c.systemPrompt.value)
    ensures !Truthy(c.systemPrompt) && |History(Window(c.messages))| == 0 ==>
      r[0] == Entry(SystemRole, DefaultSystemText)
    ensures Truthy(current) ==> r[|r| - 1] == Entry(UserRole, current.value)
    ensures var hist := History(Window(c.messages));
      |r| == (if Truthy(c.systemPrompt) || |hist| == 0 then 1 else 0) + |hist|
             + (if Truthy(current) then 1 else 0)
    ensures var hist := History(Window(c.messages));
      var start := if Truthy(c.systemPrompt) then 1 else 0;
      |hist| > 0 ==> r[start..start + |hist|] == hist
  {
    var hist := History(Window(c.messages));
    var tail := if Truthy(current) then [Entry(UserRole, current.value)] else [];
    if Truthy(c.systemPrompt) then
      var r := [Entry(SystemRole, c.systemPrompt.value)] + hist + tail;
      assert r[1..1 + |hist|] == hist;
      r
    else if |hist| == 0 then [Entry(SystemRole, DefaultSystemText)] + tail
    else
      assert (hist + tail)[..|hist|] == hist;
      hist + tail
  }

  /** Only the window is consulted: messages older than the last twenty
      never reach the prompt, however many there are. */
  lemma {:induction false} OlderMessagesIgnored(c: Chat, older: seq<ChatMessage>, current: Option<string>)
    requires |c.messages| >= HistoryWindow
    ensures ContextMessages(c.(messages := older + c.messages), current) == ContextMessages(c, current)
  {
    var ms := older + c.messages;
    assert ms[|ms| - HistoryWindow..] == c.messages[|c.messages| - HistoryWindow..];
  }

  /** The model test's chat: a system prompt, a greeting and its answer,
      then a third message added with `add_message`; the context without a
      new text is the prompt followed by all three, in order. */
  lemma ContextExample()
    ensures var c := AddMessage(Chat(1, 123456789, "Test Chat", "gpt-4",
                                     [ChatMessage(UserRole, "Hello", 0), ChatMessage(AssistantRole, "Hi there!", 1)],
                                     0, 1, Some("You are a helpful assistant.")),
                                UserRole, "How are you?", 2);
      ContextMessages(c, None) ==
        [Entry(SystemRole, "You are a helpful assistant."), Entry(UserRole, "Hello"), Entry(AssistantRole, "Hi there!"),
         Entry(UserRole, "How are you?")]
  {
    var ms := [ChatMessage(UserRole, "Hello", 0), ChatMessage(AssistantRole, "Hi there!", 1), ChatMessage(UserRole, "How are you?", 2)];
    assert Truthy(Some("You are a helpful assistant."));
    NotStartsWithAt("Hi there!", ErrorMarker, 0);
    assert History(ms[1..][1..][1..]) == [];
    assert History(ms) == [Entry(UserRole, "Hello"), Entry(AssistantRole, "Hi there!"), Entry(UserRole, "How are you?")];
  }

  /** A user message beginning with the marker is still dialogue; only the
      assistant's copy is treated as a diagnostic. */
  lemma UserMarkerKept(text: string, t: int)
    requires IsErrorText(text)
    ensures History([ChatMessage(UserRole, text, t)]) == [Entry(UserRole, text)]
    ensures History([ChatMessage(AssistantRole, text, t)]) == []
  {
  }
}
