/** One chat turn, `process_chat_message` in wispr_bot/routers/chats.py: the
    guard against overlapping turns, finding the chat, storing the user's
    message, streaming the answer into a placeholder, storing the answer
    and delivering it. The provider's behaviour and the two kinds of
    exception the handler catches are parameters. */
module Turn {
  import opened Wrappers
  import opened Text
  import opened ChatModel
  import opened ChatStore
  import opened Users
  import opened Outbox
  import opened Sessions
  import Config
  import Provider
  import Render

  const GenerationErrorPrefix := ErrorMarker + " при генерации ответа: "
  const SendErrorPrefix := ErrorMarker + " при отправке ответа: "

  /** The context entries in the shape the provider receives them. */
  function Wire(es: seq<Entry>): (ms: seq<Provider.WireMessage>)
    ensures |ms| == |es|
    ensures forall k :: 0 <= k < |es| ==> ms[k] == Provider.ToWire(es[k])
  {
    if |es| == 0 then [] else [Provider.ToWire(es[0])] + Wire(es[1..])
  }

  /** The progress texts as edits of the placeholder. */
  function AsEdits(texts: seq<string>): (outs: seq<Out>)
    ensures |outs| == |texts|
    ensures forall k :: 0 <= k < |texts| ==> outs[k] == EditPlaceholder(texts[k])
  {
    if |texts| == 0 then [] else [EditPlaceholder(texts[0])] + AsEdits(texts[1..])
  }

  /** The title of a chat the turn has to create, from the message's date. */
  function AutoTitle(stamp: string): string {
    "Чат " + stamp
  }

  /** The exceptions a turn can meet once its placeholder is up, each as
      the text of the exception: `store` is raised by the write of the
      answer, `delivery` by the first call that delivers it, `reply` by the
      reply that reports a failed delivery. The provider's own errors never
      raise: the stream turns every one of them into a text. */
  datatype Faults = Faults(store: Option<string>, delivery: Option<string>, reply: Option<string>)

  const NoFaults := Faults(None, None, None)

  /** The answer a turn stores: the generation error when writing the
      answer raised, else the result of the stream's texts with the
      empty-answer substitute. A turn's request is always accepted, so the
      texts are the body of the provider's run (`TurnStreamIsBody`). */
  function TurnAnswer(run: Provider.ProviderRun, f: Faults): (a: string)
    ensures a != ""
    ensures f.store.None? ==> a == Render.StreamResult(Provider.StreamBody(run))
    ensures f.store.Some? ==> a == GenerationErrorPrefix + f.store.value
  {
    StreamResultNonEmpty(run);
    if f.store.Some? then GenerationErrorPrefix + f.store.value
    else Render.FinalText(Render.StreamResult(Provider.StreamBody(run)))
  }

  /** The two writes of a turn: the user's message, then the answer, each
      stamped with its own clock reading. */
  function RecordTurn(st: Store, id: int, text: string, reply: string): (r: Store)
    requires Valid(st) && id in st.chats
    ensures Valid(r)
    ensures r.chats.Keys == st.chats.Keys && r.clock == st.clock + 2
    ensures r.chats[id] == st.chats[id].(messages := st.chats[id].messages
                             + [ChatMessage(UserRole, text, st.clock + 1), ChatMessage(AssistantRole, reply, st.clock + 2)],
                           updatedAt := st.clock + 2)
    ensures forall other :: other in st.chats && other != id ==> r.chats[other] == st.chats[other]
  {
    var c := st.chats[id];
    var st1 := Append(st, id, UserRole, text);
    assert st1.chats[id].messages == c.messages + [ChatMessage(UserRole, text, st.clock + 1)];
    Append(st1, id, AssistantRole, reply)
  }

  /** What a turn sends once the stream is over, with `reply` the answer
      it stores: the error edit when the answer could not be stored, the
      delivery of the answer, the send-error reply when delivery failed,
      or nothing more when that reply failed as well. */
  ghost predicate Concluded(f: Faults, reply: string, last: seq<Out>) {
    && (f.store.Some? ==> last == [EditPlaceholder(reply)])
    && (f.store.None? && f.delivery.None? ==> Render.Delivers(reply, last))
    && (f.store.None? && f.delivery.Some? && f.reply.None? ==> last == [Reply(SendErrorPrefix + f.delivery.value)])
    && (f.store.None? && f.delivery.Some? && f.reply.Some? ==> last == [])
  }

  /** What a turn sends after its placeholder: the progress edits of the
      stream, then its conclusion. */
  ghost predicate Responded(run: Provider.ProviderRun, f: Faults, reply: string, outs: seq<Out>) {
    var texts := Provider.StreamBody(run);
    var edits := AsEdits(Render.ProgressEdits(texts, Render.FirstError(texts)));
    && reply == TurnAnswer(run, f)
    && |outs| >= |edits| && outs[..|edits|] == edits
    && Concluded(f, reply, outs[|edits|..])
  }

  /** The end of the inner `try`, from the stream's result on: the answer
      stored and what is sent after the progress edits. */
  method Conclude(result: string, f: Faults) returns (reply: string, last: seq<Out>)
    ensures f.store.Some? ==> reply == GenerationErrorPrefix + f.store.value
    ensures f.store.None? ==> reply == Render.FinalText(result)
    ensures Concluded(f, reply, last)
  {
    if f.store.Some? {
      reply := GenerationErrorPrefix + f.store.value;
      last := [EditPlaceholder(reply)];
    } else {
      reply := Render.FinalText(result);
      if f.delivery.None? {
        last := Render.Deliver(reply);
      } else if f.reply.None? {
        last := [Reply(SendErrorPrefix + f.delivery.value)];
      } else {
        last := [];
      }
    }
  }

  /** The inner `try` of the turn, from the placeholder on: what is stored
      as the answer and what is sent after the placeholder. A failure of
      the send-error reply ends the turn; `RespondAsWritten` has what the
      handler does instead. */
  method Respond(c: Chat, text: string, settings: Config.Settings, run: Provider.ProviderRun, f: Faults)
    returns (reply: string, outs: seq<Out>)
    ensures Responded(run, f, reply, outs)
  {
    var call := Provider.GenerateResponseStream(Wire(ContextMessages(c, Some(text))), c.model, settings, run);
    TurnStreamIsBody(c, text, settings, run);
    var result, edits := Render.ReduceStream(call.texts);
    var progress := AsEdits(edits);
    var last;
    reply, last := Conclude(result, f);
    outs := progress + last;
    assert outs[..|progress|] == progress && outs[|progress|..] == last;
  }

  /** The assistant messages the handler as written stores: when the
      send-error reply raises, the outer `except` takes it for a generation
      error and stores its text after the answer already stored. */
  function StoredAsWritten(run: Provider.ProviderRun, f: Faults): seq<string> {
    if f.store.None? && f.delivery.Some? && f.reply.Some?
    then [TurnAnswer(run, f), GenerationErrorPrefix + f.reply.value]
    else [TurnAnswer(run, f)]
  }

  /** The inner and outer `try` as the handler has them: the answers it
      stores and what it sends after the placeholder. */
  method RespondAsWritten(c: Chat, text: string, settings: Config.Settings, run: Provider.ProviderRun, f: Faults)
    returns (stored: seq<string>, outs: seq<Out>)
    ensures stored == StoredAsWritten(run, f)
    ensures !(f.store.None? && f.delivery.Some? && f.reply.Some?) ==> Responded(run, f, stored[0], outs)
    ensures f.store.None? && f.delivery.Some? && f.reply.Some? ==>
      var texts := Provider.StreamBody(run);
      outs == AsEdits(Render.ProgressEdits(texts, Render.FirstError(texts)))
                + [EditPlaceholder(GenerationErrorPrefix + f.reply.value)]
  {
    var reply;
    reply, outs := Respond(c, text, settings, run, f);
    if f.store.None? && f.delivery.Some? && f.reply.Some? {
      stored := [reply, GenerationErrorPrefix + f.reply.value];
      outs := outs + [EditPlaceholder(GenerationErrorPrefix + f.reply.value)];
    } else {
      stored := [reply];
    }
  }

  /** As written, a turn whose delivery and send-error reply both fail
      stores two answers: the generated one, then a generation error that
      never happened, and its placeholder ends up showing that error. */
  lemma DoubleStore(run: Provider.ProviderRun, d: string, e: string)
    ensures var f := Faults(None, Some(d), Some(e));
      && StoredAsWritten(run, f) == [TurnAnswer(run, f), GenerationErrorPrefix + e]
      && TurnAnswer(run, f) == Render.StreamResult(Provider.StreamBody(run))
  {
  }

  /** What an admitted turn does, with `answer` the text it stores: the chat
      is resolved, the user's text and then exactly one answer are appended
      to it, and the placeholder follows the resolution notices, followed
      in turn by what `Responded` describes. The single answer is the
      corrected behaviour: as written, a turn whose delivery and send-error
      reply both fail stores a second one (`DoubleStore`). */
  ghost predicate TurnOutcome(s: Session, user: User, text: string, settings: Config.Settings, stamp: string,
                              run: Provider.ProviderRun, f: Faults, r: Step, answer: string)
    requires Valid(s.store)
  {
    var res := ResolveChat(s, user, settings.defaultModel, AutoTitle(stamp));
    && r.session == res.session.(store := RecordTurn(res.session.store, res.chatId, text, answer))
    && |r.outs| >= |res.outs| + 1 && r.outs[..|res.outs| + 1] == res.outs + [Say(Generating)]
    && Responded(run, f, answer, r.outs[|res.outs| + 1..])
  }

  /** The body of `process_chat_message` once the guards let the turn
      through: resolve the chat, store the user's text, produce and store
      the answer, send what the handler sends. */
  method AdmittedTurn(s: Session, user: User, text: string, settings: Config.Settings, stamp: string,
                      run: Provider.ProviderRun, f: Faults)
    returns (r: Step, answer: string)
    requires Valid(s.store)
    ensures Valid(r.session.store) && r.session.processing == s.processing
    ensures TurnOutcome(s, user, text, settings, stamp, run, f, r, answer)
  {
    var res := ResolveChat(s, user, settings.defaultModel, AutoTitle(stamp));
    var id := res.chatId;
    var c := res.session.store.chats[id];
    var tail;
    answer, tail := Respond(c, text, settings, run, f);
    var head := res.outs + [Say(Generating)];
    var outs := head + tail;
    assert outs[..|head|] == head && outs[|head|..] == tail;
    r := Step(res.session.(store := RecordTurn(res.session.store, id, text, answer)), outs);
  }

  /** `process_chat_message`. `stamp` is the message date as the title
      format renders it, `run` what the provider does and `f` the
      exceptions the turn meets. The handler adds the user to `processing`
      on admission and discards it in its `finally`; the model does not
      hold the in-flight membership between the two, so the set it returns
      is the one it was given, on every path. */
  method ProcessChatMessage(s: Session, user: User, text: string, settings: Config.Settings, stamp: string,
                            run: Provider.ProviderRun, f: Faults)
    returns (r: Step, answer: Option<string>)
    requires Valid(s.store)
    ensures Valid(r.session.store) && r.session.processing == s.processing
    ensures StartsWith(text, "/") ==> r == Step(s, []) && answer.None?
    ensures !StartsWith(text, "/") && user.telegramId in s.processing ==>
      r == Step(s, [Say(StillProcessing)]) && answer.None?
    ensures !StartsWith(text, "/") && user.telegramId !in s.processing ==>
      answer.Some? && TurnOutcome(s, user, text, settings, stamp, run, f, r, answer.value)
  {
    if StartsWith(text, "/") {
      return Step(s, []), None;
    }
    if user.telegramId in s.processing {
      return Step(s, [Say(StillProcessing)]), None;
    }
    var reply;
    r, reply := AdmittedTurn(s, user, text, settings, stamp, run, f);
    answer := Some(reply);
  }

  /** The request a turn builds is always accepted: the context is never
      empty and every entry has a role and a content, so neither the
      empty-list nor the malformed-message error can reach a turn. */
  lemma TurnRequestAccepted(c: Chat, text: string, settings: Config.Settings)
    ensures Provider.PrepareRequest(Wire(ContextMessages(c, Some(text))), c.model, settings).Success?
  {
    var ms := Wire(ContextMessages(c, Some(text)));
    assert Provider.AllWellFormed(ms) by {
      forall k | 0 <= k < |ms| ensures Provider.WellFormed(ms[k]) {
        assert ms[k] == Provider.ToWire(ContextMessages(c, Some(text))[k]);
      }
    }
  }

  /** The stream a turn consumes: the provider is called, and what the
      stream yields is exactly the body of the provider's run. */
  lemma TurnStreamIsBody(c: Chat, text: string, settings: Config.Settings, run: Provider.ProviderRun)
    ensures var call := Provider.GenerateResponseStream(Wire(ContextMessages(c, Some(text))), c.model, settings, run);
      call.request.Some? && call.texts == Provider.StreamBody(run)
  {
    TurnRequestAccepted(c, text, settings);
  }

  /** The result of a non-empty stream is one of its texts. */
  lemma StreamResultIsYield(incs: seq<string>)
    requires |incs| > 0
    ensures Render.StreamResult(incs) in incs
  {
  }

  /** The empty-answer substitute never fires: the result of a turn's
      stream is never empty. */
  lemma StreamResultNonEmpty(run: Provider.ProviderRun)
    ensures Render.StreamResult(Provider.StreamBody(run)) != ""
  {
    Provider.StreamBodyNonEmpty(run);
    StreamResultIsYield(Provider.StreamBody(run));
  }

  /** A provider failure before any content becomes the stored answer. */
  lemma FailureAnswer(f: Provider.ProviderFailure)
    ensures TurnAnswer(Provider.ProviderRun([], Some(f)), NoFaults) == Provider.FailureText(f)
  {
    var ft := Provider.FailureText(f);
    var body := Provider.StreamBody(Provider.ProviderRun([], Some(f)));
    Provider.FailureOnlyBody(f);
    assert body == [ft];
    assert Render.StreamResult(body) == ft by {
      assert Render.FirstError(body) <= 1;
    }
    assert Render.FinalText(ft) == ft;
  }

  /** Only a connection failure is stored as a diagnostic: the rate-limit
      and bad-key notices are kept in the history and sent back to the
      provider in every later context of the chat. */
  lemma FailureAnswerReplayed(f: Provider.ProviderFailure, t: int)
    ensures IsDiagnostic(ChatMessage(AssistantRole, TurnAnswer(Provider.ProviderRun([], Some(f)), NoFaults), t))
      <==> f.OtherFailure?
  {
    FailureAnswer(f);
    Provider.FailureMarker(f);
  }

  /** A turn keeps the session invariant: it writes only to the chat it
      resolved, which is the user's own. */
  lemma TurnKeepsCoherent(s: Session, user: User, settings: Config.Settings, stamp: string, text: string, reply: string)
    requires Coherent(s)
    ensures var res := ResolveChat(s, user, settings.defaultModel, AutoTitle(stamp));
      Coherent(res.session.(store := RecordTurn(res.session.store, res.chatId, text, reply)))
  {
    ResolveOwned(s, user, settings.defaultModel, AutoTitle(stamp));
  }
}
