/** The chat half of the persistent store, reduced to the behaviour the
    handlers rely on: ids come from a counter that starts at 1 and is never
    reused, a lookup of a missing id gives `None`, appending bumps the
    chat's `updated_at` from a clock that only moves forward, and deleting
    reports success whether or not a row was removed. */
module ChatStore {
  import opened Wrappers
  import opened ChatModel

  datatype Store = Store(chats: map<int, Chat>, nextId: int, clock: int)

  /** Ids are positive, below the counter, and match their key; no chat was
      updated after the clock's reading. */
  ghost predicate Valid(st: Store) {
    && st.nextId >= 1
    && forall id :: id in st.chats ==>
         1 <= id < st.nextId && st.chats[id].id == id && st.chats[id].updatedAt <= st.clock
  }

  const Empty := Store(map[], 1, 0)

  lemma EmptyValid()
    ensures Valid(Empty)
  {
  }

  /** `db.create_chat`: a new, empty chat under the next id. */
  function Create(st: Store, userId: int, title: string, model: string, systemPrompt: Option<string>): (r: (Store, int))
    requires Valid(st)
    ensures Valid(r.0)
    ensures r.1 >= 1 && r.1 !in st.chats
    ensures r.0.chats == st.chats[r.1 := Chat(r.1, userId, title, model, [], st.clock, st.clock, systemPrompt)]
    ensures r.0.nextId > st.nextId && r.0.clock == st.clock
  {
    var id := st.nextId;
    (st.(chats := st.chats[id := Chat(id, userId, title, model, [], st.clock, st.clock, systemPrompt)], nextId := id + 1), id)
  }

  /** `db.get_chat`. */
  function Get(st: Store, id: int): (r: Option<Chat>)
    ensures r.Some? <==> id in st.chats
    ensures r.Some? ==> r.value == st.chats[id]
  {
    if id in st.chats then Some(st.chats[id]) else None
  }

  /** `db.add_message`: the clock ticks and the chat gets the message and the
      new reading as `updated_at`. A missing chat is left alone. */
  function Append(st: Store, id: int, role: Role, content: string): (r: Store)
    requires Valid(st)
    ensures Valid(r)
    ensures r.chats.Keys == st.chats.Keys && r.nextId == st.nextId
    ensures r.clock == st.clock + 1
    ensures id in st.chats ==> r.chats[id] == AddMessage(st.chats[id], role, content, r.clock)
    ensures id in st.chats ==> r.chats[id].updatedAt > st.chats[id].updatedAt
    ensures forall other :: other in st.chats && other != id ==> r.chats[other] == st.chats[other]
  {
    var now := st.clock + 1;
    if id in st.chats then
      st.(chats := st.chats[id := AddMessage(st.chats[id], role, content, now)], clock := now)
    else st.(clock := now)
  }

  /** `db.delete_chat`: the chat and, with it, its messages are removed. The
      flag is `"DELETE" in result`, and the status `DELETE 0` contains it too. */
  function Delete(st: Store, id: int): (r: (Store, bool))
    requires Valid(st)
    ensures Valid(r.0)
    ensures r.0.chats == st.chats - {id}
    ensures r.0.nextId == st.nextId
    ensures r.1
  {
    (st.(chats := st.chats - {id}), true)
  }

  /** A listing of the chats of `userId` as `db.get_user_chats` returns it:
      each such chat once, most recently updated first. */
  ghost predicate IsListing(st: Store, userId: int, listing: seq<Chat>) {
    && (forall k :: 0 <= k < |listing| ==>
          listing[k].id in st.chats && st.chats[listing[k].id] == listing[k] && listing[k].userId == userId)
    && (forall id :: id in st.chats && st.chats[id].userId == userId ==> st.chats[id] in listing)
    && (forall j, k :: 0 <= j < k < |listing| ==> listing[j].id != listing[k].id)
    && (forall j, k :: 0 <= j < k < |listing| ==> listing[j].updatedAt >= listing[k].updatedAt)
  }
}
