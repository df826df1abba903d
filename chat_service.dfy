/** The chat service: thread records, their persistence in the browser's
    storage under one key, and the construction of a new thread. */
module Chat {
  import opened Wrappers
  import opened Strings

  datatype Role = User | Assistant

  datatype ChatMessage = ChatMessage(role: Role, content: string, timestamp: int)

  datatype ChatThread = ChatThread(
    id: string,
    title: string,
    messages: seq<ChatMessage>,
    createdAt: int,
    updatedAt: int)

  /** The storage key the threads are kept under. */
  const StorageKey := "chat_threads_v1"

  /** The title used when the first message is absent or empty. */
  const DefaultTitle := "New chat"

  /** The first 40 characters of a thread's first message become its title. */
  const TitleLength := 40

  /** Storage, with the JSON serialisation of a thread list taken as the identity. */
  type Storage = map<string, seq<ChatThread>>

  /** What `listThreads()` reads: the list stored under the key, or no threads. */
  function StoredThreads(storage: Storage): (ts: seq<ChatThread>)
    ensures StorageKey !in storage ==> ts == []
  {
    if StorageKey in storage then storage[StorageKey] else []
  }

  /** What `saveThreads(ts)` leaves in storage: the key overwritten, nothing else changed. */
  function WithThreads(storage: Storage, ts: seq<ChatThread>): (s: Storage)
    ensures StorageKey in s && s[StorageKey] == ts
    ensures forall k :: k in storage && k != StorageKey ==> k in s && s[k] == storage[k]
    ensures s.Keys == storage.Keys + {StorageKey}
  {
    storage[StorageKey := ts]
  }

  /** Saving and then listing gives back exactly what was saved, and only the
      thread key is touched. */
  lemma SaveThenList(storage: Storage, ts: seq<ChatThread>)
    ensures StoredThreads(WithThreads(storage, ts)) == ts
    ensures WithThreads(storage, ts) - {StorageKey} == storage - {StorageKey}
  {
  }

  /** The title of a new thread: the first 40 characters of the untrimmed text, or
      "New chat" when the text is missing or empty. */
  function ThreadTitle(initial: Option<string>): (title: string)
    ensures initial.None? || initial.value == "" ==> title == DefaultTitle
    ensures initial.Some? && initial.value != "" ==>
              |title| <= TitleLength && |title| <= |initial.value| && title == initial.value[..|title|]
              && (|initial.value| >= TitleLength ==> |title| == TitleLength)
              && (|initial.value| < TitleLength ==> title == initial.value)
  {
    if initial.Some? && Take(initial.value, TitleLength) != [] then Take(initial.value, TitleLength) else DefaultTitle
  }

  /** The messages of a new thread: none when the text is missing or blank, and
      otherwise exactly one user message with the trimmed text. */
  function FirstMessages(initial: Option<string>, now: int): (messages: seq<ChatMessage>)
    ensures messages == [] <==> initial.None? || IsBlank(initial.value)
    ensures messages != [] ==>
              messages == [ChatMessage(User, Trim(initial.value), now)] && Trim(initial.value) != ""
  {
    if initial.Some? && initial.value != "" && Trim(initial.value) != "" then [ChatMessage(User, Trim(initial.value), now)] else []
  }

  /** `newThread(initialUserMessage?)`. `randomSuffix` stands for
      `Math.random().toString(36).slice(2)` and `now` for `Date.now()`. The id is
      "t_" followed by the random part, both time stamps are `now`, and the title and
      messages are the two above. */
  function NewThread(initial: Option<string>, randomSuffix: string, now: int): (t: ChatThread)
    ensures |t.id| >= 2 && t.id[..2] == "t_" && t.id[2..] == randomSuffix
    ensures t.createdAt == now && t.updatedAt == now
  {
    ChatThread("t_" + randomSuffix, ThreadTitle(initial), FirstMessages(initial, now), now, now)
  }

  /** The service object; `storage` is the browser's local storage as this service sees it. */
  class ChatService {
    var storage: Storage

    constructor (initial: Storage)
      ensures storage == initial
    {
      storage := initial;
    }

    /** `listThreads()`. */
    method ListThreads() returns (ts: seq<ChatThread>)
      ensures ts == StoredThreads(storage)
    {
      ts := if StorageKey in storage then storage[StorageKey] else [];
    }

    /** `saveThreads(threads)`. */
    method SaveThreads(threads: seq<ChatThread>)
      modifies this
      ensures storage == WithThreads(old(storage), threads)
    {
      storage := storage[StorageKey := threads];
    }
  }
}
