/** The chatbot page: a list of threads, newest first, one of which is active.
    Messages are appended to the active thread in place; the assistant's reply is
    attached to whatever thread is active when the reply arrives. */
module Chatbot {
  import opened Wrappers
  import opened Strings
  import opened Seqs
  import opened Chat

  /** Text of the assistant message recorded when the request fails. */
  const ErrorReply := "Error contacting assistant."

  /** The threads left by `threads.filter(x => x.id !== id)`. */
  function WithoutId(ts: seq<ChatThread>, id: string): (r: seq<ChatThread>)
    ensures IsSubsequence(r, ts)
    ensures forall i :: 0 <= i < |r| ==> r[i] in ts && r[i].id != id
    ensures forall i :: 0 <= i < |ts| && ts[i].id != id ==> ts[i] in r
  {
    FilterIsSubsequence(ts, (x: ChatThread) => x.id != id);
    Filter(ts, (x: ChatThread) => x.id != id)
  }

  /** Where the thread at index `i` of `ts` sits once the threads with `id` are removed. */
  function IndexAfterRemoval(ts: seq<ChatThread>, id: string, i: nat): (k: nat)
    requires i < |ts| && ts[i].id != id
    ensures k < |WithoutId(ts, id)| && WithoutId(ts, id)[k] == ts[i]
  {
    FilterKeepsAt(ts, (x: ChatThread) => x.id != id, i);
    |WithoutId(ts[..i], id)|
  }

  /** A thread with one more message, its `updatedAt` set to that message's time. */
  function WithMessage(t: ChatThread, m: ChatMessage): (r: ChatThread)
    ensures r.messages == t.messages + [m] && r.updatedAt == m.timestamp
    ensures r.id == t.id && r.title == t.title && r.createdAt == t.createdAt
  {
    t.(messages := t.messages + [m], updatedAt := m.timestamp)
  }

  /** The content of the assistant message for a successful reply: `resp.answer || ''`. */
  function AnswerText(answer: Option<string>): (c: string)
    ensures answer.Some? ==> c == answer.value
    ensures answer.None? ==> c == ""
  {
    answer.GetOr("")
  }

  class ChatbotComponent {
    var threads: seq<ChatThread>
    /** The active thread, as its index in `threads` (`active?: ChatThread`). */
    var active: Option<nat>
    var input: string
    var loading: bool
    /** The prompts sent to the assistant, in order (`chat.send(prompt)`). */
    var prompts: seq<string>
    const chat: ChatService

    /** The active thread, when there is one, is a thread of the list. */
    ghost predicate Valid()
      reads this
    {
      active.Some? ==> active.value < |threads|
    }

    constructor (chat: ChatService)
      ensures Valid() && this.chat == chat
      ensures threads == [] && active.None? && input == "" && !loading && prompts == []
    {
      this.chat := chat;
      threads, active, input, loading, prompts := [], None, "", false, [];
    }

    /** `ngOnInit()`: load the stored threads and activate the first one. Angular
        calls it once, before any thread has been activated. */
    method NgOnInit()
      requires Valid() && active.None?
      modifies this
      ensures Valid()
      ensures threads == StoredThreads(chat.storage)
      ensures active == if threads != [] then Some(0) else None
      ensures input == old(input) && loading == old(loading) && prompts == old(prompts)
    {
      threads := chat.ListThreads();
      if |threads| > 0 { active := Some(0); }
    }

    /** `selectThread(t)`, for the thread at index `i` of the list. */
    method SelectThread(i: nat)
      requires Valid() && i < |threads|
      modifies this
      ensures Valid() && active == Some(i)
      ensures threads == old(threads) && input == old(input) && loading == old(loading) && prompts == old(prompts)
    {
      active := Some(i);
    }

    /** `fetchAnswer(prompt)`: with an active thread, mark loading and send the prompt. */
    method FetchAnswer(prompt: string)
      requires Valid()
      modifies this
      ensures Valid()
      ensures threads == old(threads) && active == old(active) && input == old(input)
      ensures old(active).Some? ==> loading && prompts == old(prompts) + [prompt]
      ensures old(active).None? ==> loading == old(loading) && prompts == old(prompts)
    {
      if active.None? { return; }
      loading := true;
      prompts := prompts + [prompt];
    }

    /** Put `t` in front of the list, make it active and save the list. */
    method PushThread(t: ChatThread)
      requires Valid()
      modifies this, chat
      ensures Valid()
      ensures threads == [t] + old(threads) && active == Some(0)
      ensures chat.storage == WithThreads(old(chat.storage), threads)
      ensures input == old(input) && loading == old(loading) && prompts == old(prompts)
    {
      threads := [t] + threads;
      active := Some(0);
      chat.SaveThreads(threads);
    }

    /** `newThread()`: put a new thread built from the trimmed input in front, make it
        active and save; a non-blank input is sent and cleared. `randomSuffix` and
        `now` stand for the random id part and the clock. */
    method NewThread(randomSuffix: string, now: int)
      requires Valid()
      modifies this, chat
      ensures Valid()
      ensures threads == [Chat.NewThread(Some(Trim(old(input))), randomSuffix, now)] + old(threads)
      ensures active == Some(0)
      ensures chat.storage == WithThreads(old(chat.storage), threads)
      ensures Trim(old(input)) != "" ==>
                input == "" && loading && prompts == old(prompts) + [Trim(old(input))]
      ensures Trim(old(input)) == "" ==>
                input == old(input) && loading == old(loading) && prompts == old(prompts)
    {
      var initial := Trim(input);
      var t := Chat.NewThread(Some(initial), randomSuffix, now);
      PushThread(t);
      ghost var pushed := threads;
      SendFirst(initial);
      assert threads == pushed;
    }

    /** The tail of `newThread()`: a non-empty first message clears the input and
        is sent to the thread just made active. */
    method SendFirst(initial: string)
      requires Valid() && active.Some?
      modifies this
      ensures Valid()
      ensures threads == old(threads) && active == old(active)
      ensures initial != "" ==> input == "" && loading && prompts == old(prompts) + [initial]
      ensures initial == "" ==> input == old(input) && loading == old(loading) && prompts == old(prompts)
    {
      if initial != "" {
        input := "";
        FetchAnswer(initial);
      }
    }

    /** `deleteThread(t)`: drop every thread with `t`'s id, keeping the others in order.
        If the active thread was dropped the first remaining one becomes active;
        otherwise the same thread stays active. */
    method DeleteThread(t: ChatThread)
      requires Valid()
      modifies this, chat
      ensures Valid()
      ensures threads == WithoutId(old(threads), t.id)
      ensures chat.storage == WithThreads(old(chat.storage), threads)
      ensures old(active).None? ==> active.None?
      ensures old(active).Some? && old(threads)[old(active).value].id == t.id ==>
                active == if threads == [] then None else Some(0)
      ensures old(active).Some? && old(threads)[old(active).value].id != t.id ==>
                active.Some? && threads[active.value] == old(threads)[old(active).value]
                && active.value == IndexAfterRemoval(old(threads), t.id, old(active).value)
      ensures input == old(input) && loading == old(loading) && prompts == old(prompts)
    {
      var kept := WithoutId(threads, t.id);
      if active.Some? {
        if threads[active.value].id == t.id {
          active := if kept == [] then None else Some(0);
        } else {
          active := Some(IndexAfterRemoval(threads, t.id, active.value));
        }
      }
      threads := kept;
      chat.SaveThreads(threads);
    }

    /** `send()`: without an active thread this is `newThread()`; with a blank input
        nothing happens; otherwise the trimmed input is appended to the active thread
        as a user message, the input is cleared, the list saved and the text sent. */
    method Send(randomSuffix: string, now: int)
      requires Valid()
      modifies this, chat
      ensures Valid()
      ensures old(active).None? ==>
                threads == [Chat.NewThread(Some(Trim(old(input))), randomSuffix, now)] + old(threads)
                && active == Some(0)
                && chat.storage == WithThreads(old(chat.storage), threads)
                && (Trim(old(input)) != "" ==> input == "" && loading && prompts == old(prompts) + [Trim(old(input))])
                && (Trim(old(input)) == "" ==> input == old(input) && loading == old(loading) && prompts == old(prompts))
      ensures old(active).Some? && Trim(old(input)) == "" ==>
                threads == old(threads) && active == old(active) && input == old(input)
                && loading == old(loading) && prompts == old(prompts) && chat.storage == old(chat.storage)
      ensures old(active).Some? && Trim(old(input)) != "" ==>
                var a := old(active).value;
                threads == old(threads)[a := WithMessage(old(threads)[a], ChatMessage(User, Trim(old(input)), now))]
                && active == old(active) && input == "" && loading
                && prompts == old(prompts) + [Trim(old(input))]
                && chat.storage == WithThreads(old(chat.storage), threads)
    {
      if active.None? {
        NewThread(randomSuffix, now);
        return;
      }
      if Trim(input) == "" { return; }
      var a := active.value;
      var text := Trim(input);
      threads := threads[a := WithMessage(threads[a], ChatMessage(User, text, now))];
      input := "";
      chat.SaveThreads(threads);
      FetchAnswer(text);
    }

    /** Appends an assistant message to the thread active now. In the source
        `this.active!` has no thread to push to when none is active (the callback
        throws); the model then leaves everything unchanged. */
    method AppendAssistant(content: string, now: int)
      requires Valid()
      modifies this, chat
      ensures Valid()
      ensures old(active).Some? ==>
                var a := old(active).value;
                threads == old(threads)[a := WithMessage(old(threads)[a], ChatMessage(Assistant, content, now))]
                && chat.storage == WithThreads(old(chat.storage), threads)
      ensures old(active).None? ==> threads == old(threads) && chat.storage == old(chat.storage)
      ensures active == old(active) && input == old(input) && loading == old(loading) && prompts == old(prompts)
    {
      if active.None? { return; }
      var a := active.value;
      threads := threads[a := WithMessage(threads[a], ChatMessage(Assistant, content, now))];
      chat.SaveThreads(threads);
    }

    /** The `next` handler of `fetchAnswer`: the reply's answer, or "" when it has none. */
    method OnAnswer(answer: Option<string>, now: int)
      requires Valid()
      modifies this, chat
      ensures Valid()
      ensures old(active).Some? ==>
                var a := old(active).value;
                threads == old(threads)[a := WithMessage(old(threads)[a], ChatMessage(Assistant, AnswerText(answer), now))]
                && chat.storage == WithThreads(old(chat.storage), threads)
      ensures old(active).None? ==> threads == old(threads) && chat.storage == old(chat.storage)
      ensures active == old(active) && input == old(input) && loading == old(loading) && prompts == old(prompts)
    {
      AppendAssistant(AnswerText(answer), now);
    }

    /** The `error` handler of `fetchAnswer`: a fixed error text; `loading` is NOT cleared. */
    method OnAnswerError(now: int)
      requires Valid()
      modifies this, chat
      ensures Valid()
      ensures old(active).Some? ==>
                var a := old(active).value;
                threads == old(threads)[a := WithMessage(old(threads)[a], ChatMessage(Assistant, ErrorReply, now))]
                && chat.storage == WithThreads(old(chat.storage), threads)
      ensures old(active).None? ==> threads == old(threads) && chat.storage == old(chat.storage)
      ensures active == old(active) && input == old(input) && loading == old(loading) && prompts == old(prompts)
    {
      AppendAssistant(ErrorReply, now);
    }

    /** The `complete` handler of `fetchAnswer`: the only place `loading` is reset. */
    method OnAnswerComplete()
      requires Valid()
      modifies this
      ensures Valid() && !loading
      ensures threads == old(threads) && active == old(active) && input == old(input) && prompts == old(prompts)
    {
      loading := false;
    }
  }
}
