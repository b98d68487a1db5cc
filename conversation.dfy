/**
 * A multi-turn conversation with memory: the manager keeps the whole message
 * history, sends it to the chat model on every turn, and can forget every
 * turn while keeping the system prompt.
 *
 * The chat model is a parameter `chat`: any total function from the model name
 * and the history sent to it to the content of the assistant's reply.
 */
module Conversation {

  datatype Option<T> = None | Some(value: T)

  /** The three roles the manager writes; no other role ever enters a history. */
  datatype Role = System | User | Assistant

  datatype Message = Message(role: Role, content: string)

  /** The chat model: the reply content for a model name and a history. */
  type ChatModel = (string, seq<Message>) -> string

  /** Python truthiness of the optional system prompt: absent and empty are
      both false. */
  predicate Truthy(prompt: Option<string>) {
    prompt.Some? && prompt.value != ""
  }

  /** The history right after construction: it meets the manager's
      invariant, clearing it changes nothing, and it holds one message exactly
      when a non-empty system prompt was given. */
  function InitialHistory(systemPrompt: Option<string>): (h: seq<Message>)
    ensures SystemPromptFirst(h)
    ensures SystemMessages(h) == h
    ensures |h| == if Truthy(systemPrompt) then 1 else 0
    ensures forall m :: m in h <==> Truthy(systemPrompt) && m == Message(System, systemPrompt.value)
  {
    if Truthy(systemPrompt) then [Message(System, systemPrompt.value)] else []
  }

  /** `a` is `b` with some elements left out, the rest in their order. */
  predicate IsSubsequence(a: seq<Message>, b: seq<Message>)
    decreases |b|
  {
    if a == [] then true
    else if b == [] then false
    else if a[0] == b[0] then IsSubsequence(a[1..], b[1..])
    else IsSubsequence(a, b[1..])
  }

  /** The system messages of a history, in their original order. */
  function SystemMessages(ms: seq<Message>): (r: seq<Message>)
    ensures forall m :: m in r <==> m in ms && m.role == System
    ensures forall m :: multiset(r)[m] == if m.role == System then multiset(ms)[m] else 0
    ensures IsSubsequence(r, ms)
    ensures |r| <= |ms|
  {
    if ms == [] then []
    else
      var rest := SystemMessages(ms[1..]);
      assert multiset(ms) == multiset{ms[0]} + multiset(ms[1..]) by {
        assert ms == [ms[0]] + ms[1..];
      }
      if ms[0].role == System then [ms[0]] + rest else rest
  }

  /** Filtering distributes over concatenation: every message is kept or
      dropped on its own role alone. */
  lemma {:induction false} SystemMessagesAppend(a: seq<Message>, b: seq<Message>)
    ensures SystemMessages(a + b) == SystemMessages(a) + SystemMessages(b)
  {
    if a == [] {
      assert a + b == b;
    } else {
      assert (a + b)[0] == a[0] && (a + b)[1..] == a[1..] + b;
      SystemMessagesAppend(a[1..], b);
    }
  }

  /** Filtering twice is filtering once. */
  lemma {:induction false} SystemMessagesIdempotent(ms: seq<Message>)
    ensures SystemMessages(SystemMessages(ms)) == SystemMessages(ms)
  {
    if ms != [] {
      SystemMessagesIdempotent(ms[1..]);
      if ms[0].role == System {
        var rest := SystemMessages(ms[1..]);
        assert ([ms[0]] + rest)[0] == ms[0] && ([ms[0]] + rest)[1..] == rest;
      }
    }
  }

  /** The history after sending each of `userMessages` in turn, starting from
      `history`: each turn appends the user message and then the reply the
      model gives to the history ending with that user message. Each turn adds
      two messages and never rewrites the history before it. */
  function Converse(chat: ChatModel, model: string, history: seq<Message>, userMessages: seq<string>): (r: seq<Message>)
    ensures |r| == |history| + 2 * |userMessages|
    ensures r[..|history|] == history
    decreases |userMessages|
  {
    if userMessages == [] then history
    else
      var asked := history + [Message(User, userMessages[0])];
      var next := asked + [Message(Assistant, chat(model, asked))];
      var r := Converse(chat, model, next, userMessages[1..]);
      assert r[..|history|] == r[..|next|][..|history|];
      r
  }

  /** Sending messages in two batches is sending them all at once. */
  lemma {:induction false} ConverseAppend(chat: ChatModel, model: string, history: seq<Message>,
                                          first: seq<string>, second: seq<string>)
    ensures Converse(chat, model, history, first + second)
         == Converse(chat, model, Converse(chat, model, history, first), second)
    decreases |first|
  {
    if first == [] {
      assert first + second == second;
    } else {
      var asked := history + [Message(User, first[0])];
      var next := asked + [Message(Assistant, chat(model, asked))];
      assert (first + second)[0] == first[0] && (first + second)[1..] == first[1..] + second;
      ConverseAppend(chat, model, next, first[1..], second);
    }
  }

  /** Turn `i` of a conversation appends the user's `i`-th message to the
      history of the turns before it, then the model's reply to exactly that
      history. */
  lemma ConverseTurn(chat: ChatModel, model: string, history: seq<Message>, userMessages: seq<string>, i: nat)
    requires i < |userMessages|
    ensures
      var asked := Converse(chat, model, history, userMessages[..i]) + [Message(User, userMessages[i])];
      Converse(chat, model, history, userMessages)[..|asked| + 1]
        == asked + [Message(Assistant, chat(model, asked))]
  {
    var before := Converse(chat, model, history, userMessages[..i]);
    var asked := before + [Message(User, userMessages[i])];
    var next := asked + [Message(Assistant, chat(model, asked))];
    ConverseAppend(chat, model, history, userMessages[..i], userMessages[i..]);
    assert userMessages[..i] + userMessages[i..] == userMessages;
    assert userMessages[i..][0] == userMessages[i];
    assert Converse(chat, model, before, userMessages[i..])
        == Converse(chat, model, next, userMessages[i..][1..]);
  }

  /** A conversation adds no system message: clearing after any number of
      turns leaves exactly the system messages the history started with. */
  lemma {:induction false} ConverseKeepsSystemMessages(chat: ChatModel, model: string,
                                                       history: seq<Message>, userMessages: seq<string>)
    ensures SystemMessages(Converse(chat, model, history, userMessages)) == SystemMessages(history)
    decreases |userMessages|
  {
    if userMessages != [] {
      var turn := [Message(User, userMessages[0])];
      var asked := history + turn;
      var reply := [Message(Assistant, chat(model, asked))];
      var next := asked + reply;
      ConverseKeepsSystemMessages(chat, model, next, userMessages[1..]);
      SystemMessagesAppend(history, turn);
      SystemMessagesAppend(asked, reply);
      assert SystemMessages(turn) == [] && SystemMessages(reply) == [];
    }
  }

  /** From a fresh manager, `n` turns leave `2n` messages, plus one when a
      system prompt was given; clearing then leaves only that prompt. */
  lemma FreshConversation(chat: ChatModel, model: string, systemPrompt: Option<string>, userMessages: seq<string>)
    ensures |Converse(chat, model, InitialHistory(systemPrompt), userMessages)|
         == 2 * |userMessages| + (if Truthy(systemPrompt) then 1 else 0)
    ensures SystemMessages(Converse(chat, model, InitialHistory(systemPrompt), userMessages))
         == InitialHistory(systemPrompt)
  {
    ConverseKeepsSystemMessages(chat, model, InitialHistory(systemPrompt), userMessages);
  }

  /** At most the first message of a history is a system message. */
  predicate SystemPromptFirst(ms: seq<Message>) {
    forall i :: 0 < i < |ms| ==> ms[i].role != System
  }

  /** Keeps the history of one conversation with one model. */
  class ConversationManager {
    const model: string
    var messages: seq<Message>

    /** The manager's invariant: only the system prompt, if any, is a system
        message, and it comes first. */
    ghost predicate Valid()
      reads this
    {
      SystemPromptFirst(messages)
    }

    constructor (model: string, systemPrompt: Option<string>)
      ensures Valid()
      ensures this.model == model
      ensures messages == InitialHistory(systemPrompt)
    {
      this.model := model;
      messages := [];
      if Truthy(systemPrompt) {
        messages := messages + [Message(System, systemPrompt.value)];
      }
    }

    /** Appends the user message, asks the model with the whole history, and
        appends and returns its reply. */
    method SendMessage(userMessage: string, chat: ChatModel) returns (reply: string)
      requires Valid()
      modifies this
      ensures Valid()
      ensures reply == chat(model, old(messages) + [Message(User, userMessage)])
      ensures messages == old(messages) + [Message(User, userMessage), Message(Assistant, reply)]
      ensures messages == Converse(chat, model, old(messages), [userMessage])
    {
      messages := messages + [Message(User, userMessage)];
      reply := chat(model, messages);
      messages := messages + [Message(Assistant, reply)];
    }

    /** The number of messages in the history. */
    function HistoryLength(): (n: nat)
      reads this
      ensures n == |messages|
    {
      |messages|
    }

    /** Forgets every turn and keeps the system messages in their order. */
    method ClearHistory()
      requires Valid()
      modifies this
      ensures Valid()
      ensures messages == SystemMessages(old(messages))
      ensures |messages| <= 1
    {
      messages := SystemMessages(messages);
    }
  }

  /** The tutor session of the demo: a system prompt and three turns leave
      seven messages in the history; clearing it afterwards would keep only
      the system prompt. */
  method TutorSession(chat: ChatModel, systemPrompt: string, first: string, second: string, third: string)
    returns (length: nat, afterClear: seq<Message>)
    requires systemPrompt != ""
    ensures length == 7
    ensures afterClear == [Message(System, systemPrompt)]
  {
    var conversation := new ConversationManager("llama3", Some(systemPrompt));
    var reply := conversation.SendMessage(first, chat);
    reply := conversation.SendMessage(second, chat);
    reply := conversation.SendMessage(third, chat);
    length := conversation.HistoryLength();
    conversation.ClearHistory();
    afterClear := conversation.messages;
  }
}
