/**
 * LocalLLMClient._messages_to_prompt of custom_ai_example.py: flattens a
 * chat message list into one completion prompt for a local model.
 */
module LocalPrompt {
  import Text
  import opened Wrappers
  import opened AIClients

  /** The closing cue the prompt always ends with. */
  const Cue: string := "Assistant:"

  /** The part one message contributes: a labelled line for the three known roles, nothing for any other. */
  function Part(m: Message): (p: Option<string>)
    ensures p.Some? <==> m.role in {"system", "user", "assistant"}
  {
    if m.role == "system" then Some("System: " + m.content)
    else if m.role == "user" then Some("User: " + m.content)
    else if m.role == "assistant" then Some("Assistant: " + m.content)
    else None
  }

  /** How many messages carry one of the three known roles. */
  function Recognised(ms: seq<Message>): nat
  {
    if ms == [] then 0 else Recognised(ms[..|ms| - 1]) + if Part(ms[|ms| - 1]).Some? then 1 else 0
  }

  /** The parts collected from the messages, in message order. */
  function PromptParts(ms: seq<Message>): (parts: seq<string>)
    ensures |parts| == Recognised(ms)
  {
    if ms == [] then []
    else
      var p := Part(ms[|ms| - 1]);
      PromptParts(ms[..|ms| - 1]) + if p.Some? then [p.value] else []
  }

  /** The prompt: the parts and the closing cue, separated by blank lines. */
  function Prompt(ms: seq<Message>): string
  {
    Text.Join(PromptParts(ms) + [Cue], "\n\n")
  }

  /** _messages_to_prompt */
  method MessagesToPrompt(messages: seq<Message>) returns (prompt: string)
    ensures prompt == Prompt(messages)
  {
    var parts := [];
    var i := 0;
    while i < |messages|
      invariant 0 <= i <= |messages|
      invariant parts == PromptParts(messages[..i])
    {
      assert messages[..i + 1][..i] == messages[..i];
      var role := messages[i].role;
      var content := messages[i].content;
      if role == "system" {
        parts := parts + ["System: " + content];
      } else if role == "user" {
        parts := parts + ["User: " + content];
      } else if role == "assistant" {
        parts := parts + ["Assistant: " + content];
      }
      i := i + 1;
    }
    assert messages[..i] == messages;
    parts := parts + [Cue];
    prompt := Text.Join(parts, "\n\n");
  }

  /** Collecting over two stretches of messages gives the first stretch's parts, then the second's. */
  lemma {:induction false} PartsAppend(a: seq<Message>, b: seq<Message>)
    ensures PromptParts(a + b) == PromptParts(a) + PromptParts(b)
    decreases |b|
  {
    if b != [] {
      var init := b[..|b| - 1];
      assert (a + b)[..|a + b| - 1] == a + init;
      assert (a + b)[|a + b| - 1] == b[|b| - 1];
      PartsAppend(a, init);
    } else {
      assert a + b == a;
    }
  }

  /** A message with any other role adds nothing to the prompt. */
  lemma UnknownRoleIgnored(ms: seq<Message>, m: Message)
    requires m.role !in {"system", "user", "assistant"}
    ensures Prompt(ms + [m]) == Prompt(ms)
  {
    var all := ms + [m];
    assert all[..|all| - 1] == ms && all[|all| - 1] == m;
    assert Part(m).None?;
    assert PromptParts(all) == PromptParts(ms);
  }

  /** The prompt ends with the cue, preceded by a blank line when any message was recognised; without one it is the cue alone. */
  lemma {:induction false} PromptEnding(ms: seq<Message>)
    ensures Recognised(ms) == 0 ==> Prompt(ms) == Cue
    ensures Recognised(ms) > 0 ==> Prompt(ms) == Text.Join(PromptParts(ms), "\n\n") + "\n\n" + Cue
  {
    Text.JoinSnoc(PromptParts(ms), Cue, "\n\n");
  }

  /** The empty message list gives exactly the cue. */
  lemma EmptyPrompt()
    ensures Prompt([]) == Cue
  {
    PromptEnding([]);
  }
}
