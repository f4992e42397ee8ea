/**
 Chat histories that a chat-completions API accepts: every tool call of an assistant message is
 answered by the tool messages right after it. The service decides this with a set of pending ids
 and repairs a history by dropping a prefix.
 */
module ToolChain {
  import opened Prelude

  /** A call or answer id; `None` when the message carries none. */
  type CallId = Option<string>

  datatype Message =
    | System(content: string)
    | Human(content: string)
    | Ai(content: string, calls: seq<CallId>)
    | Tool(content: string, answers: CallId)
    | Other(content: string)

  /** The ids an assistant message waits for; missing and empty ids are ignored. */
  function Awaited(m: Message): set<string> {
    if m.Ai? then set c | c in m.calls && c.Some? && c.value != "" :: c.value else {}
  }

  // ---------------------------------------------------------------- the grammar

  /** `answers` are tool messages whose ids are a permutation of `ids`. */
  predicate Answers(ids: set<string>, answers: seq<Message>) {
    && (forall i :: 0 <= i < |answers| ==> answers[i].Tool? && answers[i].answers.Some? && answers[i].answers.value in ids)
    && (forall i, j :: 0 <= i < j < |answers| ==> answers[i].answers != answers[j].answers)
    && |answers| == |ids|
  }

  /** One message that is not a tool message, with all its answers. */
  predicate IsBlock(block: seq<Message>) {
    block != [] && !block[0].Tool? && Answers(Awaited(block[0]), block[1..])
  }

  function Flatten(blocks: seq<seq<Message>>): seq<Message> {
    if blocks == [] then [] else blocks[0] + Flatten(blocks[1..])
  }

  ghost predicate WellPaired(messages: seq<Message>) {
    exists blocks :: (forall i :: 0 <= i < |blocks| ==> IsBlock(blocks[i])) && Flatten(blocks) == messages
  }

  // ---------------------------------------------------------------- the automaton

  /** Reading `messages` with `pending` ids outstanding; `None` is rejection. */
  function Read(pending: set<string>, messages: seq<Message>): Option<set<string>>
    decreases |messages|
  {
    if messages == [] then Some(pending)
    else
      var m := messages[0];
      if m.Tool? then
        if m.answers.None? || m.answers.value !in pending then None
        else Read(pending - {m.answers.value}, messages[1..])
      else if pending != {} then None
      else Read(Awaited(m), messages[1..])
  }

  predicate Valid(messages: seq<Message>) {
    Read({}, messages) == Some({})
  }

  lemma {:induction false} ReadAppend(pending: set<string>, a: seq<Message>, b: seq<Message>)
    ensures Read(pending, a + b) == if Read(pending, a).None? then None else Read(Read(pending, a).value, b)
    decreases |a|
  {
    if a == [] {
      assert a + b == b;
    } else {
      assert (a + b)[1..] == a[1..] + b;
      var m := a[0];
      if m.Tool? {
        if m.answers.Some? && m.answers.value in pending {
          ReadAppend(pending - {m.answers.value}, a[1..], b);
        }
      } else if pending == {} {
        ReadAppend(Awaited(m), a[1..], b);
      }
    }
  }

  /** Tool messages are read to the end exactly when they answer the pending ids one for one. */
  lemma {:induction false} ReadAnswers(pending: set<string>, answers: seq<Message>)
    requires forall i :: 0 <= i < |answers| ==> answers[i].Tool?
    ensures Read(pending, answers) == Some({}) <==> Answers(pending, answers)
    decreases |answers|
  {
    if answers != [] {
      var m, rest := answers[0], answers[1..];
      if m.answers.Some? && m.answers.value in pending {
        var left := pending - {m.answers.value};
        ReadAnswers(left, rest);
        assert answers == [m] + rest;
        if Answers(pending, answers) {
          forall i | 0 <= i < |rest| ensures rest[i].Tool? && rest[i].answers.Some? && rest[i].answers.value in left {
            assert rest[i] == answers[i + 1];
          }
          forall i, j | 0 <= i < j < |rest| ensures rest[i].answers != rest[j].answers {
            assert rest[i] == answers[i + 1] && rest[j] == answers[j + 1];
          }
        }
        if Answers(left, rest) {
          forall i | 0 <= i < |answers|
            ensures answers[i].Tool? && answers[i].answers.Some? && answers[i].answers.value in pending
            ensures i > 0 ==> answers[i].answers.value in left
          {
            if i > 0 { assert answers[i] == rest[i - 1]; }
          }
          forall i, j | 0 <= i < j < |answers| ensures answers[i].answers != answers[j].answers {
            if i > 0 { assert answers[i] == rest[i - 1] && answers[j] == rest[j - 1]; }
          }
        }
      }
    }
  }

  /** The end of the run of tool messages that starts at `from`. */
  function ToolsEnd(messages: seq<Message>, from: nat): (end: nat)
    requires from <= |messages|
    ensures from <= end <= |messages|
    ensures forall i :: from <= i < end ==> messages[i].Tool?
    ensures end < |messages| ==> !messages[end].Tool?
    decreases |messages| - from
  {
    if from < |messages| && messages[from].Tool? then ToolsEnd(messages, from + 1) else from
  }

  lemma {:induction false} BlockReads(block: seq<Message>)
    requires block != [] && !block[0].Tool? && forall i :: 1 <= i < |block| ==> block[i].Tool?
    ensures Valid(block) <==> IsBlock(block)
  {
    ReadAnswers(Awaited(block[0]), block[1..]);
  }

  lemma {:induction false} BlocksAreValid(blocks: seq<seq<Message>>)
    requires forall i :: 0 <= i < |blocks| ==> IsBlock(blocks[i])
    ensures Valid(Flatten(blocks))
    decreases |blocks|
  {
    if blocks != [] {
      var first := blocks[0];
      BlocksAreValid(blocks[1..]);
      assert forall i :: 1 <= i < |first| ==> first[i] == first[1..][i - 1];
      BlockReads(first);
      ReadAppend({}, first, Flatten(blocks[1..]));
    }
  }

  lemma {:induction false} ValidIsBlocks(messages: seq<Message>) returns (blocks: seq<seq<Message>>)
    requires Valid(messages)
    ensures (forall i :: 0 <= i < |blocks| ==> IsBlock(blocks[i])) && Flatten(blocks) == messages
    decreases |messages|
  {
    if messages == [] {
      return [];
    }
    var end := ToolsEnd(messages, 1);
    var first, rest := messages[..end], messages[end..];
    assert messages == first + rest;
    ReadAppend({}, first, rest);
    BlockReads(first);
    if rest != [] {
      assert !rest[0].Tool?;
    }
    var more := ValidIsBlocks(rest);
    blocks := [first] + more;
    assert blocks[1..] == more;
  }

  /** The pending-set check accepts exactly the concatenations of blocks. */
  lemma {:induction false} ValidIffWellPaired(messages: seq<Message>)
    ensures Valid(messages) <==> WellPaired(messages)
  {
    if Valid(messages) {
      var blocks := ValidIsBlocks(messages);
    }
    if WellPaired(messages) {
      var blocks :| (forall i :: 0 <= i < |blocks| ==> IsBlock(blocks[i])) && Flatten(blocks) == messages;
      BlocksAreValid(blocks);
    }
  }

  /** The ids of an assistant message, collected one call at a time. */
  method ToolCallIdsFromAi(m: Message) returns (ids: set<string>)
    requires m.Ai?
    ensures ids == Awaited(m)
  {
    ids := {};
    var n := 0;
    while n < |m.calls|
      invariant n <= |m.calls|
      invariant ids == set c | c in m.calls[..n] && c.Some? && c.value != "" :: c.value
    {
      assert m.calls[..n + 1] == m.calls[..n] + [m.calls[n]];
      var id := m.calls[n];
      if id.Some? && id.value != "" {
        ids := ids + {id.value};
      }
      n := n + 1;
    }
    assert m.calls[..n] == m.calls;
  }

  /** The service's check. */
  method OpenAiToolChainValid(messages: seq<Message>) returns (ok: bool)
    ensures ok <==> WellPaired(messages)
  {
    ValidIffWellPaired(messages);
    var pending: set<string> := {};
    var n := 0;
    while n < |messages|
      invariant n <= |messages|
      invariant Read({}, messages[..n]) == Some(pending)
    {
      var m := messages[n];
      assert messages[..n + 1] == messages[..n] + [m];
      ReadAppend({}, messages[..n], [m]);
      assert messages == messages[..n + 1] + messages[n + 1..];
      ReadAppend({}, messages[..n + 1], messages[n + 1..]);
      assert [m][1..] == [];
      match m {
        case Tool(_, id) =>
          if id.None? || id.value !in pending {
            return false;
          }
          pending := pending - {id.value};
        case Ai(_, _) =>
          if pending != {} {
            return false;
          }
          var ids := ToolCallIdsFromAi(m);
          if ids != {} {
            pending := ids;
          }
        case _ =>
          if pending != {} {
            return false;
          }
      }
      n := n + 1;
    }
    assert messages[..n] == messages;
    return pending == {};
  }

  // ---------------------------------------------------------------- the sanitizer

  /** The longest valid suffix. */
  function Sanitized(messages: seq<Message>): (r: seq<Message>)
    ensures Valid(r)
    ensures |r| <= |messages| && r == messages[|messages| - |r|..]
    ensures forall start :: 0 <= start < |messages| - |r| ==> !Valid(messages[start..])
    decreases |messages|
  {
    if messages == [] || Valid(messages) then messages
    else
      var r := Sanitized(messages[1..]);
      assert forall start :: 1 <= start <= |messages| ==> messages[1..][start - 1..] == messages[start..];
      r
  }

  /** The service's search for a start position. */
  method SanitizeMessagesForOpenAiChat(messages: seq<Message>) returns (r: seq<Message>)
    ensures r == Sanitized(messages)
  {
    var start := 0;
    while start < |messages|
      invariant start <= |messages|
      invariant Sanitized(messages[start..]) == Sanitized(messages)
    {
      ValidIffWellPaired(messages[start..]);
      var ok := OpenAiToolChainValid(messages[start..]);
      if ok {
        return messages[start..];
      }
      assert messages[start..][1..] == messages[start + 1..];
      start := start + 1;
    }
    return [];
  }

  /** Sanitizing again changes nothing. */
  lemma {:induction false} SanitizeIdempotent(messages: seq<Message>)
    ensures Sanitized(Sanitized(messages)) == Sanitized(messages)
  {
  }

  /** A valid history does not start with a tool message. */
  lemma {:induction false} StartsWithoutTool(messages: seq<Message>)
    requires messages != [] && Valid(messages)
    ensures !messages[0].Tool?
  {
  }

  /** A valid suffix starts no later than the last message that is not a tool message, and includes its block. */
  lemma {:induction false} SuffixKeepsTail(messages: seq<Message>, start: nat, last: int)
    requires -1 <= last < |messages| && start < |messages|
    requires forall i :: last < i < |messages| ==> messages[i].Tool?
    requires last >= 0 ==> !messages[last].Tool?
    requires Valid(messages[start..])
    ensures start <= last && Valid(messages[last..])
  {
    StartsWithoutTool(messages[start..]);
    var before, tail := messages[start..last], messages[last..];
    assert messages[start..] == before + tail;
    ReadAppend({}, before, tail);
  }

  /** From its last message that is not a tool message on, a history is one block or it is not valid. */
  lemma {:induction false} TailIsBlock(messages: seq<Message>, last: nat)
    requires last < |messages| && !messages[last].Tool?
    requires forall i :: last < i < |messages| ==> messages[i].Tool?
    ensures Valid(messages[last..]) <==> Answers(Awaited(messages[last]), messages[last + 1..])
  {
    var tail := messages[last..];
    assert tail[1..] == messages[last + 1..];
    assert forall i :: 1 <= i < |tail| ==> tail[i] == messages[last + i];
    BlockReads(tail);
  }

  /**
   The sanitizer gives up on a non-empty history exactly when its last message that is not a tool
   message is not answered one for one by the tool messages after it, or there is no such message.
   */
  lemma {:induction false} EmptyIffTailUnanswered(messages: seq<Message>, last: int)
    requires -1 <= last < |messages| && forall i :: last < i < |messages| ==> messages[i].Tool?
    requires last >= 0 ==> !messages[last].Tool?
    requires messages != []
    ensures Sanitized(messages) == [] <==>
              last == -1 || !Answers(Awaited(messages[last]), messages[last + 1..])
  {
    var r := Sanitized(messages);
    if r != [] {
      SuffixKeepsTail(messages, |messages| - |r|, last);
    }
    if last >= 0 {
      TailIsBlock(messages, last);
    }
  }

  // ---------------------------------------------------------------- its two clients

  /** The history of a stage: sanitized, with the stage's prompt in it. */
  function PrepareStageMessages(messages: seq<Message>, prompt: string, fallback: string): seq<Message> {
    var cleaned := Sanitized(messages);
    if cleaned == [] then [System(prompt), Human(fallback)]
    else if System(prompt) in cleaned then cleaned
    else [System(prompt)] + cleaned
  }

  lemma {:induction false} PlainMessage(m: Message, messages: seq<Message>)
    requires Awaited(m) == {} && !m.Tool?
    ensures Valid([m] + messages) <==> Valid(messages)
  {
    assert ([m] + messages)[1..] == messages;
  }

  /** A stage always gets a valid history with its prompt, which preparing again leaves as it is. */
  lemma {:induction false} PreparedIsValid(messages: seq<Message>, prompt: string, fallback: string)
    ensures var r := PrepareStageMessages(messages, prompt, fallback);
            && WellPaired(r)
            && System(prompt) in r
            && PrepareStageMessages(r, prompt, fallback) == r
            && var kept := Sanitized(messages);
               && (kept == [] ==> r == [System(prompt), Human(fallback)])
               && (kept != [] ==> |kept| <= |r| && r[|r| - |kept|..] == kept)
               && (kept != [] ==> |r| == |kept| + if System(prompt) in kept then 0 else 1)
               && (|r| > |kept| ==> r[0] == System(prompt))
  {
    var r := PrepareStageMessages(messages, prompt, fallback);
    var cleaned := Sanitized(messages);
    if cleaned == [] {
      PlainMessage(Human(fallback), []);
      assert r == [System(prompt)] + ([Human(fallback)] + []);
      PlainMessage(System(prompt), [Human(fallback)] + []);
    } else if System(prompt) !in cleaned {
      PlainMessage(System(prompt), cleaned);
    }
    assert Valid(r);
    ValidIffWellPaired(r);
    assert r[0] == System(prompt) || System(prompt) in cleaned;
  }

  /** A replay fork: the sanitized checkpoint and the operator's note. */
  function ReplayForkMessages(existing: seq<Message>, note: string): seq<Message> {
    Sanitized(existing) + [Human(note)]
  }

  /** A fork is well paired, keeps the longest valid end of the history, and ends with the note. */
  lemma {:induction false} ReplayForkIsValid(existing: seq<Message>, note: string)
    ensures WellPaired(ReplayForkMessages(existing, note))
    ensures var r := ReplayForkMessages(existing, note);
            var n := |r| - 1;
            && n >= 0 && r[n] == Human(note)
            && n <= |existing| && r[..n] == existing[|existing| - n..] && Valid(r[..n])
            && forall start: nat :: start < |existing| - n ==> !Valid(existing[start..])
  {
    ReadAppend({}, Sanitized(existing), [Human(note)]);
    assert [Human(note)][1..] == [];
    ValidIffWellPaired(ReplayForkMessages(existing, note));
  }
}
