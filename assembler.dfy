/** The history windower and prompt assembler: turns the prior conversation
    and the new input into the message list sent to the completion endpoint. */
module Assembler {
  import opened Messages

  /** How many prior messages (user and assistant together) a request keeps. */
  const MaxTurns: nat := 12

  function Min(a: int, b: int): int
  {
    if a <= b then a else b
  }

  /** Python's `s[start:]`: a negative start counts from the end and is
      clamped at the front; a start past the end gives the empty list. */
  function SliceFrom<T>(s: seq<T>, start: int): (r: seq<T>)
    ensures |r| <= |s|
    ensures r == s[|s| - |r|..]
    ensures start < 0 ==> |r| == Min(|s|, -start)
    ensures 0 <= start ==> |r| == if start <= |s| then |s| - start else 0
  {
    var i := if start < 0 then (if |s| + start < 0 then 0 else |s| + start)
             else (if start <= |s| then start else |s|);
    s[i..]
  }

  /** The window: the last MaxTurns entries of the history, in their
      original order, or the whole history when it is shorter. */
  function Window(history: seq<Msg>): (w: seq<Msg>)
    ensures |w| == Min(|history|, MaxTurns)
    ensures w == history[|history| - |w|..]
  {
    SliceFrom(history, -(MaxTurns as int))
  }

  /** The request messages: one system message with the style instruction,
      the window of the history, then the new input as a user message. */
  function BuildMessages(history: seq<Msg>, userText: string, systemPrompt: string): (r: seq<Msg>)
    ensures |r| == Min(|history|, MaxTurns) + 2
    ensures |r| <= MaxTurns + 2
    ensures r[0] == Msg(System, systemPrompt)
    ensures r[|r| - 1] == Msg(User, userText)
    ensures r[1..|r| - 1] == history[|history| - (|r| - 2)..]
  {
    [Msg(System, systemPrompt)] + Window(history) + [Msg(User, userText)]
  }

  /** The window of a history without system messages has none either. */
  lemma WindowNoSystem(history: seq<Msg>)
    requires NoSystem(history)
    ensures NoSystem(Window(history))
  {
    var w := Window(history);
    forall i | 0 <= i < |w| ensures w[i].role != System {
      assert w[i] == history[|history| - |w| + i];
    }
  }

  /** A history without system messages yields a request with exactly one
      system message, and it is the first. */
  lemma OneSystemMessage(history: seq<Msg>, userText: string, systemPrompt: string)
    requires NoSystem(history)
    ensures var r := BuildMessages(history, userText, systemPrompt);
      && r[0].role == System
      && (forall i :: 0 < i < |r| ==> r[i].role != System)
      && CountRole(r, System) == 1
  {
    var r := BuildMessages(history, userText, systemPrompt);
    WindowNoSystem(history);
    OnlyFirstIsSystem(Window(history), userText, systemPrompt);
    CountRoleAbsent(r[1..], System);
    CountRoleConcat(r[..1], r[1..], System);
    assert r[..1] + r[1..] == r;
    assert r[..1][..0] == [];
  }

  lemma OnlyFirstIsSystem(w: seq<Msg>, userText: string, systemPrompt: string)
    requires NoSystem(w)
    ensures var r := [Msg(System, systemPrompt)] + w + [Msg(User, userText)];
      forall i :: 0 < i < |r| ==> r[i].role != System
  {
    var r := [Msg(System, systemPrompt)] + w + [Msg(User, userText)];
    forall i | 0 < i < |r| ensures r[i].role != System {
      if i < |r| - 1 {
        assert r[i] == w[i - 1];
      }
    }
  }

  /** A history of at most MaxTurns entries is kept whole. */
  lemma ShortHistoryKeptWhole(history: seq<Msg>, userText: string, systemPrompt: string)
    requires |history| <= MaxTurns
    ensures BuildMessages(history, userText, systemPrompt)
         == [Msg(System, systemPrompt)] + history + [Msg(User, userText)]
  {
  }

  /** A longer history contributes exactly its last MaxTurns entries, so the
      request has MaxTurns + 2 messages. */
  lemma LongHistoryWindowed(history: seq<Msg>, userText: string, systemPrompt: string)
    requires |history| >= MaxTurns
    ensures var r := BuildMessages(history, userText, systemPrompt);
      && |r| == MaxTurns + 2
      && r == [Msg(System, systemPrompt)] + history[|history| - MaxTurns..] + [Msg(User, userText)]
  {
  }

  /** With no history the request is just the instruction and the input;
      an empty input is kept as it is. */
  lemma EmptyHistory(userText: string, systemPrompt: string)
    ensures BuildMessages([], userText, systemPrompt)
         == [Msg(System, systemPrompt), Msg(User, userText)]
  {
  }

  /** Fifteen prior messages: the request holds the system message, the
      prior messages 4 to 15 (counting from one) and the new input. */
  lemma FifteenPriorMessages(history: seq<Msg>, userText: string, systemPrompt: string)
    requires |history| == 15
    ensures var r := BuildMessages(history, userText, systemPrompt);
      && |r| == 14
      && r[1..13] == history[3..15]
      && r[13] == Msg(User, userText)
  {
  }
}
