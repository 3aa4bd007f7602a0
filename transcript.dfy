/** The transcript controller of the chat page: the `handleSubmit` handler of index.tsx
    and the state it updates (the message history, the loading flag, the input buffer
    and whether a chat session exists).

    The remote chat session is reduced to what the handler can observe of it: a
    `Reply` says which text deltas the stream yields, in order, and whether and where
    it fails. The handler's asynchronous steps become methods of `Controller`, each
    specified by a pure function on the history, and `HandleSubmit` drives them in the
    order the handler does, including the loop over the stream.
 */
module Transcript {

  datatype Role = User | Model

  datatype Message = Message(role: Role, text: string)

  /** The text of the message appended when the exchange fails. */
  const Fallback: string := "Sorry, I encountered an error. Please try again."

  /** What the chat session does with a submitted message:
      - `Completes(deltas)`: the stream opens, yields `deltas` in order and ends;
      - `FailsToOpen`: opening the stream throws;
      - `BreaksAfter(deltas)`: the stream opens, yields `deltas` in order, then throws. */
  datatype Reply =
    | Completes(deltas: seq<string>)
    | FailsToOpen
    | BreaksAfter(deltas: seq<string>)

  /** The deltas a reply yields before it ends or fails. */
  function Yielded(reply: Reply): seq<string>
  {
    if reply.FailsToOpen? then [] else reply.deltas
  }

  // ---------------------------------------------------------------------------
  // The submit guard: `!input.trim() || loading || !chat`
  // ---------------------------------------------------------------------------

  /** The characters JavaScript's `String.prototype.trim` removes: the ECMAScript
      WhiteSpace and LineTerminator code points, whose space separators are those
      of Unicode category Zs. */
  predicate IsSpace(c: char)
  {
    c == '\t' || c == '\n' || c == '\U{000B}' || c == '\U{000C}' || c == '\r' || c == ' '
    || c == '\U{00A0}' || c == '\U{1680}' || ('\U{2000}' <= c <= '\U{200A}')
    || c == '\U{2028}' || c == '\U{2029}' || c == '\U{202F}' || c == '\U{205F}'
    || c == '\U{3000}' || c == '\U{FEFF}'
  }

  /** Every character of `s` is white space (the empty string included). */
  predicate IsBlank(s: string)
  {
    forall i :: 0 <= i < |s| ==> IsSpace(s[i])
  }

  /** `s` without its leading white space. */
  function TrimStart(s: string): (r: string)
    ensures |r| <= |s| && r == s[|s| - |r|..]
    ensures IsBlank(s[..|s| - |r|])
    ensures r == [] || !IsSpace(r[0])
    ensures r == [] <==> IsBlank(s)
  {
    if s != [] && IsSpace(s[0]) then
      var r := TrimStart(s[1..]);
      assert s[..|s| - |r|] == [s[0]] + s[1..][..|s| - 1 - |r|];
      r
    else
      s
  }

  /** `s` without its trailing white space. */
  function TrimEnd(s: string): (r: string)
    ensures |r| <= |s| && r == s[..|r|]
    ensures IsBlank(s[|r|..])
    ensures r == [] || !IsSpace(r[|r| - 1])
    ensures r == [] <==> IsBlank(s)
  {
    if s != [] && IsSpace(s[|s| - 1]) then
      var r := TrimEnd(s[..|s| - 1]);
      assert s == s[..|s| - 1] + [s[|s| - 1]];
      assert s[|r|..] == s[..|s| - 1][|r|..] + [s[|s| - 1]];
      r
    else
      s
  }

  /** `s.trim()`: empty exactly when `s` is all white space. */
  function Trim(s: string): (r: string)
    ensures r == [] <==> IsBlank(s)
  {
    TrimEnd(TrimStart(s))
  }

  /** Whether a submission goes ahead: the input is not blank, no reply is pending
      and a chat session exists. */
  function Accepts(input: string, loading: bool, hasChat: bool): (ok: bool)
    ensures ok <==> !IsBlank(input) && !loading && hasChat
  {
    Trim(input) != [] && !loading && hasChat
  }

  // ---------------------------------------------------------------------------
  // The history updates of one exchange, as functions
  // ---------------------------------------------------------------------------

  /** The user's message is appended. */
  function AfterSubmit(history: seq<Message>, text: string): seq<Message>
  {
    history + [Message(User, text)]
  }

  /** The empty model placeholder is appended once the stream is open. */
  function AfterOpen(history: seq<Message>): seq<Message>
  {
    history + [Message(Model, "")]
  }

  /** The last message is overwritten by the model text accumulated so far. */
  function AfterDelta(history: seq<Message>, accumulated: string): seq<Message>
    requires history != []
  {
    history[|history| - 1 := Message(Model, accumulated)]
  }

  /** The fallback message is appended after whatever is there. */
  function AfterFailure(history: seq<Message>): seq<Message>
  {
    history + [Message(Model, Fallback)]
  }

  /** The `for await` loop: each delta is added to the accumulator, which then
      overwrites the last message. */
  function Streamed(history: seq<Message>, accumulated: string, deltas: seq<string>): (r: seq<Message>)
    requires history != []
    ensures |r| == |history| && r[..|history| - 1] == history[..|history| - 1]
    ensures deltas != [] ==> r[|history| - 1].role == Model
    decreases |deltas|
  {
    if deltas == [] then
      history
    else
      var next := accumulated + deltas[0];
      Streamed(AfterDelta(history, next), next, deltas[1..])
  }

  /** The history at the end of an accepted exchange, following the handler's
      control flow: submit, then open, stream and settle, or fail. No step changes or
      removes a message that was there before the submit; the user's message follows
      them, and the exchange adds a model reply, a fallback or both after it. */
  function Exchange(before: seq<Message>, text: string, reply: Reply): (after: seq<Message>)
    ensures before + [Message(User, text)] <= after
    ensures |after| == |before| + (if reply.BreaksAfter? then 3 else 2)
    ensures after[|after| - 1].role == Model
  {
    var asked := AfterSubmit(before, text);
    match reply
    case FailsToOpen => AfterFailure(asked)
    case Completes(deltas) => Streamed(AfterOpen(asked), "", deltas)
    case BreaksAfter(deltas) => AfterFailure(Streamed(AfterOpen(asked), "", deltas))
  }

  /** The deltas joined in the order they were emitted. */
  function Concat(deltas: seq<string>): string
  {
    if deltas == [] then "" else Concat(deltas[..|deltas| - 1]) + deltas[|deltas| - 1]
  }

  // ---------------------------------------------------------------------------
  // Properties of the exchange
  // ---------------------------------------------------------------------------

  lemma {:induction false} ConcatAppend(a: seq<string>, b: seq<string>)
    ensures Concat(a + b) == Concat(a) + Concat(b)
  {
    if b == [] {
      assert a + b == a;
    } else {
      var front := b[..|b| - 1];
      assert (a + b)[..|a + b| - 1] == a + front;
      ConcatAppend(a, front);
    }
  }

  /** The text shown in the in-flight message only grows: after i deltas it is a
      prefix of what it is after j >= i deltas. */
  lemma {:induction false} ShownTextGrows(deltas: seq<string>, i: nat, j: nat)
    requires i <= j <= |deltas|
    ensures Concat(deltas[..i]) <= Concat(deltas[..j])
  {
    if i < j {
      ShownTextGrows(deltas, i, j - 1);
      assert deltas[..j][..j - 1] == deltas[..j - 1];
      var shorter, longer := Concat(deltas[..j - 1]), Concat(deltas[..j]);
      assert longer == shorter + deltas[j - 1];
      assert Concat(deltas[..i]) == longer[..|Concat(deltas[..i])|];
    }
  }

  /** Streaming leaves every message but the last alone, and the last becomes the
      model's accumulated text followed by all deltas in order. */
  lemma {:induction false} StreamedOverwritesLast(history: seq<Message>, accumulated: string, deltas: seq<string>)
    requires history != []
    decreases |deltas|
    ensures Streamed(history, accumulated, deltas)
         == if deltas == [] then history
            else history[|history| - 1 := Message(Model, accumulated + Concat(deltas))]
  {
    if deltas != [] {
      var next := accumulated + deltas[0];
      var rest := deltas[1..];
      assert deltas == [deltas[0]] + rest;
      ConcatAppend([deltas[0]], rest);
      assert Concat([deltas[0]]) == deltas[0] by {
        assert [deltas[0]][..0] == [];
      }
      assert accumulated + Concat(deltas) == next + Concat(rest);
      var overwritten := AfterDelta(history, next);
      StreamedOverwritesLast(overwritten, next, rest);
      assert Streamed(history, accumulated, deltas) == Streamed(overwritten, next, rest);
    }
  }

  /** A completed exchange adds exactly two messages after the old history: the
      user's raw text and the model's reply, the deltas joined in order. */
  lemma CompletedExchange(before: seq<Message>, text: string, deltas: seq<string>)
    ensures Exchange(before, text, Completes(deltas))
         == before + [Message(User, text), Message(Model, Concat(deltas))]
  {
    StreamedOverwritesLast(AfterOpen(AfterSubmit(before, text)), "", deltas);
    assert "" + Concat(deltas) == Concat(deltas);
  }

  /** A stream that breaks keeps its partial model message and gets the fallback
      after it. */
  lemma BrokenExchange(before: seq<Message>, text: string, deltas: seq<string>)
    ensures Exchange(before, text, BreaksAfter(deltas))
         == before + [Message(User, text), Message(Model, Concat(deltas)), Message(Model, Fallback)]
  {
    StreamedOverwritesLast(AfterOpen(AfterSubmit(before, text)), "", deltas);
    assert "" + Concat(deltas) == Concat(deltas);
  }

  /** Any failed exchange ends with exactly one fallback message; a placeholder was
      added only if the stream opened. */
  lemma FailedExchangeEndsWithFallback(before: seq<Message>, text: string, reply: Reply)
    requires !reply.Completes?
    ensures var after := Exchange(before, text, reply);
      |after| == |before| + (if reply.FailsToOpen? then 2 else 3)
      && after[|after| - 1] == Message(Model, Fallback)
      && after[|before|] == Message(User, text)
  {
  }

  // ---------------------------------------------------------------------------
  // The controller
  // ---------------------------------------------------------------------------

  class Controller {
    var history: seq<Message>
    var loading: bool
    var input: string
    /** Whether the chat session was created. */
    var hasChat: bool

    /** The initial state: no messages, idle, empty input and no session yet. */
    constructor ()
      ensures history == [] && !loading && input == "" && !hasChat
    {
      history, loading, input, hasChat := [], false, "", false;
    }

    /** Session creation succeeded. If it fails this never happens and every
        submission stays a no-op. */
    method SessionCreated()
      modifies this`hasChat
      ensures hasChat
    {
      hasChat := true;
    }

    /** The user edits the input box. */
    method Edit(text: string)
      modifies this`input
      ensures input == text
    {
      input := text;
    }

    /** The guard and the first updates of the handler: on a blank input, a pending
        reply or a missing session nothing changes; otherwise the raw input is
        appended as the user's message, loading is set and the input cleared. */
    method Submit() returns (accepted: bool)
      modifies this`history, this`loading, this`input
      ensures accepted == Accepts(old(input), old(loading), hasChat)
      ensures accepted ==> history == AfterSubmit(old(history), old(input)) && loading && input == ""
      ensures !accepted ==> history == old(history) && loading == old(loading) && input == old(input)
    {
      accepted := Accepts(input, loading, hasChat);
      if accepted {
        history := AfterSubmit(history, input);
        loading := true;
        input := "";
      }
    }

    /** The stream is open: the empty model placeholder is appended. */
    method OpenPlaceholder()
      modifies this`history
      ensures history == AfterOpen(old(history))
      ensures history[|history| - 1] == Message(Model, "") && old(history) <= history
    {
      history := AfterOpen(history);
    }

    /** A delta arrived: the last message is overwritten with the accumulated text. */
    method ShowPartial(accumulated: string)
      requires history != []
      modifies this`history
      ensures history == AfterDelta(old(history), accumulated)
      ensures |history| == |old(history)| && history[..|history| - 1] == old(history)[..|history| - 1]
      ensures history[|history| - 1] == Message(Model, accumulated)
    {
      history := AfterDelta(history, accumulated);
    }

    /** The exchange failed: the fallback message is appended. */
    method ReportFailure()
      modifies this`history
      ensures history == AfterFailure(old(history))
    {
      history := AfterFailure(history);
    }

    /** The exchange ended, normally or not. */
    method Settle()
      modifies this`loading
      ensures !loading
    {
      loading := false;
    }

    /** Opens the placeholder and consumes the deltas in order; `states` records the
        history after each delta: the placeholder then shows the first k+1 deltas
        joined in order, and every earlier message is as it was. */
    method Consume(deltas: seq<string>) returns (ghost states: seq<seq<Message>>)
      modifies this`history
      ensures history == Streamed(AfterOpen(old(history)), "", deltas)
      ensures |states| == |deltas|
      ensures forall k :: 0 <= k < |deltas| ==>
        states[k] == AfterDelta(AfterOpen(old(history)), Concat(deltas[..k + 1]))
    {
      OpenPlaceholder();
      ghost var withPlaceholder := history;
      var accumulated := "";
      states := [];
      var i := 0;
      assert history == AfterDelta(withPlaceholder, accumulated);
      while i < |deltas|
        invariant 0 <= i <= |deltas|
        invariant history != [] && withPlaceholder != []
        invariant accumulated == Concat(deltas[..i])
        invariant history == AfterDelta(withPlaceholder, accumulated)
        invariant Streamed(history, accumulated, deltas[i..]) == Streamed(withPlaceholder, "", deltas)
        invariant |states| == i
        invariant forall k :: 0 <= k < i ==> states[k] == AfterDelta(withPlaceholder, Concat(deltas[..k + 1]))
      {
        assert deltas[..i + 1][..i] == deltas[..i];
        assert deltas[i..][1..] == deltas[i + 1..];
        accumulated := accumulated + deltas[i];
        ShowPartial(accumulated);
        states := states + [history];
        i := i + 1;
      }
    }

    /** The whole handler: a rejected submission changes nothing; an accepted one
        leaves the history at `Exchange(...)`, the input empty and the controller
        idle again, whether the stream completed or failed. `states` lists the
        histories after each delta, in order: the in-flight message shows the deltas
        received so far joined in order, after the old history and the user's message. */
    method HandleSubmit(reply: Reply) returns (accepted: bool, ghost states: seq<seq<Message>>)
      modifies this`history, this`loading, this`input
      ensures accepted == Accepts(old(input), old(loading), hasChat)
      ensures accepted ==> history == Exchange(old(history), old(input), reply) && !loading && input == ""
      ensures !accepted ==> history == old(history) && loading == old(loading) && input == old(input)
      ensures accepted ==> |states| == |Yielded(reply)|
      ensures accepted ==> forall k :: 0 <= k < |states| ==>
        states[k] == AfterDelta(AfterOpen(AfterSubmit(old(history), old(input))), Concat(Yielded(reply)[..k + 1]))
      ensures !accepted ==> states == []
    {
      states := [];
      accepted := Submit();
      if !accepted {
        return;
      }
      match reply {
        case FailsToOpen =>
          ReportFailure();
        case Completes(deltas) =>
          states := Consume(deltas);
        case BreaksAfter(deltas) =>
          states := Consume(deltas);
          ReportFailure();
      }
      Settle();
    }
  }

  /** For deltas "Hel" and "lo" the in-flight message shows "Hel", then "Hello". */
  lemma HelloTexts()
    ensures Concat(["Hel", "lo"][..1]) == "Hel"
    ensures Concat(["Hel", "lo"]) == "Hello"
  {
  }

  /** A question whose stream breaks after "Par" and "tial" leaves the partial
      reply in place with the fallback as the last entry. */
  lemma BrokenStreamScenario()
    ensures Exchange([], "What is a linked list?", BreaksAfter(["Par", "tial"]))
         == [Message(User, "What is a linked list?"), Message(Model, "Partial"), Message(Model, Fallback)]
  {
    BrokenExchange([], "What is a linked list?", ["Par", "tial"]);
    assert Concat(["Par", "tial"]) == "Partial" by {
      assert ["Par", "tial"][..1] == ["Par"] && ["Par"][..0] == [];
    }
  }
}
