/** What the agent loop says to its model: one opening message, then turns of tool calls and
    their answers (packages/agent/src/llm.ts, loop.ts). */
module Conversation {
  import opened Wrappers

  type CallId = string

  datatype Call = Call(id: CallId, name: string)

  datatype Outcome =
    | Executed(position: nat, ok: bool)   // the call at this position ran
    | Discarded                           // control of the browser changed first
    | Harness                             // a note of the loop itself
    | NotExecuted

  datatype Answer = Answer(id: CallId, outcome: Outcome)

  datatype Message =
    | User(content: string)
    | Assistant(content: string, calls: seq<Call>)
    | Tool(content: string, results: Option<seq<Answer>>)

  /** Every call has its answer, in the order of the calls. */
  predicate Answers(calls: seq<Call>, answers: seq<Answer>) {
    |answers| == |calls| && forall i :: 0 <= i < |calls| ==> answers[i].id == calls[i].id
  }

  /** Messages `i` and `i + 1` are a turn: calls, and what came of them. */
  predicate IsPair(messages: seq<Message>, i: nat) {
    && i + 1 < |messages| && messages[i].Assistant? && messages[i].calls != []
    && messages[i + 1].Tool? && messages[i + 1].results.Some?
  }

  predicate IsTurn(messages: seq<Message>, i: nat) {
    IsPair(messages, i) && Answers(messages[i].calls, messages[i + 1].results.value)
  }

  /** user (assistant tool)*, with every turn answered but perhaps the first ones, up to message
      `inherited`, which came out of an archive as they were. */
  ghost predicate ShapedAfter(messages: seq<Message>, inherited: nat) {
    && |messages| % 2 == 1 && messages[0].User?
    && (forall i: nat :: i % 2 == 1 && i < |messages| ==> IsPair(messages, i))
    && (forall i: nat :: i % 2 == 1 && inherited < i < |messages| ==> IsTurn(messages, i))
  }

  ghost predicate Shaped(messages: seq<Message>) {
    ShapedAfter(messages, 0)
  }

  /** What the shape means: every turn is calls and their results, and unless it is inherited
      there is one answer for each call, in order. */
  lemma ShapeIs(messages: seq<Message>, inherited: nat, i: nat)
    requires ShapedAfter(messages, inherited) && i < |messages| && i % 2 == 1
    ensures i + 1 < |messages| && messages[i].Assistant? && messages[i].calls != []
    ensures messages[i + 1].Tool? && messages[i + 1].results.Some?
    ensures inherited < i ==>
              && |messages[i + 1].results.value| == |messages[i].calls|
              && forall k :: 0 <= k < |messages[i].calls| ==>
                   messages[i + 1].results.value[k].id == messages[i].calls[k].id
  {
    assert IsPair(messages, i) && (inherited < i ==> IsTurn(messages, i));
  }

  function Less(inherited: nat, removed: nat): nat {
    if removed < inherited then inherited - removed else 0
  }

  /** Whole turns can go from the front, and the opening message can change. */
  lemma ShapedWithout(messages: seq<Message>, inherited: nat, first: Message, removed: nat)
    requires ShapedAfter(messages, inherited) && first.User? && removed % 2 == 0 && removed < |messages|
    ensures ShapedAfter([first] + messages[1 + removed..], Less(inherited, removed))
  {
    var kept := [first] + messages[1 + removed..];
    forall i: nat | i % 2 == 1 && i < |kept|
      ensures IsPair(kept, i) && (Less(inherited, removed) < i ==> IsTurn(kept, i))
    {
      assert IsPair(messages, i + removed);
      assert Less(inherited, removed) < i ==> IsTurn(messages, i + removed);
      assert kept[i] == messages[i + removed] && kept[i + 1] == messages[i + removed + 1];
    }
  }

  lemma ShapedWith(messages: seq<Message>, inherited: nat, assistant: Message, tool: Message)
    requires ShapedAfter(messages, inherited) && IsTurn([assistant, tool], 0)
    ensures ShapedAfter(messages + [assistant, tool], inherited)
  {
    var longer := messages + [assistant, tool];
    forall i: nat | i % 2 == 1 && i < |longer| ensures IsPair(longer, i) && (inherited < i ==> IsTurn(longer, i)) {
      if i < |messages| {
        assert IsPair(messages, i) && (inherited < i ==> IsTurn(messages, i));
        assert longer[i] == messages[i] && longer[i + 1] == messages[i + 1];
      }
    }
  }

  function Chars(messages: seq<Message>): nat {
    if messages == [] then 0 else |messages[0].content| + Chars(messages[1..])
  }

  lemma {:induction false} CharsOfBoth(a: seq<Message>, b: seq<Message>)
    ensures Chars(a + b) == Chars(a) + Chars(b)
  {
    if a == [] {
      assert a + b == b;
    } else {
      CharsOfBoth(a[1..], b);
      assert (a + b)[1..] == a[1..] + b;
    }
  }

  // ---- restoring ----

  /** The complete pairs from message `i` on, taken greedily, and nothing else. */
  function CompletePairs(saved: seq<Message>, i: nat): seq<Message>
    decreases |saved| - i
  {
    if i + 1 >= |saved| then []
    else if IsPair(saved, i) then [saved[i], saved[i + 1]] + CompletePairs(saved, i + 2)
    else CompletePairs(saved, i + 1)
  }

  /** Whatever was saved, what is kept is pairs. */
  lemma {:induction false} OnlyPairs(saved: seq<Message>, from: nat, first: Message)
    requires first.User?
    ensures var kept := [first] + CompletePairs(saved, from);
            ShapedAfter(kept, |kept| - 1)
    decreases |saved| - from
  {
    if from + 1 >= |saved| {
    } else if IsPair(saved, from) {
      OnlyPairs(saved, from + 2, first);
      var rest := CompletePairs(saved, from + 2);
      var kept := [first] + CompletePairs(saved, from);
      assert kept == [first, saved[from], saved[from + 1]] + rest;
      forall i: nat | i % 2 == 1 && i < |kept| ensures IsPair(kept, i) {
        if i > 1 { assert IsPair([first] + rest, i - 2); }
      }
    } else {
      OnlyPairs(saved, from + 1, first);
    }
  }

  /** A conversation of the right shape comes back whole. */
  lemma {:induction false} ShapedIsRestored(saved: seq<Message>, i: nat)
    requires Shaped(saved) && i % 2 == 1 && i <= |saved|
    ensures CompletePairs(saved, i) == saved[i..]
    decreases |saved| - i
  {
    if i < |saved| {
      assert IsTurn(saved, i);
      ShapedIsRestored(saved, i + 2);
      assert saved[i..] == [saved[i], saved[i + 1]] + saved[i + 2..];
    }
  }

  /** Whole pairs and nothing else. */
  ghost predicate AllPairs(messages: seq<Message>) {
    |messages| % 2 == 0 && forall i: nat :: i % 2 == 0 && i < |messages| ==> IsPair(messages, i)
  }

  lemma {:induction false} PairsComplete(saved: seq<Message>, i: nat)
    requires i <= |saved| && AllPairs(saved[i..])
    ensures CompletePairs(saved, i) == saved[i..]
    decreases |saved| - i
  {
    if i < |saved| {
      assert IsPair(saved[i..], 0);
      assert saved[i..][0] == saved[i] && saved[i..][1] == saved[i + 1];
      PairsFrom(saved, i);
      PairsComplete(saved, i + 2);
      assert saved[i..] == [saved[i], saved[i + 1]] + saved[i + 2..];
    }
  }

  lemma PairsFrom(saved: seq<Message>, i: nat)
    requires i + 2 <= |saved| && AllPairs(saved[i..])
    ensures AllPairs(saved[i + 2..])
  {
    forall j: nat | j % 2 == 0 && j < |saved[i + 2..]| ensures IsPair(saved[i + 2..], j) {
      assert IsPair(saved[i..], j + 2);
      assert saved[i..][j + 2] == saved[i + 2..][j] && saved[i..][j + 3] == saved[i + 2..][j + 1];
    }
  }

  /** A message left over between whole turns, as a crash leaves it, is dropped alone: the turns
      before and after it come back. */
  lemma OrphanIsSkipped(opening: Message, before: seq<Message>, orphan: Message, after: seq<Message>)
    requires AllPairs(before) && AllPairs(after)
    ensures CompletePairs([opening] + before + [orphan] + after, 1) == before + after
  {
    var saved := [opening] + before + [orphan] + after;
    PairsThen(saved, before, 0);
    var at := 1 + |before|;
    assert saved[at..] == [orphan] + after && saved[at + 1..] == after;
    if after != [] { assert IsPair(after, 0) && saved[at + 1] == after[0]; }
    assert !IsPair(saved, at);
    PairsComplete(saved, at + 1);
  }

  lemma {:induction false} PairsThen(saved: seq<Message>, before: seq<Message>, j: nat)
    requires AllPairs(before) && j % 2 == 0 && j <= |before|
    requires 1 + |before| <= |saved| && saved[1..1 + |before|] == before
    ensures CompletePairs(saved, 1 + j) == before[j..] + CompletePairs(saved, 1 + |before|)
    decreases |before| - j
  {
    if j < |before| {
      PairAt(saved, before, j);
      PairsThen(saved, before, j + 2);
      PairFirst(before, j, CompletePairs(saved, 1 + |before|));
    }
  }

  lemma PairAt(saved: seq<Message>, before: seq<Message>, j: nat)
    requires AllPairs(before) && j % 2 == 0 && j < |before|
    requires 1 + |before| <= |saved| && saved[1..1 + |before|] == before
    ensures IsPair(saved, 1 + j) && saved[1 + j] == before[j] && saved[2 + j] == before[j + 1]
  {
    assert IsPair(before, j);
    assert saved[1 + j] == saved[1..1 + |before|][j] && saved[2 + j] == saved[1..1 + |before|][j + 1];
  }

  lemma PairFirst(before: seq<Message>, j: nat, rest: seq<Message>)
    requires j + 2 <= |before|
    ensures [before[j], before[j + 1]] + (before[j + 2..] + rest) == before[j..] + rest
  {
  }
}
