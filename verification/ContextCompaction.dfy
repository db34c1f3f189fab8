/** Compacting before a model request (packages/agent/src/context-compaction.ts). What is sent,
    how large it is and what the summarizing model answers are parameters. */
module ContextCompaction {
  import opened Wrappers
  import opened Conversation
  import opened ContextArchive
  import opened ContextHistories

  const CHUNK: nat := 24000
  const LONG_OPENING: nat := 2000
  const SOFT_LIMIT: nat := 60000
  const HEADROOM_LIMIT: nat := 44000
  const CONTINUE :=
    "Continue from the compacted working memory and recent evidence. Re-observe before using historical anchors."

  /** Everything the procedure asks of a serialized request: its size in characters and its
      token bound, given the conversation, the pending operations and the summary; the sizes of
      a turn and of an operation; and whether a summarization request is within budget. */
  datatype Sizes = Sizes(
    characters: (seq<Message>, seq<Item>, string) -> nat,
    input: (seq<Message>, seq<Item>, string) -> nat,
    turn: seq<Message> -> nat,
    item: Item -> nat,
    fits: (string, bool, seq<Message>, seq<Item>) -> bool,
    maximum: nat)

  /** A store write lands, lands although its caller sees an error, or fails. */
  datatype Write = Lands | LandsUnheard | Fails

  /** What happens in each pass, by its number. */
  datatype World = World(aborts: nat -> bool, answers: nat -> Option<string>, writes: nat -> Write)

  /** `Unheard` is a failure too: the write landed, and its caller does not know. */
  datatype End = Prepared | Aborted | OverBudget | Failed | Unheard

  // ---- choosing what to summarize ----

  /** The size of the turns before message `end`. */
  function TurnSizes(sizes: Sizes, messages: seq<Message>, end: nat): nat
    requires end % 2 == 1 && end <= |messages|
  {
    if end == 1 then 0 else TurnSizes(sizes, messages, end - 2) + sizes.turn(messages[end - 2..end])
  }

  lemma NextTurn(messages: seq<Message>, i: nat)
    requires 1 <= i && i + 2 <= |messages|
    ensures messages[1..i] + messages[i..i + 2] == messages[1..i + 2]
  {
  }

  function ItemSizes(sizes: Sizes, items: seq<Item>): nat {
    if items == [] then 0 else ItemSizes(sizes, items[..|items| - 1]) + sizes.item(items[|items| - 1])
  }

  /** The oldest turns, a chunk of them, and never the newest one. */
  method OldTurns(sizes: Sizes, messages: seq<Message>) returns (dropped: seq<Message>)
    requires |messages| % 2 == 1
    ensures |dropped| % 2 == 0 && |dropped| < |messages| && dropped == messages[1..1 + |dropped|]
    ensures if |messages| > 3 then 0 < |dropped| <= |messages| - 3 else dropped == []
    ensures |dropped| > 2 ==> TurnSizes(sizes, messages, 1 + |dropped|) <= 24000
    ensures |dropped| + 3 < |messages| ==> TurnSizes(sizes, messages, 3 + |dropped|) > 24000
  {
    dropped := [];
    var size, i := 0, 1;
    while i < |messages| - 2
      invariant i % 2 == 1 && i == 1 + |dropped| && i <= |messages| && dropped == messages[1..i]
      invariant |messages| > 3 ==> i <= |messages| - 2
      invariant |messages| <= 3 ==> i == 1
      invariant size == TurnSizes(sizes, messages, i) && (i > 3 ==> size <= 24000)
    {
      var length := sizes.turn(messages[i..i + 2]);
      if size + length > CHUNK && dropped != [] { break; }
      NextTurn(messages, i);
      dropped := dropped + messages[i..i + 2];
      size := size + length;
      i := i + 2;
    }
  }

  /** The oldest pending operations, never the newest two. */
  method OldItems(sizes: Sizes, pending: seq<Item>) returns (items: seq<Item>)
    ensures |items| <= |pending| && items == pending[..|items|]
    ensures if |pending| > 2 then 0 < |items| <= |pending| - 2 else items == []
    ensures |items| > 1 ==> ItemSizes(sizes, items) <= 24000
    ensures |items| + 2 < |pending| ==> ItemSizes(sizes, items) + sizes.item(pending[|items|]) > 24000
  {
    items := [];
    var size := 0;
    while |items| < |pending| - 2
      invariant |items| <= |pending| && items == pending[..|items|]
      invariant if |pending| > 2 then |items| <= |pending| - 2 else items == []
      invariant size == ItemSizes(sizes, items) && (|items| > 1 ==> size <= 24000)
    {
      var next := pending[|items|];
      var length := sizes.item(next);
      if size + length > CHUNK && items != [] { break; }
      assert (items + [next])[..|items|] == items;
      items := items + [next];
      size := size + length;
    }
  }

  /** A summarization request that is too large gives up its newest operations, then its newest
      turns; nothing is clipped. */
  method ShrinkRequest(sizes: Sizes, summary: string, opening: bool, turns: seq<Message>, items: seq<Item>)
        returns (keptTurns: seq<Message>, keptItems: seq<Item>)
    requires |turns| % 2 == 0
    ensures keptTurns <= turns && keptItems <= items && |keptTurns| % 2 == 0
    ensures sizes.fits(summary, opening, keptTurns, keptItems) || (keptTurns == [] && keptItems == [])
    ensures keptTurns != turns ==> keptItems == []
    ensures sizes.fits(summary, opening, turns, items) ==> keptTurns == turns && keptItems == items
  {
    keptTurns, keptItems := turns, items;
    while !sizes.fits(summary, opening, keptTurns, keptItems) && (keptItems != [] || keptTurns != [])
      invariant keptTurns <= turns && keptItems <= items && |keptTurns| % 2 == 0
      invariant keptTurns != turns ==> keptItems == []
      invariant sizes.fits(summary, opening, turns, items) ==> keptTurns == turns && keptItems == items
      decreases |keptItems| + |keptTurns|
    {
      if keptItems != [] { keptItems := keptItems[..|keptItems| - 1]; }
      else { keptTurns := keptTurns[..|keptTurns| - 2]; }
    }
  }

  // ---- the passes ----

  /** What has gone since `before`: whole turns and operations, oldest first, each of them read
      by the summarizer, with the newest turn and the two newest operations still here. */
  ghost predicate Compacted(before: seq<Message>, after: seq<Message>, readTurns: seq<Message>,
    pendingBefore: seq<Item>, pendingAfter: seq<Item>, readItems: seq<Item>)
  {
    && before != [] && after != []
    && (after[0] == before[0] || (after[0] == User(CONTINUE) && |before[0].content| > 2000))
    && before[1..] == readTurns + after[1..]
    && (readTurns != [] ==> |after| >= 3)
    && pendingBefore == readItems + pendingAfter
    && (readItems != [] ==> |pendingAfter| >= 2)
  }

  lemma CompactedMore(before: seq<Message>, middle: seq<Message>, after: seq<Message>, turns: seq<Message>,
      more: seq<Message>, pending: seq<Item>, pendingMiddle: seq<Item>, pendingAfter: seq<Item>, items: seq<Item>,
      moreItems: seq<Item>)
    requires Compacted(before, middle, turns, pending, pendingMiddle, items)
    requires Compacted(middle, after, more, pendingMiddle, pendingAfter, moreItems)
    ensures Compacted(before, after, turns + more, pending, pendingAfter, items + moreItems)
  {
    assert before[1..] == turns + (more + after[1..]);
    assert more == [] ==> |after| == |middle|;
    assert |CONTINUE| <= 2000;
  }

  lemma LessTwice(inherited: nat, turns: seq<Message>, more: seq<Message>)
    ensures Less(Less(inherited, |turns|), |more|) == Less(inherited, |turns + more|)
  {
  }

  /** Old turns and old operations, at least one of them or a long opening. */
  ghost predicate Removable(messages: seq<Message>, pending: seq<Item>, turns: seq<Message>, items: seq<Item>) {
    && messages != [] && |turns| % 2 == 0 && |turns| < |messages| && turns == messages[1..1 + |turns|]
    && (turns != [] ==> |messages| - |turns| >= 3)
    && items <= pending && (items != [] ==> |pending| - |items| >= 2)
    && (turns != [] || items != [] || |messages[0].content| > 2000)
  }

  lemma RemovedMeasures(messages: seq<Message>, first: Message, pending: seq<Item>, turns: seq<Message>,
        items: seq<Item>)
    requires Removable(messages, pending, turns, items)
    requires first == if |messages[0].content| > 2000 then User(CONTINUE) else messages[0]
    ensures Measure([first] + messages[1 + |turns|..], pending[|items|..]) < Measure(messages, pending)
    ensures Compacted(messages, [first] + messages[1 + |turns|..], turns, pending, pending[|items|..], items)
  {
    assert |CONTINUE| <= 2000;
    assert messages[1..] == turns + messages[1 + |turns|..];
  }

  /** What is left has the shape, and is what the archive has pending from there on. */
  lemma RemovedStays(messages: seq<Message>, first: Message, pending: seq<Item>, turns: seq<Message>, items: seq<Item>,
      inherited: nat, ops: seq<Operation>, through: Option<nat>)
    requires Removable(messages, pending, turns, items) && ShapedAfter(messages, inherited)
    requires pending == Unsummarized(ops, through)
    requires first == if |messages[0].content| > 2000 then User(CONTINUE) else messages[0]
    ensures var left := [first] + messages[1 + |turns|..];
            && ShapedAfter(left, Less(inherited, |turns|))
            && Measure(left, pending[|items|..]) < Measure(messages, pending)
            && Compacted(messages, left, turns, pending, pending[|items|..], items)
    ensures pending[|items|..] ==
              if items == [] then Unsummarized(ops, if through.None? then Some(0) else through)
              else Unsummarized(ops, Some(items[|items| - 1].sequence))
  {
    ShapedWithout(messages, inherited, first, |turns|);
    RemovedMeasures(messages, first, pending, turns, items);
    if items != [] { SummarizedPrefix(ops, through, |items|); }
  }

  /** What the next summary is made from, or why there is none. */
  method Choose(sizes: Sizes, messages: seq<Message>, pending: seq<Item>, summary: string)
      returns (stop: Option<End>, turns: seq<Message>, items: seq<Item>)
    requires |messages| % 2 == 1
    ensures stop.Some? ==> stop.value in {Prepared, OverBudget}
    ensures stop == Some(Prepared) ==>
              && sizes.input(messages, pending, summary) <= sizes.maximum
              && |messages| <= 3 && |pending| <= 2 && |messages[0].content| <= 2000
    ensures |messages| <= 3 && |pending| <= 2 && |messages[0].content| <= 2000 ==>
              stop == Some(if sizes.input(messages, pending, summary) <= sizes.maximum then Prepared else OverBudget)
    ensures stop.None? ==>
              && Removable(messages, pending, turns, items)
              && sizes.fits(summary, |messages[0].content| > 2000, turns, items)
  {
    turns := OldTurns(sizes, messages);
    var opening := |messages[0].content| > LONG_OPENING;
    items := OldItems(sizes, pending);
    if turns == [] && items == [] && !opening {
      stop := Some(if sizes.input(messages, pending, summary) <= sizes.maximum then Prepared else OverBudget);
      return;
    }
    turns, items := ShrinkRequest(sizes, summary, opening, turns, items);
    if !sizes.fits(summary, opening, turns, items) || (items == [] && turns == [] && !opening) {
      return Some(OverBudget), turns, items;
    }
    stop := None;
  }

  class Preparation {
    const history: ContextHistory
    var messages: seq<Message>
    var stored: seq<Message>              // the conversation in the archive, with its summary
    ghost var inherited: nat              // restored messages still here that were not answered for

    constructor (history: ContextHistory, messages: seq<Message>, ghost inherited: nat)
      ensures this.history == history && this.messages == messages && stored == messages
      ensures this.inherited == inherited
    {
      this.history, this.messages, this.stored, this.inherited := history, messages, messages, inherited;
    }

    ghost predicate Valid()
      reads this, history
    {
      ShapedAfter(messages, inherited) && history.Valid()
    }

    ghost function Open(): seq<Item>
      reads this, history
    {
      Unsummarized(history.ops, history.summarizedThrough)
    }

    /** One pass: either everything moves together, in the conversation, in the archive and in
        the list in memory, or nothing does; only when the write lands unheard does the archive
        move alone, by the same prefix. */
    method Pass(sizes: Sizes, world: World, n: nat, pending: seq<Item>, summary: string)
        returns (end: Option<End>, pending': seq<Item>, summary': string, ghost turns: seq<Message>,
            ghost items: seq<Item>)
      requires Valid() && pending == Open()
      modifies this, history`summary, history`summarizedThrough
      ensures Valid()
      ensures end.Some? ==>
                messages == old(messages) && inherited == old(inherited) && pending' == pending && summary' == summary
      ensures end.Some? && !end.value.Unheard? ==>
                && stored == old(stored) && turns == [] && items == []
                && history.summarizedThrough == old(history.summarizedThrough)
                && history.summary == old(history.summary)
      ensures end == Some(Prepared) ==>
                && sizes.input(messages, pending, summary) <= sizes.maximum
                && |messages| <= 3 && |pending| <= 2 && |messages[0].content| <= 2000
      ensures end == Some(Aborted) <==> world.aborts(n)
      ensures end == Some(Failed) ==> world.answers(n).None? || world.writes(n).Fails?
      ensures end.None? || end.value.Unheard? ==> world.answers(n) == Some(history.summary)
      ensures end.None? ==> world.writes(n).Lands?
      ensures end == Some(Unheard) ==> world.writes(n).LandsUnheard?
      ensures end.None? || end.value.Unheard? ==>
                && Compacted(old(messages), stored, turns, pending, Open(), items)
                && sizes.fits(summary, |old(messages)[0].content| > 2000, turns, items)
                && Measure(stored, Open()) < Measure(old(messages), pending)
      ensures end.None? ==> messages == stored && pending' == Open() && history.summary == summary'
      ensures end.None? ==> inherited == Less(old(inherited), |turns|)
    {
      pending', summary', turns, items := pending, summary, [], [];
      if world.aborts(n) { return Some(Aborted), pending', summary', turns, items; }
      var stop, dropped, operations := Choose(sizes, messages, pending, summary);
      if stop.Some? { return stop, pending', summary', turns, items; }
      var answer := world.answers(n);
      if answer.None? || world.writes(n).Fails? { return Some(Failed), pending', summary', turns, items; }
      StoreSummary(pending, dropped, operations, answer.value);
      turns, items := dropped, operations;
      if world.writes(n).LandsUnheard? { return Some(Unheard), pending', summary', turns, items; }
      messages, inherited := stored, Less(inherited, |dropped|);
      pending', summary' := pending[|operations|..], answer.value;
      end := None;
    }

    /** The summary, the position in the archive and the shorter conversation, in one write. */
    method StoreSummary(ghost pending: seq<Item>, dropped: seq<Message>, operations: seq<Item>, summary: string)
      requires Valid() && pending == Open() && Removable(messages, pending, dropped, operations)
      modifies this`stored, history`summary, history`summarizedThrough
      ensures Valid() && ShapedAfter(stored, Less(inherited, |dropped|))
      ensures history.summary == summary && Open() == pending[|operations|..]
      ensures Compacted(messages, stored, dropped, pending, Open(), operations)
      ensures Measure(stored, Open()) < Measure(messages, pending)
    {
      var first := if |messages[0].content| > LONG_OPENING then User(CONTINUE) else messages[0];
      RemovedStays(messages, first, pending, dropped, operations, inherited, history.ops, history.summarizedThrough);
      history.Compact(summary, if operations == [] then None else Some(operations[|operations| - 1].sequence));
      stored := [first] + messages[1 + |dropped|..];
    }

    /** Terminates whatever the sizes are, since every pass takes something away; when it ends
        well the request is within the budget, and unless the last write landed unheard the list
        in memory is what the archive has pending. */
    method PrepareContext(sizes: Sizes, world: World)
        returns (end: End, pending: seq<Item>, ghost turns: seq<Message>, ghost items: seq<Item>)
      requires Valid()
      modifies this, history`cached, history`summary, history`summarizedThrough
      ensures Valid() && (!end.Unheard? ==> pending == Open() && inherited == Less(old(inherited), |turns|))
      ensures Compacted(old(messages), if end.Unheard? then stored else messages, turns, old(Open()), Open(), items)
      ensures end.Prepared? ==> Relaxed(sizes, pending, if turns == [] && items == [] && messages == old(messages)
                                                       then 60000 else 44000)
      ensures WithinLimits(sizes, old(messages), old(Open()), old(history.summary)) ==>
                end.Prepared? && turns == [] && items == [] && messages == old(messages)
    {
      pending := history.Pending();
      var summary := history.summary;
      assert pending == old(Open());
      if sizes.characters(messages, pending, summary) <= SOFT_LIMIT
         && sizes.input(messages, pending, summary) <= sizes.maximum
      {
        return Prepared, pending, [], [];
      }
      end, pending, turns, items := Passes(sizes, world, pending, summary);
    }

    /** The passes, until the request has the headroom it should. */
    method Passes(sizes: Sizes, world: World, pending0: seq<Item>, summary0: string)
        returns (end: End, pending: seq<Item>, ghost turns: seq<Message>, ghost items: seq<Item>)
      requires Valid() && pending0 == Open() && summary0 == history.summary
      modifies this, history`summary, history`summarizedThrough
      ensures Valid() && (!end.Unheard? ==> pending == Open() && inherited == Less(old(inherited), |turns|))
      ensures Compacted(old(messages), if end.Unheard? then stored else messages, turns, pending0, Open(), items)
      ensures end.Prepared? ==> Relaxed(sizes, pending, if turns == [] && items == [] && messages == old(messages)
                                                       then SOFT_LIMIT else HEADROOM_LIMIT)
      ensures !end.Unheard? && (turns != [] || items != [] || messages != old(messages)) ==> stored == messages
    {
      pending := pending0;
      var summary := summary0;
      turns, items := [], [];
      var n, soft, target := 0, SOFT_LIMIT, sizes.maximum;
      ghost var first, had := messages, inherited;
      while sizes.characters(messages, pending, summary) > soft || sizes.input(messages, pending, summary) > target
        invariant Valid() && summary == history.summary && target <= sizes.maximum && pending == Open()
        invariant Underway(first, messages, turns, pending0, pending, items, n) && inherited == Less(had, |turns|)
        invariant if n == 0 then soft == SOFT_LIMIT else soft == HEADROOM_LIMIT && stored == messages
        decreases Measure(messages, pending)
      {
        ghost var before, was := messages, pending;
        var stopped;
        ghost var more, moreItems;
        stopped, pending, summary, more, moreItems := Pass(sizes, world, n, pending, summary);
        if stopped.Some? && !stopped.value.Unheard? { return stopped.value, pending, turns, items; }
        UnderwayMore(first, before, stored, turns, more, pending0, was, Open(), items, moreItems, n);
        LessTwice(had, turns, more);
        turns, items := turns + more, items + moreItems;
        if stopped.Some? { return Unheard, pending, turns, items; }
        n, soft, target := n + 1, HEADROOM_LIMIT, sizes.maximum * 8 / 10;
      }
      return Prepared, pending, turns, items;
    }

    /** The request is within the budget, and below the limit or down to what must stay. */
    ghost predicate Relaxed(sizes: Sizes, pending: seq<Item>, limit: nat)
      requires messages != []
      reads this, history
    {
      && sizes.input(messages, pending, history.summary) <= sizes.maximum
      && (|| (|messages| <= 3 && |pending| <= 2 && |messages[0].content| <= 2000)
          || sizes.characters(messages, pending, history.summary) <= limit)
    }
  }

  /** There is nothing to compact. */
  predicate WithinLimits(sizes: Sizes, messages: seq<Message>, pending: seq<Item>, summary: string) {
    && sizes.characters(messages, pending, summary) <= 60000
    && sizes.input(messages, pending, summary) <= sizes.maximum
  }

  /** What `n` passes have come to. */
  ghost predicate Underway(first: seq<Message>, messages: seq<Message>, turns: seq<Message>, pending0: seq<Item>,
      pending: seq<Item>, items: seq<Item>, n: nat)
  {
    && Compacted(first, messages, turns, pending0, pending, items)
    && (n == 0 ==> turns == [] && items == [] && messages == first)
  }

  lemma UnderwayMore(first: seq<Message>, messages: seq<Message>, left: seq<Message>, turns: seq<Message>,
      more: seq<Message>, pending0: seq<Item>, pending: seq<Item>, open: seq<Item>, items: seq<Item>,
      moreItems: seq<Item>, n: nat)
    requires Underway(first, messages, turns, pending0, pending, items, n)
    requires Compacted(messages, left, more, pending, open, moreItems)
    ensures Underway(first, left, turns + more, pending0, open, items + moreItems, n + 1)
  {
    CompactedMore(first, messages, left, turns, more, pending0, pending, open, items, moreItems);
  }

  /** Turns, pending operations and a long opening: what a pass can take away. */
  function Measure(messages: seq<Message>, pending: seq<Item>): nat {
    |messages| + |pending| + if messages != [] && |messages[0].content| > 2000 then 1 else 0
  }
}
