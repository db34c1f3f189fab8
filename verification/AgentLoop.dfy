/** The turn-taking loop and its history compactor (packages/agent/src/loop.ts). The model,
    the tools, token estimates and the run's signal are parameters. */
module AgentLoop {
  import opened Wrappers
  import opened Conversation

  const LONG_HISTORY: nat := 160000
  const KEPT_CHARS: nat := 44000
  const CHUNK_CHARS: nat := 48000
  const CONTENT_LIMIT: nat := 24000
  const LEAST_LIMIT: nat := 1000
  const MAX_CALLS: nat := 32

  datatype Failure = ContextLimit | NoSummary

  /** `fits` judges a summarization request: previous summary, messages, characters of each. */
  datatype Summarizer = Summarizer(fits: (string, seq<Message>, nat) -> bool, answers: nat -> Option<string>)

  // ---- answering a turn ----

  /** What meets a call: a result, a change of control before or during it, an error, or the
      run's signal. */
  datatype Fate = Runs(ok: bool, ends: bool) | TakenOver | Revoked | Throws | Aborted

  predicate IsPage(name: string) {
    |name| >= 5 && name[..5] == "page."
  }

  datatype TurnEnd = Continue | Finished | Cancelled | Threw

  /** `ran` calls ran, one after the other from the first; at most one more answer says why the
      turn stopped. */
  ghost predicate RanInOrder(calls: seq<Call>, fates: seq<Fate>, ran: nat, results: seq<Answer>)
    requires |fates| == |calls|
  {
    && ran <= |calls| && ran <= 32 && ran <= |results| <= ran + 1
    && (forall k :: 0 <= k < ran ==> fates[k].Runs? && results[k] == Answer(calls[k].id, Executed(k, fates[k].ok)))
    && (|results| == ran + 1 ==>
          || (results[ran] == Answer("page_recovery", Harness) && ran > 0)
          || (ran < |calls| && results[ran] == Answer(calls[ran].id, Discarded) && !fates[ran].Runs?))
  }

  /** How a turn comes out, and after how many calls: at most 32 are considered, one that ends the
      run or fails on the page is the last, and one that does not run stops the turn. */
  ghost predicate ComesOut(calls: seq<Call>, fates: seq<Fate>, end: TurnEnd, ran: nat, results: seq<Answer>)
    requires |fates| == |calls|
  {
    && ran <= |calls| && ran <= 32 && ran <= |results|
    && (forall k :: 0 <= k < ran ==> fates[k].Runs? && results[k] == Answer(calls[k].id, Executed(k, fates[k].ok)))
    && (forall k :: 0 <= k < ran - 1 ==> !fates[k].ends && !FailsOnPage(calls[k], fates[k]))
    && if ran > 0 && fates[ran - 1].ends then end == Finished && |results| == ran
       else if ran > 0 && FailsOnPage(calls[ran - 1], fates[ran - 1])
       then end == Continue && results[ran..] == [Answer("page_recovery", Harness)]
       else if ran == |calls| || ran == 32 then end == Continue && |results| == ran
       else match fates[ran]
         case Runs(_, _) => false
         case Aborted => end == Cancelled && |results| == ran
         case Throws => end == Threw && |results| == ran
         case TakenOver => end == Continue && results[ran..] == [Answer(calls[ran].id, Discarded)]
         case Revoked => end == Continue && results[ran..] == [Answer(calls[ran].id, Discarded)]
  }

  /** A call of the page's tools comes back with an error. */
  predicate FailsOnPage(call: Call, fate: Fate) {
    fate.Runs? && !fate.ok && |call.name| >= 5 && call.name[..5] == "page."
  }

  lemma OutcomeIsInOrder(calls: seq<Call>, fates: seq<Fate>, end: TurnEnd, ran: nat, results: seq<Answer>)
    requires |fates| == |calls| && ComesOut(calls, fates, end, ran, results)
    ensures RanInOrder(calls, fates, ran, results)
  {
    if |results| > ran { assert results[ran] == results[ran..][0]; }
  }

  method RunCalls(calls: seq<Call>, fates: seq<Fate>) returns (end: TurnEnd, results: seq<Answer>, ran: nat)
    requires |fates| == |calls|
    ensures ComesOut(calls, fates, end, ran, results) && RanInOrder(calls, fates, ran, results)
  {
    results, ran := [], 0;
    var considered := if |calls| < MAX_CALLS then |calls| else MAX_CALLS;
    var k := 0;
    while k < considered
      invariant k == ran <= considered && |results| == ran
      invariant forall j :: 0 <= j < ran ==>
                  && fates[j].Runs? && results[j] == Answer(calls[j].id, Executed(j, fates[j].ok))
                  && !fates[j].ends && !FailsOnPage(calls[j], fates[j])
    {
      var call := calls[k];
      match fates[k] {
        case Aborted => end := Cancelled;
        case Throws => end := Threw;
        case TakenOver => end, results := Continue, results + [Answer(call.id, Discarded)];
        case Revoked => end, results := Continue, results + [Answer(call.id, Discarded)];
        case Runs(ok, ends) =>
          results := results + [Answer(call.id, Executed(k, ok))];
          ran := ran + 1;
          if ends {
            end := Finished;
          } else if !ok && IsPage(call.name) {
            end, results := Continue, results + [Answer("page_recovery", Harness)];
          } else {
            k := k + 1;
            continue;
          }
      }
      OutcomeIsInOrder(calls, fates, end, ran, results);
      return;
    }
    end := Continue;
    OutcomeIsInOrder(calls, fates, end, ran, results);
  }

  /** The first result under this id, if any call was answered under it. */
  function Find(results: seq<Answer>, id: CallId): (r: Answer)
    ensures r.id == id
    ensures r in results || r == Answer(id, NotExecuted)
  {
    if results == [] then Answer(id, NotExecuted)
    else if results[0].id == id then results[0]
    else Find(results[1..], id)
  }

  lemma {:induction false} FindFirst(results: seq<Answer>, i: nat)
    requires i < |results| && forall j :: 0 <= j < i ==> results[j].id != results[i].id
    ensures Find(results, results[i].id) == results[i]
  {
    if i > 0 { FindFirst(results[1..], i - 1); }
  }

  method NativeResults(calls: seq<Call>, results: seq<Answer>) returns (native: seq<Answer>)
    ensures Answers(calls, native)
    ensures forall i :: 0 <= i < |calls| ==> native[i] == Find(results, calls[i].id)
  {
    native := [];
    for i := 0 to |calls|
      invariant |native| == i
      invariant forall k :: 0 <= k < i ==> native[k] == Find(results, calls[k].id)
    {
      native := native + [Find(results, calls[i].id)];
    }
  }

  /** A note under another id changes no answer. */
  lemma {:induction false} FindBefore(results: seq<Answer>, note: Answer, id: CallId)
    requires note.id != id
    ensures Find(results + [note], id) == Find(results, id)
  {
    if results == [] {
      assert ([] + [note])[1..] == [];
    } else if results[0].id != id {
      FindBefore(results[1..], note, id);
      assert (results + [note])[1..] == results[1..] + [note];
    }
  }

  /** Distinct ids, none of them the loop's own. */
  ghost predicate OwnIds(calls: seq<Call>) {
    && (forall j, k :: 0 <= j < k < |calls| ==> calls[j].id != calls[k].id)
    && (forall j :: 0 <= j < |calls| ==> calls[j].id != "page_recovery" && calls[j].id != "call_limit")
  }

  /** Then each call that ran is answered with its own result, */
  lemma RanIsAnswered(calls: seq<Call>, fates: seq<Fate>, ran: nat, results: seq<Answer>, i: nat)
    requires |fates| == |calls| && RanInOrder(calls, fates, ran, results) && OwnIds(calls) && i < ran
    ensures Find(results, calls[i].id) == Answer(calls[i].id, Executed(i, fates[i].ok))
    ensures Find(results + [Answer("call_limit", Harness)], calls[i].id) == Find(results, calls[i].id)
  {
    assert forall j :: 0 <= j < i ==> results[j] == Answer(calls[j].id, Executed(j, fates[j].ok));
    assert results[i] == Answer(calls[i].id, Executed(i, fates[i].ok));
    FindFirst(results, i);
    FindBefore(results, Answer("call_limit", Harness), calls[i].id);
  }

  /** and each that did not is told so. */
  lemma DiscardedIsAnswered(calls: seq<Call>, fates: seq<Fate>, ran: nat, results: seq<Answer>, i: nat)
    requires |fates| == |calls| && RanInOrder(calls, fates, ran, results) && OwnIds(calls) && ran <= i < |calls|
    ensures Find(results, calls[i].id).outcome in {Discarded, NotExecuted}
    ensures Find(results + [Answer("call_limit", Harness)], calls[i].id) == Find(results, calls[i].id)
  {
    FindBefore(results, Answer("call_limit", Harness), calls[i].id);
    var found := Find(results, calls[i].id);
    forall j | 0 <= j < |results| && results[j] == found ensures found.outcome.Discarded? { NotRanUnder(calls, fates,
        ran, results, i, j); }
  }

  lemma NotRanUnder(calls: seq<Call>, fates: seq<Fate>, ran: nat, results: seq<Answer>, i: nat, j: nat)
    requires |fates| == |calls| && RanInOrder(calls, fates, ran, results) && OwnIds(calls) && ran <= i < |calls|
    requires j < |results| && results[j].id == calls[i].id
    ensures results[j].outcome.Discarded?
  {
    assert forall k :: 0 <= k < ran ==> results[k].id == calls[k].id != calls[i].id;
  }

  /** The tool message has the first result under each call's id. */
  ghost predicate Answered(calls: seq<Call>, results: seq<Answer>, tool: Message) {
    && tool.Tool? && tool.results.Some? && |tool.results.value| == |calls|
    && var all := if |calls| > 32 then results + [Answer("call_limit", Harness)] else results;
    && forall i :: 0 <= i < |calls| ==> tool.results.value[i] == Find(all, calls[i].id)
  }

  // ---- dropping old turns ----

  /** What is left of `messages` when `removed` of them go from behind the opening message. */
  function Left(messages: seq<Message>, removed: nat): nat
    requires removed < |messages|
  {
    |messages[0].content| + Chars(messages[1 + removed..])
  }

  /** No more turns go than it takes, and never the newest. */
  ghost predicate JustEnough(messages: seq<Message>, force: bool, removed: nat)
    requires removed < |messages|
  {
    && removed % 2 == 0
    && (removed > 0 ==> |messages| - removed >= 2)
    && (if force then removed == (if |messages| > 3 then 2 else 0)
        else
          && (removed >= 2 ==> Left(messages, removed - 2) > 44000 && |messages| - removed + 2 > 3)
          && (Left(messages, removed) <= 44000 || |messages| - removed <= 3))
  }

  ghost function Flatten(chunks: seq<seq<Message>>): seq<Message> {
    if chunks == [] then [] else Flatten(chunks[..|chunks| - 1]) + chunks[|chunks| - 1]
  }

  lemma LeftWithout(messages: seq<Message>, removed: nat)
    requires removed + 3 <= |messages|
    ensures Left(messages, removed) == Chars(messages[1 + removed..3 + removed]) + Left(messages, removed + 2)
  {
    assert messages[1 + removed..] == messages[1 + removed..3 + removed] + messages[3 + removed..];
    CharsOfBoth(messages[1 + removed..3 + removed], messages[3 + removed..]);
  }

  method ChooseRemoved(messages: seq<Message>, force: bool) returns (removed: nat)
    requires messages != []
    ensures removed < |messages| && JustEnough(messages, force, removed)
  {
    removed := 0;
    var chars := Chars(messages);
    ghost var before := chars;
    assert chars == Left(messages, 0);
    while (chars > KEPT_CHARS || force) && |messages| - removed > 3
      invariant removed % 2 == 0 && removed < |messages|
      invariant chars == Left(messages, removed) && (force ==> removed == 0)
      invariant removed >= 2 ==>
                  before == Left(messages, removed - 2) && before > KEPT_CHARS && |messages| - removed + 2 > 3
    {
      LeftWithout(messages, removed);
      before := chars;
      chars := chars - Chars(messages[1 + removed..3 + removed]);
      removed := removed + 2;
      if force { break; }
    }
  }

  /** Halving from 24,000 characters a message: the largest limit at which the request fits. */
  method FitChunk(s: Summarizer, summary: string, chunk: seq<Message>) returns (limit: Option<nat>)
    ensures limit.Some? ==>
              s.fits(summary, chunk, limit.value) && limit.value in [24000, 12000, 6000, 3000, 1500]
    ensures limit.None? <==> forall l :: l in [24000, 12000, 6000, 3000, 1500] ==> !s.fits(summary, chunk, l)
    ensures limit.Some? ==> forall l :: l in [24000, 12000, 6000, 3000, 1500] && l > limit.value ==>
              !s.fits(summary, chunk, l)
  {
    var l := CONTENT_LIMIT;
    while l >= LEAST_LIMIT
      invariant l in [24000, 12000, 6000, 3000, 1500, 750]
      invariant forall m :: m in [24000, 12000, 6000, 3000, 1500] && m > l ==> !s.fits(summary, chunk, m)
    {
      if s.fits(summary, chunk, l) { return Some(l); }
      l := l / 2;
    }
    return None;
  }

  /** A chunk is whole turns: one, or several of bounded size. */
  ghost predicate ChunksOk(chunks: seq<seq<Message>>) {
    forall k :: 0 <= k < |chunks| ==> |chunks[k]| >= 2 && (|chunks[k]| > 2 ==> Chars(chunks[k]) <= 48000)
  }

  /** Each chunk but the last has no room for the turn that follows it. */
  ghost predicate ChunksFull(chunks: seq<seq<Message>>) {
    forall k :: 0 <= k < |chunks| - 1 && |chunks[k + 1]| >= 2 ==> Chars(chunks[k] + chunks[k + 1][..2]) > 48000
  }

  /** What a text counts for. */
  lemma CharsOfOne(message: Message)
    ensures Chars([]) == 0 && Chars([message]) == |message.content|
  {
  }

  /** The chunks are `dropped` up to `offset`, and the last has no room for what is there. */
  ghost predicate ChunksReach(chunks: seq<seq<Message>>, dropped: seq<Message>, offset: nat)
    requires offset <= |dropped|
  {
    && Flatten(chunks) == dropped[..offset] && ChunksOk(chunks) && ChunksFull(chunks)
    && (chunks != [] && offset + 2 <= |dropped| ==>
          Chars(chunks[|chunks| - 1] + dropped[offset..offset + 2]) > 48000)
  }

  lemma ChunksReachOn(chunks: seq<seq<Message>>, dropped: seq<Message>, offset: nat, end: nat)
    requires offset + 2 <= end <= |dropped| && |dropped| % 2 == 0 && end % 2 == 0
    requires ChunksReach(chunks, dropped, offset)
    requires end > offset + 2 ==> Chars(dropped[offset..end]) <= 48000
    requires end < |dropped| ==> Chars(dropped[offset..end + 2]) > 48000
    ensures ChunksReach(chunks + [dropped[offset..end]], dropped, end)
  {
    SlicesJoin(dropped, offset, end);
    MoreChunks(chunks, dropped[offset..end]);
  }

  lemma SlicesJoin(dropped: seq<Message>, offset: nat, end: nat)
    requires offset + 2 <= end <= |dropped|
    ensures dropped[offset..end][..2] == dropped[offset..offset + 2]
    ensures dropped[..offset] + dropped[offset..end] == dropped[..end]
    ensures end + 2 <= |dropped| ==> dropped[offset..end] + dropped[end..end + 2] == dropped[offset..end + 2]
  {
  }

  lemma MoreChunks(chunks: seq<seq<Message>>, chunk: seq<Message>)
    requires ChunksOk(chunks) && ChunksFull(chunks) && |chunk| >= 2 && (|chunk| > 2 ==> Chars(chunk) <= 48000)
    requires chunks != [] ==> Chars(chunks[|chunks| - 1] + chunk[..2]) > 48000
    ensures ChunksOk(chunks + [chunk]) && ChunksFull(chunks + [chunk])
    ensures Flatten(chunks + [chunk]) == Flatten(chunks) + chunk
  {
    var more := chunks + [chunk];
    assert more[..|chunks|] == chunks && more[|chunks|] == chunk;
    forall k | 0 <= k < |more| - 1 && |more[k + 1]| >= 2 ensures Chars(more[k] + more[k + 1][..2]) > 48000 {
      assert more[k] == chunks[k];
      if k + 1 < |chunks| { assert more[k + 1] == chunks[k + 1]; } else { assert more[k + 1] == chunk; }
    }
  }

  /** The summary that chunk `k` is to be added to. */
  function Before(s: Summarizer, previous: string, k: nat): Option<string> {
    if k == 0 then Some(previous) else s.answers(k - 1)
  }

  /** The request for chunk `k` fits with its messages cut to some length. */
  ghost predicate Fits(s: Summarizer, previous: string, k: nat, chunk: seq<Message>) {
    && Before(s, previous, k).Some?
    && exists limit :: limit in [24000, 12000, 6000, 3000, 1500] && s.fits(Before(s, previous, k).value, chunk, limit)
  }

  ghost predicate AllFit(s: Summarizer, previous: string, chunks: seq<seq<Message>>) {
    forall k :: 0 <= k < |chunks| ==> Fits(s, previous, k, chunks[k])
  }

  /** The messages that come next do not fit, however they are cut. */
  ghost predicate Stuck(s: Summarizer, previous: string, chunks: seq<seq<Message>>, dropped: seq<Message>) {
    exists chunk :: chunk != [] && Flatten(chunks) + chunk <= dropped && !Fits(s, previous, |chunks|, chunk)
  }

  /** All of `dropped` up to `offset` is in the chunks, and each of them was sent. */
  ghost predicate SoFar(s: Summarizer, previous: string, chunks: seq<seq<Message>>, dropped: seq<Message>, offset: nat)
    requires offset <= |dropped|
  {
    ChunksReach(chunks, dropped, offset) && AllFit(s, previous, chunks)
  }

  lemma AllFitMore(s: Summarizer, previous: string, chunks: seq<seq<Message>>, chunk: seq<Message>)
    requires AllFit(s, previous, chunks) && Fits(s, previous, |chunks|, chunk)
    ensures AllFit(s, previous, chunks + [chunk])
  {
  }

  lemma StuckHere(s: Summarizer, previous: string, chunks: seq<seq<Message>>, dropped: seq<Message>, offset: nat,
      end: nat)
    requires offset < end <= |dropped| && SoFar(s, previous, chunks, dropped, offset)
    requires !Fits(s, previous, |chunks|, dropped[offset..end])
    ensures Stuck(s, previous, chunks, dropped)
  {
    assert Flatten(chunks) + dropped[offset..end] == dropped[..end];
  }

  /** Summarize the dropped messages chunk by chunk; every one of them is read, once, in order. */
  method SummarizeDropped(s: Summarizer, previous: string, dropped: seq<Message>)
        returns (r: Result<string, Failure>, ghost chunks: seq<seq<Message>>, ghost reached: nat)
    requires |dropped| % 2 == 0
    ensures reached <= |dropped| && (r.Ok? ==> reached == |dropped|)
    ensures SoFar(s, previous, chunks, dropped, reached)
    ensures r.Ok? ==> Some(r.value) == if chunks == [] then Some(previous) else s.answers(|chunks| - 1)
    ensures r == Err(NoSummary) ==> s.answers(|chunks|).None?
    ensures r == Err(ContextLimit) ==> Stuck(s, previous, chunks, dropped)
    ensures r.Ok? ==> if dropped == [] then r.value == previous else IsAnswer(s, r.value)
  {
    var summary, offset, calls := previous, 0, 0;
    chunks := [];
    while offset < |dropped|
      invariant offset % 2 == 0 && offset <= |dropped| && calls == |chunks|
      invariant SoFar(s, previous, chunks, dropped, offset) && Some(summary) == Before(s, previous, |chunks|)
    {
      var end := ChunkEnd(dropped, offset);
      var limit := FitChunk(s, summary, dropped[offset..end]);
      FitsIff(s, previous, calls, dropped[offset..end], summary, limit);
      if limit.None? {
        StuckHere(s, previous, chunks, dropped, offset, end);
        return Err(ContextLimit), chunks, offset;
      }
      var answer := s.answers(calls);
      if answer.None? { return Err(NoSummary), chunks, offset; }
      ChunkTaken(s, previous, chunks, dropped, offset, end);
      chunks := chunks + [dropped[offset..end]];
      offset, summary, calls := end, answer.value, calls + 1;
    }
    return Ok(summary), chunks, offset;
  }

  lemma ChunkTaken(s: Summarizer, previous: string, chunks: seq<seq<Message>>, dropped: seq<Message>, offset: nat,
      end: nat)
    requires offset + 2 <= end <= |dropped| && |dropped| % 2 == 0 && end % 2 == 0
    requires SoFar(s, previous, chunks, dropped, offset)
    requires end > offset + 2 ==> Chars(dropped[offset..end]) <= 48000
    requires end < |dropped| ==> Chars(dropped[offset..end + 2]) > 48000
    requires Fits(s, previous, |chunks|, dropped[offset..end])
    ensures SoFar(s, previous, chunks + [dropped[offset..end]], dropped, end)
  {
    ChunksReachOn(chunks, dropped, offset, end);
    AllFitMore(s, previous, chunks, dropped[offset..end]);
  }

  lemma FitsIff(s: Summarizer, previous: string, k: nat, chunk: seq<Message>, summary: string, limit: Option<nat>)
    requires Some(summary) == Before(s, previous, k)
    requires limit.Some? ==> limit.value in [24000, 12000, 6000, 3000, 1500] && s.fits(summary, chunk, limit.value)
    requires limit.None? ==> forall l :: l in [24000, 12000, 6000, 3000, 1500] ==> !s.fits(summary, chunk, l)
    ensures Fits(s, previous, k, chunk) <==> limit.Some?
  {
  }

  lemma ChunkGrows(dropped: seq<Message>, offset: nat, end: nat)
    requires offset <= end && end + 2 <= |dropped|
    ensures Chars(dropped[offset..end + 2]) == Chars(dropped[offset..end]) + Chars(dropped[end..end + 2])
  {
    var longer, chunk, pair := dropped[offset..end + 2], dropped[offset..end], dropped[end..end + 2];
    assert longer == chunk + pair;
    CharsOfBoth(chunk, pair);
  }

  method ChunkEnd(dropped: seq<Message>, offset: nat) returns (end: nat)
    requires |dropped| % 2 == 0 && offset % 2 == 0 && offset < |dropped|
    ensures offset + 2 <= end <= |dropped| && end % 2 == 0
    ensures end > offset + 2 ==> Chars(dropped[offset..end]) <= 48000
    ensures end < |dropped| ==> Chars(dropped[offset..end + 2]) > 48000
  {
    end := offset;
    var chars := 0;
    while end < |dropped|
      invariant offset <= end <= |dropped| && end % 2 == 0 && chars == Chars(dropped[offset..end])
      invariant end > offset + 2 ==> chars <= CHUNK_CHARS
    {
      var pair := dropped[end..end + 2];
      ChunkGrows(dropped, offset, end);
      if end > offset && chars + Chars(pair) > CHUNK_CHARS { break; }
      chars := chars + Chars(pair);
      end := end + 2;
    }
  }

  // ---- the loop ----

  /** One answer of the model, the two texts that go into the transcript, and what meets its
      calls. */
  datatype Reply = Reply(calls: seq<Call>, echoed: string, resultText: string, fates: seq<Fate>, aborted: bool)

  /** A conversation handed to the archive, and how far its inherited turns reach. */
  datatype Saved = Saved(messages: seq<Message>, inherited: nat)

  class Loop {
    const summaryOf: string -> string     // the summary inside an opening message, or ""
    var messages: seq<Message>
    ghost var inherited: nat              // restored messages still here that were not answered for
    ghost var saves: seq<Saved>

    ghost predicate SavesOk()
      reads this
    {
      forall k :: 0 <= k < |saves| ==> ShapedAfter(saves[k].messages, saves[k].inherited)
    }

    ghost predicate Valid()
      reads this
    {
      ShapedAfter(messages, inherited) && SavesOk()
    }

    /** Restores the complete pairs of whatever was saved; all of it, and nothing unanswered, if
        this loop saved it. */
    constructor (restored: Option<seq<Message>>, summaryOf: string -> string)
      ensures Valid() && saves == [] && this.summaryOf == summaryOf
      ensures messages[1..] == if restored.None? then [] else CompletePairs(restored.value, 1)
      ensures messages[0] ==
                if restored.Some? && restored.value != [] && restored.value[0].User?
                   && summaryOf(restored.value[0].content) != ""
                then User("Begin.\n\n" + summaryOf(restored.value[0].content)) else User("Begin.")
      ensures inherited == if restored.None? || Shaped(restored.value) then 0 else |messages| - 1
      ensures restored.Some? && Shaped(restored.value) ==> messages[1..] == restored.value[1..]
    {
      this.summaryOf := summaryOf;
      saves := [];
      var earlier := if restored.Some? then restored.value else [];
      var summary := if earlier != [] && earlier[0].User? then summaryOf(earlier[0].content) else "";
      var first := User(if summary != "" then "Begin.\n\n" + summary else "Begin.");
      var kept: seq<Message> := [];
      var i := 1;
      while i + 1 < |earlier|
        invariant kept + CompletePairs(earlier, i) == CompletePairs(earlier, 1)
        decreases |earlier| - i
      {
        if IsPair(earlier, i) {
          ThenPair(kept, [earlier[i], earlier[i + 1]], CompletePairs(earlier, i + 2));
          kept := kept + [earlier[i], earlier[i + 1]];
          i := i + 1;
        }
        i := i + 1;
      }
      assert CompletePairs(earlier, i) == [] && kept == CompletePairs(earlier, 1);
      RestoredIsShaped(earlier, first);
      messages := [first] + kept;
      inherited := if restored.None? || Shaped(restored.value) then 0 else |kept|;
    }

    method Save()
      requires Valid()
      modifies this`saves
      ensures Valid() && saves == old(saves) + [Saved(messages, inherited)]
    {
      saves := saves + [Saved(messages, inherited)];
    }

    /** Old turns go, oldest first, and a summary takes their place; if that fails, nothing
        does. `read` is what the summarizer was given. */
    method CompactHistory(s: Summarizer, force: bool) returns (r: Result<nat, Failure>, ghost read: seq<Message>)
      requires Valid()
      modifies this`messages, this`inherited
      ensures Valid()
      ensures r.Err? || r.value == 0 ==> messages == old(messages) && inherited == old(inherited)
      ensures r.Ok? ==> r.value < |old(messages)| && JustEnough(old(messages), force, r.value)
      ensures r.Ok? && r.value > 0 ==>
                && OpensWith(s, messages[0])
                && messages[1..] == old(messages)[1 + r.value..] && |messages| >= 3
                && inherited == Less(old(inherited), r.value)
                && read == old(messages)[1..1 + r.value]
    {
      read := [];
      var removed := ChooseRemoved(messages, force);
      if removed == 0 { return Ok(0), []; }
      var summary;
      summary, read := Summarize(s, messages, removed);
      if summary.Err? { return Err(summary.error), []; }
      var first := User("Begin.\n\n" + summary.value);
      assert OpensWith(s, first);
      ShapedWithout(messages, inherited, first, removed);
      messages := [first] + messages[1 + removed..];
      inherited := Less(inherited, removed);
      return Ok(removed), read;
    }

    method Summarize(s: Summarizer, messages: seq<Message>, removed: nat)
        returns (r: Result<string, Failure>, ghost read: seq<Message>)
      requires messages != [] && removed % 2 == 0 && removed < |messages|
      ensures r.Ok? ==> read == messages[1..1 + removed]
      ensures r.Ok? && removed > 0 ==> IsAnswer(s, r.value)
    {
      ghost var chunks, reached;
      r, chunks, reached := SummarizeDropped(s, summaryOf(messages[0].content), messages[1..1 + removed]);
      read := Flatten(chunks);
      assert r.Ok? ==> messages[1..1 + removed][..reached] == messages[1..1 + removed];
    }

    /** Ends with a request within the budget, or by an error: each round drops one turn. */
    method FitBudget(s: nat -> Summarizer, estimate: seq<Message> -> nat, budget: nat) returns (r: Result<(), Failure>)
      requires Valid()
      modifies this`messages, this`inherited, this`saves
      ensures Valid() && old(saves) <= saves
      ensures r.Ok? ==> estimate(messages) <= budget
      ensures |messages| <= |old(messages)| && |saves| - |old(saves)| == (|old(messages)| - |messages|) / 2
      ensures messages[1..] == old(messages)[1 + |old(messages)| - |messages|..]
      ensures inherited == Less(old(inherited), |old(messages)| - |messages|)
      ensures forall k :: |old(saves)| <= k < |saves| ==> saves[k].inherited <= old(inherited)
      ensures r == Err(ContextLimit) && |messages| > 3 ==> estimate(messages) > budget
      ensures estimate(old(messages)) <= budget ==> r.Ok? && messages == old(messages) && saves == old(saves)
      ensures if |messages| == |old(messages)| then messages == old(messages) && saves == old(saves)
              else |saves| > |old(saves)| && saves[|saves| - 1] == Saved(messages, inherited)
    {
      var round := 0;
      while estimate(messages) > budget
        invariant Valid() && old(saves) <= saves
        invariant |messages| <= |old(messages)| && |saves| - |old(saves)| == (|old(messages)| - |messages|) / 2
        invariant messages[1..] == old(messages)[1 + |old(messages)| - |messages|..]
        invariant inherited == Less(old(inherited), |old(messages)| - |messages|)
        invariant forall k :: |old(saves)| <= k < |saves| ==> saves[k].inherited <= old(inherited)
        invariant estimate(old(messages)) <= budget ==> messages == old(messages) && saves == old(saves)
        invariant if |messages| == |old(messages)| then messages == old(messages) && saves == old(saves)
                  else |saves| > |old(saves)| && saves[|saves| - 1] == Saved(messages, inherited)
        decreases |messages|
      {
        var removed, _ := CompactHistory(s(round), true);
        if removed.Err? { return Err(removed.error); }
        if removed.value == 0 { return Err(ContextLimit); }
        Save();
        round := round + 1;
      }
      return Ok(());
    }

    /** One reply of the model. A turn that is saved is complete; one that is cut short by the
        signal or an error is not saved, and the loop does not go on from it. */
    method Turn(reply: Reply) returns (end: TurnEnd, ghost ran: nat, ghost results: seq<Answer>)
      requires Valid() && |reply.fates| == |reply.calls|
      modifies this`messages, this`saves
      ensures SavesOk() && old(messages) <= messages
      ensures reply.aborted || reply.calls == [] ==>
                && messages == old(messages) && saves == old(saves)
                && end == if reply.aborted then Cancelled else Continue
      ensures !reply.aborted && reply.calls != [] ==> ComesOut(reply.calls, reply.fates, end, ran, results)
      ensures end.Cancelled? || end.Threw? ==> saves == old(saves)
      ensures end.Continue? || end.Finished? ==> Valid()
      ensures (end.Continue? || end.Finished?) && reply.calls != [] ==>
                && |messages| == |old(messages)| + 2 && old(messages) <= messages
                && messages[|messages| - 2] == Assistant(reply.echoed, reply.calls)
                && saves == old(saves) + [Saved(messages, inherited)]
                && Answered(reply.calls, results, messages[|messages| - 1])
    {
      ran, results := 0, [];
      if reply.aborted { return Cancelled, ran, results; }
      if reply.calls == [] { return Continue, ran, results; }
      var before := messages;
      var assistant := Assistant(reply.echoed, reply.calls);
      messages := messages + [assistant];
      var all, count;
      end, all, count := RunCalls(reply.calls, reply.fates);
      results, ran := all, count;
      if end.Cancelled? || end.Threw? { return end, ran, results; }
      if |reply.calls| > MAX_CALLS { all := all + [Answer("call_limit", Harness)]; }
      var native := NativeResults(reply.calls, all);
      var tool := Tool(reply.resultText, Some(native));
      ShapedWith(before, inherited, assistant, tool);
      messages := messages + [tool];
      assert messages == before + [assistant, tool];
      Save();
    }

    /** Any number of turns from whatever was restored: every conversation ever saved is an
        opening and whole turns, and each turn this loop took is answered. If the archive held
        nothing or what this loop saves, they all are. The replies are taken in order up to the
        first that ends the run, and no turn that was taken whole goes unsaved. */
    method Run(s: nat -> nat -> Summarizer, estimate: seq<Message> -> nat, budget: nat, replies: seq<Reply>)
        returns (end: Result<TurnEnd, Failure>, ghost taken: nat)
      requires Valid() && forall k :: 0 <= k < |replies| ==> |replies[k].fates| == |replies[k].calls|
      modifies this`messages, this`inherited, this`saves
      ensures SavesOk() && old(saves) <= saves
      ensures forall k :: |old(saves)| <= k < |saves| ==> saves[k].inherited <= old(inherited)
      ensures taken <= |replies| && AllWentOn(replies, taken)
      ensures match end
              case Ok(how) => if taken == |replies| then how == Continue
                              else how != Continue && EndsAs(replies[taken], how)
              case Err(_) => taken < |replies|
      ensures AllKept(saves[|old(saves)|..], replies,
                      if taken < |replies| && end == Ok(Finished) then taken + 1 else taken)
    {
      taken := 0;
      for k := 0 to |replies|
        invariant Valid() && old(saves) <= saves && inherited <= old(inherited) && taken == k
        invariant forall i :: |old(saves)| <= i < |saves| ==> saves[i].inherited <= old(inherited)
        invariant AllWentOn(replies, k) && AllKept(saves[|old(saves)|..], replies, k)
      {
        var turn := NextRound(|old(saves)|, replies, k, s(k), estimate, budget);
        if turn.Err? { return Err(turn.error), taken; }
        if !turn.value.Continue? { return Ok(turn.value), taken; }
        taken := taken + 1;
      }
      return Ok(Continue), taken;
    }

    /** Reply `k`, after those before it have been kept since save `from`. */
    method NextRound(ghost from: nat, replies: seq<Reply>, k: nat, s: nat -> Summarizer, estimate: seq<Message> -> nat,
        budget: nat) returns (end: Result<TurnEnd, Failure>)
      requires Valid() && k < |replies| && from <= |saves|
      requires forall i :: 0 <= i < |replies| ==> |replies[i].fates| == |replies[i].calls|
      requires AllKept(saves[from..], replies, k)
      modifies this`messages, this`inherited, this`saves
      ensures SavesOk() && old(saves) <= saves && inherited <= old(inherited)
      ensures forall i :: |old(saves)| <= i < |saves| ==> saves[i].inherited <= old(inherited)
      ensures AllKept(saves[from..], replies, k)
      ensures end.Ok? ==> EndsAs(replies[k], end.value)
      ensures end.Ok? && (end.value.Continue? || end.value.Finished?) ==>
                Valid() && AllKept(saves[from..], replies, k + 1)
    {
      ghost var before := saves;
      ghost var sent;
      end, sent := Round(s, estimate, budget, replies[k]);
      KeptStays(before[from..], saves[from..], replies, k);
      if end.Ok? && (end.value.Continue? || end.value.Finished?) {
        KeptHere(saves, replies[k], from, |before|);
      }
    }

    /** What comes before a request, and the turn of its reply; what is sent is within the budget. */
    method Round(s: nat -> Summarizer, estimate: seq<Message> -> nat, budget: nat, reply: Reply)
        returns (end: Result<TurnEnd, Failure>, ghost sent: seq<Message>)
      requires Valid() && |reply.fates| == |reply.calls|
      modifies this`messages, this`inherited, this`saves
      ensures SavesOk() && old(saves) <= saves && inherited <= old(inherited)
      ensures forall k :: |old(saves)| <= k < |saves| ==> saves[k].inherited <= old(inherited)
      ensures end.Ok? ==> EndsAs(reply, end.value) && estimate(sent) <= budget && sent <= messages
      ensures end.Ok? && (end.value.Continue? || end.value.Finished?) ==>
                Valid() && TurnKept(saves[|old(saves)|..], reply)
    {
      var fitted := Prepare(s, estimate, budget);
      sent := messages;
      if fitted.Err? { return Err(fitted.error), sent; }
      ghost var prepared := saves;
      var turn := TakeTurn(reply);
      if turn.Continue? || turn.Finished? {
        KeptHere(saves, reply, |old(saves)|, |prepared|);
      }
      return Ok(turn), sent;
    }

    /** A turn, and that it is kept. */
    method TakeTurn(reply: Reply) returns (end: TurnEnd)
      requires Valid() && |reply.fates| == |reply.calls|
      modifies this`messages, this`saves
      ensures SavesOk() && EndsAs(reply, end) && old(saves) <= saves && old(messages) <= messages
      ensures forall k :: |old(saves)| <= k < |saves| ==> saves[k].inherited == inherited
      ensures end.Continue? || end.Finished? ==> Valid() && TurnKept(saves[|old(saves)|..], reply)
    {
      ghost var ran, results;
      end, ran, results := Turn(reply);
      if (end.Continue? || end.Finished?) && reply.calls != [] && !reply.aborted {
        assert saves[|old(saves)|..] == [Saved(messages, inherited)];
        assert saves[|old(saves)|..][0].messages == messages && HasTurn(messages, reply);
      }
    }

    /** What comes before each request: a long history is compacted, then the budget is met. */
    method Prepare(s: nat -> Summarizer, estimate: seq<Message> -> nat, budget: nat) returns (r: Result<(), Failure>)
      requires Valid()
      modifies this`messages, this`inherited, this`saves
      ensures Valid() && old(saves) <= saves && inherited <= old(inherited)
      ensures forall k :: |old(saves)| <= k < |saves| ==> saves[k].inherited <= old(inherited)
      ensures r.Ok? ==> estimate(messages) <= budget
      ensures Chars(old(messages)) <= 160000 && estimate(old(messages)) <= budget ==>
                r.Ok? && messages == old(messages) && saves == old(saves)
      ensures r.Ok? && Chars(old(messages)) > 160000 ==>
                exists removed: nat :: removed < |old(messages)| && JustEnough(old(messages), false, removed)
                                       && |messages| <= |old(messages)| - removed
      ensures |messages| <= |old(messages)|
      ensures if |messages| == |old(messages)| then saves == old(saves)
              else |saves| > |old(saves)| && saves[|saves| - 1] == Saved(messages, inherited)
    {
      if Chars(messages) > LONG_HISTORY {
        var removed, _ := CompactHistory(s(0), false);
        if removed.Err? { return Err(removed.error); }
        if removed.value > 0 { Save(); }
      }
      r := FitBudget(s, estimate, budget);
    }
  }

  ghost predicate IsAnswer(s: Summarizer, text: string) {
    exists k: nat :: s.answers(k) == Some(text)
  }

  /** The opening message that carries a summary. */
  ghost predicate OpensWith(s: Summarizer, message: Message) {
    exists text :: IsAnswer(s, text) && message == User("Begin.\n\n" + text)
  }

  /** How the turn of a reply ends. */
  ghost predicate EndsAs(reply: Reply, end: TurnEnd)
    requires |reply.fates| == |reply.calls|
  {
    if reply.aborted then end == Cancelled
    else if reply.calls == [] then end == Continue
    else exists ran, results :: ComesOut(reply.calls, reply.fates, end, ran, results)
  }

  /** The last turn is this reply's, with what came of its calls. */
  ghost predicate HasTurn(messages: seq<Message>, reply: Reply)
    requires |reply.fates| == |reply.calls|
  {
    && |messages| >= 3 && messages[|messages| - 2] == Assistant(reply.echoed, reply.calls)
    && exists end, ran, results :: ComesOut(reply.calls, reply.fates, end, ran, results)
         && Answered(reply.calls, results, messages[|messages| - 1])
  }

  ghost predicate TurnKept(saves: seq<Saved>, reply: Reply)
    requires |reply.fates| == |reply.calls|
  {
    reply.calls == [] || exists i :: 0 <= i < |saves| && HasTurn(saves[i].messages, reply)
  }

  ghost predicate AllKept(saves: seq<Saved>, replies: seq<Reply>, n: nat)
    requires n <= |replies| && forall k :: 0 <= k < |replies| ==> |replies[k].fates| == |replies[k].calls|
  {
    forall k :: 0 <= k < n ==> TurnKept(saves, replies[k])
  }

  ghost predicate AllWentOn(replies: seq<Reply>, n: nat)
    requires n <= |replies| && forall k :: 0 <= k < |replies| ==> |replies[k].fates| == |replies[k].calls|
  {
    forall k :: 0 <= k < n ==> EndsAs(replies[k], Continue)
  }

  lemma KeptStays(saves: seq<Saved>, more: seq<Saved>, replies: seq<Reply>, n: nat)
    requires saves <= more && n <= |replies|
    requires forall k :: 0 <= k < |replies| ==> |replies[k].fates| == |replies[k].calls|
    requires AllKept(saves, replies, n)
    ensures AllKept(more, replies, n)
  {
    forall k | 0 <= k < n ensures TurnKept(more, replies[k]) {
      if replies[k].calls != [] {
        var i :| 0 <= i < |saves| && HasTurn(saves[i].messages, replies[k]);
        assert more[i] == saves[i];
      }
    }
  }

  lemma KeptHere(saves: seq<Saved>, reply: Reply, from: nat, mid: nat)
    requires |reply.fates| == |reply.calls| && from <= mid <= |saves| && TurnKept(saves[mid..], reply)
    ensures TurnKept(saves[from..], reply)
  {
    if reply.calls != [] {
      var i :| 0 <= i < |saves[mid..]| && HasTurn(saves[mid..][i].messages, reply);
      assert saves[from..][mid - from + i] == saves[mid..][i];
    }
  }

  lemma ThenPair(kept: seq<Message>, pair: seq<Message>, rest: seq<Message>)
    ensures kept + (pair + rest) == (kept + pair) + rest
  {
  }

  /** Restored pairs have the shape, and answered ones stay answered. */
  lemma RestoredIsShaped(earlier: seq<Message>, first: Message)
    requires first.User?
    ensures ShapedAfter([first] + CompletePairs(earlier, 1), |CompletePairs(earlier, 1)|)
    ensures earlier == [] || Shaped(earlier) ==> Shaped([first] + CompletePairs(earlier, 1))
    ensures Shaped(earlier) ==> CompletePairs(earlier, 1) == earlier[1..]
  {
    OnlyPairs(earlier, 1, first);
    if earlier != [] && Shaped(earlier) {
      ShapedIsRestored(earlier, 1);
      ShapedWithout(earlier, 0, first, 0);
    }
  }
}
