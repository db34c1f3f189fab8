/** The archive object (packages/agent/src/context-history.ts), method by method. */
module ContextHistories {
  import opened Wrappers
  import opened ContextArchive

  class ContextHistory {
    const bytesOf: Entry -> nat
    const textOf: Operation -> string
    var blobs: seq<Entry>                 // put once, never changed
    var head: Option<Link>
    var summarizedThrough: Option<nat>
    var summary: string
    var cached: Cache                     // the maps `cache` and `sizes`, and `cacheBytes`
    ghost var refs: seq<Ref>
    ghost var ops: seq<Operation>         // everything committed so far

    ghost predicate CacheOk()
      reads this
    {
      Accounted(cached, bytesOf) && Bounded(cached)
    }

    /** Nothing is lost: operations 1 to n lie along the chain from the head. */
    ghost predicate Archived()
      reads this
    {
      Dense(blobs, refs, ops) && head == LinkTo(refs, |refs|)
    }

    /** What is cached for a committed operation is its blob. */
    ghost predicate Agrees()
      reads this
    {
      |refs| == |ops| && CacheAgrees(cached.entries, blobs, refs)
    }

    ghost predicate Valid()
      reads this
    {
      Archived() && CacheOk() && Agrees()
    }

    /** Valid, and with the next number free if it was so before. */
    ghost predicate Steady(free: bool)
      reads this
    {
      Valid() && (free ==> NextIsFree())
    }

    /** Nothing is cached under the number the next append will take. Only a failed append can
        end this, and while it holds, an append keeps the object valid. */
    ghost predicate NextIsFree()
      reads this
    {
      |ops| + 1 !in cached.entries
    }

    constructor (bytesOf: Entry -> nat, textOf: Operation -> string)
      ensures Valid() && NextIsFree() && ops == [] && cached == NoCache
      ensures this.bytesOf == bytesOf && this.textOf == textOf
    {
      this.bytesOf, this.textOf := bytesOf, textOf;
      blobs, head, summarizedThrough, summary := [], None, None, "";
      cached := NoCache;
      refs, ops := [], [];
    }

    /** After this the entry is cached unless it is larger than the whole cache; what had to go
        were the oldest insertions. */
    method CacheEntry(saved: Entry)
      requires CacheOk()
      modifies this`cached
      ensures CacheOk() && cached == Entered(old(cached), saved, bytesOf(saved))
    {
      EnteredIsOk(cached, saved, bytesOf);
      if saved.sequence in cached.entries { return; }
      var bytes := bytesOf(saved);
      if bytes > CACHE_BYTES { return; }
      cached := Cache(cached.entries[saved.sequence := saved], cached.order + [saved.sequence],
                      cached.sizes[saved.sequence := bytes], cached.bytes + bytes);
      assert cached == Insert(old(cached), saved, bytes);
      while |cached.order| > CACHE_ENTRIES || cached.bytes > CACHE_BYTES
        invariant Shrinkable(cached, bytesOf) && Shrunk(cached) == Shrunk(Insert(old(cached), saved, bytes))
        decreases |cached.order|
      {
        EvictKeepsShrinkable(cached, bytesOf);
        var sequence := cached.order[0];
        Listed(cached, bytesOf, 0);
        cached := Cache(cached.entries - {sequence}, cached.order[1..],
                        cached.sizes - {sequence}, cached.bytes - cached.sizes[sequence]);
      }
    }

    /** The cache answers first. */
    method Fetch(link: Link) returns (saved: Entry)
      requires CacheOk() && link.ref < |blobs| && blobs[link.ref].sequence == link.sequence
      modifies this`cached
      ensures CacheOk() && cached == Entered(old(cached), saved, bytesOf(saved)) && saved.sequence == link.sequence
      ensures saved == if link.sequence in old(cached).entries then old(cached).entries[link.sequence]
                else blobs[link.ref]
    {
      assert Held(cached, bytesOf, link.sequence);
      saved := if link.sequence in cached.entries then cached.entries[link.sequence] else blobs[link.ref];
      CacheEntry(saved);
    }

    /** While the cache agrees, every read sees the archive. */
    method FetchArchived(ghost q: nat, link: Link) returns (saved: Entry)
      requires Valid() && 1 <= q <= |ops| && link == Link(q, refs[q - 1])
      modifies this`cached
      ensures Steady(old(NextIsFree()))
      ensures saved == Entry(ops[q - 1], q, LinkTo(refs, q - 1))
    {
      assert Linked(blobs, refs, ops, q - 1) && Agreed(cached.entries, blobs, refs, q);
      saved := Fetch(link);
      EnteredAgrees(old(cached), saved, bytesOf, blobs, refs);
      EnteredIsOk(old(cached), saved, bytesOf);
    }

    /** A committed append adds the operation and loses nothing, and it leaves the cache in
        agreement exactly when nothing was cached under the next number before, or just this
        entry was: a failed append can have left another. A failed one changes nothing but the
        cache. */
    method Append(operation: Operation, commits: bool) returns (ghost saved: Entry)
      requires Valid()
      modifies this`blobs, this`head, this`cached, this`refs, this`ops
      ensures saved == Entry(operation, old(|ops|) + 1, old(head)) && blobs == old(blobs) + [saved]
      ensures Archived() && CacheOk() && cached == Entered(old(cached), saved, bytesOf(saved))
      ensures ops == if commits then old(ops) + [operation] else old(ops)
      ensures !commits ==> head == old(head) && refs == old(refs) && Valid()
      ensures commits ==> NextIsFree() && (old(NextIsFree()) ==> Valid())
      ensures commits ==>
                (Agrees() <==> old(NextIsFree()) || old(cached.entries[|ops| + 1]) == saved)
    {
      var entry := Entry(operation, if head.Some? then head.value.sequence + 1 else 1, head);
      saved := entry;
      var ref := |blobs|;
      blobs := blobs + [entry];
      CacheEntry(entry);
      assert Agreed(old(cached).entries, old(blobs), refs, entry.sequence);
      EnteredAgrees(old(cached), entry, bytesOf, old(blobs), refs);
      AgreesOnMore(cached.entries, old(blobs), refs, entry);
      DenseGrows(old(blobs), refs, ops, operation, entry);
      EnteredIsOk(old(cached), entry, bytesOf);
      assert Agreed(old(cached).entries, old(blobs), refs, entry.sequence + 1);
      if commits {
        head := Some(Link(entry.sequence, ref));
        refs := refs + [ref];
        ops := ops + [operation];
        AgreesAfterAppend(cached.entries, blobs, old(refs), entry);
      }
    }

    /** What the conversation has yet to summarize. */
    method Pending() returns (items: seq<Item>)
      requires Valid()
      modifies this`cached
      ensures Steady(old(NextIsFree()))
      ensures items == Unsummarized(ops, summarizedThrough)
    {
      var through := if summarizedThrough.Some? then summarizedThrough.value else 0;
      var link := head;
      var newestFirst: seq<Item> := [];
      ghost var q: nat := |ops|;
      while link.Some? && link.value.sequence > through
        invariant q <= |ops| && link == LinkTo(refs, q) && Steady(old(NextIsFree()))
        invariant |newestFirst| == |ops| - q && (q < |ops| ==> q >= through)
        invariant forall k :: 0 <= k < |newestFirst| ==> newestFirst[k] == Item(|ops| - k, ops[|ops| - 1 - k])
        decreases q
      {
        var saved := FetchArchived(q, link.value);
        newestFirst := newestFirst + [Item(saved.sequence, saved.operation)];
        link := saved.previous;
        q := q - 1;
      }
      items := seq(|newestFirst|, i requires 0 <= i < |newestFirst| => newestFirst[|newestFirst| - 1 - i]);
      assert items == Unsummarized(ops, summarizedThrough);
    }

    method Compact(newSummary: string, through: Option<nat>)
      requires Valid()
      modifies this`summary, this`summarizedThrough
      ensures Valid() && summary == newSummary
      ensures summarizedThrough == Some(if through.Some? then through.value
                else if old(summarizedThrough).Some? then old(summarizedThrough).value else 0)
    {
      summary := newSummary;
      summarizedThrough := if through.Some? then through else if summarizedThrough.Some? then summarizedThrough
          else Some(0);
    }

    /** Any committed operation can be read in full, whatever has been summarized. */
    method ReadOne(sequence: nat, offset: nat, limit: nat) returns (chunk: Option<Chunk>)
      requires Valid()
      modifies this`cached
      ensures Steady(old(NextIsFree()))
      ensures chunk == if 1 <= sequence <= |ops| then Some(ChunkAt(textOf(ops[sequence - 1]), offset, limit)) else None
    {
      var link := head;
      ghost var q: nat := |ops|;
      while link.Some?
        invariant q <= |ops| && link == LinkTo(refs, q) && Steady(old(NextIsFree()))
        invariant sequence <= q || sequence > |ops|
        decreases q
      {
        var saved := FetchArchived(q, link.value);
        if sequence == saved.sequence {
          var text := textOf(saved.operation);
          return Some(Chunk(Slice(text, offset, offset + limit),
              if offset + limit < |text| then Some(offset + limit) else None));
        }
        link := saved.previous;
        q := q - 1;
      }
      return None;
    }

    /** A page of matches below `before`, newest first. */
    method ReadPage(picks: Operation -> bool, before: Option<nat>) returns (page: Page)
      requires Valid()
      modifies this`cached
      ensures Steady(old(NextIsFree()))
      ensures PageOk(ops, picks, Below(before, |ops|), page)
    {
      var link := head;
      page := Page([], None, 0);
      ghost var q: nat, from := |ops|, Below(before, |ops|);
      while link.Some? && |page.found| < PAGE_MATCHES && page.scanned < PAGE_SCAN
        invariant q <= |ops| && link == LinkTo(refs, q) && Steady(old(NextIsFree()))
        invariant Scanning(ops, picks, from, q, page)
        invariant |page.found| <= PAGE_MATCHES && page.scanned <= PAGE_SCAN
        decreases q
      {
        var saved := FetchArchived(q, link.value);
        if before.None? || saved.sequence < before.value {
          var hit := if picks(saved.operation) then [saved.sequence] else [];
          ScanStep(ops, picks, from, q, page, hit);
          page := Page(page.found + hit, if saved.previous.Some? then Some(saved.sequence) else None, page.scanned + 1);
        }
        link := saved.previous;
        q := q - 1;
      }
      ScanEnds(ops, picks, from, q, page);
    }
  }

  /** An append whose manifest write failed leaves its entry in the cache; the operation that
      takes the sequence number next is then read back as the one that failed. */
  method FailedAppendIsReadBack(h: ContextHistory, failed: Operation, next: Operation) returns (saved: Entry)
    requires h.Valid() && h.ops == [] && h.cached == NoCache && failed != next
    requires h.bytesOf(Entry(failed, 1, None)) <= CACHE_BYTES
    modifies h
    ensures h.Archived() && h.ops == [next] && !h.Agrees()
    ensures saved.operation == failed
  {
    ghost var lost := h.Append(failed, false);
    ghost var kept := h.Append(next, true);
    assert Linked(h.blobs, h.refs, h.ops, 0);
    saved := h.Fetch(h.head.value);
  }
}
