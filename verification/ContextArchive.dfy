/** What the archive of tool operations is made of (packages/agent/src/context-history.ts):
    pages of matches, chunks of text, a bounded cache, and a chain of immutable entries. */
module ContextArchive {
  import opened Wrappers

  const CACHE_ENTRIES: nat := 256
  const CACHE_BYTES: nat := 8000000
  const PAGE_MATCHES: nat := 20
  const PAGE_SCAN: nat := 200

  type Ref = nat

  datatype Operation = Operation(id: string, evidence: string)
  datatype Link = Link(sequence: nat, ref: Ref)
  datatype Entry = Entry(operation: Operation, sequence: nat, previous: Option<Link>)

  // ---- searching ----

  predicate Hit(ops: seq<Operation>, picks: Operation -> bool, q: nat) {
    1 <= q <= |ops| && picks(ops[q - 1])
  }

  /** The matching sequence numbers from `from` down to 1. */
  function Matching(ops: seq<Operation>, picks: Operation -> bool, from: nat): (r: seq<nat>)
    requires from <= |ops|
  {
    if from == 0 then []
    else (if Hit(ops, picks, from) then [from] else []) + Matching(ops, picks, from - 1)
  }

  /** The list is what its name says: descending, and exactly the matches. */
  lemma {:induction false} MatchingIsExact(ops: seq<Operation>, picks: Operation -> bool, from: nat)
    requires from <= |ops|
    ensures var r := Matching(ops, picks, from);
            && (forall i, j :: 0 <= i < j < |r| ==> r[i] > r[j])
            && (forall q: nat :: q in r <==> q <= from && Hit(ops, picks, q))
  {
    if from > 0 {
      MatchingIsExact(ops, picks, from - 1);
      var rest := Matching(ops, picks, from - 1);
      forall k | 0 <= k < |rest| ensures rest[k] < from { assert rest[k] in rest; }
      if Hit(ops, picks, from) {
        assert forall q :: q in [from] + rest <==> q == from || q in rest;
      } else {
        assert Matching(ops, picks, from) == rest;
      }
    }
  }

  lemma {:induction false} MatchingPrefix(ops: seq<Operation>, ops': seq<Operation>, picks: Operation -> bool,
        from: nat)
    requires from <= |ops| && ops <= ops'
    ensures Matching(ops', picks, from) == Matching(ops, picks, from)
  {
    if from > 0 { MatchingPrefix(ops, ops', picks, from - 1); }
  }

  datatype Page = Page(found: seq<nat>, nextBefore: Option<nat>, scanned: nat)

  /** Where a search below `before` starts, and where the page after `nextBefore` does. */
  function Below(before: Option<nat>, count: nat): (q: nat)
    ensures q <= count
  {
    if before.None? || before.value > count then count else if before.value == 0 then 0 else before.value - 1
  }

  function Rest(page: Page): nat {
    if page.nextBefore.None? || page.nextBefore.value == 0 then 0 else page.nextBefore.value - 1
  }

  /** A page takes the next matches in order and leaves the others; it stops early only when it
      is full or has looked at as many entries as it may, and its cursor always moves. */
  ghost predicate PageOk(ops: seq<Operation>, picks: Operation -> bool, from: nat, page: Page)
    requires from <= |ops|
  {
    && |page.found| <= 20 && page.scanned <= 200
    && (page.nextBefore.Some? ==> 0 < Rest(page) < from && (|page.found| == 20 || page.scanned == 200))
    && page.scanned == from - Rest(page)
    && Matching(ops, picks, from) == page.found + Matching(ops, picks, Rest(page))
  }

  /** A scan from `from` that is about to look at entry `q`. */
  ghost predicate Scanning(ops: seq<Operation>, picks: Operation -> bool, from: nat, q: nat, page: Page)
    requires from <= |ops| && q <= |ops|
  {
    if q >= from then page == Page([], None, 0)
    else
      && page.scanned == from - q && page.nextBefore == (if q == 0 then None else Some(q + 1))
      && Matching(ops, picks, from) == page.found + Matching(ops, picks, q)
  }

  lemma Regroup(a: seq<nat>, b: seq<nat>, c: seq<nat>)
    ensures a + (b + c) == (a + b) + c
  {
  }

  lemma ScanStep(ops: seq<Operation>, picks: Operation -> bool, from: nat, q: nat, page: Page, hit: seq<nat>)
    requires 1 <= q <= from <= |ops| && Scanning(ops, picks, from, q, page)
    requires hit == if picks(ops[q - 1]) then [q] else []
    ensures Scanning(ops, picks, from, q - 1,
              Page(page.found + hit, if q == 1 then None else Some(q), page.scanned + 1))
  {
    var rest := Matching(ops, picks, q - 1);
    assert Matching(ops, picks, q) == hit + rest;
    Regroup(page.found, hit, rest);
    assert q == from ==> page.found + hit == hit;
  }

  lemma ScanEnds(ops: seq<Operation>, picks: Operation -> bool, from: nat, q: nat, page: Page)
    requires q <= |ops| && from <= |ops| && Scanning(ops, picks, from, q, page)
    requires |page.found| <= PAGE_MATCHES && page.scanned <= PAGE_SCAN
    requires q == 0 || |page.found| == PAGE_MATCHES || page.scanned == PAGE_SCAN
    ensures PageOk(ops, picks, from, page)
  {
  }

  ghost function Joined(pages: seq<Page>): seq<nat> {
    if pages == [] then [] else pages[0].found + Joined(pages[1..])
  }

  /** `pages` were read one after another, each from the cursor the one before it gave; the
      archive may have grown to `archives[k]` by the time of page `k`. */
  ghost predicate Followed(archives: seq<seq<Operation>>, picks: Operation -> bool, from: nat, pages: seq<Page>)
    decreases |pages|
  {
    && |archives| == |pages| > 0 && from <= |archives[0]|
    && PageOk(archives[0], picks, from, pages[0])
    && (|pages| == 1 || (pages[0].nextBefore.Some? && archives[0] <= archives[1]
        && Followed(archives[1..], picks, Rest(pages[0]), pages[1..])))
  }

  /** Pages read on from each other join to the list of matches. */
  lemma {:induction false} PagesJoin(archives: seq<seq<Operation>>, picks: Operation -> bool, from: nat,
        pages: seq<Page>)
    requires Followed(archives, picks, from, pages) && pages[|pages| - 1].nextBefore.None?
    ensures Joined(pages) == Matching(archives[0], picks, from)
    decreases |pages|
  {
    if |pages| == 1 {
      assert Joined(pages[1..]) == [];
    } else {
      PagesJoin(archives[1..], picks, Rest(pages[0]), pages[1..]);
      MatchingPrefix(archives[0], archives[1], picks, Rest(pages[0]));
    }
  }

  /** Following `nextBefore` to its end lists every match of the archive exactly once, in
      descending order, whatever is appended meanwhile. */
  lemma PagesEnumerate(archives: seq<seq<Operation>>, picks: Operation -> bool, from: nat, pages: seq<Page>)
    requires Followed(archives, picks, from, pages) && pages[|pages| - 1].nextBefore.None?
    ensures var r := Joined(pages);
            && (forall i, j :: 0 <= i < j < |r| ==> r[i] > r[j])
            && (forall q: nat :: q in r <==> q <= from && Hit(archives[0], picks, q))
  {
    PagesJoin(archives, picks, from, pages);
    MatchingIsExact(archives[0], picks, from);
  }

  /** And the end comes: every cursor is lower than the one before. */
  lemma {:induction false} PagesEnd(archives: seq<seq<Operation>>, picks: Operation -> bool, from: nat,
        pages: seq<Page>)
    requires Followed(archives, picks, from, pages)
    ensures |pages| <= from + 1
    decreases |pages|
  {
    if |pages| > 1 { PagesEnd(archives[1..], picks, Rest(pages[0]), pages[1..]); }
  }

  // ---- reading one entry ----

  function Min(a: nat, b: nat): nat { if a < b then a else b }

  /** `slice(from, to)`, which stops at the end. */
  function Slice(text: string, from: nat, to: nat): string
    requires from <= to
  {
    text[Min(from, |text|)..Min(to, |text|)]
  }

  datatype Chunk = Chunk(text: string, nextOffset: Option<nat>)

  function ChunkAt(text: string, offset: nat, limit: nat): Chunk {
    Chunk(Slice(text, offset, offset + limit), if offset + limit < |text| then Some(offset + limit) else None)
  }

  /** What a reader collects from `offset` on, asking for `limits[0]` characters, then
      `limits[1]`, and so on while there is a next offset. */
  function Collected(text: string, offset: nat, limits: seq<nat>): string
    decreases |limits|
  {
    if limits == [] then ""
    else
      var chunk := ChunkAt(text, offset, limits[0]);
      chunk.text + if chunk.nextOffset.None? then "" else Collected(text, chunk.nextOffset.value, limits[1..])
  }

  /** How far those reads get. */
  function Reached(length: nat, offset: nat, limits: seq<nat>): nat
    decreases |limits|
  {
    if limits == [] then offset
    else if offset + limits[0] < length then Reached(length, offset + limits[0], limits[1..]) else length
  }

  lemma {:induction false} ReachedIsEnough(length: nat, offset: nat, limits: seq<nat>)
    requires offset <= length && forall k :: 0 <= k < |limits| ==> limits[k] >= 1
    ensures offset <= Reached(length, offset, limits) <= length
    ensures |limits| > 0 && |limits| >= length - offset ==> Reached(length, offset, limits) == length
    decreases |limits|
  {
    if limits != [] && offset + limits[0] < length { ReachedIsEnough(length, offset + limits[0], limits[1..]); }
  }

  /** The first of those reads is a slice, and the others start where it ends. */
  lemma FirstChunk(text: string, offset: nat, limits: seq<nat>)
    requires offset <= |text| && limits != []
    ensures var end := Min(offset + limits[0], |text|);
            Collected(text, offset, limits) ==
              text[offset..end] + (if end < |text| then Collected(text, end, limits[1..]) else "")
  {
  }

  lemma JoinSlices(text: string, a: nat, b: nat, c: nat)
    requires a <= b <= c <= |text|
    ensures text[a..b] + text[b..c] == text[a..c]
  {
  }

  lemma {:induction false} ChunksJoin(text: string, offset: nat, limits: seq<nat>)
    requires offset <= Reached(|text|, offset, limits) <= |text|
    requires forall k :: 0 <= k < |limits| ==> limits[k] >= 1
    ensures Collected(text, offset, limits) == text[offset..Reached(|text|, offset, limits)]
    decreases |limits|
  {
    if limits != [] {
      var end := Min(offset + limits[0], |text|);
      FirstChunk(text, offset, limits);
      if end < |text| {
        ReachedIsEnough(|text|, end, limits[1..]);
        ChunksJoin(text, end, limits[1..]);
        JoinSlices(text, offset, end, Reached(|text|, offset, limits));
      }
    }
  }

  /** Following `nextOffset` with positive limits gives back the text, no character twice, and
      the whole of it after as many reads as it has characters at most. */
  lemma ChunksConcatenate(text: string, offset: nat, limits: seq<nat>)
    requires offset <= |text| && forall k :: 0 <= k < |limits| ==> limits[k] >= 1
    ensures offset <= Reached(|text|, offset, limits) <= |text|
    ensures Collected(text, offset, limits) == text[offset..Reached(|text|, offset, limits)]
    ensures |limits| > 0 && |limits| >= |text| - offset ==> Collected(text, offset, limits) == text[offset..]
  {
    ReachedIsEnough(|text|, offset, limits);
    ChunksJoin(text, offset, limits);
  }

  // ---- the cache ----

  /** `order` is the insertion order of the two maps. */
  datatype Cache = Cache(entries: map<nat, Entry>, order: seq<nat>, sizes: map<nat, nat>, bytes: int)

  function Total(order: seq<nat>, sizes: map<nat, nat>): nat {
    if order == [] then 0
    else (if order[0] in sizes then sizes[order[0]] else 0) + Total(order[1..], sizes)
  }

  lemma {:induction false} TotalOfSame(order: seq<nat>, sizes: map<nat, nat>, sizes': map<nat, nat>)
    requires forall k :: 0 <= k < |order| ==>
               order[k] in sizes && order[k] in sizes' && sizes[order[k]] == sizes'[order[k]]
    ensures Total(order, sizes) == Total(order, sizes')
  {
    if order != [] { TotalOfSame(order[1..], sizes, sizes'); }
  }

  lemma {:induction false} TotalOfMore(order: seq<nat>, q: nat, sizes: map<nat, nat>, bytes: nat)
    requires q !in order && forall k :: 0 <= k < |order| ==> order[k] in sizes
    ensures Total(order + [q], sizes[q := bytes]) == Total(order, sizes) + bytes
  {
    if order == [] {
      assert [q][1..] == [];
    } else {
      TotalOfMore(order[1..], q, sizes, bytes);
      assert (order + [q])[1..] == order[1..] + [q];
    }
  }

  /** The two maps and the order hold the same keys, each once. */
  ghost predicate Held(c: Cache, bytesOf: Entry -> nat, q: nat) {
    && multiset(c.order)[q] == (if q in c.entries then 1 else 0)
    && (q in c.entries <==> q in c.sizes)
    && (q in c.entries ==> c.entries[q].sequence == q && c.sizes[q] == bytesOf(c.entries[q]))
  }

  /** The byte count is the sum of the sizes of the entries. */
  ghost predicate Accounted(c: Cache, bytesOf: Entry -> nat) {
    c.bytes == Total(c.order, c.sizes) && forall q :: Held(c, bytesOf, q)
  }

  predicate Bounded(c: Cache) {
    |c.order| <= CACHE_ENTRIES && c.bytes <= CACHE_BYTES
  }

  function Insert(c: Cache, saved: Entry, bytes: nat): Cache {
    Cache(c.entries[saved.sequence := saved], c.order + [saved.sequence], c.sizes[saved.sequence := bytes],
        c.bytes + bytes)
  }

  function EvictOldest(c: Cache): Cache
    requires c.order != []
  {
    var q := c.order[0];
    Cache(c.entries - {q}, c.order[1..], c.sizes - {q}, c.bytes - if q in c.sizes then c.sizes[q] else 0)
  }

  function Shrunk(c: Cache): Cache
    decreases |c.order|
  {
    if c.order == [] || Bounded(c) then c else Shrunk(EvictOldest(c))
  }

  lemma Listed(c: Cache, bytesOf: Entry -> nat, k: nat)
    requires Accounted(c, bytesOf) && k < |c.order|
    ensures c.order[k] in c.entries && c.order[k] in c.sizes
    ensures forall j :: 0 <= j < |c.order| && j != k ==> c.order[j] != c.order[k]
  {
    var q := c.order[k];
    assert Held(c, bytesOf, q);
    assert c.order == c.order[..k] + [q] + c.order[k + 1..];
    assert multiset(c.order) == multiset(c.order[..k]) + multiset{q} + multiset(c.order[k + 1..]);
    assert multiset(c.order[..k])[q] == 0 && multiset(c.order[k + 1..])[q] == 0;
    forall j | 0 <= j < |c.order| && j != k ensures c.order[j] != q {
      if j < k { assert c.order[..k][j] in multiset(c.order[..k]); }
          else { assert c.order[k + 1..][j - k - 1] in multiset(c.order[k + 1..]); }
    }
  }

  lemma InsertKeeps(c: Cache, saved: Entry, bytesOf: Entry -> nat)
    requires Accounted(c, bytesOf) && saved.sequence !in c.entries
    ensures Accounted(Insert(c, saved, bytesOf(saved)), bytesOf)
  {
    var c' := Insert(c, saved, bytesOf(saved));
    assert Held(c, bytesOf, saved.sequence);
    assert multiset(c'.order) == multiset(c.order) + multiset{saved.sequence};
    forall k | 0 <= k < |c.order| ensures c.order[k] in c.sizes { Listed(c, bytesOf, k); }
    assert saved.sequence !in multiset(c.order);
    TotalOfMore(c.order, saved.sequence, c.sizes, bytesOf(saved));
    forall q ensures Held(c', bytesOf, q) { assert Held(c, bytesOf, q); }
  }

  lemma EvictKeeps(c: Cache, bytesOf: Entry -> nat)
    requires Accounted(c, bytesOf) && c.order != []
    ensures Accounted(EvictOldest(c), bytesOf) && SubMap(EvictOldest(c).entries, c.entries)
    ensures Total(c.order[1..], c.sizes) == EvictOldest(c).bytes
  {
    var q, rest, c' := c.order[0], c.order[1..], EvictOldest(c);
    assert c.order == [q] + rest;
    assert multiset(c.order) == multiset{q} + multiset(rest);
    Listed(c, bytesOf, 0);
    forall k | 0 <= k < |rest| ensures rest[k] in c.sizes && rest[k] != q { Listed(c, bytesOf, k + 1); }
    TotalOfSame(rest, c.sizes, c'.sizes);
    forall p ensures Held(c', bytesOf, p) { assert Held(c, bytesOf, p) && Held(c, bytesOf, q); }
  }

  predicate SubMap(m: map<nat, Entry>, m': map<nat, Entry>) {
    forall q :: q in m ==> q in m' && m[q] == m'[q]
  }

  function Newest(c: Cache): nat
    requires c.order != []
  {
    c.order[|c.order| - 1]
  }

  /** The newest entry would fit alone. */
  ghost predicate Shrinkable(c: Cache, bytesOf: Entry -> nat) {
    Accounted(c, bytesOf) && c.order != [] && Newest(c) in c.sizes && c.sizes[Newest(c)] <= CACHE_BYTES
  }

  lemma AloneIsBounded(c: Cache, bytesOf: Entry -> nat)
    requires Shrinkable(c, bytesOf)
    ensures Bounded(c) || |c.order| > 1
  {
    if |c.order| == 1 {
      assert c.order[1..] == [];
      assert Total(c.order, c.sizes) == c.sizes[Newest(c)] + Total([], c.sizes);
    }
  }

  lemma EvictKeepsShrinkable(c: Cache, bytesOf: Entry -> nat)
    requires Shrinkable(c, bytesOf) && !Bounded(c)
    ensures Shrinkable(EvictOldest(c), bytesOf) && Newest(EvictOldest(c)) == Newest(c)
    ensures SubMap(EvictOldest(c).entries, c.entries)
    ensures Shrunk(EvictOldest(c)) == Shrunk(c)
  {
    AloneIsBounded(c, bytesOf);
    EvictKeeps(c, bytesOf);
    Listed(EvictOldest(c), bytesOf, |EvictOldest(c).order| - 1);
    Listed(c, bytesOf, 0);
  }

  /** An entry that fits on its own is still there after shrinking. */
  lemma {:induction false} ShrunkIsBounded(c: Cache, bytesOf: Entry -> nat)
    requires Shrinkable(c, bytesOf)
    ensures var c' := Shrunk(c);
            && Accounted(c', bytesOf) && Bounded(c') && |c'.order| <= 256 && c'.bytes <= 8000000
            && SubMap(c'.entries, c.entries) && c'.order != [] && Newest(c') == Newest(c)
    decreases |c.order|
  {
    if !Bounded(c) {
      EvictKeepsShrinkable(c, bytesOf);
      ShrunkIsBounded(EvictOldest(c), bytesOf);
    }
  }

  /** What goes are the oldest insertions, and none without need. */
  lemma {:induction false} ShrunkIsLongest(c: Cache, bytesOf: Entry -> nat)
    requires Accounted(c, bytesOf)
    ensures var c' := Shrunk(c); |c'.order| <= |c.order| && c'.order == c.order[|c.order| - |c'.order|..]
    ensures forall k :: 0 <= k < |c.order| - |Shrunk(c).order| ==>
              |c.order| - k > 256 || Total(c.order[k..], c.sizes) > 8000000
    decreases |c.order|
  {
    assert c.order[0..] == c.order;
    if c.order != [] && !Bounded(c) {
      var next := EvictOldest(c);
      EvictKeeps(c, bytesOf);
      ShrunkIsLongest(next, bytesOf);
      forall k | 1 <= k < |c.order| - |Shrunk(c).order|
        ensures |c.order| - k > 256 || Total(c.order[k..], c.sizes) > 8000000
      {
        assert next.order[k - 1..] == c.order[k..];
        forall i | 0 <= i < |c.order[k..]| ensures c.order[k..][i] in next.sizes && c.order[k..][i] in c.sizes {
          Listed(next, bytesOf, k + i - 1);
        }
        TotalOfSame(c.order[k..], c.sizes, next.sizes);
      }
    }
  }

  const NoCache := Cache(map[], [], map[], 0)

  /** `cacheEntry`: an entry larger than the cache is never kept, and one already there is
      never replaced. */
  function Entered(c: Cache, saved: Entry, bytes: nat): Cache {
    if saved.sequence in c.entries || bytes > CACHE_BYTES then c else Shrunk(Insert(c, saved, bytes))
  }

  /** Otherwise it is there afterwards, at the end of the line. */
  lemma EnteredIsOk(c: Cache, saved: Entry, bytesOf: Entry -> nat)
    requires Accounted(c, bytesOf) && Bounded(c)
    ensures var c' := Entered(c, saved, bytesOf(saved));
            && Accounted(c', bytesOf) && Bounded(c')
            && SubMap(c'.entries, if saved.sequence in c.entries then c.entries else c.entries[saved.sequence := saved])
            && (saved.sequence in c.entries || bytesOf(saved) > 8000000 ==> c' == c)
            && (saved.sequence !in c.entries && bytesOf(saved) <= 8000000 ==>
                  && Shrinkable(Insert(c, saved, bytesOf(saved)), bytesOf)
                  && c'.order != [] && Newest(c') == saved.sequence
                  && saved.sequence in c'.entries && c'.entries[saved.sequence] == saved)
  {
    if saved.sequence !in c.entries && bytesOf(saved) <= CACHE_BYTES {
      var inserted := Insert(c, saved, bytesOf(saved));
      InsertKeeps(c, saved, bytesOf);
      assert Newest(inserted) == saved.sequence;
      ShrunkIsBounded(inserted, bytesOf);
      Listed(Shrunk(inserted), bytesOf, |Shrunk(inserted).order| - 1);
    }
  }

  // ---- the archive ----

  /** Operation i is the entry with sequence i + 1, which links to the entry before it. */
  predicate Linked(blobs: seq<Entry>, refs: seq<Ref>, ops: seq<Operation>, i: nat)
    requires i < |refs| == |ops|
  {
    refs[i] < |blobs| && blobs[refs[i]] == Entry(ops[i], i + 1, LinkTo(refs, i))
  }

  ghost predicate Dense(blobs: seq<Entry>, refs: seq<Ref>, ops: seq<Operation>) {
    |refs| == |ops| && forall i :: 0 <= i < |refs| ==> Linked(blobs, refs, ops, i)
  }

  function LinkTo(refs: seq<Ref>, n: nat): Option<Link>
    requires n <= |refs|
  {
    if n == 0 then None else Some(Link(n, refs[n - 1]))
  }

  /** A cached entry is the blob it stands for; only the next number may be ahead of it. */
  predicate Agreed(entries: map<nat, Entry>, blobs: seq<Entry>, refs: seq<Ref>, q: nat) {
    q in entries ==> 1 <= q <= |refs| + 1 && (q <= |refs| ==> refs[q - 1] < |blobs| && entries[q] == blobs[refs[q - 1]])
  }

  ghost predicate CacheAgrees(entries: map<nat, Entry>, blobs: seq<Entry>, refs: seq<Ref>) {
    forall q :: Agreed(entries, blobs, refs, q)
  }

  /** What `pending` shows of an entry. */
  datatype Item = Item(sequence: nat, operation: Operation)

  /** The operations after the summarized ones, oldest first. */
  function Unsummarized(ops: seq<Operation>, through: Option<nat>): seq<Item> {
    var from := if through.None? then 0 else if through.value <= |ops| then through.value else |ops|;
    seq(|ops| - from, i requires 0 <= i < |ops| - from => Item(from + i + 1, ops[from + i]))
  }

  /** Summarizing through the k-th pending item leaves exactly the items after it. */
  lemma SummarizedPrefix(ops: seq<Operation>, through: Option<nat>, k: nat)
    requires 0 < k <= |Unsummarized(ops, through)|
    ensures Unsummarized(ops, Some(Unsummarized(ops, through)[k - 1].sequence)) == Unsummarized(ops, through)[k..]
  {
  }

  /** Reading through the cache, or caching the entry about to be linked, keeps agreement. */
  lemma EnteredAgrees(c: Cache, saved: Entry, bytesOf: Entry -> nat, blobs: seq<Entry>, refs: seq<Ref>)
    requires Accounted(c, bytesOf) && Bounded(c) && CacheAgrees(c.entries, blobs, refs)
    requires 1 <= saved.sequence <= |refs| + 1
    requires saved.sequence <= |refs| ==> refs[saved.sequence - 1] < |blobs| && blobs[refs[saved.sequence - 1]] == saved
    ensures CacheAgrees(Entered(c, saved, bytesOf(saved)).entries, blobs, refs)
  {
    EnteredIsOk(c, saved, bytesOf);
    forall q ensures Agreed(Entered(c, saved, bytesOf(saved)).entries, blobs, refs, q) { assert Agreed(c.entries,
        blobs, refs, q); }
  }

  lemma DenseGrows(blobs: seq<Entry>, refs: seq<Ref>, ops: seq<Operation>, operation: Operation, saved: Entry)
    requires Dense(blobs, refs, ops) && saved == Entry(operation, |ops| + 1, LinkTo(refs, |refs|))
    ensures Dense(blobs + [saved], refs, ops)
    ensures Dense(blobs + [saved], refs + [|blobs|], ops + [operation])
  {
    forall i | 0 <= i < |refs|
      ensures Linked(blobs + [saved], refs, ops, i) && Linked(blobs + [saved], refs + [|blobs|], ops + [operation], i)
    {
      assert Linked(blobs, refs, ops, i);
    }
  }

  lemma AgreesOnMore(entries: map<nat, Entry>, blobs: seq<Entry>, refs: seq<Ref>, saved: Entry)
    requires CacheAgrees(entries, blobs, refs)
    ensures CacheAgrees(entries, blobs + [saved], refs)
  {
    forall q ensures Agreed(entries, blobs + [saved], refs, q) { assert Agreed(entries, blobs, refs, q); }
  }

  lemma AgreesAfterAppend(entries: map<nat, Entry>, blobs: seq<Entry>, refs: seq<Ref>, saved: Entry)
    requires CacheAgrees(entries, blobs, refs) && |blobs| > 0 && blobs[|blobs| - 1] == saved
              && saved.sequence == |refs| + 1
    ensures CacheAgrees(entries, blobs, refs + [|blobs| - 1]) <==>
              !(saved.sequence in entries && entries[saved.sequence] != saved)
  {
    var refs' := refs + [|blobs| - 1];
    forall q | q != saved.sequence ensures Agreed(entries, blobs, refs', q) { assert Agreed(entries, blobs, refs, q); }
    assert Agreed(entries, blobs, refs', saved.sequence) <==>
             !(saved.sequence in entries && entries[saved.sequence] != saved);
  }
}
