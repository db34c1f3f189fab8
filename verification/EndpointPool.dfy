/** Leases on one browser endpoint (packages/browser/src/pool.ts): a row that engine processes
    claim, beat and delete, and in each process the one heartbeat slot of the endpoint. The
    waiting queue only decides who tries to claim next, so any run may try at any time. */
module EndpointPool {
  import opened Wrappers

  type RunId = string
  type ProcessId = nat
  type GrantId = nat                      // the claims that succeeded, in order

  /** `holder` is history: the row itself names only a run. */
  datatype Row = Row(run: RunId, beat: int, holder: GrantId)

  datatype Grant = Grant(process: ProcessId, run: RunId)

  datatype Takeover = Takeover(from: GrantId, next: GrantId, beat: int, at: int)

  datatype State = State(stale: nat, now: int, row: Option<Row>, grants: seq<Grant>, held: set<GrantId>,
    slots: map<ProcessId, GrantId>, timers: set<GrantId>, takeovers: seq<Takeover>)

  datatype Step =
    | Tick(elapsed: nat)
    | Claim(process: ProcessId, run: RunId)
    | Beat(g: GrantId)                    // its timer fires and the update lands
    | Release(g: GrantId, deleted: bool)  // by its holder, or because connecting failed

  /** No lease, or one whose heartbeat is too old. */
  predicate Claimable(s: State) {
    s.row.None? || s.row.value.beat < s.now - s.stale
  }

  predicate Enabled(s: State, e: Step) {
    match e
    case Tick(_) => true
    case Claim(_, _) => Claimable(s)
    case Beat(g) => g in s.timers && g < |s.grants|
    case Release(g, _) => g in s.held && g < |s.grants|
  }

  function Apply(s: State, e: Step): State
    requires Enabled(s, e)
  {
    match e
    case Tick(elapsed) => s.(now := s.now + elapsed)
    case Claim(p, run) =>
      var g := |s.grants|;
      s.(row := Some(Row(run, s.now, g)), grants := s.grants + [Grant(p, run)], held := s.held + {g},
         slots := s.slots[p := g], timers := s.timers + {g},
         takeovers := if s.row.None? then s.takeovers
                      else s.takeovers + [Takeover(s.row.value.holder, g, s.row.value.beat, s.now)])
    case Beat(g) =>
      if s.row.Some? && s.row.value.run == s.grants[g].run then s.(row := Some(s.row.value.(beat := s.now))) else s
    case Release(g, deleted) =>
      var p := s.grants[g].process;
      s.(held := s.held - {g}, slots := s.slots - {p},
         timers := if p in s.slots then s.timers - {s.slots[p]} else s.timers,
         row := if deleted && s.row.Some? && s.row.value.run == s.grants[g].run then None else s.row)
  }

  ghost predicate Run(s: State, es: seq<Step>, s': State)
    decreases |es|
  {
    if es == [] then s == s' else Enabled(s, es[0]) && Run(Apply(s, es[0]), es[1..], s')
  }

  function Fresh(stale: nat): State {
    State(stale, 0, None, [], {}, map[], {}, [])
  }

  // ---- one holder at a time, but for a stale heartbeat ----

  /** This grant lost its row to a later claim, which found its last heartbeat too old. */
  ghost predicate Reaped(s: State, g: GrantId, k: nat) {
    k < |s.takeovers| && s.takeovers[k].from == g && g < s.takeovers[k].next
        && s.takeovers[k].beat < s.takeovers[k].at - s.stale
  }

  ghost predicate WasReaped(s: State, g: GrantId) {
    exists k: nat :: Reaped(s, g, k)
  }

  ghost predicate Inv(s: State) {
    && (forall g :: g in s.held || g in s.timers ==> g < |s.grants|)
    && (forall p :: p in s.slots ==> s.slots[p] < |s.grants| && s.grants[s.slots[p]].process == p)
    && (forall k :: 0 <= k < |s.takeovers| ==> s.takeovers[k].next < |s.grants|)
    && (s.row.Some? ==> s.row.value.holder == |s.grants| - 1 && s.row.value.run == s.grants[s.row.value.holder].run)
  }

  /** Whoever holds the endpoint has the row, or was found stale when it lost it. */
  ghost predicate Fenced(s: State) {
    forall g :: g in s.held ==> (s.row.Some? && s.row.value.holder == g) || WasReaped(s, g)
  }

  lemma ApplyKeeps(s: State, e: Step)
    requires Inv(s) && Enabled(s, e)
    ensures Inv(Apply(s, e)) && Apply(s, e).stale == s.stale
    ensures forall g :: WasReaped(s, g) ==> WasReaped(Apply(s, e), g)
  {
    var s' := Apply(s, e);
    forall g | WasReaped(s, g) ensures WasReaped(s', g) {
      var k: nat :| Reaped(s, g, k);
      assert Reaped(s', g, k);
    }
  }

  /** An older handle of the run that holds the row is released, and takes the row with it. */
  predicate DeletesAnothersRow(s: State, e: Step) {
    && e.Release? && e.deleted && e.g < |s.grants| && s.row.Some?
    && s.row.value.holder != e.g && s.row.value.holder in s.held && s.row.value.run == s.grants[e.g].run
  }

  /** The one step that breaks the fence. */
  lemma FenceBreaksExactly(s: State, e: Step)
    requires Inv(s) && Fenced(s) && Enabled(s, e)
    ensures Fenced(Apply(s, e)) <==> !DeletesAnothersRow(s, e)
  {
    var s' := Apply(s, e);
    ApplyKeeps(s, e);
    match e
    case Claim(_, _) =>
      if s.row.Some? { assert Reaped(s', s.row.value.holder, |s.takeovers|); }
    case Release(g, deleted) =>
      if DeletesAnothersRow(s, e) { assert s.row.value.holder in s'.held && !WasReaped(s', s.row.value.holder); }
    case _ =>
  }

  /** What a caller can see to: a run claims only when it holds no other handle. */
  ghost predicate Guarded(s: State, e: Step) {
    e.Claim? ==> forall g :: g in s.held && g < |s.grants| ==> s.grants[g].run != e.run
  }

  ghost predicate GuardedRun(s: State, es: seq<Step>, s': State)
    decreases |es|
  {
    if es == [] then s == s'
    else Enabled(s, es[0]) && Guarded(s, es[0]) && GuardedRun(Apply(s, es[0]), es[1..], s')
  }

  /** Then no two handles are of one run, nor is any of them but the holder of the row's run. */
  ghost predicate Distinct(s: State) {
    && (forall g, h :: g in s.held && h in s.held && g < h < |s.grants| ==> s.grants[g].run != s.grants[h].run)
    && (s.row.Some? ==> forall g ::
          g in s.held && g < |s.grants| && g != s.row.value.holder ==> s.grants[g].run != s.row.value.run)
  }

  lemma {:induction false} GuardedRunKeeps(s: State, es: seq<Step>, s': State)
    requires Inv(s) && Fenced(s) && Distinct(s) && GuardedRun(s, es, s')
    ensures Inv(s') && Fenced(s') && Distinct(s') && s'.stale == s.stale
    decreases |es|
  {
    if es != [] {
      var next := Apply(s, es[0]);
      ApplyKeeps(s, es[0]);
      FenceBreaksExactly(s, es[0]);
      GuardedKeepsDistinct(s, es[0]);
      GuardedRunKeeps(next, es[1..], s');
    }
  }

  lemma GuardedKeepsDistinct(s: State, e: Step)
    requires Inv(s) && Distinct(s) && Enabled(s, e) && Guarded(s, e)
    ensures Distinct(Apply(s, e)) && !DeletesAnothersRow(s, e)
  {
  }

  /** Two runs hold the endpoint at once only if the earlier one was found stale when it lost
      its row to a later one, however often each run has held it before. */
  lemma OverlapMeansStale(stale: nat, es: seq<Step>, s: State, g: GrantId, g': GrantId) returns (k: nat)
    requires GuardedRun(Fresh(stale), es, s) && g in s.held && g' in s.held && g < g'
    ensures k < |s.takeovers| && s.takeovers[k].from == g < s.takeovers[k].next
    ensures s.takeovers[k].beat < s.takeovers[k].at - stale
    ensures g' < |s.grants| && s.grants[g].run != s.grants[g'].run
  {
    GuardedRunKeeps(Fresh(stale), es, s);
    assert WasReaped(s, g);
    k :| Reaped(s, g, k);
  }

  /** What a reaped grant still does to the row of another: nothing, unless both are of the same
      run; then its release deletes the row, and its heartbeat renews it. */
  lemma StrayStepsNeedTheSameRun(s: State, g: GrantId)
    requires Inv(s) && g < |s.grants| && s.row.Some? && s.row.value.holder != g
    ensures Enabled(s, Release(g, true)) ==>
              (Apply(s, Release(g, true)).row != s.row <==> s.grants[g].run == s.grants[s.row.value.holder].run)
    ensures Enabled(s, Beat(g)) && s.row.value.beat < s.now ==>
              (Apply(s, Beat(g)).row != s.row <==> s.grants[g].run == s.grants[s.row.value.holder].run)
  {
  }

  /** A run granted twice can lose its second lease to its own first handle, and the endpoint is
      then claimed while the second is in use and nobody's heartbeat is stale. */
  lemma SameRunTwiceOverlaps(r: RunId, other: RunId) returns (es: seq<Step>, s: State)
    requires r != other
    ensures Run(Fresh(1), es, s) && {1, 2} <= s.held
    ensures |s.grants| == 3 && s.grants[1].run == r && s.grants[2].run == other
    ensures forall k :: 0 <= k < |s.takeovers| ==> s.takeovers[k].from != 1
  {
    var s0 := Fresh(1);
    var s1 := Apply(s0, Claim(0, r));
    var s2 := Apply(s1, Tick(2));
    var s3 := Apply(s2, Claim(0, r));
    var s4 := Apply(s3, Release(0, true));
    s := Apply(s4, Claim(1, other));
    es := [Claim(0, r), Tick(2), Claim(0, r), Release(0, true), Claim(1, other)];
    FiveSteps(s0, s1, s2, s3, s4, s, es);
  }

  lemma FiveSteps(s0: State, s1: State, s2: State, s3: State, s4: State, s: State, es: seq<Step>)
    requires |es| == 5
    requires Enabled(s0, es[0]) && s1 == Apply(s0, es[0]) && Enabled(s1, es[1]) && s2 == Apply(s1, es[1])
    requires Enabled(s2, es[2]) && s3 == Apply(s2, es[2]) && Enabled(s3, es[3]) && s4 == Apply(s3, es[3])
    requires Enabled(s4, es[4]) && s == Apply(s4, es[4])
    ensures Run(s0, es, s)
  {
    assert Run(s4, es[4..], s);
    assert Run(s3, es[3..], s) by { assert es[3..][1..] == es[4..]; }
    assert Run(s2, es[2..], s) by { assert es[2..][1..] == es[3..]; }
    assert Run(s1, es[1..], s) by { assert es[1..][1..] == es[2..]; }
  }

  // ---- the one heartbeat slot of a process ----

  /** Until the endpoint is granted again, the holder's heartbeat runs exactly as long as its
      process releases nothing: a late release of an earlier grant stops it like its own. */
  lemma {:induction false} HolderBeatsIff(s: State, es: seq<Step>, s': State, g: GrantId)
    requires Inv(s) && Run(s, es, s') && g == |s.grants| - 1 == |s'.grants| - 1
    requires g in s.timers && s.grants[g].process in s.slots && s.slots[s.grants[g].process] == g
    ensures s'.grants == s.grants
    ensures g in s'.timers <==> forall e :: e in es && e.Release? && e.g <= g ==>
              s.grants[e.g].process != s.grants[g].process
    decreases |es|
  {
    if es != [] {
      var next, p := Apply(s, es[0]), s.grants[g].process;
      assert es == [es[0]] + es[1..];
      ApplyKeeps(s, es[0]);
      GrantsGrow(next, es[1..], s');
      if es[0].Release? && s.grants[es[0].g].process == p {
        StoppedForever(next, es[1..], s', g);
      } else {
        HolderBeatsIff(next, es[1..], s', g);
      }
    }
  }

  /** The heartbeat of a fresh claim, over every run up to the next grant. */
  lemma ClaimBeatsUntilRelease(s: State, p: ProcessId, run: RunId, es: seq<Step>, s': State)
    requires Inv(s) && Enabled(s, Claim(p, run)) && Run(Apply(s, Claim(p, run)), es, s')
              && |s'.grants| == |s.grants| + 1
    ensures |s.grants| in s'.timers <==>
              forall e :: e in es && e.Release? && e.g < |s'.grants| ==> s'.grants[e.g].process != p
  {
    ApplyKeeps(s, Claim(p, run));
    HolderBeatsIff(Apply(s, Claim(p, run)), es, s', |s.grants|);
  }

  lemma {:induction false} GrantsGrow(s: State, es: seq<Step>, s': State)
    requires Run(s, es, s')
    ensures s.grants <= s'.grants
    decreases |es|
  {
    if es != [] { GrantsGrow(Apply(s, es[0]), es[1..], s'); }
  }

  /** And a heartbeat once stopped stays stopped: without a release of its own, the grant's
      lease runs out under it. */
  lemma {:induction false} StoppedForever(s: State, es: seq<Step>, s': State, g: GrantId)
    requires Run(s, es, s') && g < |s.grants| && g !in s.timers
    ensures g !in s'.timers && forall e :: e in es ==> e != Beat(g)
    decreases |es|
  {
    if es != [] {
      StoppedForever(Apply(s, es[0]), es[1..], s', g);
      assert es == [es[0]] + es[1..];
    }
  }

  /** So a reaped run that releases late, in the process of its successor, leaves that successor
      holding the endpoint without a heartbeat. */
  lemma LateReleaseStopsSuccessor(r: RunId, next: RunId) returns (es: seq<Step>, s: State)
    requires r != next
    ensures Run(Fresh(1), es, s) && s.held == {1} && s.timers == {0} && s.row == Some(Row(next, s.now, 1))
    ensures forall more, s' :: Run(s, more, s') ==> 1 !in s'.timers
  {
    var s0 := Fresh(1);
    var s1 := Apply(s0, Claim(0, r));
    var s2 := Apply(s1, Tick(2));
    var s3 := Apply(s2, Claim(0, next));
    s := Apply(s3, Release(0, true));
    es := [Claim(0, r), Tick(2), Claim(0, next), Release(0, true)];
    assert Run(s3, es[3..], s);
    assert Run(s2, es[2..], s) by { assert es[2..][1..] == es[3..]; }
    assert Run(s1, es[1..], s) by { assert es[1..][1..] == es[2..]; }
    forall more, s' | Run(s, more, s') ensures 1 !in s'.timers { StoppedForever(s, more, s', 1); }
  }

  /** One endpoint as one process sees it: the row and its own slot. */
  class Endpoint {
    const process: ProcessId
    const stale: nat
    var row: Option<Row>
    var slot: Option<GrantId>
    ghost var state: State

    ghost predicate Valid()
      reads this
    {
      && state.stale == stale && state.row == row
      && (slot.Some? <==> process in state.slots) && (slot.Some? ==> state.slots[process] == slot.value)
    }

    /** The conditional insert, then the grant's heartbeat. */
    method TryClaim(run: RunId, now: int, g: GrantId) returns (claimed: bool)
      requires Valid() && now == state.now && g == |state.grants|
      modifies this
      ensures Valid() && (claimed <==> Enabled(old(state), Claim(process, run)))
      ensures claimed <==> old(row).None? || old(row).value.beat < now - stale
      ensures claimed ==> row == Some(Row(run, now, g)) && slot == Some(g)
      ensures !claimed ==> row == old(row) && slot == old(slot)
      ensures state == if claimed then Apply(old(state), Claim(process, run)) else old(state)
    {
      if row.Some? && row.value.beat >= now - stale { return false; }
      row := Some(Row(run, now, g));
      slot := Some(g);
      state := Apply(state, Claim(process, run));
      return true;
    }

    method Heartbeat(g: GrantId, run: RunId, now: int)
      requires Valid() && now == state.now && Enabled(state, Beat(g)) && state.grants[g].run == run
      modifies this
      ensures Valid() && state == Apply(old(state), Beat(g)) && slot == old(slot)
      ensures row == if old(row).Some? && old(row).value.run == run then Some(old(row).value.(beat := now))
                     else old(row)
    {
      if row.Some? && row.value.run == run { row := Some(row.value.(beat := now)); }
      state := Apply(state, Beat(g));
    }

    /** The timer first, then the row; the delete may fail. */
    method Teardown(g: GrantId, run: RunId, deletes: bool)
      requires Valid() && Enabled(state, Release(g, deletes)) && state.grants[g] == Grant(process, run)
      modifies this
      ensures Valid() && state == Apply(old(state), Release(g, deletes)) && slot == None
      ensures row == if deletes && old(row).Some? && old(row).value.run == run then None else old(row)
    {
      slot := None;
      if deletes && row.Some? && row.value.run == run { row := None; }
      state := Apply(state, Release(g, deletes));
    }
  }
}
