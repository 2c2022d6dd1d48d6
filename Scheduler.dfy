/**
 * The per-tick scheduler of rae/Engine.cpp (`Engine::update`), stated over abstract systems.
 *
 * A registered system is a `System`: a handle with the `isEnabled()` flag. Its own per-tick work
 * is not visible to the scheduler, so the outcome of its `update()` within one tick (the status
 * it reports and whether it is still enabled afterwards) is given by an oracle. Every call the
 * scheduler makes is recorded as an `Event`, and the functions below give, phase by phase, the
 * events one tick records. The `Engine.Update` method is proved to record exactly `Tick(...)`.
 */
module Scheduler {
  import opened Types

  /** The systems the engine constructor registers (the handle's name has no effect on scheduling). */
  datatype SystemName =
    | InputSys | TransformSys | CameraSys | AssetSys | SelectionSys
    | EditorSys | UiSys | RayTracerSys | RenderSys | DebugSys

  /** What one system's `update()` does within a tick, as the scheduler can observe it. */
  datatype Outcome = Outcome(status: UpdateStatus, staysEnabled: bool)

  class System {
    const name: SystemName
    var enabled: bool

    /** The flag a system starts with is set by the system itself and is left open here. */
    constructor (n: SystemName)
      ensures name == n
    {
      name := n;
    }

    /** `update()`: report `o.status`; the system may disable itself on the way. */
    method Update(o: Outcome) returns (status: UpdateStatus)
      modifies this
      ensures status == o.status && enabled == o.staysEnabled
    {
      status := o.status;
      enabled := o.staysEnabled;
    }

    /** `toggleIsEnabled()`. */
    method ToggleIsEnabled()
      modifies this
      ensures enabled == !old(enabled)
    {
      enabled := !enabled;
    }
  }

  /** The per-system callbacks besides `update`. */
  datatype Hook = DestroyEntities(ids: seq<Id>) | DefragmentTables | Render3D | Render2D | OnFrameEnd

  /** One call the scheduler makes. */
  datatype Event =
    | Call(sys: System, hook: Hook)
    | Updated(sys: System, status: UpdateStatus)
    | CommitDestroy(ids: seq<Id>)
    | InputReaction
    | BeginFrame3D
    | EndFrame3D
    | BeginFrame2D
    | EndFrame2D

  /** The enabled flags of the registered systems at some moment. */
  type Flags = map<System, bool>

  /** Whether `s` is enabled according to `f`; a system `f` does not mention reads as disabled. */
  predicate En(f: Flags, s: System) {
    s in f && f[s]
  }

  /** `hook` for every system of `ss`, in list order. */
  function Broadcast(ss: seq<System>, hook: Hook): (r: seq<Event>)
    ensures |r| == |ss|
    ensures forall i :: 0 <= i < |ss| ==> r[i] == Call(ss[i], hook)
  {
    seq(|ss|, i requires 0 <= i < |ss| => Call(ss[i], hook))
  }

  /** `hook` for the systems of `ss` that `f` says are enabled, in list order. */
  function CallEnabled(ss: seq<System>, f: Flags, hook: Hook): (r: seq<Event>)
    ensures |r| <= |ss|
    ensures forall e :: e in r ==> e.Call? && e.hook == hook && e.sys in ss && En(f, e.sys)
    ensures forall s :: s in ss && En(f, s) ==> Call(s, hook) in r
  {
    if ss == [] then []
    else
      var last := ss[|ss| - 1];
      assert ss == ss[..|ss| - 1] + [last];
      CallEnabled(ss[..|ss| - 1], f, hook) + (if En(f, last) then [Call(last, hook)] else [])
  }

  /**
   * Lines 161-167: the loop over `ss[..i + 1]` makes the calls of the loop over `ss[..i]`, then
   * the call of `ss[i]` exactly when it is enabled; so the calls follow list order.
   */
  lemma CallEnabledStep(ss: seq<System>, f: Flags, hook: Hook, i: int)
    requires 0 <= i < |ss|
    ensures CallEnabled(ss[..i + 1], f, hook) ==
      CallEnabled(ss[..i], f, hook) + (if En(f, ss[i]) then [Call(ss[i], hook)] else [])
  {
    var p := ss[..i + 1];
    assert p[..|p| - 1] == ss[..i] && p[|p| - 1] == ss[i];
  }

  /** The calls for a prefix of the list are a prefix of the calls for the whole list. */
  lemma {:induction false} CallEnabledPrefix(ss: seq<System>, f: Flags, hook: Hook, n: int)
    requires 0 <= n <= |ss|
    ensures CallEnabled(ss[..n], f, hook) <= CallEnabled(ss, f, hook)
    decreases |ss| - n
  {
    if n < |ss| {
      CallEnabledStep(ss, f, hook, n);
      CallEnabledPrefix(ss, f, hook, n + 1);
    } else {
      assert ss[..n] == ss;
    }
  }

  /** An enabled system is called once per listing, and a disabled one never. */
  lemma {:induction false} CallEnabledCount(ss: seq<System>, f: Flags, hook: Hook, s: System)
    ensures multiset(CallEnabled(ss, f, hook))[Call(s, hook)] == if En(f, s) then multiset(ss)[s] else 0
  {
    if ss != [] {
      var front, last := ss[..|ss| - 1], ss[|ss| - 1];
      assert ss == front + [last];
      CallEnabledCount(front, f, hook, s);
      assert multiset(ss) == multiset(front) + multiset{last};
    }
  }

  /** Lines 125-133: with requests pending, every system hears them, then the registry commits them. */
  function DestroyPhase(ss: seq<System>, ids: seq<Id>): (r: seq<Event>)
    ensures ids == [] ==> r == []
    ensures ids != [] ==> |r| == |ss| + 1 && r[|ss|] == CommitDestroy(ids)
    ensures ids != [] ==> forall i :: 0 <= i < |ss| ==> r[i] == Call(ss[i], DestroyEntities(ids))
  {
    if ids == [] then [] else Broadcast(ss, DestroyEntities(ids)) + [CommitDestroy(ids)]
  }

  /** Lines 135-142: with the flag set, every system defragments once. */
  function DefragPhase(ss: seq<System>, pending: bool): (r: seq<Event>)
    ensures !pending ==> r == []
    ensures pending ==> |r| == |ss| && forall i :: 0 <= i < |ss| ==> r[i] == Call(ss[i], DefragmentTables)
  {
    if pending then Broadcast(ss, DefragmentTables) else []
  }

  /**
   * Whether the occurrence of `s` that comes after `visited` finds it enabled: it was enabled at
   * the start of the tick and, if an earlier occurrence updated it, stayed enabled.
   */
  predicate EnabledAfter(visited: seq<System>, en0: Flags, oracle: System -> Outcome, s: System) {
    En(en0, s) && (s in visited ==> oracle(s).staysEnabled)
  }

  /**
   * Visiting one more system changes only that system's flag: it stays enabled only if it was
   * enabled when reached and its update kept it so.
   */
  lemma EnabledAfterStep(visited: seq<System>, en0: Flags, oracle: System -> Outcome, t: System)
    requires visited != []
    ensures EnabledAfter(visited, en0, oracle, t) ==
      if t == visited[|visited| - 1] then EnabledAfter(visited[..|visited| - 1], en0, oracle, t) && oracle(t).staysEnabled
      else EnabledAfter(visited[..|visited| - 1], en0, oracle, t)
  {
    assert visited == visited[..|visited| - 1] + [visited[|visited| - 1]];
  }

  /** The flags after the update loop has visited `visited`. */
  function FlagsAfter(visited: seq<System>, en0: Flags, oracle: System -> Outcome): (f: Flags)
    ensures f.Keys == en0.Keys
    ensures forall s :: s in en0 ==> (En(f, s) <==> EnabledAfter(visited, en0, oracle, s))
  {
    map s | s in en0 :: EnabledAfter(visited, en0, oracle, s)
  }

  /** Lines 150-158: the `update()` calls of the systems enabled when the loop reaches them. */
  function UpdatePhase(ss: seq<System>, en0: Flags, oracle: System -> Outcome): (r: seq<Event>)
    ensures |r| <= |ss|
    ensures forall e :: e in r ==> e.Updated? && e.sys in ss && e.status == oracle(e.sys).status
  {
    if ss == [] then []
    else
      var front, last := ss[..|ss| - 1], ss[|ss| - 1];
      assert ss == front + [last];
      UpdatePhase(front, en0, oracle)
        + (if EnabledAfter(front, en0, oracle, last) then [Updated(last, oracle(last).status)] else [])
  }

  /** Lines 146-158: `engineUpdateStatus`, folded over the update loop. */
  function StatusAfter(ss: seq<System>, en0: Flags, oracle: System -> Outcome): UpdateStatus {
    if ss == [] then NotChanged
    else
      var front, last := ss[..|ss| - 1], ss[|ss| - 1];
      if EnabledAfter(front, en0, oracle, last) && oracle(last).status == Changed then Changed
      else StatusAfter(front, en0, oracle)
  }

  /** The 3D pass, lines 160-168. */
  function Pass3D(rs: seq<System>, f: Flags): seq<Event> {
    [BeginFrame3D] + CallEnabled(rs, f, Render3D) + [EndFrame3D]
  }

  /** The 2D pass, lines 170-178. */
  function Pass2D(rs: seq<System>, f: Flags): seq<Event> {
    [BeginFrame2D] + CallEnabled(rs, f, Render2D) + [EndFrame2D]
  }

  /** The phases before rendering, lines 125-158: destroy, defragment, input, updates. */
  function Prelude(ss: seq<System>, pending: seq<Id>, defrag: bool, en0: Flags, oracle: System -> Outcome): seq<Event> {
    DestroyPhase(ss, pending) + DefragPhase(ss, defrag) + [InputReaction] + UpdatePhase(ss, en0, oracle)
  }

  /** The phases after the updates, lines 160-190, all seeing the flags `f` the updates left. */
  function Frame(ss: seq<System>, rs3: seq<System>, rs2: seq<System>, f: Flags): seq<Event> {
    Pass3D(rs3, f) + Pass2D(rs2, f) + CallEnabled(ss, f, OnFrameEnd)
  }

  /**
   * Everything one tick records, given the lists, the pending requests, the flags at the start of
   * the tick and the systems' outcomes.
   */
  function Tick(ss: seq<System>, rs3: seq<System>, rs2: seq<System>, pending: seq<Id>, defrag: bool,
                en0: Flags, oracle: System -> Outcome): seq<Event>
  {
    Prelude(ss, pending, defrag, en0, oracle) + Frame(ss, rs3, rs2, FlagsAfter(ss, en0, oracle))
  }

  /** The position of an event's phase within a tick. */
  function Rank(e: Event): nat {
    match e
    case Call(_, DestroyEntities(_)) => 0
    case CommitDestroy(_) => 1
    case Call(_, DefragmentTables) => 2
    case InputReaction => 3
    case Updated(_, _) => 4
    case BeginFrame3D => 5
    case Call(_, Render3D) => 6
    case EndFrame3D => 7
    case BeginFrame2D => 8
    case Call(_, Render2D) => 9
    case EndFrame2D => 10
    case Call(_, OnFrameEnd) => 11
  }

  predicate InPhaseOrder(es: seq<Event>) {
    forall j, k :: 0 <= j < k < |es| ==> Rank(es[j]) <= Rank(es[k])
  }

  predicate RanksWithin(es: seq<Event>, lo: nat, hi: nat) {
    forall e :: e in es ==> lo <= Rank(e) <= hi
  }

  lemma OrderedConcat(a: seq<Event>, b: seq<Event>, lo: nat, mid: nat, hi: nat)
    requires lo <= mid <= hi
    requires InPhaseOrder(a) && RanksWithin(a, lo, mid)
    requires InPhaseOrder(b) && RanksWithin(b, mid, hi)
    ensures InPhaseOrder(a + b) && RanksWithin(a + b, lo, hi)
  {
    forall j, k | 0 <= j < k < |a + b|
      ensures Rank((a + b)[j]) <= Rank((a + b)[k])
    {
      if k < |a| {
      } else if j >= |a| {
        assert (a + b)[j] == b[j - |a|] && (a + b)[k] == b[k - |a|];
      } else {
        assert (a + b)[j] == a[j] && (a + b)[k] == b[k - |a|];
        assert a[j] in a && b[k - |a|] in b;
      }
    }
    forall e | e in a + b ensures lo <= Rank(e) <= hi {
      assert e in a || e in b;
    }
  }

  /** A sequence whose events all have the one rank `n` is in phase order. */
  lemma SameRankOrdered(es: seq<Event>, n: nat)
    requires RanksWithin(es, n, n)
    ensures InPhaseOrder(es)
  {
    forall j, k | 0 <= j < k < |es| ensures Rank(es[j]) <= Rank(es[k]) {
      assert es[j] in es && es[k] in es;
    }
  }

  lemma PassOrdered(inner: seq<Event>, b: Event, m: nat, e: Event)
    requires Rank(b) == m && RanksWithin(inner, m + 1, m + 1) && Rank(e) == m + 2
    ensures InPhaseOrder([b] + inner + [e]) && RanksWithin([b] + inner + [e], m, m + 2)
  {
    SameRankOrdered([b], m);
    SameRankOrdered(inner, m + 1);
    SameRankOrdered([e], m + 2);
    OrderedConcat([b], inner, m, m, m + 2);
    OrderedConcat([b] + inner, [e], m, m + 2, m + 2);
  }

  lemma DestroyPhaseInOrder(ss: seq<System>, pending: seq<Id>)
    ensures InPhaseOrder(DestroyPhase(ss, pending)) && RanksWithin(DestroyPhase(ss, pending), 0, 1)
  {
    var bc := if pending == [] then [] else Broadcast(ss, DestroyEntities(pending));
    var cm := if pending == [] then [] else [CommitDestroy(pending)];
    assert DestroyPhase(ss, pending) == bc + cm;
    SameRankOrdered(bc, 0);
    SameRankOrdered(cm, 1);
    OrderedConcat(bc, cm, 0, 1, 1);
  }

  lemma DefragPhaseInOrder(ss: seq<System>, defrag: bool)
    ensures InPhaseOrder(DefragPhase(ss, defrag)) && RanksWithin(DefragPhase(ss, defrag), 2, 2)
  {
    SameRankOrdered(DefragPhase(ss, defrag), 2);
  }

  lemma UpdatePhaseInOrder(ss: seq<System>, en0: Flags, oracle: System -> Outcome)
    ensures InPhaseOrder(UpdatePhase(ss, en0, oracle)) && RanksWithin(UpdatePhase(ss, en0, oracle), 4, 4)
  {
    SameRankOrdered(UpdatePhase(ss, en0, oracle), 4);
  }

  lemma PreludeInPhaseOrder(ss: seq<System>, pending: seq<Id>, defrag: bool, en0: Flags, oracle: System -> Outcome)
    ensures InPhaseOrder(Prelude(ss, pending, defrag, en0, oracle))
    ensures RanksWithin(Prelude(ss, pending, defrag, en0, oracle), 0, 4)
  {
    var d, g, u := DestroyPhase(ss, pending), DefragPhase(ss, defrag), UpdatePhase(ss, en0, oracle);
    DestroyPhaseInOrder(ss, pending);
    DefragPhaseInOrder(ss, defrag);
    UpdatePhaseInOrder(ss, en0, oracle);
    OrderedConcat(d, g, 0, 2, 2);
    SameRankOrdered([InputReaction], 3);
    OrderedConcat(d + g, [InputReaction], 0, 3, 3);
    OrderedConcat(d + g + [InputReaction], u, 0, 4, 4);
  }

  lemma FrameInPhaseOrder(ss: seq<System>, rs3: seq<System>, rs2: seq<System>, f: Flags)
    ensures InPhaseOrder(Frame(ss, rs3, rs2, f)) && RanksWithin(Frame(ss, rs3, rs2, f), 5, 11)
  {
    PassOrdered(CallEnabled(rs3, f, Render3D), BeginFrame3D, 5, EndFrame3D);
    PassOrdered(CallEnabled(rs2, f, Render2D), BeginFrame2D, 8, EndFrame2D);
    OrderedConcat(Pass3D(rs3, f), Pass2D(rs2, f), 5, 8, 10);
    var fe := CallEnabled(ss, f, OnFrameEnd);
    SameRankOrdered(fe, 11);
    OrderedConcat(Pass3D(rs3, f) + Pass2D(rs2, f), fe, 5, 11, 11);
  }

  /**
   * Lines 120-190: within a tick, the destroy broadcast precedes the registry's commit, which
   * precedes defragmentation, input handling, the update loop, the 3D pass, the 2D pass and the
   * frame-end calls, in that order.
   */
  lemma TickInPhaseOrder(ss: seq<System>, rs3: seq<System>, rs2: seq<System>, pending: seq<Id>, defrag: bool,
                         en0: Flags, oracle: System -> Outcome)
    ensures InPhaseOrder(Tick(ss, rs3, rs2, pending, defrag, en0, oracle))
  {
    PreludeInPhaseOrder(ss, pending, defrag, en0, oracle);
    FrameInPhaseOrder(ss, rs3, rs2, FlagsAfter(ss, en0, oracle));
    OrderedConcat(Prelude(ss, pending, defrag, en0, oracle), Frame(ss, rs3, rs2, FlagsAfter(ss, en0, oracle)), 0, 5, 11);
  }

  /**
   * Lines 146-158 and 192: the tick reports Changed exactly when some system the loop finds
   * enabled reports Changed; the ones after it are still visited.
   */
  lemma {:induction false} StatusIsOrOfUpdates(ss: seq<System>, en0: Flags, oracle: System -> Outcome)
    ensures StatusAfter(ss, en0, oracle) == Changed <==>
      exists i :: 0 <= i < |ss| && EnabledAfter(ss[..i], en0, oracle, ss[i]) && oracle(ss[i]).status == Changed
  {
    if ss != [] {
      var front, last := ss[..|ss| - 1], ss[|ss| - 1];
      StatusIsOrOfUpdates(front, en0, oracle);
      forall i | 0 <= i < |front| ensures front[..i] == ss[..i] && front[i] == ss[i] {}
      if StatusAfter(ss, en0, oracle) == Changed {
        if !(EnabledAfter(front, en0, oracle, last) && oracle(last).status == Changed) {
          var i :| 0 <= i < |front| && EnabledAfter(front[..i], en0, oracle, front[i]) && oracle(front[i]).status == Changed;
          assert EnabledAfter(ss[..i], en0, oracle, ss[i]) && oracle(ss[i]).status == Changed;
        } else {
          assert EnabledAfter(ss[..|ss| - 1], en0, oracle, ss[|ss| - 1]);
        }
      } else {
        forall i | 0 <= i < |ss|
          ensures !(EnabledAfter(ss[..i], en0, oracle, ss[i]) && oracle(ss[i]).status == Changed)
        {
          if i < |front| {
            assert front[..i] == ss[..i] && front[i] == ss[i];
          }
        }
      }
    }
  }

  /** The status also reads off the recorded update events. */
  lemma {:induction false} StatusMatchesEvents(ss: seq<System>, en0: Flags, oracle: System -> Outcome)
    ensures StatusAfter(ss, en0, oracle) == Changed <==>
      exists e :: e in UpdatePhase(ss, en0, oracle) && e.status == Changed
  {
    if ss != [] {
      var front, last := ss[..|ss| - 1], ss[|ss| - 1];
      StatusMatchesEvents(front, en0, oracle);
      var tail := if EnabledAfter(front, en0, oracle, last) then [Updated(last, oracle(last).status)] else [];
      assert UpdatePhase(ss, en0, oracle) == UpdatePhase(front, en0, oracle) + tail;
    }
  }

  /**
   * Lines 150-158: the occurrence at position `i` is updated exactly when it is enabled when the
   * loop reaches it, whatever the earlier systems reported.
   */
  lemma {:induction false} UpdatedIffEnabled(ss: seq<System>, en0: Flags, oracle: System -> Outcome, i: int)
    requires 0 <= i < |ss|
    ensures EnabledAfter(ss[..i], en0, oracle, ss[i]) ==>
      |UpdatePhase(ss[..i], en0, oracle)| < |UpdatePhase(ss[..i + 1], en0, oracle)|
      && UpdatePhase(ss[..i + 1], en0, oracle) == UpdatePhase(ss[..i], en0, oracle) + [Updated(ss[i], oracle(ss[i]).status)]
    ensures !EnabledAfter(ss[..i], en0, oracle, ss[i]) ==>
      UpdatePhase(ss[..i + 1], en0, oracle) == UpdatePhase(ss[..i], en0, oracle)
  {
    var p := ss[..i + 1];
    assert p[..|p| - 1] == ss[..i] && p[|p| - 1] == ss[i];
  }

  /** Every system enabled throughout the loop gets its `update()` call. */
  lemma {:induction false} EnabledSystemIsUpdated(ss: seq<System>, en0: Flags, oracle: System -> Outcome, i: int)
    requires 0 <= i < |ss| && EnabledAfter(ss[..i], en0, oracle, ss[i])
    ensures Updated(ss[i], oracle(ss[i]).status) in UpdatePhase(ss, en0, oracle)
  {
    UpdatedIffEnabled(ss, en0, oracle, i);
    PrefixEventsStay(ss, en0, oracle, i + 1);
    var p := UpdatePhase(ss[..i + 1], en0, oracle);
    assert p[|p| - 1] == Updated(ss[i], oracle(ss[i]).status);
    assert UpdatePhase(ss, en0, oracle)[|p| - 1] == p[|p| - 1];
  }

  /** The events of a prefix of the list are a prefix of the events of the whole list. */
  lemma {:induction false} PrefixEventsStay(ss: seq<System>, en0: Flags, oracle: System -> Outcome, n: int)
    requires 0 <= n <= |ss|
    ensures UpdatePhase(ss[..n], en0, oracle) <= UpdatePhase(ss, en0, oracle)
    decreases |ss| - n
  {
    if n < |ss| {
      UpdatedIffEnabled(ss, en0, oracle, n);
      PrefixEventsStay(ss, en0, oracle, n + 1);
    } else {
      assert ss[..n] == ss;
    }
  }

  /** A system disabled at the start of the tick is never updated, wherever it appears. */
  lemma DisabledSystemIsNotUpdated(ss: seq<System>, en0: Flags, oracle: System -> Outcome, s: System)
    requires !En(en0, s)
    ensures forall e :: e in UpdatePhase(ss, en0, oracle) ==> e.sys != s
  {
    DisabledSystemIsNotUpdatedAux(ss, en0, oracle, s);
  }

  lemma {:induction false} DisabledSystemIsNotUpdatedAux(ss: seq<System>, en0: Flags, oracle: System -> Outcome, s: System)
    requires !En(en0, s)
    ensures forall e :: e in UpdatePhase(ss, en0, oracle) ==> e.sys != s
  {
    if ss != [] {
      DisabledSystemIsNotUpdatedAux(ss[..|ss| - 1], en0, oracle, s);
    }
  }

  /** In a list without repeats, "enabled when reached" is just "enabled at the start of the tick". */
  lemma NoRepeatsEnabledAtStart(ss: seq<System>, en0: Flags, oracle: System -> Outcome, i: int)
    requires 0 <= i < |ss|
    requires forall j, k :: 0 <= j < k < |ss| ==> ss[j] != ss[k]
    ensures EnabledAfter(ss[..i], en0, oracle, ss[i]) <==> En(en0, ss[i])
  {
    assert ss[i] !in ss[..i];
  }

  /** Lines 182-190: a system that disabled itself during its update misses `onFrameEnd`. */
  lemma FrameEndSkipsSelfDisabled(ss: seq<System>, en0: Flags, oracle: System -> Outcome, s: System)
    requires s in ss && !oracle(s).staysEnabled
    ensures Call(s, OnFrameEnd) !in CallEnabled(ss, FlagsAfter(ss, en0, oracle), OnFrameEnd)
  {
  }
}
