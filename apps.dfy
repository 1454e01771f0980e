/**
 * The system list of the application (app.hpp): systems are appended by
 * `add_system`, the first one with a given function is erased by
 * `remove_system`, and each frame calls them in list order.
 */
module Apps {

  /** `SystemPriority`: `Once` is `INT_MIN`, `Update` is 100. */
  datatype SystemPriority = Once | Update

  function PriorityValue(p: SystemPriority): int {
    match p
    case Once => -0x8000_0000
    case Update => 100
  }

  /** A system function, known only by its address. */
  type FuncId = nat

  datatype System = System(priority: SystemPriority, func: FuncId)

  /** The list with its first entry running `func` taken out, or unchanged when there is none. */
  function RemoveFirst(systems: seq<System>, func: FuncId): seq<System>
    decreases |systems|
  {
    if systems == [] then []
    else if systems[0].func == func then systems[1..]
    else [systems[0]] + RemoveFirst(systems[1..], func)
  }

  /** The functions a frame calls, in order. */
  function Calls(systems: seq<System>): (r: seq<FuncId>)
    ensures |r| == |systems|
    ensures forall i :: 0 <= i < |systems| ==> r[i] == systems[i].func
  {
    seq(|systems|, i requires 0 <= i < |systems| => systems[i].func)
  }

  /** The order the declaration's comment claims for the list. */
  predicate SortedByPriority(systems: seq<System>) {
    forall i, j :: 0 <= i < j < |systems| ==>
      PriorityValue(systems[i].priority) <= PriorityValue(systems[j].priority)
  }

  /** With no entry running `func`, removal changes nothing. */
  lemma {:induction false} RemoveFirstAbsent(systems: seq<System>, func: FuncId)
    requires forall s <- systems :: s.func != func
    ensures RemoveFirst(systems, func) == systems
    decreases |systems|
  {
    if systems != [] {
      assert systems[0] in systems;
      assert forall s <- systems[1..] :: s in systems;
      RemoveFirstAbsent(systems[1..], func);
      assert systems == [systems[0]] + systems[1..];
    }
  }

  /** With `k` the first entry running `func`, removal erases exactly position `k`. */
  lemma {:induction false} RemoveFirstAt(systems: seq<System>, func: FuncId, k: nat)
    requires k < |systems| && systems[k].func == func
    requires forall j :: 0 <= j < k ==> systems[j].func != func
    ensures RemoveFirst(systems, func) == systems[..k] + systems[k + 1..]
    decreases k
  {
    if k > 0 {
      var rest := systems[1..];
      RemoveFirstAt(rest, func, k - 1);
      assert rest[..k - 1] + rest[k..] == systems[1..k] + systems[k + 1..];
      assert systems[..k] == [systems[0]] + systems[1..k];
    }
  }

  /** Removal takes out one entry when some entry runs `func`, and none otherwise. */
  lemma {:induction false} RemoveFirstLength(systems: seq<System>, func: FuncId)
    ensures |RemoveFirst(systems, func)| == if exists s <- systems :: s.func == func then |systems| - 1 else |systems|
    decreases |systems|
  {
    if systems != [] {
      RemoveFirstLength(systems[1..], func);
      assert systems == [systems[0]] + systems[1..];
    }
  }

  /** Adding a system whose function is not listed yet and removing it again restores the list. */
  lemma AddRemoveRoundTrip(systems: seq<System>, s: System)
    requires forall t <- systems :: t.func != s.func
    ensures RemoveFirst(systems + [s], s.func) == systems
  {
    var all := systems + [s];
    assert forall j :: 0 <= j < |systems| ==> all[j].func != s.func by {
      forall j | 0 <= j < |systems| ensures all[j].func != s.func {
        assert systems[j] in systems;
      }
    }
    RemoveFirstAt(all, s.func, |systems|);
    assert all[..|systems|] == systems;
  }

  /** Erasing an entry keeps the others in their relative order, so a sorted list stays sorted. */
  lemma RemoveFirstKeepsSorted(systems: seq<System>, func: FuncId)
    requires SortedByPriority(systems)
    ensures SortedByPriority(RemoveFirst(systems, func))
  {
    if k :| 0 <= k < |systems| && systems[k].func == func {
      var first := FirstWith(systems, func, k);
      RemoveFirstAt(systems, func, first);
      var r := systems[..first] + systems[first + 1..];
      forall i, j | 0 <= i < j < |r|
        ensures PriorityValue(r[i].priority) <= PriorityValue(r[j].priority)
      {
        var i' := if i < first then i else i + 1;
        var j' := if j < first then j else j + 1;
        assert r[i] == systems[i'] && r[j] == systems[j'];
      }
    } else {
      RemoveFirstAbsent(systems, func);
    }
  }

  /** The first position at or before `k` running `func`. */
  lemma {:induction false} FirstWith(systems: seq<System>, func: FuncId, k: nat) returns (first: nat)
    requires k < |systems| && systems[k].func == func
    ensures first <= k && systems[first].func == func
    ensures forall j :: 0 <= j < first ==> systems[j].func != func
    decreases k
  {
    if j :| 0 <= j < k && systems[j].func == func {
      first := FirstWith(systems, func, j);
    } else {
      first := k;
    }
  }

  /** A system added last runs last. */
  lemma CallsAppend(systems: seq<System>, s: System)
    ensures Calls(systems + [s]) == Calls(systems) + [s.func]
  {
  }

  /** `add_system` only appends: a list sorted by priority does not stay sorted. */
  lemma AppendBreaksPriorityOrder()
    ensures var before := [System(Update, 1)];
      SortedByPriority(before) && !SortedByPriority(before + [System(Once, 2)])
  {
    var after := [System(Update, 1)] + [System(Once, 2)];
    assert PriorityValue(after[0].priority) > PriorityValue(after[1].priority);
  }

  /** The insertion that keeps the list sorted: after every entry of no greater priority. */
  function InsertByPriority(systems: seq<System>, s: System): seq<System>
    decreases |systems|
  {
    if systems == [] then [s]
    else if PriorityValue(s.priority) < PriorityValue(systems[0].priority) then [s] + systems
    else [systems[0]] + InsertByPriority(systems[1..], s)
  }

  /** Inserting by priority adds exactly the new system. */
  lemma {:induction false} InsertByPriorityPermutes(systems: seq<System>, s: System)
    ensures multiset(InsertByPriority(systems, s)) == multiset(systems) + multiset{s}
    decreases |systems|
  {
    if systems != [] && PriorityValue(s.priority) >= PriorityValue(systems[0].priority) {
      InsertByPriorityPermutes(systems[1..], s);
      assert systems == [systems[0]] + systems[1..];
    }
  }

  /** A lower bound on every priority in the list and on the new one bounds the result. */
  lemma {:induction false} InsertByPriorityBounded(systems: seq<System>, s: System, low: int)
    requires forall k :: 0 <= k < |systems| ==> low <= PriorityValue(systems[k].priority)
    requires low <= PriorityValue(s.priority)
    ensures forall k :: 0 <= k < |InsertByPriority(systems, s)| ==> low <= PriorityValue(InsertByPriority(systems, s)[k].priority)
    decreases |systems|
  {
    if systems != [] && PriorityValue(s.priority) >= PriorityValue(systems[0].priority) {
      InsertByPriorityBounded(systems[1..], s, low);
    }
  }

  /** Inserting by priority keeps a sorted list sorted. */
  lemma {:induction false} InsertByPriorityKeepsSorted(systems: seq<System>, s: System)
    requires SortedByPriority(systems)
    ensures SortedByPriority(InsertByPriority(systems, s))
    decreases |systems|
  {
    if systems == [] {
    } else if PriorityValue(s.priority) >= PriorityValue(systems[0].priority) {
      var rest := systems[1..];
      InsertByPriorityKeepsSorted(rest, s);
      var low := PriorityValue(systems[0].priority);
      assert forall k :: 0 <= k < |rest| ==> rest[k] == systems[k + 1];
      InsertByPriorityBounded(rest, s, low);
      var r := InsertByPriority(rest, s);
      var all := [systems[0]] + r;
      forall i, j | 0 <= i < j < |all|
        ensures PriorityValue(all[i].priority) <= PriorityValue(all[j].priority)
      {
        assert all[j] == r[j - 1];
        if i > 0 {
          assert all[i] == r[i - 1];
        }
      }
    } else {
      var all := [s] + systems;
      forall i, j | 0 <= i < j < |all|
        ensures PriorityValue(all[i].priority) <= PriorityValue(all[j].priority)
      {
        assert all[j] == systems[j - 1];
        if i > 0 {
          assert all[i] == systems[i - 1];
        } else {
          assert PriorityValue(systems[0].priority) <= PriorityValue(systems[j - 1].priority);
        }
      }
    }
  }

  class App {
    var systems: seq<System>

    constructor ()
      ensures systems == []
    {
      systems := [];
    }

    /** add_system: `push_back`. */
    method AddSystem(system: System)
      modifies this
      ensures systems == old(systems) + [system]
    {
      systems := systems + [system];
    }

    /** remove_system: `find_if` on the function pointer alone, then `erase` when found. */
    method RemoveSystem(system: System)
      modifies this
      ensures systems == RemoveFirst(old(systems), system.func)
    {
      var k := 0;
      while k < |systems| && systems[k].func != system.func
        invariant 0 <= k <= |systems|
        invariant forall j :: 0 <= j < k ==> systems[j].func != system.func
      {
        k := k + 1;
      }
      if k < |systems| {
        RemoveFirstAt(systems, system.func, k);
        systems := systems[..k] + systems[k + 1..];
      } else {
        RemoveFirstAbsent(systems, system.func);
      }
    }

    /** One frame of `run`: every system's function, called in list order. */
    method RunSystems() returns (called: seq<FuncId>)
      ensures called == Calls(systems)
    {
      called := [];
      var i := 0;
      while i < |systems|
        invariant 0 <= i <= |systems|
        invariant called == Calls(systems[..i])
      {
        CallsAppend(systems[..i], systems[i]);
        assert systems[..i + 1] == systems[..i] + [systems[i]];
        called := called + [systems[i].func];
        i := i + 1;
      }
      assert systems[..i] == systems;
    }
  }
}
