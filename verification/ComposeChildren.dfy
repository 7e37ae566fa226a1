/** The counter of compose children that renewal stands off from. */
module ComposeChildren {
  import opened Values

  type Instance = string
  type Child = nat

  ghost function ChildrenOf(live: map<Child, Instance>, id: Instance): set<Child> {
    set c | c in live && live[c] == id
  }

  class Inflight {
    var count: map<Instance, int>
    ghost var live: map<Child, Instance>  // children whose waiter thread has not seen them exit

    /** The counter of an instance is the number of its live children, and no counter is kept at zero. */
    ghost predicate Valid()
      reads this
    {
      && (forall id :: GetOr(count, id, 0) == |ChildrenOf(live, id)|)
      && (forall id :: id in count ==> count[id] > 0)
    }

    constructor ()
      ensures Valid() && live == map[]
    {
      count, live := map[], map[];
    }

    /** track_compose_child; when its waiter thread cannot start the mark is taken back, and only that mark. */
    method Track(id: Instance, child: Child, threadStarts: bool)
      requires Valid() && child !in live
      modifies this
      ensures Valid()
      ensures live == if threadStarts then old(live)[child := id] else old(live)
    {
      LiveGrows(live, child, id);
      ghost var count', live' := count, live;
      count := count[id := GetOr(count, id, 0) + 1];
      live := live[child := id];
      forall i ensures GetOr(count, i, 0) == |ChildrenOf(live, i)| {
        assert GetOr(count', i, 0) == |ChildrenOf(live', i)|;
      }
      if !threadStarts {
        ReleaseChild(id, child);
        assert live == old(live);
      }
    }

    /** _release_compose_child, when the waiter of `child` ends. */
    method ReleaseChild(id: Instance, child: Child)
      requires Valid() && child in live && live[child] == id
      modifies this
      ensures Valid() && live == old(live) - {child}
    {
      LiveShrinks(live, child);
      var remaining := GetOr(count, id, 1) - 1;
      if remaining > 0 {
        count := count[id := remaining];
      } else {
        count := count - {id};
      }
      live := live - {child};
    }

    /** Renewal stands off exactly while some child of the instance is live. */
    method ComposeInflight(id: Instance) returns (busy: bool)
      requires Valid()
      ensures busy <==> exists c :: c in live && live[c] == id
    {
      busy := GetOr(count, id, 0) > 0;
      assert busy <==> ChildrenOf(live, id) != {};
      if busy {
        ghost var c :| c in ChildrenOf(live, id);
      } else {
        assert forall c :: c in live && live[c] == id ==> c in ChildrenOf(live, id);
      }
    }
  }

  lemma LiveGrows(live: map<Child, Instance>, child: Child, id: Instance)
    requires child !in live
    ensures forall i :: |ChildrenOf(live[child := id], i)| == |ChildrenOf(live, i)| + if i == id then 1 else 0
  {
    forall i ensures |ChildrenOf(live[child := id], i)| == |ChildrenOf(live, i)| + if i == id then 1 else 0 {
      assert ChildrenOf(live[child := id], i) == ChildrenOf(live, i) + if i == id then {child} else {};
    }
  }

  lemma LiveShrinks(live: map<Child, Instance>, child: Child)
    requires child in live
    ensures forall i :: |ChildrenOf(live - {child}, i)| == |ChildrenOf(live, i)| - if i == live[child] then 1 else 0
  {
    forall i ensures |ChildrenOf(live - {child}, i)| == |ChildrenOf(live, i)| - if i == live[child] then 1 else 0 {
      assert ChildrenOf(live - {child}, i) == ChildrenOf(live, i) - if i == live[child] then {child} else {};
    }
  }
}
