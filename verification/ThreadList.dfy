/** The array of active threads that a round has to reach, `active_thread_list`. */
module ThreadList {
  import opened Verdicts

  datatype Ptid = Ptid(tid: nat, pid: nat)

  const MAX_ACTIVE_THREAD: nat := 4096

  /** The list with the first entry of `tid` taken out and the order of the others kept. */
  function Without(list: seq<Ptid>, tid: nat): seq<Ptid> {
    if list == [] then []
    else if list[0].tid == tid then list[1..]
    else [list[0]] + Without(list[1..], tid)
  }

  ghost predicate Lists(list: seq<Ptid>, tid: nat) {
    exists k :: 0 <= k < |list| && list[k].tid == tid
  }

  ghost predicate Distinct(list: seq<Ptid>) {
    forall i, j | 0 <= i < |list| && 0 <= j < |list| :: list[i].tid == list[j].tid ==> i == j
  }

  lemma {:induction false} WithoutAt(list: seq<Ptid>, tid: nat, i: nat)
    requires i < |list| && list[i].tid == tid && forall k | 0 <= k < i :: list[k].tid != tid
    ensures Without(list, tid) == list[..i] + list[i + 1..]
  {
    if i > 0 { WithoutAt(list[1..], tid, i - 1); }
  }

  /** Removing a thread delists exactly that thread. */
  lemma WithoutDelists(list: seq<Ptid>, tid: nat, other: nat)
    requires Distinct(list)
    ensures Distinct(Without(list, tid))
    ensures Lists(Without(list, tid), other) <==> Lists(list, other) && other != tid
  {
    if i :| 0 <= i < |list| && list[i].tid == tid {
      WithoutAt(list, tid, i);
      var r := Without(list, tid);
      forall k | 0 <= k < |r| ensures r[k] == list[if k < i then k else k + 1] {}
      if Lists(list, other) && other != tid {
        var k :| 0 <= k < |list| && list[k].tid == other;
        assert r[if k < i then k else k - 1].tid == other;
      }
    } else {
      WithoutAbsent(list, tid);
    }
  }

  lemma {:induction false} WithoutAbsent(list: seq<Ptid>, tid: nat)
    requires forall k | 0 <= k < |list| :: list[k].tid != tid
    ensures Without(list, tid) == list
  {
    if list != [] { WithoutAbsent(list[1..], tid); }
  }

  /** The listed threads as the set the round protocol works with. */
  function Tids(list: seq<Ptid>): set<nat> { set k | 0 <= k < |list| :: list[k].tid }

  lemma {:induction false} TidsSize(list: seq<Ptid>)
    requires Distinct(list)
    ensures |Tids(list)| == |list|
  {
    if list != [] {
      var init, last := list[..|list| - 1], list[|list| - 1];
      TidsSize(init);
      TidsAdd(init, last);
      assert init + [last] == list;
      assert last.tid !in Tids(init);
    }
  }

  lemma TidsAdd(list: seq<Ptid>, p: Ptid)
    ensures Tids(list + [p]) == Tids(list) + {p.tid}
  {
    forall t ensures t in Tids(list + [p]) <==> t in Tids(list) + {p.tid} {
      if t in Tids(list) { var k :| 0 <= k < |list| && list[k].tid == t; assert (list + [p])[k].tid == t; }
      if t == p.tid { assert (list + [p])[|list|].tid == t; }
    }
  }

  /** Taking a thread out of the array takes it out of the set, and nothing else. */
  lemma TidsWithout(list: seq<Ptid>, tid: nat)
    requires Distinct(list)
    ensures Tids(Without(list, tid)) == Tids(list) - {tid} && Distinct(Without(list, tid))
  {
    var r := Without(list, tid);
    WithoutDelists(list, tid, tid);
    forall t ensures t in Tids(r) <==> t in Tids(list) && t != tid {
      WithoutDelists(list, tid, t);
      assert (t in Tids(list) <==> Lists(list, t)) && (t in Tids(r) <==> Lists(r, t));
    }
  }

  class ActiveThreads {
    const list: array<Ptid>
    var size: int

    ghost predicate Valid()
      reads this
    {
      list.Length == MAX_ACTIVE_THREAD && 0 <= size <= MAX_ACTIVE_THREAD
    }

    ghost function Contents(): seq<Ptid>
      requires Valid()
      reads this, list
    {
      list[..size]
    }

    constructor ()
      ensures Valid() && Contents() == [] && fresh(list)
    {
      list := new Ptid[MAX_ACTIVE_THREAD](_ => Ptid(0, 0));
      size := 0;
    }

    method Add(tid: nat, pid: nat) returns (r: Verdict)
      requires Valid()
      modifies this, list
      ensures Valid()
      ensures r.Failed? <==> |old(Contents())| == MAX_ACTIVE_THREAD
      ensures Contents() == old(Contents()) + if r.Done? then [Ptid(tid, pid)] else []
    {
      if size >= MAX_ACTIVE_THREAD { return Failed; }
      list[size] := Ptid(tid, pid);
      size := size + 1;
      return Done;
    }

    /** Moves the entries after `hole` one place down. */
    method CloseHole(hole: nat) returns (i: int)
      requires size < list.Length
      modifies list
      ensures i == if hole < size then size else hole
      ensures forall k | 0 <= k < list.Length ::
        list[k] == if hole <= k < size then old(list[k + 1]) else old(list[k])
    {
      i := hole;
      while i < size
        invariant hole <= i && (i <= size || i == hole)
        invariant forall k | 0 <= k < list.Length ::
          list[k] == if hole <= k < i then old(list[k + 1]) else old(list[k])
      {
        list[i] := list[i + 1];
        i := i + 1;
      }
    }

    /** The closing assertions fail exactly for a thread that was never listed; otherwise the
        array shift removes that one entry. */
    method RemoveElement(tid: nat) returns (r: Verdict)
      requires Valid()
      modifies this, list
      ensures r.Failed? <==> !Lists(old(Contents()), tid)
      ensures r.Done? ==> Valid() && Contents() == Without(old(Contents()), tid)
    {
      ghost var before := Contents();
      var i := 0;
      while i < size - 1 && list[i].tid != tid
        invariant 0 <= i && (i < size || i == size == 0)
        invariant forall k | 0 <= k < i :: before[k].tid != tid
      {
        i := i + 1;
      }
      size := size - 1;
      if i == size {
        if list[i].tid != tid { return Failed; }
        WithoutAt(before, tid, i);
        return Done;
      }
      ghost var hole := i;
      i := CloseHole(i);
      if i != size { return Failed; }
      WithoutAt(before, tid, hole);
      return Done;
    }
  }
}
