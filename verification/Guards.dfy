/** Guard numbering, and the creation of the shared map that it fixes the size of. */
module Guards {
  import opened Wrappers
  import opened Bridge
  import opened CovBridge
  import opened GateWord
  import opened Interference

  type uint32 = w: nat | w < 0x1_0000_0000

  datatype InitError = Already | BadArgument | NoMapping

  /** The static state of covbridge.c in one process.  A guard section is the
    * array of guards of one instrumented object. */
  class Runtime {
    var nslots: uint32
    var shared: SharedMap?
    ghost var sections: seq<array<uint32>>   // numbered so far, in order
    ghost var starts: seq<nat>               // nslots when each was numbered

    /** Where section i starts, or where the next one will. */
    ghost function Start(i: nat): nat
      reads this
      requires i <= |starts|
    {
      if i < |starts| then starts[i] else nslots
    }

    ghost predicate Numbered(i: nat)
      reads this, sections
      requires i < |sections| == |starts|
    {
      && sections[i].Length > 0
      && starts[i] + sections[i].Length == Start(i + 1)
      && forall k :: 0 <= k < sections[i].Length ==> sections[i][k] == starts[i] + k + 1
    }

    ghost predicate Valid()
      reads this, sections
    {
      && nslots <= MAX_EDGES
      && |starts| == |sections| && Start(0) == 0
      && (forall i, j :: 0 <= i < j < |sections| ==> sections[i] != sections[j])
      && (forall i :: 0 <= i < |sections| ==> Numbered(i))
      && (shared != null ==> shared.counts.Length == nslots)
    }

    constructor ()
      ensures Valid() && nslots == 0 && shared == null && sections == []
    {
      nslots, shared, sections, starts := 0, null, [], [];
    }

    /** The wrapped guard-init callback.  False means that the process exits with
      * status 125: a new section appeared too late, or is too large. */
    method Register(guards: array<uint32>) returns (ok: bool)
      requires Valid()
      modifies this`nslots, this`sections, this`starts, guards
      ensures Valid()
      ensures var added := guards.Length > 0 && old(guards[..])[0] == 0;
              && (ok <==> !added || (shared == null && guards.Length <= 1048576 - old(nslots)))
              && (ok && added ==>
                    && guards !in old(sections) && sections == old(sections) + [guards]
                    && nslots == old(nslots) + guards.Length)
              && (!ok || !added ==>
                    sections == old(sections) && nslots == old(nslots) && guards[..] == old(guards[..]))
    {
      if guards.Length == 0 || guards[0] != 0 {
        return true;
      }
      if shared != null || guards.Length > MAX_EDGES - nslots {
        return false;
      }
      forall i | 0 <= i < |sections| ensures Numbered(i) && sections[i] != guards {
        assert Numbered(i) && sections[i][0] == starts[i] + 0 + 1;
      }
      ghost var first := nslots;
      var k := 0;
      while k < guards.Length
        invariant k <= guards.Length && nslots == first + k && guards.Length <= MAX_EDGES - first
        invariant sections == old(sections) && starts == old(starts)
        invariant forall j :: 0 <= j < k ==> guards[j] == first + j + 1
        invariant forall i, j :: 0 <= i < |sections| && 0 <= j < sections[i].Length ==>
                    sections[i][j] == starts[i] + j + 1
      {
        nslots := nslots + 1;
        guards[k] := nslots;
        k := k + 1;
      }
      sections, starts := sections + [guards], starts + [first];
      forall i | 0 <= i < |sections| ensures Numbered(i) {
        assert i < |sections| - 1 ==> old(Numbered(i)) && Start(i + 1) == old(Start(i + 1));
      }
      return true;
    }

    /** cb_init: the map has one counter for every guard numbered so far. */
    method Init(layoutId: uint64, noMemory: bool, ghost threads: seq<Thread>) returns (result: Result<(), InitError>)
      requires Valid()
      requires forall t :: 0 <= t < |threads| ==> threads[t] == Thread(threads[t].proc, 0, None, NotEnded, Free)
      modifies this`shared
      ensures Valid()
      ensures result == if old(shared) != null then Err(Already)
                        else if layoutId == 0 || nslots == 0 then Err(BadArgument)
                        else if noMemory then Err(NoMapping) else Ok(())
      ensures result.Err? ==> shared == old(shared)
      ensures result.Ok? ==> shared != null && shared.Valid() && fresh(shared) && fresh(shared.counts)
                             && Bridge.Init(shared.sys) && shared.sys.w.threads == threads
                             && shared.counts.Length == nslots
    {
      if shared != null {
        return Err(Already);
      }
      if layoutId == 0 || nslots == 0 {
        return Err(BadArgument);
      }
      if noMemory {
        return Err(NoMapping);
      }
      shared := new SharedMap(nslots, threads);
      forall i | 0 <= i < |sections| ensures Numbered(i) {
        assert old(Numbered(i)) && Start(i + 1) == old(Start(i + 1));
      }
      return Ok(());
    }

    /** The wrapped guard callback at guard k of a section, in a thread whose
      * thread_run is `run`.  Numbered or not, the guard addresses no counter
      * outside the map. */
    method TraceGuard(ghost t: nat, run: uint64, guards: array<uint32>, k: nat) returns (ghost hit: Option<Hit>)
      requires Valid() && k < guards.Length && (guards in sections || guards[k] == 0)
      requires shared != null ==>
                 && shared.Valid() && Running(shared.sys, t)
                 && shared.sys.w.threads[t].pc == Free && shared.sys.w.threads[t].tag == run
      modifies if shared == null then {} else {shared, shared.counts}
      ensures Valid() && (shared != null ==> shared.Valid() && Running(shared.sys, t))
      ensures hit.Some? <==> shared != null && guards[k] != 0 && run != 0
      ensures hit.Some? ==> hit.value.edge == guards[k] - 1 && shared.Counted(hit.value)
    {
      if shared == null {
        return None;
      }
      if guards[k] != 0 {
        InBounds(guards, k);
      }
      hit := shared.GuardHit(t, run, guards[k]);
    }

    lemma InBounds(guards: array<uint32>, k: nat)
      requires Valid() && k < guards.Length && guards in sections
      ensures 1 <= guards[k] <= nslots
    {
      var i :| 0 <= i < |sections| && sections[i] == guards;
      assert Numbered(i);
      StartsOrdered(i, |sections|);
    }

    // ----- The numbering -----

    lemma {:induction false} StartsOrdered(i: nat, j: nat)
      requires Valid() && i < j <= |sections|
      ensures starts[i] + sections[i].Length <= Start(j) <= nslots
      decreases |sections| - i
    {
      assert Numbered(i);
      if i + 1 < j {
        StartsOrdered(i + 1, j);
      } else if j < |sections| {
        StartsOrdered(j, |sections|);
      }
    }

    /** The section that holds guard number `id`. */
    lemma {:induction false} Find(id: nat, n: nat) returns (i: nat, k: nat)
      requires Valid() && n <= |sections| && 1 <= id <= Start(n)
      ensures i < n && k < sections[i].Length && sections[i][k] == id
    {
      if n == 0 {
        assert false;
      } else {
        assert Numbered(n - 1);
        if id > starts[n - 1] {
          i, k := n - 1, id - starts[n - 1] - 1;
        } else {
          i, k := Find(id, n - 1);
        }
      }
    }

    lemma Apart(i: nat, k: nat, j: nat, l: nat)
      requires Valid() && i < j < |sections| && k < sections[i].Length && l < sections[j].Length
      ensures sections[i][k] < sections[j][l]
    {
      StartsOrdered(i, j);
      assert Numbered(i) && Numbered(j);
    }

    ghost predicate NumberAt(i: nat, k: nat, id: nat)
      reads this, sections
    {
      i < |sections| && k < sections[i].Length && sections[i][k] == id
    }

    /** After any sequence of registrations the guards of all sections are numbered
      * 1 to nslots, each number exactly once. */
    lemma NumbersFill(id: nat)
      requires Valid()
      ensures nslots <= 1048576
      ensures 1 <= id <= nslots <==> exists i, k :: NumberAt(i, k, id)
      ensures forall i, k, j, l :: NumberAt(i, k, id) && NumberAt(j, l, id) ==> i == j && k == l
    {
      if 1 <= id <= nslots {
        var i, k := Find(id, |sections|);
        assert NumberAt(i, k, id);
      }
      forall i: nat, k: nat | NumberAt(i, k, id) ensures 1 <= id <= nslots {
        InBounds(sections[i], k);
      }
      forall i: nat, k: nat, j: nat, l: nat | NumberAt(i, k, id) && NumberAt(j, l, id) ensures i == j && k == l {
        assert Numbered(i);
        if i < j {
          Apart(i, k, j, l);
        } else if j < i {
          Apart(j, l, i, k);
        }
      }
    }
  }
}
