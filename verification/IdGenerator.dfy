/** The identifier generator shared by the client (request ids) and the server (keys of its pending
    futures). The counter is a `u64`; the increment wraps as it does without overflow checks. */
module Ids {

  const U64: nat := 0x1_0000_0000_0000_0000

  function Bump(n: nat): nat {
    (n + 1) % U64
  }

  /** The identifier handed out after `count` earlier ones. */
  function Nth(count: nat): nat {
    (count + 1) % U64
  }

  class IdGenerator {
    var nextId: nat

    constructor ()
      ensures nextId == Nth(0)
    {
      nextId := 1;
    }

    method NextInt() returns (id: nat)
      modifies this
      ensures id == old(nextId)
      ensures nextId == Bump(old(nextId))
    {
      id := nextId;
      nextId := (nextId + 1) % U64;
    }
  }

  /** The generator counts: after `count` identifiers it hands out number `count`. */
  lemma BumpCounts(count: nat)
    ensures Bump(Nth(count)) == Nth(count + 1)
  {
    if Nth(count) == count + 1 {
    } else {
      assert (count + 1) % U64 + 1 == (count + 2) % U64 || (count + 2) % U64 == 0;
    }
  }

  /** Below 2^64 - 1 identifiers, all of them differ; the next one collides with none. */
  lemma FreshBelowBound(i: nat, j: nat)
    requires i < j < U64
    ensures Nth(i) != Nth(j)
    ensures j < U64 - 1 ==> Nth(j) == j + 1
  {
  }

  /** In general two identifiers are the same exactly when the wrapped counts are: freshness is lost
      every 2^64 steps, and only then. */
  lemma SameIdIff(i: nat, j: nat)
    ensures Nth(i) == Nth(j) <==> i % U64 == j % U64
  {
    NthIs(i);
    NthIs(j);
  }

  lemma NthIs(i: nat)
    ensures Nth(i) == if i % U64 == U64 - 1 then 0 else i % U64 + 1
  {
    assert i == i / U64 * U64 + i % U64;
    if i % U64 == U64 - 1 {
      assert i + 1 == (i / U64 + 1) * U64;
    }
  }
}
