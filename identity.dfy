/** `UUID()`: a supplier of identifiers that never hands out the same one twice. */
module Identity {
  import opened Basics

  class UuidSource {
    var next: nat
    /** Every identifier handed out so far. */
    ghost var issued: set<Uuid>

    ghost predicate Valid()
      reads this
    {
      forall u :: u in issued ==> u < next
    }

    constructor ()
      ensures Valid() && issued == {}
    {
      next := 0;
      issued := {};
    }

    /** One fresh identifier, distinct from every earlier one. */
    method Fresh() returns (id: Uuid)
      requires Valid()
      modifies this
      ensures Valid()
      ensures id !in old(issued) && issued == old(issued) + {id}
    {
      id := next;
      next := next + 1;
      issued := issued + {id};
    }

    /** `n` fresh identifiers, pairwise distinct and distinct from every earlier one. */
    method FreshIds(n: nat) returns (s: seq<Uuid>)
      requires Valid()
      modifies this
      ensures Valid()
      ensures |s| == n
      ensures forall i, j :: 0 <= i < j < |s| ==> s[i] != s[j]
      ensures forall i :: 0 <= i < |s| ==> s[i] !in old(issued)
      ensures forall u :: u in issued <==> u in old(issued) || u in s
    {
      s := [];
      while |s| < n
        invariant Valid()
        invariant |s| <= n
        invariant forall i, j :: 0 <= i < j < |s| ==> s[i] != s[j]
        invariant forall i :: 0 <= i < |s| ==> s[i] !in old(issued) && s[i] in issued
        invariant forall u :: u in issued <==> u in old(issued) || u in s
      {
        var id := Fresh();
        s := s + [id];
      }
    }
  }
}
