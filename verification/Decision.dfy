/** Decisions as rulebooks: clauses in the order they are checked, each with the refusal
    given when it is the first to fail. */
module Decisions {
  import opened Types

  datatype Clause<+E> = Clause(holds: bool, refusal: E)

  /** The refusal of the first clause that fails; none when all hold. */
  function Verdict<E>(clauses: seq<Clause<E>>): Option<E> {
    if clauses == [] then None
    else if !clauses[0].holds then Some(clauses[0].refusal)
    else Verdict(clauses[1..])
  }

  predicate AllHold<E>(clauses: seq<Clause<E>>) {
    forall i :: 0 <= i < |clauses| ==> clauses[i].holds
  }

  lemma {:induction false} VerdictIff<E>(clauses: seq<Clause<E>>)
    ensures Verdict(clauses).None? <==> AllHold(clauses)
  {
    if clauses != [] && clauses[0].holds {
      VerdictIff(clauses[1..]);
      if AllHold(clauses[1..]) {
        forall i | 0 <= i < |clauses| ensures clauses[i].holds {
          assert i > 0 ==> clauses[i] == clauses[1..][i - 1];
        }
      }
    }
  }

  lemma {:induction false} NoClauses<E>()
    ensures Verdict<E>([]) == None
  {
  }

  lemma {:induction false} OneClause<E>(a: Clause<E>)
    ensures Verdict([a]) == if a.holds then None else Some(a.refusal)
  {
    assert [a][1..] == [];
  }

  lemma {:induction false} TwoClauses<E>(a: Clause<E>, b: Clause<E>)
    ensures Verdict([a, b]) == if !a.holds then Some(a.refusal) else if !b.holds then Some(b.refusal) else None
  {
    OneClause(b);
    assert [a, b][1..] == [b];
  }

  lemma {:induction false} ThreeClauses<E>(a: Clause<E>, b: Clause<E>, c: Clause<E>)
    ensures Verdict([a, b, c]) == if !a.holds then Some(a.refusal) else if !b.holds then Some(b.refusal)
                                  else if !c.holds then Some(c.refusal) else None
  {
    TwoClauses(b, c);
    assert [a, b, c][1..] == [b, c];
  }

  lemma {:induction false} FiveClauses<E>(a: Clause<E>, b: Clause<E>, c: Clause<E>, d: Clause<E>, e: Clause<E>)
    ensures Verdict([a, b, c, d, e]) == if !a.holds then Some(a.refusal) else if !b.holds then Some(b.refusal)
                                        else if !c.holds then Some(c.refusal) else if !d.holds then Some(d.refusal)
                                        else if !e.holds then Some(e.refusal) else None
  {
    ThreeClauses(c, d, e);
    assert [b, c, d, e][1..] == [c, d, e];
    assert [a, b, c, d, e][1..] == [b, c, d, e];
  }

  lemma {:induction false} FailsAt<E>(clauses: seq<Clause<E>>, i: nat)
    requires i < |clauses| && !clauses[i].holds && forall j :: 0 <= j < i ==> clauses[j].holds
    ensures Verdict(clauses) == Some(clauses[i].refusal)
  {
    if i > 0 {
      FailsAt(clauses[1..], i - 1);
    }
  }

  lemma {:induction false} VerdictThen<E>(a: seq<Clause<E>>, b: seq<Clause<E>>)
    ensures Verdict(a + b) == if Verdict(a).Some? then Verdict(a) else Verdict(b)
  {
    if a == [] {
      assert a + b == b;
    } else {
      VerdictThen(a[1..], b);
      assert (a + b)[1..] == a[1..] + b;
    }
  }

  /** The same clauses with every refusal wrapped. */
  function Wrapped<E, F>(clauses: seq<Clause<E>>, wrap: E -> F): (w: seq<Clause<F>>)
    ensures |w| == |clauses|
    ensures forall i :: 0 <= i < |w| ==> w[i] == Clause(clauses[i].holds, wrap(clauses[i].refusal))
  {
    seq(|clauses|, i requires 0 <= i < |clauses| => Clause(clauses[i].holds, wrap(clauses[i].refusal)))
  }

  lemma {:induction false} VerdictWrapped<E, F>(clauses: seq<Clause<E>>, wrap: E -> F)
    ensures Verdict(Wrapped(clauses, wrap)) == match Verdict(clauses)
                                               case None => None
                                               case Some(e) => Some(wrap(e))
  {
    if clauses != [] {
      VerdictWrapped(clauses[1..], wrap);
      assert Wrapped(clauses, wrap)[1..] == Wrapped(clauses[1..], wrap);
    }
  }
}
