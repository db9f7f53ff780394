// Weighted round-robin bookkeeping: the rr_credit column of queue_runtime, and
// what one scheduling round does to it.
module Credits {
  import opened Order

  // A queue without a runtime row has credit zero.
  type Table = map<string, real>

  function At(c: Table, q: string): real { if q in c then c[q] else 0.0 }

  ghost function Sum(s: set<string>, c: Table): real
  {
    if s == {} then 0.0 else var x :| x in s; At(c, x) + Sum(s - {x}, c)
  }

  // The order of summation does not matter.
  lemma {:induction false} SumPick(s: set<string>, c: Table, x: string)
    requires x in s
    ensures Sum(s, c) == At(c, x) + Sum(s - {x}, c)
    decreases s
  {
    var y :| y in s && Sum(s, c) == At(c, y) + Sum(s - {y}, c);
    if y != x {
      SumPick(s - {y}, c, x);
      SumPick(s - {x}, c, y);
      assert s - {y} - {x} == s - {x} - {y};
    }
  }

  lemma {:induction false} SumSame(s: set<string>, c: Table, d: Table)
    requires forall q | q in s :: At(c, q) == At(d, q)
    ensures Sum(s, c) == Sum(s, d)
    decreases s
  {
    if s != {} {
      var x :| x in s;
      SumPick(s, c, x);
      SumPick(s, d, x);
      SumSame(s - {x}, c, d);
    }
  }

  lemma {:induction false} SumUnion(a: set<string>, b: set<string>, c: Table)
    requires a !! b
    ensures Sum(a + b, c) == Sum(a, c) + Sum(b, c)
    decreases a
  {
    if a == {} {
      assert a + b == b;
    } else {
      var x :| x in a;
      SumPick(a, c, x);
      SumPick(a + b, c, x);
      SumUnion(a - {x}, b, c);
      assert a + b - {x} == (a - {x}) + b;
    }
  }

  lemma {:induction false} SumMonotone(s: set<string>, c: Table, d: Table)
    requires forall q | q in s :: At(c, q) <= At(d, q)
    ensures Sum(s, c) <= Sum(s, d)
    decreases s
  {
    if s != {} {
      var x :| x in s;
      SumPick(s, c, x);
      SumPick(s, d, x);
      SumMonotone(s - {x}, c, d);
    }
  }

  lemma {:induction false} SumAdd(s: set<string>, c: Table, d: Table, e: Table)
    requires forall q | q in s :: At(e, q) == At(c, q) + At(d, q)
    ensures Sum(s, e) == Sum(s, c) + Sum(s, d)
    decreases s
  {
    if s != {} {
      var x :| x in s;
      SumPick(s, c, x);
      SumPick(s, d, x);
      SumPick(s, e, x);
      SumAdd(s - {x}, c, d, e);
    }
  }

  // The richest candidate after every candidate has gained its weight; the
  // smaller name wins a tie.
  ghost predicate Richest(w: Table, c: Table, winner: string)
  {
    && winner in w
    && forall q | q in w && q != winner ::
         || At(c, q) + w[q] < At(c, winner) + w[winner]
         || (At(c, q) + w[q] == At(c, winner) + w[winner] && Less(winner, q))
  }

  // One round over the candidates w (name to weight) from credits c: the winner
  // pays the total weight, and only candidates get a new credit.
  ghost predicate Round(w: Table, c: Table, winner: string, updated: Table)
  {
    && Richest(w, c, winner)
    && updated.Keys == w.Keys
    && forall q | q in w ::
         updated[q] == At(c, q) + w[q] - (if q == winner then Sum(w.Keys, w) else 0.0)
  }
}
