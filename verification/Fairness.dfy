// Fairness of the weighted round-robin over whole runs, restarts included: the
// credits are persisted, and queues may pause, empty, return or change weight
// between any two rounds.
module Fairness {
  import opened Credits
  import Sets

  // One scheduling round: the candidates with their weights, and who won.
  datatype Pick = Pick(weights: Table, winner: string)

  ghost function Updated(p: Pick, c: Table): Table
  {
    map q | q in p.weights ::
      At(c, q) + p.weights[q] - (if q == p.winner then Sum(p.weights.Keys, p.weights) else 0.0)
  }

  lemma RoundUpdates(w: Table, c: Table, winner: string, updated: Table)
    requires Round(w, c, winner, updated)
    ensures updated == Updated(Pick(w, winner), c)
  {
  }

  // Only the candidates' credits are written back.
  ghost function Next(c: Table, p: Pick): Table { c + Updated(p, c) }

  // Every queue ever configured is in names; configured weights are positive
  // and the candidates of a round never weigh more than m together.
  ghost predicate Legal(c: Table, p: Pick, names: set<string>, m: real)
  {
    && p.weights.Keys <= names
    && (forall q | q in p.weights :: p.weights[q] > 0.0)
    && Sum(p.weights.Keys, p.weights) <= m
    && Richest(p.weights, c, p.winner)
  }

  ghost function After(c: Table, ps: seq<Pick>): Table
  {
    if ps == [] then c else Next(After(c, ps[..|ps| - 1]), ps[|ps| - 1])
  }

  ghost predicate Run(c: Table, ps: seq<Pick>, names: set<string>, m: real)
  {
    ps == [] ||
    (Run(c, ps[..|ps| - 1], names, m) && Legal(After(c, ps[..|ps| - 1]), ps[|ps| - 1], names, m))
  }

  // ----- what one round does to the credit of a set of queues -----

  lemma {:induction false} SumNonNegative(s: set<string>, w: Table)
    requires forall q | q in s :: At(w, q) >= 0.0
    ensures Sum(s, w) >= 0.0
    decreases s
  {
    if x :| x in s {
      SumPick(s, w, x);
      SumNonNegative(s - {x}, w);
    }
  }

  lemma {:induction false} SumZero(s: set<string>, w: Table)
    requires forall q | q in s :: At(w, q) == 0.0
    ensures Sum(s, w) == 0.0
    decreases s
  {
    if x :| x in s {
      SumPick(s, w, x);
      SumZero(s - {x}, w);
    }
  }

  lemma SumSubset(a: set<string>, b: set<string>, w: Table)
    requires a <= b && forall q | q in b :: At(w, q) >= 0.0
    ensures Sum(a, w) <= Sum(b, w)
  {
    SumUnion(a, b - a, w);
    assert a + (b - a) == b;
    SumNonNegative(b - a, w);
  }

  // A set of queues gains at most what the candidates outside it do not need.
  lemma GainBound(a: set<string>, p: Pick)
    requires p.winner in p.weights && forall q | q in p.weights :: p.weights[q] > 0.0
    ensures var gain := Sum(a, p.weights);
            var total := Sum(p.weights.Keys, p.weights);
            gain <= total && (p.winner !in a ==> gain <= total - p.weights[p.winner])
  {
    var w, all := p.weights, p.weights.Keys;
    SumUnion(a * all, a - all, w);
    assert a * all + (a - all) == a;
    SumZero(a - all, w);
    SumSubset(a * all, all, w);
    if p.winner !in a {
      SumPick(all, w, p.winner);
      SumSubset(a * all, all - {p.winner}, w);
    }
  }

  lemma SumAfterRound(a: set<string>, c: Table, p: Pick)
    requires p.winner in p.weights
    ensures Sum(a, Next(c, p)) == Sum(a, c) + Sum(a, p.weights)
              - (if p.winner in a then Sum(p.weights.Keys, p.weights) else 0.0)
  {
    var d, w, i := Next(c, p), p.weights, p.winner;
    if i in a {
      SumPick(a, d, i);
      SumPick(a, c, i);
      SumPick(a, w, i);
      SumAdd(a - {i}, c, w, d);
    } else {
      SumAdd(a, c, w, d);
    }
  }

  // ----- bounded credit -----

  // k copies of x: the product k * x, kept in linear arithmetic.
  ghost function Times(k: nat, x: real): real
  {
    if k == 0 then 0.0 else x + Times(k - 1, x)
  }

  lemma {:induction false} TimesIsProduct(k: nat, x: real)
    ensures Times(k, x) == k as real * x
  {
    if k > 0 {
      TimesIsProduct(k - 1, x);
      assert k as real * x == (k - 1) as real * x + x;
    }
  }

  lemma {:induction false} TimesAdd(j: nat, k: nat, x: real)
    ensures Times(j + k, x) == Times(j, x) + Times(k, x)
  {
    if j > 0 { TimesAdd(j - 1, k, x); }
  }

  ghost function Bound(m: real, n: nat, k: nat): real
  {
    if k <= n then Times(k * (n - k), m) else 0.0
  }

  // The whole table balances, and no k of the n queues together hold more than
  // m * k * (n - k).
  ghost predicate Bounded(c: Table, names: set<string>, m: real)
  {
    && Sum(names, c) == 0.0
    && forall a | a <= names :: Sum(a, c) <= Bound(m, |names|, |a|)
  }

  lemma Curve(n: int, k: int)
    ensures (k - 1) * (n - (k - 1)) + (k + 1) * (n - (k + 1)) + 2 == k * (n - k) + k * (n - k)
  {
  }

  lemma TimesTwo(k: nat, m: real)
    ensures Times(k + 2, m) == Times(k, m) + m + m
  {
  }

  lemma TimesTwice(k: nat, z: nat, m: real)
    requires k + 2 == z + z
    ensures Times(k, m) + m + m == Times(z, m) + Times(z, m)
  {
    TimesTwo(k, m);
    TimesAdd(z, z, m);
  }

  lemma TimesCurve(x: nat, y: nat, z: nat, m: real)
    requires x + y + 2 == z + z
    ensures Times(x, m) + Times(y, m) + m + m == Times(z, m) + Times(z, m)
  {
    TimesAdd(x, y, m);
    TimesTwice(x + y, z, m);
  }

  lemma ProductNonNegative(x: int, y: int)
    requires x >= 0 && y >= 0
    ensures x * y >= 0
  {
  }

  lemma BoundCurve(m: real, n: nat, k: nat)
    requires 1 <= k < n
    ensures Bound(m, n, k - 1) + Bound(m, n, k + 1) == 2.0 * Bound(m, n, k) - 2.0 * m
  {
    var x, y, z := (k - 1) * (n - (k - 1)), (k + 1) * (n - (k + 1)), k * (n - k);
    assert x + y + 2 == z + z by { Curve(n, k); }
    assert x >= 0 by { ProductNonNegative(k - 1, n - (k - 1)); }
    assert y >= 0 by { ProductNonNegative(k + 1, n - (k + 1)); }
    assert z >= 0 by { ProductNonNegative(k, n - k); }
    assert Bound(m, n, k - 1) == Times(x, m);
    assert Bound(m, n, k + 1) == Times(y, m);
    assert Bound(m, n, k) == Times(z, m);
    TimesCurve(x, y, z, m);
  }

  // What the bound says of a with one queue less and with one queue more.
  lemma Neighbours(c: Table, names: set<string>, m: real, a: set<string>, i: string, j: string)
    requires Bounded(c, names, m) && a <= names && i in names - a && j in a
    ensures 1 <= |a| < |names|
    ensures Sum(a, c) - At(c, j) <= Bound(m, |names|, |a| - 1)
    ensures Sum(a, c) + At(c, i) <= Bound(m, |names|, |a| + 1)
  {
    SumPick(a, c, j);
    SumPick(a + {i}, c, i);
    assert a + {i} - {i} == a;
    assert |a - {j}| == |a| - 1 && |a + {i}| == |a| + 1;
    Sets.SubsetSize(a + {i}, names);
  }

  // Their mean is m below the bound of a itself.
  lemma BelowTheMean(c: Table, names: set<string>, m: real, a: set<string>, i: string, j: string)
    requires Bounded(c, names, m) && a <= names && i in names - a && j in a
    ensures Sum(a, c) + Sum(a, c) <= Bound(m, |names|, |a|) + Bound(m, |names|, |a|) - m - m + At(c, j) - At(c, i)
  {
    Neighbours(c, names, m, a, i, j);
    BoundCurve(m, |names|, |a|);
  }

  // What the others gain, the winner being outside.
  lemma OutsideGain(c: Table, p: Pick, names: set<string>, m: real, a: set<string>)
    requires Legal(c, p, names, m) && p.winner !in a
    ensures Sum(a, Next(c, p)) == Sum(a, c) + Sum(a, p.weights)
    ensures Sum(a, p.weights) <= m - p.weights[p.winner]
  {
    SumAfterRound(a, c, p);
    GainBound(a, p);
  }

  lemma NoRicher(c: Table, p: Pick, names: set<string>, m: real, j: string)
    requires Legal(c, p, names, m) && j in p.weights
    ensures p.winner in names && p.weights[p.winner] > 0.0 && p.weights[j] > 0.0
    ensures At(c, j) + p.weights[j] <= At(c, p.winner) + p.weights[p.winner]
  {
  }

  // A sum below the bound by m or more, less what the winner is ahead, and then
  // a gain of at most m, less what the winner gains.
  lemma StaysBelow(sum: real, bound: real, m: real, ci: real, cj: real, wi: real, wj: real, gain: real)
    requires sum + sum <= bound + bound - m - m + cj - ci
    requires wi > 0.0 && wj > 0.0 && cj + wj <= ci + wi && gain <= m - wi
    ensures sum + gain <= bound
  {
  }

  // The one case in which a round can push a set of queues up: the winner is
  // outside, and a candidate inside is no richer than the winner.
  lemma RisingSet(c: Table, p: Pick, names: set<string>, m: real, a: set<string>, j: string)
    requires Bounded(c, names, m) && Legal(c, p, names, m)
    requires a <= names && p.winner !in a && j in a && j in p.weights
    ensures Sum(a, Next(c, p)) <= Bound(m, |names|, |a|)
  {
    var i := p.winner;
    NoRicher(c, p, names, m, j);
    BelowTheMean(c, names, m, a, i, j);
    OutsideGain(c, p, names, m, a);
    StaysBelow(Sum(a, c), Bound(m, |names|, |a|), m, At(c, i), At(c, j), p.weights[i], p.weights[j], Sum(a, p.weights));
  }

  lemma RoundKeepsBalance(c: Table, p: Pick, names: set<string>, m: real)
    requires Legal(c, p, names, m)
    ensures Sum(names, Next(c, p)) == Sum(names, c)
  {
    SumAfterRound(names, c, p);
    SumUnion(p.weights.Keys, names - p.weights.Keys, p.weights);
    assert p.weights.Keys + (names - p.weights.Keys) == names;
    SumZero(names - p.weights.Keys, p.weights);
  }

  lemma RoundKeepsBound(c: Table, p: Pick, names: set<string>, m: real)
    requires Bounded(c, names, m) && Legal(c, p, names, m)
    ensures Bounded(Next(c, p), names, m)
  {
    RoundKeepsBalance(c, p, names, m);
    forall a | a <= names ensures Sum(a, Next(c, p)) <= Bound(m, |names|, |a|) {
      if j :| p.winner !in a && j in a && j in p.weights {
        RisingSet(c, p, names, m, a, j);
      } else {
        SumAfterRound(a, c, p);
        GainBound(a, p);
        if p.winner !in a { SumZero(a, p.weights); }
      }
    }
  }

  lemma {:induction false} TimesNonNegative(k: nat, x: real)
    requires x >= 0.0
    ensures Times(k, x) >= 0.0
  {
    if k > 0 { TimesNonNegative(k - 1, x); }
  }

  // A new database starts inside the bound.
  lemma FreshIsBounded(names: set<string>, m: real)
    requires m >= 0.0
    ensures Bounded(map[], names, m)
  {
    forall a | a <= names ensures Sum(a, map[]) <= Bound(m, |names|, |a|) {
      SumZero(a, map[]);
      Sets.SubsetSize(a, names);
      TimesNonNegative(|a| * (|names| - |a|), m);
    }
    SumZero(names, map[]);
  }

  // Main result: whatever the candidate sets, credits stay bounded for ever.
  lemma {:induction false} CreditsStayBounded(c: Table, ps: seq<Pick>, names: set<string>, m: real)
    requires Bounded(c, names, m) && Run(c, ps, names, m)
    ensures Bounded(After(c, ps), names, m)
  {
    if ps != [] {
      CreditsStayBounded(c, ps[..|ps| - 1], names, m);
      RoundKeepsBound(After(c, ps[..|ps| - 1]), ps[|ps| - 1], names, m);
    }
  }

  // No queue can bank, or owe, more than m * (n - 1).
  lemma QueueBound(c: Table, names: set<string>, m: real, q: string)
    requires Bounded(c, names, m) && q in names
    ensures -Times(|names| - 1, m) <= At(c, q) <= Times(|names| - 1, m)
  {
    SumPick({q}, c, q);
    assert {q} - {q} == {};
    SumPick(names, c, q);
    var n := |names|;
    assert |names - {q}| == n - 1;
    assert {q} <= names && Sum({q}, c) <= Bound(m, n, |{q}|);
    assert Sum(names - {q}, c) <= Bound(m, n, n - 1);
    assert 1 * (n - 1) == n - 1 && (n - 1) * (n - (n - 1)) == n - 1;
  }

  // ----- share of the picks under churn -----

  ghost function Wins(ps: seq<Pick>, q: string): nat
  {
    if ps == [] then 0
    else Wins(ps[..|ps| - 1], q) + if ps[|ps| - 1].winner == q then 1 else 0
  }

  // What q was entitled to: its weight, summed over the rounds it took part in.
  ghost function Entitled(ps: seq<Pick>, q: string): real
  {
    if ps == [] then 0.0 else Entitled(ps[..|ps| - 1], q) + At(ps[|ps| - 1].weights, q)
  }

  lemma CreditStep(c: Table, p: Pick, q: string)
    requires p.winner in p.weights
    ensures At(Next(c, p), q) == At(c, q) + At(p.weights, q)
              - (if q == p.winner then Sum(p.weights.Keys, p.weights) else 0.0)
  {
  }

  lemma {:induction false} CreditAccount(c: Table, ps: seq<Pick>, names: set<string>, m: real, low: real, q: string)
    requires Run(c, ps, names, m)
    requires forall p | p in ps :: low <= Sum(p.weights.Keys, p.weights)
    ensures At(c, q) + Entitled(ps, q) - Times(Wins(ps, q), m) <= At(After(c, ps), q)
    ensures At(After(c, ps), q) <= At(c, q) + Entitled(ps, q) - Times(Wins(ps, q), low)
  {
    if ps != [] {
      var qs, p := ps[..|ps| - 1], ps[|ps| - 1];
      var c1, total := After(c, qs), Sum(p.weights.Keys, p.weights);
      assert p in ps && forall x | x in qs :: x in ps;
      CreditAccount(c, qs, names, m, low, q);
      assert low <= total <= m && p.winner in p.weights;
      CreditStep(c1, p, q);
      assert After(c, ps) == Next(c1, p);
      assert Entitled(ps, q) == Entitled(qs, q) + At(p.weights, q);
      var k := Wins(qs, q);
      assert Wins(ps, q) == if q == p.winner then k + 1 else k;
      assert Times(k + 1, m) == m + Times(k, m);
      assert Times(k + 1, low) == low + Times(k, low);
    }
  }

  // No starvation: however other queues come and go, a queue wins at least its
  // entitlement measured in full rounds, less 2(n - 1).
  lemma NoStarvation(c: Table, ps: seq<Pick>, names: set<string>, m: real, q: string)
    requires Bounded(c, names, m) && Run(c, ps, names, m) && q in names
    ensures Entitled(ps, q) <= Times(Wins(ps, q), m) + 2.0 * Times(|names| - 1, m)
  {
    forall p | p in ps ensures 0.0 <= Sum(p.weights.Keys, p.weights) { LegalPick(c, ps, names, m, p); }
    CreditAccount(c, ps, names, m, 0.0, q);
    CreditsStayBounded(c, ps, names, m);
    QueueBound(c, names, m, q);
    QueueBound(After(c, ps), names, m, q);
  }

  // No monopoly: a queue that was quiet and returns cannot win more rounds than
  // its entitlement pays for, plus 2(n - 1) rounds' worth of banked credit.
  lemma NoMonopoly(c: Table, ps: seq<Pick>, names: set<string>, m: real, low: real, q: string)
    requires Bounded(c, names, m) && Run(c, ps, names, m) && q in names
    requires forall p | p in ps :: low <= Sum(p.weights.Keys, p.weights)
    ensures Times(Wins(ps, q), low) <= Entitled(ps, q) + 2.0 * Times(|names| - 1, m)
  {
    CreditAccount(c, ps, names, m, low, q);
    CreditsStayBounded(c, ps, names, m);
    QueueBound(c, names, m, q);
    QueueBound(After(c, ps), names, m, q);
  }

  lemma {:induction false} LegalPick(c: Table, ps: seq<Pick>, names: set<string>, m: real, p: Pick)
    requires Run(c, ps, names, m) && p in ps
    ensures forall q | q in p.weights :: p.weights[q] > 0.0
    ensures 0.0 <= Sum(p.weights.Keys, p.weights) <= m
  {
    var qs, last := ps[..|ps| - 1], ps[|ps| - 1];
    if p == last {
      SumNonNegative(p.weights.Keys, p.weights);
    } else {
      assert ps == qs + [last];
      LegalPick(c, qs, names, m, p);
    }
  }

  lemma {:induction false} EntitledAtLeast(ps: seq<Pick>, q: string, w: real)
    requires forall p | p in ps :: At(p.weights, q) >= w
    ensures Entitled(ps, q) >= Times(|ps|, w)
  {
    if ps != [] {
      var qs := ps[..|ps| - 1];
      assert ps[|ps| - 1] in ps && forall x | x in qs :: x in ps;
      EntitledAtLeast(qs, q, w);
    }
  }

  // In particular a queue of weight w that is a candidate in N rounds and wins
  // none of them satisfies N * w <= 2m(n - 1).
  lemma LosingStreak(c: Table, ps: seq<Pick>, names: set<string>, m: real, q: string, w: real)
    requires Bounded(c, names, m) && Run(c, ps, names, m) && q in names
    requires forall p | p in ps :: q in p.weights && p.weights[q] >= w && p.winner != q
    ensures Times(|ps|, w) <= 2.0 * Times(|names| - 1, m)
  {
    NeverWon(ps, q);
    NoStarvation(c, ps, names, m, q);
    EntitledAtLeast(ps, q, w);
  }

  lemma {:induction false} NeverWon(ps: seq<Pick>, q: string)
    requires forall p | p in ps :: p.winner != q
    ensures Wins(ps, q) == 0
  {
    if ps != [] {
      assert ps[|ps| - 1] in ps && forall x | x in ps[..|ps| - 1] :: x in ps;
      NeverWon(ps[..|ps| - 1], q);
    }
  }

  // From a new database half of that is enough: nothing has been banked yet.
  lemma FromANewDatabase(ps: seq<Pick>, names: set<string>, m: real, q: string)
    requires m >= 0.0 && Run(map[], ps, names, m) && q in names
    ensures Bounded(After(map[], ps), names, m)
    ensures -Times(|names| - 1, m) <= At(After(map[], ps), q) <= Times(|names| - 1, m)
    ensures Entitled(ps, q) <= Times(Wins(ps, q), m) + Times(|names| - 1, m)
  {
    FreshIsBounded(names, m);
    CreditsStayBounded(map[], ps, names, m);
    QueueBound(After(map[], ps), names, m, q);
    forall p | p in ps ensures 0.0 <= Sum(p.weights.Keys, p.weights) { LegalPick(map[], ps, names, m, p); }
    CreditAccount(map[], ps, names, m, 0.0, q);
  }

  // There a queue of weight w that is a candidate in N rounds and wins none of
  // them satisfies N * w <= m(n - 1).
  lemma FirstLosingStreak(ps: seq<Pick>, names: set<string>, m: real, q: string, w: real)
    requires m >= 0.0 && Run(map[], ps, names, m) && q in names
    requires forall p | p in ps :: q in p.weights && p.weights[q] >= w && p.winner != q
    ensures Times(|ps|, w) <= Times(|names| - 1, m)
  {
    NeverWon(ps, q);
    FromANewDatabase(ps, names, m, q);
    EntitledAtLeast(ps, q, w);
  }

  // ----- exact shares on a fixed candidate set -----

  // Rounds over the same candidates w, from zero credit.
  ghost predicate FixedRun(ps: seq<Pick>, w: Table)
  {
    ps == [] ||
    (FixedRun(ps[..|ps| - 1], w)
     && ps[|ps| - 1].weights == w
     && Richest(w, After(map[], ps[..|ps| - 1]), ps[|ps| - 1].winner))
  }

  lemma {:induction false} FixedRunBalances(ps: seq<Pick>, w: Table)
    requires FixedRun(ps, w)
    ensures Sum(w.Keys, After(map[], ps)) == 0.0
  {
    if ps == [] {
      SumZero(w.Keys, map[]);
    } else {
      FixedRunBalances(ps[..|ps| - 1], w);
      SumAfterRound(w.Keys, After(map[], ps[..|ps| - 1]), ps[|ps| - 1]);
    }
  }

  // At every round a queue's credit is exactly its entitlement less what its
  // wins cost, and it never falls to minus the total weight.
  lemma {:induction false} ExactCredit(ps: seq<Pick>, w: Table, q: string)
    requires FixedRun(ps, w) && q in w && forall r | r in w :: w[r] > 0.0
    ensures At(After(map[], ps), q) == Times(|ps|, w[q]) - Times(Wins(ps, q), Sum(w.Keys, w))
    ensures At(After(map[], ps), q) > -Sum(w.Keys, w)
  {
    PositiveTotal(w);
    if ps != [] {
      var qs, p := ps[..|ps| - 1], ps[|ps| - 1];
      var c, total, k := After(map[], qs), Sum(w.Keys, w), Wins(qs, q);
      ExactCredit(qs, w, q);
      FixedRunBalances(qs, w);
      WinnerIsInCredit(c, p);
      CreditStep(c, p, q);
      assert After(map[], ps) == Next(c, p);
      assert Wins(ps, q) == if q == p.winner then k + 1 else k;
      assert Times(k + 1, total) == total + Times(k, total);
      assert Times(|qs| + 1, w[q]) == w[q] + Times(|qs|, w[q]);
    }
  }

  lemma PositiveTotal(w: Table)
    requires w != map[] && forall q | q in w :: w[q] > 0.0
    ensures Sum(w.Keys, w) > 0.0
  {
    var x :| x in w;
    SumPick(w.Keys, w, x);
    SumNonNegative(w.Keys - {x}, w);
  }

  // With the credits balanced, the richest queue is above zero before it pays.
  lemma WinnerIsInCredit(c: Table, p: Pick)
    requires Richest(p.weights, c, p.winner) && forall q | q in p.weights :: p.weights[q] > 0.0
    requires Sum(p.weights.Keys, c) == 0.0
    ensures At(c, p.winner) + p.weights[p.winner] > 0.0
  {
    var all := p.weights.Keys;
    PositiveTotal(p.weights);
    if At(c, p.winner) + p.weights[p.winner] <= 0.0 {
      var raised: Table := map q | q in all :: At(c, q) + p.weights[q];
      SumAdd(all, c, p.weights, raised);
      SumMonotone(all, raised, map[]);
      SumZero(all, map[]);
      assert false;
    }
  }

  ghost function Won(ps: seq<Pick>, names: set<string>): Table
  {
    map q | q in names :: Wins(ps, q) as real
  }

  lemma {:induction false} WinsAddUp(ps: seq<Pick>, w: Table)
    requires FixedRun(ps, w)
    ensures Sum(w.Keys, Won(ps, w.Keys)) == |ps| as real
  {
    var all := w.Keys;
    if ps == [] {
      SumZero(all, Won(ps, all));
    } else {
      var qs, p := ps[..|ps| - 1], ps[|ps| - 1];
      WinsAddUp(qs, w);
      SumPick(all, Won(ps, all), p.winner);
      SumPick(all, Won(qs, all), p.winner);
      SumSame(all - {p.winner}, Won(ps, all), Won(qs, all));
    }
  }

  lemma {:induction false} TimesDistributes(k: nat, x: real, y: real)
    ensures Times(k, x + y) == Times(k, x) + Times(k, y)
  {
    if k > 0 { TimesDistributes(k - 1, x, y); }
  }

  lemma {:induction false} SumScale(s: set<string>, c: Table, d: Table, k: nat)
    requires forall q | q in s :: At(d, q) == Times(k, At(c, q))
    ensures Sum(s, d) == Times(k, Sum(s, c))
    decreases s
  {
    if x :| x in s {
      SumPick(s, c, x);
      SumPick(s, d, x);
      SumScale(s - {x}, c, d, k);
      TimesDistributes(k, At(c, x), Sum(s - {x}, c));
    } else {
      TimesIsProduct(k, 0.0);
    }
  }

  lemma {:induction false} TimesNat(k: nat, n: nat)
    ensures Times(k, n as real) == (k * n) as real
  {
    if k > 0 {
      TimesNat(k - 1, n);
      assert k * n == (k - 1) * n + n;
    }
  }

  // After a whole number of cycles no queue has won more than its share.
  lemma NotOverserved(ps: seq<Pick>, w: Table, q: string, share: nat, total: nat, rounds: nat)
    requires FixedRun(ps, w) && q in w && forall r | r in w :: w[r] > 0.0
    requires w[q] == share as real && Sum(w.Keys, w) == total as real && |ps| == rounds * total
    ensures Wins(ps, q) <= rounds * share
    ensures Wins(ps, q) == rounds * share ==> At(After(map[], ps), q) == 0.0
  {
    ExactCredit(ps, w, q);
    CreditInWholeCycles(At(After(map[], ps), q), |ps|, share, Wins(ps, q), total, rounds);
  }

  lemma CreditInWholeCycles(credit: real, picks: nat, share: nat, wins: nat, total: nat, rounds: nat)
    requires credit == Times(picks, share as real) - Times(wins, total as real)
    requires credit > -(total as real) && picks == rounds * total
    ensures wins <= rounds * share
    ensures wins == rounds * share ==> credit == 0.0
  {
    TimesNat(picks, share);
    TimesNat(wins, total);
    WholeCycles(rounds, total, share, wins);
  }

  lemma WholeCycles(rounds: int, total: int, share: int, wins: int)
    requires rounds * total * share - wins * total > -total
    requires total >= 0
    ensures wins <= rounds * share
    ensures wins == rounds * share ==> rounds * total * share - wins * total == 0
  {
    var x := rounds * share - wins;
    assert rounds * total * share - wins * total == total * x;
    if x < 0 { NegativeProduct(total, x); }
  }

  lemma NegativeProduct(t: int, x: int)
    requires t >= 0 && x <= -1
    ensures t * x <= -t
  {
  }

  // Exact periodicity: with natural weights totalling total, after rounds
  // * total picks every queue has won exactly rounds * weight of them and all
  // credits are back to zero.
  lemma ExactShare(ps: seq<Pick>, w: Table, natural: map<string, nat>, total: nat, rounds: nat)
    requires FixedRun(ps, w) && w != map[]
    requires natural.Keys == w.Keys && forall q | q in w :: w[q] == natural[q] as real && natural[q] > 0
    requires Sum(w.Keys, w) == total as real && |ps| == rounds * total
    ensures forall q | q in w :: Wins(ps, q) == rounds * natural[q]
    ensures forall q | q in w :: At(After(map[], ps), q) == 0.0
  {
    var all := w.Keys;
    var shares := map q | q in all :: rounds * natural[q];
    var owed: Table := map q | q in all :: (shares[q] - Wins(ps, q)) as real;
    forall q | q in all ensures At(owed, q) >= 0.0 && shares[q] as real == Times(rounds, w[q]) {
      NotOverserved(ps, w, q, natural[q], total, rounds);
      ScaledShare(rounds, natural[q], shares[q]);
    }
    ScaledShare(rounds, total, |ps|);
    NothingOwed(ps, w, shares, rounds, owed);
    forall q | q in all
      ensures Wins(ps, q) == rounds * natural[q] && At(After(map[], ps), q) == 0.0
    {
      SumPick(all, owed, q);
      SumNonNegative(all - {q}, owed);
      NotOverserved(ps, w, q, natural[q], total, rounds);
    }
  }

  lemma ScaledShare(rounds: nat, n: nat, share: nat)
    requires share == rounds * n
    ensures share as real == Times(rounds, n as real)
  {
    TimesNat(rounds, n);
  }

  lemma NothingOwed(ps: seq<Pick>, w: Table, shares: map<string, nat>, rounds: nat, owed: Table)
    requires FixedRun(ps, w) && shares.Keys == w.Keys == owed.Keys
    requires forall q | q in w :: shares[q] as real == Times(rounds, w[q])
    requires forall q | q in w :: owed[q] == (shares[q] - Wins(ps, q)) as real
    requires |ps| as real == Times(rounds, Sum(w.Keys, w))
    ensures Sum(w.Keys, owed) == 0.0
  {
    var all := w.Keys;
    var due: Table := map q | q in all :: shares[q] as real;
    SumScale(all, w, due, rounds);
    OwedAndWon(ps, all, shares, due, owed);
    WinsAddUp(ps, w);
  }

  // What is due is what is owed and what was won.
  lemma OwedAndWon(ps: seq<Pick>, all: set<string>, shares: map<string, nat>, due: Table, owed: Table)
    requires all == shares.Keys == due.Keys == owed.Keys
    requires forall q | q in all :: due[q] == shares[q] as real && owed[q] == (shares[q] - Wins(ps, q)) as real
    ensures Sum(all, due) == Sum(all, owed) + Sum(all, Won(ps, all))
  {
    SumAdd(all, owed, Won(ps, all), due);
  }
}
