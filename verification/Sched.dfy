// backend/internal/sched: choosing the next queue.
module Sched {
  import opened Order
  import opened Credits

  datatype Candidate = Candidate(name: string, weight: real, credit: real)

  ghost predicate Distinct(cs: seq<Candidate>)
  {
    forall i, j | 0 <= i < j < |cs| :: cs[i].name != cs[j].name
  }

  ghost predicate Named(cs: seq<Candidate>, q: string)
  {
    exists k :: 0 <= k < |cs| && cs[k].name == q
  }

  ghost predicate KeysNamed(cs: seq<Candidate>, t: Table)
  {
    forall q :: q in t <==> Named(cs, q)
  }

  // cs is a listing of the candidates w with their persisted credits c.
  ghost predicate Lists(cs: seq<Candidate>, w: Table, c: Table)
  {
    && Distinct(cs)
    && KeysNamed(cs, w)
    && forall k | 0 <= k < |cs| && Named(cs, cs[k].name) ::
         w[cs[k].name] == cs[k].weight && At(c, cs[k].name) == cs[k].credit
  }

  function TotalWeight(cs: seq<Candidate>): real
  {
    if cs == [] then 0.0 else cs[0].weight + TotalWeight(cs[1..])
  }

  lemma {:induction false} TotalWeightAppend(cs: seq<Candidate>, k: Candidate)
    ensures TotalWeight(cs + [k]) == TotalWeight(cs) + k.weight
  {
    if cs != [] {
      assert (cs + [k])[1..] == cs[1..] + [k];
      TotalWeightAppend(cs[1..], k);
    }
  }

  lemma {:induction false} TotalWeightIsSum(cs: seq<Candidate>, names: set<string>, w: Table)
    requires Distinct(cs)
    requires forall q :: q in names <==> Named(cs, q)
    requires forall k | 0 <= k < |cs| :: At(w, cs[k].name) == cs[k].weight
    ensures Sum(names, w) == TotalWeight(cs)
  {
    if cs == [] {
      assert forall n :: !Named(cs, n);
    } else {
      var n := cs[0].name;
      assert Named(cs, n);
      SumPick(names, w, n);
      forall q ensures q in names - {n} <==> Named(cs[1..], q) {
        if Named(cs[1..], q) {
          var k :| 0 <= k < |cs[1..]| && cs[1..][k].name == q;
          assert cs[k + 1].name == q;
        }
      }
      TotalWeightIsSum(cs[1..], names - {n}, w);
    }
  }

  // sort.Slice by name.
  function InsertByName(k: Candidate, cs: seq<Candidate>): seq<Candidate>
  {
    if cs == [] || Less(k.name, cs[0].name) then [k] + cs
    else [cs[0]] + InsertByName(k, cs[1..])
  }

  function SortByName(cs: seq<Candidate>): (r: seq<Candidate>)
  {
    if cs == [] then [] else InsertByName(cs[0], SortByName(cs[1..]))
  }

  ghost predicate Ascending(cs: seq<Candidate>)
  {
    forall i, j | 0 <= i < j < |cs| :: Less(cs[i].name, cs[j].name)
  }

  lemma {:induction false} InsertKeepsAscending(k: Candidate, cs: seq<Candidate>)
    requires Ascending(cs) && !Named(cs, k.name)
    ensures Ascending(InsertByName(k, cs))
    ensures forall x :: x in InsertByName(k, cs) <==> x == k || x in cs
  {
    if cs != [] {
      assert cs[0] in cs;
      Trichotomy(k.name, cs[0].name);
      if Less(k.name, cs[0].name) {
        forall j | 1 <= j < |cs| ensures Less(k.name, cs[j].name) {
          Transitive(k.name, cs[0].name, cs[j].name);
        }
      } else {
        assert forall x | x in cs[1..] :: x in cs;
        InsertKeepsAscending(k, cs[1..]);
        var r := InsertByName(k, cs[1..]);
        forall j | 0 <= j < |r| ensures Less(cs[0].name, r[j].name) {
          assert r[j] in r;
        }
      }
    }
  }

  lemma {:induction false} SortSorts(cs: seq<Candidate>)
    requires Distinct(cs)
    ensures Ascending(SortByName(cs))
    ensures forall x :: x in SortByName(cs) <==> x in cs
  {
    if cs != [] {
      SortSorts(cs[1..]);
      forall j | 0 <= j < |SortByName(cs[1..])| ensures SortByName(cs[1..])[j].name != cs[0].name {
        assert SortByName(cs[1..])[j] in cs[1..];
      }
      InsertKeepsAscending(cs[0], SortByName(cs[1..]));
    }
  }

  lemma {:induction false} InsertGrows(k: Candidate, cs: seq<Candidate>)
    ensures |InsertByName(k, cs)| == |cs| + 1
  {
    if cs != [] && !Less(k.name, cs[0].name) { InsertGrows(k, cs[1..]); }
  }

  lemma {:induction false} SortKeepsLength(cs: seq<Candidate>)
    ensures |SortByName(cs)| == |cs|
  {
    if cs != [] {
      SortKeepsLength(cs[1..]);
      InsertGrows(cs[0], SortByName(cs[1..]));
    }
  }

  function Raised(k: Candidate): real { k.credit + k.weight }

  lemma SortedLists(cs: seq<Candidate>, w: Table, c: Table)
    requires Lists(cs, w, c)
    ensures Lists(SortByName(cs), w, c) && Ascending(SortByName(cs))
  {
    var s := SortByName(cs);
    SortSorts(cs);
    forall i, j | 0 <= i < j < |s| ensures s[i].name != s[j].name {
      Trichotomy(s[i].name, s[j].name);
    }
    forall k | 0 <= k < |s|
      ensures Named(cs, s[k].name) && w[s[k].name] == s[k].weight && At(c, s[k].name) == s[k].credit
    {
      assert s[k] in s;
      var i :| 0 <= i < |cs| && cs[i] == s[k];
    }
    forall q | Named(cs, q) ensures Named(s, q) {
      var i :| 0 <= i < |cs| && cs[i].name == q;
      assert cs[i] in s;
    }
  }

  // The first of the richest candidates in ascending name order wins the round.
  lemma SortedRound(s: seq<Candidate>, w: Table, c: Table, best: nat, credits: Table)
    requires Lists(s, w, c) && Ascending(s) && best < |s|
    requires forall k | 0 <= k < |s| :: Raised(s[k]) <= Raised(s[best])
    requires forall k | 0 <= k < best :: Raised(s[k]) < Raised(s[best])
    requires Settled(s, best, credits)
    ensures Round(w, c, s[best].name, credits)
  {
    var winner := s[best].name;
    assert Named(s, winner);
    TotalWeightIsSum(s, w.Keys, w) by {
      assert forall k | 0 <= k < |s| :: Named(s, s[k].name);
    }
    forall q | q in w
      ensures q in credits && credits[q] == At(c, q) + w[q] - (if q == winner then Sum(w.Keys, w) else 0.0)
      ensures q != winner ==>
                || At(c, q) + w[q] < At(c, winner) + w[winner]
                || (At(c, q) + w[q] == At(c, winner) + w[winner] && Less(winner, q))
    {
      var k :| 0 <= k < |s| && s[k].name == q;
    }
    forall q | q in credits ensures q in w {}
  }

  // The credits map holds every candidate's raised credit, less the total for
  // the winner.
  ghost predicate Settled(s: seq<Candidate>, best: nat, credits: Table)
  {
    && KeysNamed(s, credits)
    && (Distinct(s) ==> forall k | 0 <= k < |s| && Named(s, s[k].name) ::
            credits[s[k].name] == Raised(s[k]) - (if k == best then TotalWeight(s) else 0.0))
  }

  ghost predicate RaisedUpTo(a: seq<Candidate>, s: seq<Candidate>, i: nat)
  {
    && |a| == |s| && i <= |a|
    && (forall k | 0 <= k < i :: a[k] == s[k].(credit := Raised(s[k])))
    && (forall k | i <= k < |a| :: a[k] == s[k])
  }

  // Index of the first richest candidate, the sum of the weights, and the
  // candidates themselves updated in place.
  method RaiseAll(sorted: array<Candidate>, ghost s: seq<Candidate>) returns (best: nat, total: real)
    requires sorted.Length > 0 && sorted[..] == s
    modifies sorted
    ensures RaisedUpTo(sorted[..], s, |s|)
    ensures total == TotalWeight(s)
    ensures best < |s|
    ensures forall k | 0 <= k < |s| :: Raised(s[k]) <= Raised(s[best])
    ensures forall k | 0 <= k < best :: Raised(s[k]) < Raised(s[best])
  {
    var b := -1;
    total := 0.0;
    for i := 0 to sorted.Length
      invariant b < i && (b < 0 <==> i == 0)
      invariant total == TotalWeight(s[..i])
      invariant RaisedUpTo(sorted[..], s, i)
      invariant forall k | 0 <= k < i :: Raised(s[k]) <= Raised(s[b])
      invariant forall k | 0 <= k < b :: Raised(s[k]) < Raised(s[b])
    {
      assert sorted[..][i] == s[i];
      sorted[i] := sorted[i].(credit := sorted[i].credit + sorted[i].weight);
      TotalWeightAppend(s[..i], s[i]);
      assert s[..i + 1] == s[..i] + [s[i]];
      total := total + sorted[i].weight;
      if b < 0 || sorted[i].credit > sorted[b].credit {
        b := i;
      }
    }
    assert s[..|s|] == s;
    best := b;
  }

  // credits holds exactly the listed candidates' credits.
  ghost predicate ByName(sorted: seq<Candidate>, credits: Table)
  {
    && KeysNamed(sorted, credits)
    && (Distinct(sorted) ==>
          forall k | 0 <= k < |sorted| && Named(sorted, sorted[k].name) ::
            credits[sorted[k].name] == sorted[k].credit)
  }

  // The credits the candidates ended with, by name.
  method CreditsByName(sorted: seq<Candidate>) returns (credits: Table)
    ensures ByName(sorted, credits)
  {
    credits := map[];
    for i := 0 to |sorted|
      invariant forall q | q in credits :: Named(sorted, q)
      invariant forall k | 0 <= k < i :: sorted[k].name in credits
      invariant Distinct(sorted) ==> forall k | 0 <= k < i :: credits[sorted[k].name] == sorted[k].credit
    {
      credits := credits[sorted[i].name := sorted[i].credit];
    }
  }

  ghost function Pay(a: seq<Candidate>, best: nat, total: real): seq<Candidate>
    requires best < |a|
  {
    a[best := a[best].(credit := a[best].credit - total)]
  }

  lemma SettledAfterPayment(s: seq<Candidate>, a: seq<Candidate>, best: nat, credits: Table)
    requires RaisedUpTo(a, s, |s|) && best < |s|
    requires ByName(Pay(a, best, TotalWeight(s)), credits)
    ensures Settled(s, best, credits)
  {
    var p := Pay(a, best, TotalWeight(s));
    assert forall k | 0 <= k < |s| :: p[k].name == s[k].name;
    assert forall q :: Named(p, q) <==> Named(s, q);
  }

  lemma PickIsRound(cs: seq<Candidate>, s: seq<Candidate>, best: nat, credits: Table, w: Table, c: Table)
    requires Lists(cs, w, c) && s == SortByName(cs) && best < |s|
    requires forall k | 0 <= k < |s| :: Raised(s[k]) <= Raised(s[best])
    requires forall k | 0 <= k < best :: Raised(s[k]) < Raised(s[best])
    requires Settled(s, best, credits)
    ensures Round(w, c, s[best].name, credits)
  {
    SortedLists(cs, w, c);
    SortedRound(s, w, c, best, credits);
  }

  ghost function IndexOf(cs: seq<Candidate>, q: string): (k: nat)
    requires Named(cs, q)
    ensures k < |cs| && cs[k].name == q
  {
    var k :| 0 <= k < |cs| && cs[k].name == q; k
  }

  // A list without repetitions lists the weights and credits it holds.
  lemma ListsItself(cs: seq<Candidate>) returns (w: Table, c: Table)
    requires Distinct(cs)
    ensures Lists(cs, w, c)
  {
    var names := set k | 0 <= k < |cs| :: cs[k].name;
    assert forall q | q in names :: Named(cs, q);
    w := map q | q in names :: cs[IndexOf(cs, q)].weight;
    c := map q | q in names :: cs[IndexOf(cs, q)].credit;
    forall k | 0 <= k < |cs|
      ensures cs[k].name in names && w[cs[k].name] == cs[k].weight && At(c, cs[k].name) == cs[k].credit
    {
      assert Named(cs, cs[k].name);
      assert IndexOf(cs, cs[k].name) == k;
    }
    forall q | Named(cs, q) ensures q in names { var k :| 0 <= k < |cs| && cs[k].name == q; }
  }

  lemma RoundByIndex(cs: seq<Candidate>, w: Table, c: Table, winner: string, credits: Table) returns (i: nat)
    requires Lists(cs, w, c) && Round(w, c, winner, credits)
    ensures i < |cs| && cs[i].name == winner
    ensures forall k | 0 <= k < |cs| && k != i ::
              || cs[k].credit + cs[k].weight < cs[i].credit + cs[i].weight
              || (cs[k].credit + cs[k].weight == cs[i].credit + cs[i].weight && Less(winner, cs[k].name))
    ensures forall k | 0 <= k < |cs| ::
              && cs[k].name in credits
              && credits[cs[k].name] == cs[k].credit + cs[k].weight - if k == i then TotalWeight(cs) else 0.0
    ensures forall q | q in credits :: Named(cs, q)
  {
    assert Named(cs, winner);
    i := IndexOf(cs, winner);
    assert forall k | 0 <= k < |cs| :: Named(cs, cs[k].name);
    TotalWeightIsSum(cs, w.Keys, w);
  }

  // What Pick promises of a list without repetitions: the winner is the richest
  // once all have gained their weight, the smaller name on a tie; it alone pays
  // the total; and exactly the candidates get a new credit.
  lemma PickMeans(cs: seq<Candidate>, winner: string, credits: Table) returns (i: nat)
    requires Distinct(cs) && forall w, c | Lists(cs, w, c) :: Round(w, c, winner, credits)
    ensures i < |cs| && cs[i].name == winner
    ensures forall k | 0 <= k < |cs| && k != i ::
              || cs[k].credit + cs[k].weight < cs[i].credit + cs[i].weight
              || (cs[k].credit + cs[k].weight == cs[i].credit + cs[i].weight && Less(winner, cs[k].name))
    ensures forall k | 0 <= k < |cs| ::
              && cs[k].name in credits
              && credits[cs[k].name] == cs[k].credit + cs[k].weight - if k == i then TotalWeight(cs) else 0.0
    ensures forall q | q in credits :: exists k :: 0 <= k < |cs| && cs[k].name == q
  {
    var w, c := ListsItself(cs);
    i := RoundByIndex(cs, w, c, winner, credits);
    forall q | q in credits ensures exists k :: 0 <= k < |cs| && cs[k].name == q { assert Named(cs, q); }
  }

  // Pick chooses the next queue. An empty list yields "" and no credits. A list
  // that names a queue twice, which the executor never builds, is promised
  // nothing.
  method Pick(candidates: seq<Candidate>) returns (winner: string, credits: Table)
    ensures candidates == [] ==> winner == "" && credits == map[]
    ensures forall w, c | candidates != [] && Lists(candidates, w, c) :: Round(w, c, winner, credits)
  {
    if |candidates| == 0 {
      return "", map[];
    }
    SortKeepsLength(candidates);
    var s := SortByName(candidates);
    var sorted := new Candidate[|s|](i requires 0 <= i < |s| => s[i]);
    assert sorted[..] == s;
    var best, total := RaiseAll(sorted, s);
    ghost var raised := sorted[..];
    sorted[best] := sorted[best].(credit := sorted[best].credit - total);
    assert sorted[..] == Pay(raised, best, total);
    credits := CreditsByName(sorted[..]);
    assert sorted[..][best].name == raised[best].name == s[best].name;
    winner := sorted[best].name;
    SettledAfterPayment(s, raised, best, credits);
    forall w, c | Lists(candidates, w, c) ensures Round(w, c, winner, credits) {
      PickIsRound(candidates, s, best, credits, w, c);
    }
  }
}
