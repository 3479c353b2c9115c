/** The admin panel's per-plane totals: the stakes of the loaded bets summed by
    plane, in first-seen order, then listed from the largest total down. */
module PlaneTotals {
  import opened Records
  import opened Settlement

  /** One entry of the totals list: a plane and the stake placed on it. */
  datatype PlaneTotal = PlaneTotal(plane: string, amount: real)

  /** The stake placed on plane `p` among `ds`. Planes are compared as stored,
      without trimming. */
  function PlaneSum(ds: seq<BetDoc>, p: string): real {
    if ds == [] then 0.0
    else PlaneSum(ds[..|ds| - 1], p) + (if ds[|ds| - 1].bet.plane == p then ds[|ds| - 1].bet.amount else 0.0)
  }

  /** The planes bet on in `ds`. */
  function PlanesOf(ds: seq<BetDoc>): set<string> {
    if ds == [] then {} else PlanesOf(ds[..|ds| - 1]) + {ds[|ds| - 1].bet.plane}
  }

  /** The planes listed in `es`. */
  function Keys(es: seq<PlaneTotal>): set<string> {
    if es == [] then {} else {es[0].plane} + Keys(es[1..])
  }

  /** No plane is listed twice, as in the keys of a `Map`. */
  predicate DistinctPlanes(es: seq<PlaneTotal>) {
    es == [] || (es[0].plane !in Keys(es[1..]) && DistinctPlanes(es[1..]))
  }

  /** `map.get(p) || 0`. */
  function Lookup(es: seq<PlaneTotal>, p: string): real {
    if es == [] then 0.0 else if es[0].plane == p then es[0].amount else Lookup(es[1..], p)
  }

  /** The sum of all entries. */
  function Total(es: seq<PlaneTotal>): real {
    if es == [] then 0.0 else es[0].amount + Total(es[1..])
  }

  /** `map.set(p, (map.get(p) || 0) + a)`: a plane already present keeps its
      position, a new one goes to the end. */
  function Bump(es: seq<PlaneTotal>, p: string, a: real): seq<PlaneTotal> {
    if es == [] then [PlaneTotal(p, a)]
    else if es[0].plane == p then [PlaneTotal(p, es[0].amount + a)] + es[1..]
    else [es[0]] + Bump(es[1..], p, a)
  }

  /** Bumping `p` by `a` adds `a` to the total of `p` and to the grand total,
      lists `p`, and leaves every other plane's total alone. */
  lemma {:induction false} BumpSpec(es: seq<PlaneTotal>, p: string, a: real)
    ensures Keys(Bump(es, p, a)) == Keys(es) + {p}
    ensures Total(Bump(es, p, a)) == Total(es) + a
    ensures DistinctPlanes(es) ==> DistinctPlanes(Bump(es, p, a))
    ensures forall q :: Lookup(Bump(es, p, a), q) == Lookup(es, q) + (if q == p then a else 0.0)
  {
    if es != [] && es[0].plane != p {
      BumpSpec(es[1..], p, a);
    }
  }

  lemma {:induction false} KeysMember(es: seq<PlaneTotal>, x: PlaneTotal)
    requires x in es
    ensures x.plane in Keys(es)
  {
    if es[0] != x {
      KeysMember(es[1..], x);
    }
  }

  /** In a list without repeated planes, every entry is what a lookup of its
      plane returns. */
  lemma {:induction false} LookupMember(es: seq<PlaneTotal>, x: PlaneTotal)
    requires DistinctPlanes(es) && x in es
    ensures Lookup(es, x.plane) == x.amount
  {
    if es[0] != x {
      KeysMember(es[1..], x);
      LookupMember(es[1..], x);
    }
  }

  /** Largest total first. */
  predicate SortedDesc(es: seq<PlaneTotal>) {
    forall i, j :: 0 <= i < j < |es| ==> es[i].amount >= es[j].amount
  }

  /** Puts `x` before the first entry it is not smaller than. */
  function Insert(x: PlaneTotal, s: seq<PlaneTotal>): (r: seq<PlaneTotal>)
    ensures multiset(r) == multiset(s) + multiset{x}
  {
    if s == [] || x.amount >= s[0].amount then [x] + s
    else
      assert s == [s[0]] + s[1..];
      [s[0]] + Insert(x, s[1..])
  }

  /** Every entry of `Insert(x, s)` is at most a bound of `x` and of `s`. */
  lemma InsertBounded(x: PlaneTotal, s: seq<PlaneTotal>, bound: real)
    requires x.amount <= bound && forall y :: y in s ==> y.amount <= bound
    ensures forall j :: 0 <= j < |Insert(x, s)| ==> Insert(x, s)[j].amount <= bound
  {
    var r := Insert(x, s);
    forall j | 0 <= j < |r| ensures r[j].amount <= bound {
      assert r[j] in multiset(r);
    }
  }

  /** A sorted list stays sorted under a head no smaller than its entries. */
  lemma SortedCons(h: PlaneTotal, t: seq<PlaneTotal>)
    requires SortedDesc(t) && forall j :: 0 <= j < |t| ==> t[j].amount <= h.amount
    ensures SortedDesc([h] + t)
  {
    var r := [h] + t;
    forall i, j | 0 <= i < j < |r| ensures r[i].amount >= r[j].amount {
      assert r[j] == t[j - 1];
      if i > 0 {
        assert r[i] == t[i - 1];
      }
    }
  }

  /** Inserting into a sorted list keeps it sorted. */
  lemma {:induction false} InsertSorted(x: PlaneTotal, s: seq<PlaneTotal>)
    requires SortedDesc(s)
    ensures SortedDesc(Insert(x, s))
  {
    if s == [] || x.amount >= s[0].amount {
      SortedCons(x, s);
    } else {
      var rest := s[1..];
      assert SortedDesc(rest) by {
        forall i, j | 0 <= i < j < |rest| ensures rest[i].amount >= rest[j].amount {
          assert rest[i] == s[i + 1] && rest[j] == s[j + 1];
        }
      }
      InsertSorted(x, rest);
      assert forall y :: y in rest ==> y.amount <= s[0].amount by {
        forall y | y in rest ensures y.amount <= s[0].amount {
          var k :| 0 <= k < |rest| && rest[k] == y;
          assert s[k + 1] == y;
        }
      }
      InsertBounded(x, rest, s[0].amount);
      SortedCons(s[0], Insert(x, rest));
    }
  }

  /** `.sort((a, b) => b[1] - a[1])`: an insertion sort with the same order. */
  function SortDesc(es: seq<PlaneTotal>): (r: seq<PlaneTotal>)
    ensures multiset(r) == multiset(es)
  {
    if es == [] then []
    else
      assert es == [es[0]] + es[1..];
      Insert(es[0], SortDesc(es[1..]))
  }

  lemma {:induction false} SortDescSorted(es: seq<PlaneTotal>)
    ensures SortedDesc(SortDesc(es))
  {
    if es != [] {
      SortDescSorted(es[1..]);
      InsertSorted(es[0], SortDesc(es[1..]));
    }
  }

  lemma {:induction false} KeysMultiset(a: seq<PlaneTotal>, b: seq<PlaneTotal>)
    requires multiset(a) == multiset(b)
    ensures Keys(a) == Keys(b)
  {
    forall p | p in Keys(a) ensures p in Keys(b) {
      var x := KeyWitness(a, p);
      assert x in multiset(b);
      KeysMember(b, x);
    }
    forall p | p in Keys(b) ensures p in Keys(a) {
      var x := KeyWitness(b, p);
      assert x in multiset(a);
      KeysMember(a, x);
    }
  }

  lemma {:induction false} KeyWitness(es: seq<PlaneTotal>, p: string) returns (x: PlaneTotal)
    requires p in Keys(es)
    ensures x in es && x.plane == p
  {
    if es[0].plane == p {
      x := es[0];
    } else {
      x := KeyWitness(es[1..], p);
    }
  }

  lemma {:induction false} TotalInsert(x: PlaneTotal, s: seq<PlaneTotal>)
    ensures Total(Insert(x, s)) == x.amount + Total(s)
  {
    if !(s == [] || x.amount >= s[0].amount) {
      TotalInsert(x, s[1..]);
    }
  }

  lemma {:induction false} DistinctInsert(x: PlaneTotal, s: seq<PlaneTotal>)
    requires DistinctPlanes(s) && x.plane !in Keys(s)
    ensures DistinctPlanes(Insert(x, s)) && Keys(Insert(x, s)) == Keys(s) + {x.plane}
  {
    if !(s == [] || x.amount >= s[0].amount) {
      DistinctInsert(x, s[1..]);
    }
  }

  /** Sorting keeps the grand total. */
  lemma {:induction false} SortDescTotal(es: seq<PlaneTotal>)
    ensures Total(SortDesc(es)) == Total(es)
  {
    if es != [] {
      SortDescTotal(es[1..]);
      TotalInsert(es[0], SortDesc(es[1..]));
    }
  }

  /** Sorting keeps the set of planes, repeated or not. */
  lemma SortDescKeys(es: seq<PlaneTotal>)
    ensures Keys(SortDesc(es)) == Keys(es)
  {
    KeysMultiset(SortDesc(es), es);
  }

  /** Sorting a list without repeated planes keeps its planes and repeats none. */
  lemma {:induction false} SortDescDistinct(es: seq<PlaneTotal>)
    requires DistinctPlanes(es)
    ensures Keys(SortDesc(es)) == Keys(es) && DistinctPlanes(SortDesc(es))
  {
    if es != [] {
      SortDescDistinct(es[1..]);
      DistinctInsert(es[0], SortDesc(es[1..]));
    }
  }

  /** The planes, plane sums and grand total of one more bet. */
  lemma StepFacts(ds: seq<BetDoc>, i: nat)
    requires i < |ds|
    ensures ds[..i + 1][..i] == ds[..i] && ds[..i + 1][i] == ds[i]
    ensures PlanesOf(ds[..i + 1]) == PlanesOf(ds[..i]) + {ds[i].bet.plane}
    ensures Sum(ds[..i + 1]) == Sum(ds[..i]) + ds[i].bet.amount
    ensures forall q ::
      PlaneSum(ds[..i + 1], q) == PlaneSum(ds[..i], q) + (if ds[i].bet.plane == q then ds[i].bet.amount else 0.0)
  {
    assert ds[..i + 1][..i] == ds[..i];
  }

  /** The `totals` memo: one entry per plane bet on, each holding the stake on
      that plane, ordered from the largest down, together adding up to every
      stake loaded. */
  method Totals(bets: seq<BetDoc>) returns (entries: seq<PlaneTotal>)
    ensures SortedDesc(entries) && DistinctPlanes(entries)
    ensures Keys(entries) == PlanesOf(bets)
    ensures forall e :: e in entries ==> e.amount == PlaneSum(bets, e.plane)
    ensures Total(entries) == Sum(bets)
  {
    var acc: seq<PlaneTotal> := [];
    var i := 0;
    while i < |bets|
      invariant 0 <= i <= |bets|
      invariant DistinctPlanes(acc) && Keys(acc) == PlanesOf(bets[..i])
      invariant forall q :: Lookup(acc, q) == PlaneSum(bets[..i], q)
      invariant Total(acc) == Sum(bets[..i])
    {
      BumpSpec(acc, bets[i].bet.plane, bets[i].bet.amount);
      StepFacts(bets, i);
      acc := Bump(acc, bets[i].bet.plane, bets[i].bet.amount);
      i := i + 1;
    }
    assert bets[..i] == bets;
    entries := SortDesc(acc);
    SortDescTotal(acc);
    SortDescDistinct(acc);
    SortDescSorted(acc);
    forall e | e in entries ensures e.amount == PlaneSum(bets, e.plane) {
      assert e in multiset(acc);
      LookupMember(acc, e);
    }
  }
}
