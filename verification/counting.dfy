/**
 * The per-frame aggregation: `Counter(detected_dangers)`. A counter is a
 * dictionary whose keys keep the order in which they were first inserted, so
 * it is modelled as a sequence of (label, count) entries in first-occurrence
 * order, built by bumping one label at a time.
 */
module Counting {

  datatype Entry = Entry(name: string, count: nat)

  function Names(es: seq<Entry>): (r: seq<string>)
    ensures |r| == |es|
  {
    if es == [] then [] else [es[0].name] + Names(es[1..])
  }

  /** The keys of a counter, entry by entry. */
  lemma {:induction false} NamesAt(es: seq<Entry>)
    ensures forall i :: 0 <= i < |es| ==> Names(es)[i] == es[i].name
  {
    if es != [] {
      NamesAt(es[1..]);
    }
  }

  lemma NamesSnoc(es: seq<Entry>)
    requires es != []
    ensures Names(es) == Names(es[..|es| - 1]) + [es[|es| - 1].name]
  {
    NamesAt(es);
    NamesAt(es[..|es| - 1]);
  }

  function SumCounts(es: seq<Entry>): nat
  {
    if es == [] then 0 else es[0].count + SumCounts(es[1..])
  }

  predicate NoDuplicates<T(==)>(s: seq<T>)
  {
    forall i, j :: 0 <= i < j < |s| ==> s[i] != s[j]
  }

  /** `counter[l] += 1`: raise the entry of `l`, or insert it last with count 1. */
  function Bump(es: seq<Entry>, l: string): seq<Entry>
  {
    if es == [] then [Entry(l, 1)]
    else if es[0].name == l then [Entry(l, es[0].count + 1)] + es[1..]
    else [es[0]] + Bump(es[1..], l)
  }

  /** The counter of `ls`, built by bumping its labels in order. */
  function Tally(ls: seq<string>): seq<Entry>
  {
    if ls == [] then [] else Bump(Tally(ls[..|ls| - 1]), ls[|ls| - 1])
  }

  /** Position of the first occurrence of `l` in `ls`. */
  function FirstIndex(ls: seq<string>, l: string): (k: nat)
    requires l in ls
    ensures k < |ls| && ls[k] == l && l !in ls[..k]
  {
    if ls[0] == l then 0 else 1 + FirstIndex(ls[1..], l)
  }

  lemma {:induction false} BumpNames(es: seq<Entry>, l: string)
    ensures Names(Bump(es, l)) == if l in Names(es) then Names(es) else Names(es) + [l]
  {
    if es != [] && es[0].name != l {
      BumpNames(es[1..], l);
      assert Names(es) == [es[0].name] + Names(es[1..]);
    }
  }

  lemma {:induction false} BumpCounts(es: seq<Entry>, l: string, i: nat)
    requires NoDuplicates(Names(es))
    requires i < |Bump(es, l)|
    ensures i < |es| ==> Bump(es, l)[i].count == es[i].count + (if es[i].name == l then 1 else 0)
    ensures i == |es| ==> Bump(es, l)[i] == Entry(l, 1) && l !in Names(es)
  {
    NamesAt(es);
    if es != [] && i > 0 {
      assert Names(es)[0] == es[0].name;
      if es[0].name != l {
        assert Names(es[1..]) == Names(es)[1..];
        BumpCounts(es[1..], l, i - 1);
      } else if i < |es| {
        assert Names(es)[i] == es[i].name;
      }
    }
    BumpNames(es, l);
  }

  lemma {:induction false} BumpSum(es: seq<Entry>, l: string)
    ensures SumCounts(Bump(es, l)) == SumCounts(es) + 1
  {
    if es != [] && es[0].name != l {
      BumpSum(es[1..], l);
    }
  }

  /**
   * The keys of the counter are exactly the distinct labels, each once.
   */
  lemma {:induction false} TallyKeys(ls: seq<string>)
    ensures NoDuplicates(Names(Tally(ls)))
    ensures forall l :: l in Names(Tally(ls)) <==> l in ls
  {
    if ls != [] {
      var p, x := ls[..|ls| - 1], ls[|ls| - 1];
      TallyKeys(p);
      BumpNames(Tally(p), x);
      assert ls == p + [x];
    }
  }

  /**
   * Every count equals the number of occurrences of its label, hence is at least 1.
   */
  lemma {:induction false} TallyCounts(ls: seq<string>)
    ensures forall i :: 0 <= i < |Tally(ls)| ==>
      Tally(ls)[i].count == multiset(ls)[Tally(ls)[i].name] >= 1
  {
    if ls != [] {
      var p, x := ls[..|ls| - 1], ls[|ls| - 1];
      TallyCounts(p);
      TallyKeys(p);
      TallyKeys(ls);
      assert ls == p + [x];
      forall i | 0 <= i < |Tally(ls)|
        ensures Tally(ls)[i].count == multiset(ls)[Tally(ls)[i].name] >= 1
      {
        TallyCountAt(p, x, i);
      }
    }
  }

  lemma TallyCountAt(p: seq<string>, x: string, i: nat)
    requires NoDuplicates(Names(Tally(p)))
    requires forall l :: l in Names(Tally(p)) <==> l in p
    requires forall i :: 0 <= i < |Tally(p)| ==> Tally(p)[i].count == multiset(p)[Tally(p)[i].name]
    requires i < |Bump(Tally(p), x)|
    ensures Bump(Tally(p), x)[i].count == multiset(p + [x])[Bump(Tally(p), x)[i].name] >= 1
  {
    var t := Tally(p);
    BumpCounts(t, x, i);
    BumpNames(t, x);
    NamesAt(t);
    NamesAt(Bump(t, x));
    var y := Bump(t, x)[i].name;
    assert Names(Bump(t, x))[i] == y;
    assert multiset(p + [x])[y] == multiset(p)[y] + (if y == x then 1 else 0);
    if i < |t| {
      assert Names(t)[i] == t[i].name;
      assert y == t[i].name;
      assert y in p;
    }
  }

  /** The counts add up to the number of kept labels. */
  lemma {:induction false} TallySum(ls: seq<string>)
    ensures SumCounts(Tally(ls)) == |ls|
  {
    if ls != [] {
      TallySum(ls[..|ls| - 1]);
      BumpSum(Tally(ls[..|ls| - 1]), ls[|ls| - 1]);
    }
  }

  lemma {:induction false} FirstIndexSnoc(p: seq<string>, x: string, l: string)
    requires l in p
    ensures FirstIndex(p + [x], l) == FirstIndex(p, l)
  {
    if p[0] != l {
      assert (p + [x])[1..] == p[1..] + [x];
      FirstIndexSnoc(p[1..], x, l);
    }
  }

  lemma FirstIndexFresh(p: seq<string>, x: string)
    requires x !in p
    ensures FirstIndex(p + [x], x) == |p|
  {
    assert forall k | 0 <= k < |p| :: (p + [x])[k] == p[k];
  }

  /** Entries come in the order in which their labels were first detected. */
  lemma {:induction false} TallyOrder(ls: seq<string>)
    ensures forall i, j :: 0 <= i < j < |Tally(ls)| ==>
      Tally(ls)[i].name in ls && Tally(ls)[j].name in ls &&
      FirstIndex(ls, Tally(ls)[i].name) < FirstIndex(ls, Tally(ls)[j].name)
  {
    TallyKeys(ls);
    if ls != [] {
      var p, x := ls[..|ls| - 1], ls[|ls| - 1];
      TallyOrder(p);
      TallyKeys(p);
      BumpNames(Tally(p), x);
      assert ls == p + [x];
      var np, nl := Names(Tally(p)), Names(Tally(ls));
      NamesAt(Tally(p));
      NamesAt(Tally(ls));
      forall i, j | 0 <= i < j < |Tally(ls)|
        ensures Tally(ls)[i].name in ls && Tally(ls)[j].name in ls &&
          FirstIndex(ls, Tally(ls)[i].name) < FirstIndex(ls, Tally(ls)[j].name)
      {
        assert nl[i] in ls && nl[j] in ls;
        assert nl[i] in p by { assert nl[i] == np[i]; }
        FirstIndexSnoc(p, x, nl[i]);
        if j < |np| {
          assert nl[j] == np[j];
          FirstIndexSnoc(p, x, nl[j]);
        } else {
          assert nl[j] == x && x !in p;
          FirstIndexFresh(p, x);
        }
      }
    }
  }
}
