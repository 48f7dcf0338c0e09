/** Facts about sequences, sets and multisets that the proofs of module Collect use to
    regroup concatenations and running sums; they model nothing of the exporter itself. */
module SeqFacts {

  /** Sequence concatenation regrouped the way `Then` nests the wallet traces. */
  lemma Regroup<T>(x0: seq<T>, x: seq<T>, a: seq<T>, b: seq<T>, c: seq<T>, d: seq<T>)
    requires x == x0 + a + b + c + d
    ensures x == x0 + (a + ((b + c) + d))
  {
    AppendAssoc(b, c, d);
    AppendAssoc(a, b + c, d);
  }

  /** The empty sequence is a left unit of concatenation. */
  lemma EmptyAppend<T>(s: seq<T>)
    ensures [] + s == s
  {
  }

  /** Concatenation is associative. */
  lemma AppendAssoc<T>(a: seq<T>, b: seq<T>, c: seq<T>)
    ensures a + b + c == a + (b + c)
  {
  }

  /** Indexing into a concatenation. */
  lemma AppendAt<T>(a: seq<T>, b: seq<T>, k: nat)
    requires k < |a| + |b|
    ensures (a + b)[k] == if k < |a| then a[k] else b[k - |a|]
  {
  }

  /** Four sends, one after the other. */
  lemma SentInOrder<T>(before: seq<T>, after: seq<T>, a: T, b: T, c: T, d: T)
    requires after == before + [a] + [b] + [c] + [d]
    ensures after == before + [a, b, c, d]
  {
  }

  /** The bag of a concatenation is the sum of the two bags. */
  lemma BagOfAppend<T>(a: seq<T>, b: seq<T>)
    ensures multiset(a + b) == multiset(a) + multiset(b)
  {
  }

  /** Five appends in a row add the five bags. */
  lemma BagOfAppends<T>(x0: seq<T>, x1: seq<T>, x2: seq<T>, x3: seq<T>, x4: seq<T>, x5: seq<T>,
                        a: seq<T>, b: seq<T>, c: seq<T>, d: seq<T>, e: seq<T>)
    requires x1 == x0 + a && x2 == x1 + b && x3 == x2 + c && x4 == x3 + d && x5 == x4 + e
    ensures multiset(x5) == multiset(x0) + (multiset(a) + multiset(b) + multiset(c) + multiset(d) + multiset(e))
  {
    BagOfAppend(x0, a);
    BagOfAppend(x1, b);
    BagOfAppend(x2, c);
    BagOfAppend(x3, d);
    BagOfAppend(x4, e);
  }

  /** Removing a key from a map removes it from the key set. */
  lemma KeysOfRemove<K, V>(m: map<K, V>, k: K)
    ensures (m - {k}).Keys == m.Keys - {k}
  {
  }

  /** Moving `x` from the keys still to do to the keys done. */
  lemma TakeOneMore<K>(all: set<K>, remaining: set<K>, x: K)
    requires remaining <= all && x in remaining
    ensures all - (remaining - {x}) - {x} == all - remaining
    ensures x in all - (remaining - {x})
  {
  }

  /** One more bag added to a running sum. */
  lemma BagStep<T>(base: multiset<T>, sum: multiset<T>, bag: multiset<T>, before: multiset<T>, after: multiset<T>)
    requires before == base + sum && after == before + bag
    ensures after == base + (sum + bag)
  {
  }
}
