/** Sets of node ids, and updates of maps and sequences. */
module Collections {
  import opened RaftTypes

  function Elements(s: seq<NodeId>): set<NodeId> {
    set p | p in s
  }

  /** The first `n` node ids. */
  function Ids(n: nat): (ids: set<NodeId>)
    ensures forall j :: j in ids <==> 0 <= j < n
  {
    if n == 0 then {} else Ids(n - 1) + {n - 1}
  }

  lemma {:induction false} IdsSize(n: nat)
    ensures |Ids(n)| == n
  {
    if n > 0 {
      IdsSize(n - 1);
    }
  }

  lemma LastUpdateCounts<K, T>(m: map<K, T>, k: K, first: T, l: K, other: T, last: T)
    requires k != l
    ensures m[k := first][l := other][k := last] == m[l := other][k := last]
  {
  }

  lemma LastReplaced<T>(a: seq<T>, x: T, y: T)
    ensures (a + [x])[|a| := y] == a + [y]
  {
  }

  lemma Associative<T>(a: seq<T>, b: seq<T>, c: seq<T>)
    ensures a + (b + c) == a + b + c
  {
  }
}
