/** Families of FIFO queues of messages, one per key, and how often a message occurs in them. */
module Queues {
  import opened Wire

  type Queues<K> = map<K, seq<MsgId>>

  function Q<K(!new)>(q: Queues<K>, k: K): seq<MsgId> {
    if k in q then q[k] else []
  }

  ghost function Count<K(!new)>(q: Queues<K>, k: K, m: MsgId): nat {
    multiset(Q(q, k))[m]
  }

  function Push<K(!new)>(q: Queues<K>, k: K, m: MsgId): Queues<K> {
    q[k := Q(q, k) + [m]]
  }

  function Pop<K(!new)>(q: Queues<K>, k: K): Queues<K>
    requires Q(q, k) != []
  {
    q[k := Q(q, k)[1..]]
  }

  /** Appends the whole of queue `k` of `from` to queue `k` of `to`, in order. */
  function Splice<K(!new)>(to: Queues<K>, from: Queues<K>, k: K): Queues<K> {
    to[k := Q(to, k) + Q(from, k)]
  }

  function Clear<K(!new)>(q: Queues<K>, k: K): Queues<K> {
    q[k := []]
  }

  lemma PushCount<K(!new)>(q: Queues<K>, k: K, m: MsgId)
    ensures forall k', m' ::
      Count(Push(q, k, m), k', m') == Count(q, k', m') + (if k' == k && m' == m then 1 else 0)
  {
  }

  lemma PopCount<K(!new)>(q: Queues<K>, k: K)
    requires Q(q, k) != []
    ensures forall k', m' ::
      Count(Pop(q, k), k', m') == Count(q, k', m') - (if k' == k && m' == Q(q, k)[0] then 1 else 0)
    ensures Count(q, k, Q(q, k)[0]) > 0
  {
    assert Q(q, k) == [Q(q, k)[0]] + Q(q, k)[1..];
  }

  lemma SpliceCount<K(!new)>(to: Queues<K>, from: Queues<K>, k: K)
    ensures forall k', m' ::
      Count(Splice(to, from, k), k', m') == Count(to, k', m') + (if k' == k then Count(from, k, m') else 0)
    ensures forall k', m' ::
      Count(Clear(from, k), k', m') == if k' == k then 0 else Count(from, k', m')
  {
  }

  lemma CountIn<K(!new)>(q: Queues<K>, k: K, m: MsgId)
    ensures m in Q(q, k) <==> Count(q, k, m) > 0
  {
  }
}
