/** Value types shared by the rendezvous modules. */
module Prelude {

  datatype Option<+T> = None | Some(value: T)

  datatype Result<+T, +E> = Ok(value: T) | Err(error: E)

  function Lookup<K, V>(m: map<K, V>, k: K): Option<V> {
    if k in m then Some(m[k]) else None
  }

  /** What the n-th operation of a caller meets, when others change what it works on meanwhile. */
  function View<S>(history: seq<S>, n: nat): S
    requires history != []
  {
    history[if n < |history| then n else |history| - 1]
  }

  /** A node descriptor: address, process id and a process-wide counter, ordered lexicographically. */
  datatype NodeDesc = NodeDesc(addr: string, pid: int, localId: int)

  /** What a node publishes in its slot. An infrastructure rank of -1 means "not assigned";
      the domain is "none" when no segment is configured. */
  datatype Participant = Participant(node: NodeDesc, infraRank: int, domain: string, group: Option<string>)

  predicate StringLe(a: string, b: string) {
    if a == [] then true
    else if b == [] then false
    else if a[0] != b[0] then a[0] < b[0]
    else StringLe(a[1..], b[1..])
  }

  predicate NodeLe(a: NodeDesc, b: NodeDesc) {
    if a.addr != b.addr then StringLe(a.addr, b.addr)
    else if a.pid != b.pid then a.pid < b.pid
    else a.localId <= b.localId
  }

  lemma StringLeTotal(a: string, b: string)
    ensures StringLe(a, b) || StringLe(b, a)
    ensures StringLe(a, b) && StringLe(b, a) ==> a == b
  {
    if a != [] && b != [] && a[0] == b[0] {
      StringLeTotal(a[1..], b[1..]);
      assert a == [a[0]] + a[1..] && b == [b[0]] + b[1..];
    }
  }

  lemma StringLeTransitive(a: string, b: string, c: string)
    requires StringLe(a, b) && StringLe(b, c)
    ensures StringLe(a, c)
  {
    if a != [] && a[0] == b[0] && b[0] == c[0] {
      StringLeTransitive(a[1..], b[1..], c[1..]);
    }
  }

  lemma NodeLeTotal(a: NodeDesc, b: NodeDesc)
    ensures NodeLe(a, b) || NodeLe(b, a)
    ensures NodeLe(a, b) && NodeLe(b, a) ==> a == b
  {
    StringLeTotal(a.addr, b.addr);
  }

  lemma NodeLeTransitive(a: NodeDesc, b: NodeDesc, c: NodeDesc)
    requires NodeLe(a, b) && NodeLe(b, c)
    ensures NodeLe(a, c)
  {
    StringLeTotal(a.addr, b.addr);
    StringLeTotal(b.addr, c.addr);
    if StringLe(a.addr, b.addr) && StringLe(b.addr, c.addr) {
      StringLeTransitive(a.addr, b.addr, c.addr);
      StringLeTotal(a.addr, c.addr);
    }
  }
}
