/**
 * Host memory as the adapter sees it.  The host hands the plugin raw
 * pointers to floats; a pointer is either null or the address of a
 * buffer, and a buffer is the sequence of samples stored from that
 * address on.  Distinct addresses denote distinct buffers.
 */
module HostMemory {

  datatype Ptr = Null | Addr(a: nat)

  type Memory = map<nat, seq<real>>

  /** `p`, when it is bound, can be dereferenced for `n` floats. */
  predicate Holds(mem: Memory, p: Ptr, n: nat)
  {
    p.Addr? ==> p.a in mem && |mem[p.a]| >= n
  }

  /** `p` is bound and can be dereferenced for `n` floats. */
  predicate Buffer(mem: Memory, p: Ptr, n: nat)
  {
    p.Addr? && p.a in mem && |mem[p.a]| >= n
  }

  predicate AllBuffers(mem: Memory, ps: seq<Ptr>, n: nat)
  {
    forall i :: 0 <= i < |ps| ==> Buffer(mem, ps[i], n)
  }

  /** Two memories hold the same buffers, with the same lengths. */
  predicate SameShape(m1: Memory, m2: Memory)
  {
    m1.Keys == m2.Keys && forall a :: a in m1 ==> |m2[a]| == |m1[a]|
  }

  lemma SameShapeKeepsBuffers(m1: Memory, m2: Memory, ps: seq<Ptr>, n: nat)
    requires SameShape(m1, m2) && AllBuffers(m1, ps, n)
    ensures AllBuffers(m2, ps, n)
  {
    forall i | 0 <= i < |ps| ensures Buffer(m2, ps[i], n) {
      assert Buffer(m1, ps[i], n);
    }
  }

  /** Reading `*p`. */
  function Load(mem: Memory, p: Ptr): real
    requires Buffer(mem, p, 1)
  {
    mem[p.a][0]
  }

  /** Writing `*p = v`; a null pointer is left alone. */
  function Store(mem: Memory, p: Ptr, v: real): (r: Memory)
    requires Holds(mem, p, 1)
    ensures SameShape(mem, r)
    ensures p.Addr? ==> r[p.a][0] == v && r[p.a][1..] == mem[p.a][1..]
    ensures forall a :: a in mem && p != Addr(a) ==> r[a] == mem[a]
  {
    if p.Null? then mem else mem[p.a := [v] + mem[p.a][1..]]
  }

  function Zeros(n: nat): (r: seq<real>)
    ensures |r| == n && forall i :: 0 <= i < n ==> r[i] == 0.0
  {
    seq(n, _ => 0.0)
  }

  /** Copying the first `n` samples of `src` over those of `dst`. */
  function CopySamples(mem: Memory, dst: Ptr, src: Ptr, n: nat): (r: Memory)
    requires Buffer(mem, dst, n) && Buffer(mem, src, n)
    ensures SameShape(mem, r)
    ensures r[dst.a][..n] == mem[src.a][..n] && r[dst.a][n..] == mem[dst.a][n..]
    ensures forall a :: a in mem && dst != Addr(a) ==> r[a] == mem[a]
  {
    var s := mem[src.a][..n] + mem[dst.a][n..];
    assert s[..n] == mem[src.a][..n] && s[n..] == mem[dst.a][n..];
    mem[dst.a := s]
  }

  /** Setting the first `n` samples of `dst` to silence. */
  function ClearSamples(mem: Memory, dst: Ptr, n: nat): (r: Memory)
    requires Buffer(mem, dst, n)
    ensures SameShape(mem, r)
    ensures r[dst.a][..n] == Zeros(n) && r[dst.a][n..] == mem[dst.a][n..]
    ensures forall a :: a in mem && dst != Addr(a) ==> r[a] == mem[a]
  {
    var s := Zeros(n) + mem[dst.a][n..];
    assert s[..n] == Zeros(n) && s[n..] == mem[dst.a][n..];
    mem[dst.a := s]
  }
}
