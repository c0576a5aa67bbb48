/**
 * The per-block buffer view: one channel pointer per slot, max(inputs,
 * outputs) slots.  Output slots point at the output buffers, which first
 * receive a copy of the matching input unless the host passed the same
 * buffer for both; the remaining input slots point at the inputs.
 */
module BufferView {
  import opened Common
  import opened HostMemory
  import opened Engine

  /** The channel pointers handed to the engine. */
  function ChannelView(ins: seq<Ptr>, outs: seq<Ptr>): (r: seq<Ptr>)
    ensures |r| == Max(|ins|, |outs|)
    ensures forall i :: 0 <= i < |outs| ==> r[i] == outs[i]
    ensures forall i :: |outs| <= i < |ins| ==> r[i] == ins[i]
  {
    seq(Max(|ins|, |outs|), i requires 0 <= i < Max(|ins|, |outs|) => if i < |outs| then outs[i] else ins[i])
  }

  /** Whether channel `i` is copied: it has an input whose buffer is not its output's. */
  predicate NeedsCopy(ins: seq<Ptr>, outs: seq<Ptr>, i: nat)
    requires i < |outs|
  {
    i < |ins| && ins[i] != outs[i]
  }

  /**
   * The memory after the input-to-output copies of the first `k` output
   * channels.  `CopyInputsKeepsOthers` and `CopyInputsKeepsTails` show that
   * only output buffers change, and only in their first `n` samples.
   */
  function CopyInputs(mem: Memory, ins: seq<Ptr>, outs: seq<Ptr>, n: nat, k: nat): (r: Memory)
    requires k <= |outs| && AllBuffers(mem, ins, n) && AllBuffers(mem, outs, n)
    ensures SameShape(mem, r)
    decreases k
  {
    if k == 0 then mem
    else
      var m := CopyInputs(mem, ins, outs, n, k - 1);
      SameShapeKeepsBuffers(mem, m, ins, n);
      SameShapeKeepsBuffers(mem, m, outs, n);
      if NeedsCopy(ins, outs, k - 1) then CopySamples(m, outs[k - 1], ins[k - 1], n) else m
  }

  /** One round of the copy loop: output channel `c` receives its input when it needs a copy. */
  lemma CopyInputsNext(mem: Memory, ins: seq<Ptr>, outs: seq<Ptr>, n: nat, c: nat)
    requires c < |outs| && AllBuffers(mem, ins, n) && AllBuffers(mem, outs, n)
    ensures var m := CopyInputs(mem, ins, outs, n, c);
      && AllBuffers(m, ins, n) && AllBuffers(m, outs, n)
      && CopyInputs(mem, ins, outs, n, c + 1)
         == if NeedsCopy(ins, outs, c) then CopySamples(m, outs[c], ins[c], n) else m
    ensures CopyEffects(ins, outs, n, c + 1)
      == CopyEffects(ins, outs, n, c) + if NeedsCopy(ins, outs, c) then [CopyChannel(c, n)] else []
  {
    var m := CopyInputs(mem, ins, outs, n, c);
    SameShapeKeepsBuffers(mem, m, ins, n);
    SameShapeKeepsBuffers(mem, m, outs, n);
  }

  /** Past the first `n` samples every buffer is intact. */
  lemma {:induction false} CopyInputsKeepsTails(mem: Memory, ins: seq<Ptr>, outs: seq<Ptr>, n: nat, k: nat)
    requires k <= |outs| && AllBuffers(mem, ins, n) && AllBuffers(mem, outs, n)
    ensures var r := CopyInputs(mem, ins, outs, n, k);
      forall a :: a in mem && |mem[a]| >= n ==> r[a][n..] == mem[a][n..]
  {
    if k > 0 {
      CopyInputsKeepsTails(mem, ins, outs, n, k - 1);
      var m := CopyInputs(mem, ins, outs, n, k - 1);
      SameShapeKeepsBuffers(mem, m, ins, n);
      SameShapeKeepsBuffers(mem, m, outs, n);
      var r := CopyInputs(mem, ins, outs, n, k);
      if NeedsCopy(ins, outs, k - 1) {
        assert r == CopySamples(m, outs[k - 1], ins[k - 1], n);
        forall a | a in mem && |mem[a]| >= n ensures r[a][n..] == mem[a][n..] {
          assert r[a][n..] == m[a][n..];
        }
      } else {
        assert r == m;
      }
    }
  }

  /** Only the first `k` output buffers may change. */
  lemma {:induction false} CopyInputsKeepsOthers(mem: Memory, ins: seq<Ptr>, outs: seq<Ptr>, n: nat, k: nat)
    requires k <= |outs| && AllBuffers(mem, ins, n) && AllBuffers(mem, outs, n)
    ensures var r := CopyInputs(mem, ins, outs, n, k);
      forall a :: a in mem && Addr(a) !in outs[..k] ==> r[a] == mem[a]
  {
    if k > 0 {
      CopyInputsKeepsOthers(mem, ins, outs, n, k - 1);
      var m := CopyInputs(mem, ins, outs, n, k - 1);
      SameShapeKeepsBuffers(mem, m, ins, n);
      SameShapeKeepsBuffers(mem, m, outs, n);
      var r := CopyInputs(mem, ins, outs, n, k);
      forall a | a in mem && Addr(a) !in outs[..k] ensures r[a] == mem[a] {
        NotInPrefix(outs, k, Addr(a));
        assert r[a] == m[a];
      }
    }
  }

  /** A pointer missing from the first `k` entries is missing from the first `k - 1` and is not entry `k - 1`. */
  lemma NotInPrefix(ps: seq<Ptr>, k: nat, p: Ptr)
    requires 0 < k <= |ps| && p !in ps[..k]
    ensures p != ps[k - 1] && p !in ps[..k - 1]
  {
    assert ps[..k] == ps[..k - 1] + [ps[k - 1]];
  }

  /** The copy calls made for the first `k` output channels, in order. */
  function CopyEffects(ins: seq<Ptr>, outs: seq<Ptr>, n: nat, k: nat): seq<Effect>
    requires k <= |outs|
  {
    if k == 0 then []
    else CopyEffects(ins, outs, n, k - 1) + (if NeedsCopy(ins, outs, k - 1) then [CopyChannel(k - 1, n)] else [])
  }

  /**
   * The memory after silencing the first `n` samples of the first `k`
   * outputs; `ClearOutputsSilences`, `ClearOutputsKeepsTails` and
   * `ClearOutputsKeepsOthers` show what it silences and what it keeps.
   */
  function ClearOutputs(mem: Memory, outs: seq<Ptr>, n: nat, k: nat): (r: Memory)
    requires k <= |outs| && AllBuffers(mem, outs, n)
    ensures SameShape(mem, r)
    decreases k
  {
    if k == 0 then mem
    else
      var m := ClearOutputs(mem, outs, n, k - 1);
      SameShapeKeepsBuffers(mem, m, outs, n);
      ClearSamples(m, outs[k - 1], n)
  }

  /** Silencing keeps every buffer past its first `n` samples. */
  lemma {:induction false} ClearOutputsKeepsTails(mem: Memory, outs: seq<Ptr>, n: nat, k: nat)
    requires k <= |outs| && AllBuffers(mem, outs, n)
    ensures var r := ClearOutputs(mem, outs, n, k);
      forall a :: a in mem && |mem[a]| >= n ==> r[a][n..] == mem[a][n..]
  {
    if k > 0 {
      ClearOutputsKeepsTails(mem, outs, n, k - 1);
      var m := ClearOutputs(mem, outs, n, k - 1);
      SameShapeKeepsBuffers(mem, m, outs, n);
      var r := ClearOutputs(mem, outs, n, k);
      forall a | a in mem && |mem[a]| >= n ensures r[a][n..] == mem[a][n..] {
        assert r[a][n..] == m[a][n..];
      }
    }
  }

  /** Silencing touches only the first `k` outputs. */
  lemma {:induction false} ClearOutputsKeepsOthers(mem: Memory, outs: seq<Ptr>, n: nat, k: nat)
    requires k <= |outs| && AllBuffers(mem, outs, n)
    ensures var r := ClearOutputs(mem, outs, n, k);
      forall a :: a in mem && Addr(a) !in outs[..k] ==> r[a] == mem[a]
  {
    if k > 0 {
      ClearOutputsKeepsOthers(mem, outs, n, k - 1);
      var m := ClearOutputs(mem, outs, n, k - 1);
      SameShapeKeepsBuffers(mem, m, outs, n);
      var r := ClearOutputs(mem, outs, n, k);
      forall a | a in mem && Addr(a) !in outs[..k] ensures r[a] == mem[a] {
        NotInPrefix(outs, k, Addr(a));
        assert r[a] == m[a];
      }
    }
  }

  /** Afterwards the first `n` samples of each of the first `k` outputs are silent. */
  lemma {:induction false} ClearOutputsSilences(mem: Memory, outs: seq<Ptr>, n: nat, k: nat)
    requires k <= |outs| && AllBuffers(mem, outs, n)
    ensures var r := ClearOutputs(mem, outs, n, k);
      forall j :: 0 <= j < k ==> r[outs[j].a][..n] == Zeros(n)
  {
    if k > 0 {
      ClearOutputsSilences(mem, outs, n, k - 1);
      var m := ClearOutputs(mem, outs, n, k - 1);
      SameShapeKeepsBuffers(mem, m, outs, n);
      var r := ClearOutputs(mem, outs, n, k);
      forall j | 0 <= j < k ensures r[outs[j].a][..n] == Zeros(n) {
        if outs[j] != outs[k - 1] {
          assert r[outs[j].a] == m[outs[j].a];
        }
      }
    }
  }

  /**
   * A channel is copied exactly when it has an input on a buffer of its
   * own: a host that aliases input and output gets no copy for it.
   */
  lemma {:induction false} CopyEffectsExactly(ins: seq<Ptr>, outs: seq<Ptr>, n: nat, k: nat, c: nat, m: nat)
    requires k <= |outs|
    ensures CopyChannel(c, m) in CopyEffects(ins, outs, n, k) <==> m == n && c < k && NeedsCopy(ins, outs, c)
  {
    if k > 0 {
      CopyEffectsExactly(ins, outs, n, k - 1, c, m);
    }
  }

  /** `e` is a list of copy calls for channels below `k`, in strictly increasing order. */
  predicate IncreasingCopies(e: seq<Effect>, k: nat)
  {
    && (forall i :: 0 <= i < |e| ==> e[i].CopyChannel? && e[i].channel < k)
    && (forall i, j :: 0 <= i < j < |e| && e[i].CopyChannel? && e[j].CopyChannel? ==> e[i].channel < e[j].channel)
  }

  /** Every copy call is for a channel below `k`, and the channels strictly increase. */
  lemma {:induction false} CopyEffectsIncreasing(ins: seq<Ptr>, outs: seq<Ptr>, n: nat, k: nat)
    requires k <= |outs|
    ensures IncreasingCopies(CopyEffects(ins, outs, n, k), k)
  {
    if k > 0 {
      CopyEffectsIncreasing(ins, outs, n, k - 1);
      var e0 := CopyEffects(ins, outs, n, k - 1);
      var e := CopyEffects(ins, outs, n, k);
      if NeedsCopy(ins, outs, k - 1) {
        assert e == e0 + [CopyChannel(k - 1, n)];
        forall i | 0 <= i < |e| ensures e[i].CopyChannel? && e[i].channel < k {
          if i < |e0| {
            assert e[i] == e0[i];
          }
        }
        forall i, j | 0 <= i < j < |e| ensures e[i].channel < e[j].channel {
          assert e[i] == e0[i];
          if j < |e0| {
            assert e[j] == e0[j];
          }
        }
      } else {
        assert e == e0;
      }
    }
  }

  /**
   * The host's buffers do not overlap across channels: outputs are pairwise
   * distinct, and an input may share a buffer only with the output of the
   * same channel.
   */
  predicate Separated(ins: seq<Ptr>, outs: seq<Ptr>)
  {
    && (forall i, j :: 0 <= i < |outs| && 0 <= j < |outs| && i != j ==> outs[i] != outs[j])
    && (forall i, j :: 0 <= i < |ins| && 0 <= j < |outs| && i != j ==> ins[i] != outs[j])
  }

  /** After the copies of the first `k` channels: those outputs hold their inputs, later inputs are intact. */
  ghost predicate Delivered(mem: Memory, r: Memory, ins: seq<Ptr>, outs: seq<Ptr>, n: nat, k: nat)
    requires k <= |outs| && AllBuffers(mem, ins, n) && AllBuffers(mem, outs, n) && SameShape(mem, r)
  {
    && (forall i :: 0 <= i < k && i < |ins| ==> r[outs[i].a][..n] == mem[ins[i].a][..n])
    && (forall i :: k <= i < |ins| ==> r[ins[i].a] == mem[ins[i].a])
  }

  /** One channel's copy keeps `Delivered`. */
  lemma CopyInputsStep(mem: Memory, ins: seq<Ptr>, outs: seq<Ptr>, n: nat, c: nat)
    requires c < |outs| && AllBuffers(mem, ins, n) && AllBuffers(mem, outs, n) && Separated(ins, outs)
    requires Delivered(mem, CopyInputs(mem, ins, outs, n, c), ins, outs, n, c)
    ensures Delivered(mem, CopyInputs(mem, ins, outs, n, c + 1), ins, outs, n, c + 1)
  {
    var m := CopyInputs(mem, ins, outs, n, c);
    SameShapeKeepsBuffers(mem, m, ins, n);
    SameShapeKeepsBuffers(mem, m, outs, n);
    var r := CopyInputs(mem, ins, outs, n, c + 1);
    assert r == if NeedsCopy(ins, outs, c) then CopySamples(m, outs[c], ins[c], n) else m;
    assert Buffer(mem, outs[c], n);
    if c < |ins| {
      assert Buffer(mem, ins[c], n);
      assert m[ins[c].a] == mem[ins[c].a];
      if !NeedsCopy(ins, outs, c) {
        assert ins[c] == outs[c];
      }
      assert r[outs[c].a][..n] == mem[ins[c].a][..n];
    }
    forall i | 0 <= i < c && i < |ins|
      ensures r[outs[i].a][..n] == mem[ins[i].a][..n]
    {
      assert outs[c] != outs[i];
      assert r[outs[i].a] == m[outs[i].a];
    }
    forall i | c + 1 <= i < |ins|
      ensures r[ins[i].a] == mem[ins[i].a]
    {
      assert Buffer(mem, ins[i], n);
      assert ins[i] != outs[c];
      assert r[ins[i].a] == m[ins[i].a];
    }
  }

  /**
   * With separated buffers, every output channel that has an input holds
   * that input's first `n` samples once the copies are done, whether it
   * was copied or aliased.
   */
  lemma {:induction false} CopyInputsDelivers(mem: Memory, ins: seq<Ptr>, outs: seq<Ptr>, n: nat, k: nat)
    requires k <= |outs| && AllBuffers(mem, ins, n) && AllBuffers(mem, outs, n)
    requires Separated(ins, outs)
    ensures forall i :: 0 <= i < k && i < |ins| ==> CopyInputs(mem, ins, outs, n, k)[outs[i].a][..n] == mem[ins[i].a][..n]
  {
    DeliveredUpTo(mem, ins, outs, n, k);
  }

  lemma {:induction false} DeliveredUpTo(mem: Memory, ins: seq<Ptr>, outs: seq<Ptr>, n: nat, k: nat)
    requires k <= |outs| && AllBuffers(mem, ins, n) && AllBuffers(mem, outs, n)
    requires Separated(ins, outs)
    ensures Delivered(mem, CopyInputs(mem, ins, outs, n, k), ins, outs, n, k)
  {
    if k > 0 {
      DeliveredUpTo(mem, ins, outs, n, k - 1);
      CopyInputsStep(mem, ins, outs, n, k - 1);
    }
  }
}
