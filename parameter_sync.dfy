/**
 * Parameter synchronisation at the start of a block: every parameter reads
 * its control port (the bypass parameter reads the inverted "enabled"
 * port), and a parameter whose reading differs from the cached value by
 * more than the float tolerance gets the new value cached and pushed to
 * the engine.
 */
module ParameterSync {
  import opened Common
  import opened HostMemory
  import opened Engine
  import opened PortTable

  /** Every connected control input can be read. */
  predicate ControlPortsHeld(mem: Memory, b: PortBindings)
  {
    Holds(mem, b.enabled, 1) && forall s :: 0 <= s < |b.controls| ==> Holds(mem, b.controls[s], 1)
  }

  /**
   * What parameter `i` reads this block: the bypass parameter reads
   * 1 - enabled, any other parameter its own control slot; `None` when
   * that port is not connected.
   */
  function Reading(params: seq<Param>, b: PortBindings, mem: Memory, i: nat): Option<real>
    requires i < |params| && |b.controls| == |params| && ControlPortsHeld(mem, b)
  {
    if params[i].isBypass then
      if b.enabled.Null? then None else Some(1.0 - Load(mem, b.enabled))
    else
      var p := b.controls[ControlSlot(params, i)];
      if p.Null? then None else Some(Load(mem, p))
  }

  /** The readings of all parameters. */
  function Readings(params: seq<Param>, b: PortBindings, mem: Memory): (r: seq<Option<real>>)
    requires |b.controls| == |params| && ControlPortsHeld(mem, b)
    ensures |r| == |params| && forall i :: 0 <= i < |params| ==> r[i] == Reading(params, b, mem, i)
  {
    seq(|params|, i requires 0 <= i < |params| => Reading(params, b, mem, i))
  }

  /** Parameter `i` has a reading that the cached value does not approximate. */
  predicate Changed(cache: seq<real>, rs: seq<Option<real>>, i: nat)
    requires i < |cache| && i < |rs|
  {
    rs[i].Some? && !ApproximatelyEqual(cache[i], rs[i].value)
  }

  /**
   * The cache after a sync.  A slot without a reading keeps its value, a
   * slot only changes when its reading changed, and afterwards every slot
   * with a reading approximates it.
   */
  function Synced(cache: seq<real>, rs: seq<Option<real>>): (r: seq<real>)
    requires |rs| == |cache|
    ensures |r| == |cache|
    ensures forall i :: 0 <= i < |cache| && rs[i].None? ==> r[i] == cache[i]
    ensures forall i :: 0 <= i < |cache| && r[i] != cache[i] ==> Changed(cache, rs, i)
    ensures forall i :: 0 <= i < |cache| && Changed(cache, rs, i) ==> r[i] == rs[i].value
    ensures forall i :: 0 <= i < |cache| && rs[i].Some? ==> ApproximatelyEqual(r[i], rs[i].value)
  {
    var r := seq(|cache|, i requires 0 <= i < |cache| => if Changed(cache, rs, i) then rs[i].value else cache[i]);
    forall i | 0 <= i < |cache| && rs[i].Some? ensures ApproximatelyEqual(r[i], rs[i].value) {
      ApproximatelyEqualReflexive(rs[i].value);
    }
    r
  }

  /** The setter calls made while syncing the first `k` parameters, in order. */
  function SyncEffects(params: seq<Param>, cache: seq<real>, rs: seq<Option<real>>, k: nat): seq<Effect>
    requires k <= |params| == |cache| == |rs|
  {
    if k == 0 then []
    else
      SyncEffects(params, cache, rs, k - 1)
      + (if Changed(cache, rs, k - 1)
         then [SetValueNotifyingHost(k - 1, EngineValue(params[k - 1], rs[k - 1].value))]
         else [])
  }

  /** The cache once the first `k` parameters are synced and the rest not yet. */
  function SyncedUpTo(cache: seq<real>, rs: seq<Option<real>>, k: nat): (r: seq<real>)
    requires k <= |cache| == |rs|
    ensures |r| == |cache|
  {
    if k == 0 then cache
    else
      var before := SyncedUpTo(cache, rs, k - 1);
      if Changed(cache, rs, k - 1) then before[k - 1 := rs[k - 1].value] else before
  }

  /** The first `k` slots are synced and the others untouched. */
  lemma {:induction false} SyncedUpToAt(cache: seq<real>, rs: seq<Option<real>>, k: nat)
    requires k <= |cache| == |rs|
    ensures forall j :: 0 <= j < |cache| ==>
      SyncedUpTo(cache, rs, k)[j] == if j < k then Synced(cache, rs)[j] else cache[j]
  {
    if k > 0 {
      SyncedUpToAt(cache, rs, k - 1);
    }
  }

  /** Once every parameter is synced the cache is `Synced`. */
  lemma SyncedUpToAll(cache: seq<real>, rs: seq<Option<real>>)
    requires |cache| == |rs|
    ensures SyncedUpTo(cache, rs, |cache|) == Synced(cache, rs)
  {
    SyncedUpToAt(cache, rs, |cache|);
  }

  /**
   * Syncing parameter `i`: it still holds its old value, and it takes its
   * reading, with one setter call, exactly when it changed.
   */
  lemma SyncStep(params: seq<Param>, cache: seq<real>, rs: seq<Option<real>>, i: nat)
    requires i < |params| == |cache| == |rs|
    ensures SyncedUpTo(cache, rs, i)[i] == cache[i]
    ensures SyncEffects(params, cache, rs, i + 1)
      == SyncEffects(params, cache, rs, i)
         + (if Changed(cache, rs, i) then [SetValueNotifyingHost(i, EngineValue(params[i], rs[i].value))] else [])
  {
    SyncedUpToAt(cache, rs, i);
  }

  /**
   * The engine's setter is called for parameter `j` with value `v` exactly
   * when `j` changed, and `v` is the reading converted to the engine's
   * domain.
   */
  lemma {:induction false} SyncEffectsExactly(params: seq<Param>, cache: seq<real>, rs: seq<Option<real>>, k: nat, j: nat, v: real)
    requires k <= |params| == |cache| == |rs|
    ensures SetValueNotifyingHost(j, v) in SyncEffects(params, cache, rs, k)
      <==> j < k && Changed(cache, rs, j) && v == EngineValue(params[j], rs[j].value)
  {
    if k > 0 {
      SyncEffectsExactly(params, cache, rs, k - 1, j, v);
    }
  }

  /** `e` is a list of setter calls for parameters below `k`, in strictly increasing order. */
  predicate IncreasingSetters(e: seq<Effect>, k: nat)
  {
    && (forall i :: 0 <= i < |e| ==> e[i].SetValueNotifyingHost? && e[i].param < k)
    && (forall i, j :: 0 <= i < j < |e| && e[i].SetValueNotifyingHost? && e[j].SetValueNotifyingHost? ==> e[i].param < e[j].param)
  }

  /** The sync only calls the setter, and at most once per parameter. */
  lemma {:induction false} SyncEffectsIncreasing(params: seq<Param>, cache: seq<real>, rs: seq<Option<real>>, k: nat)
    requires k <= |params| == |cache| == |rs|
    ensures IncreasingSetters(SyncEffects(params, cache, rs, k), k)
  {
    if k > 0 {
      SyncEffectsIncreasing(params, cache, rs, k - 1);
      var e0 := SyncEffects(params, cache, rs, k - 1);
      var e := SyncEffects(params, cache, rs, k);
      if Changed(cache, rs, k - 1) {
        assert e == e0 + [SetValueNotifyingHost(k - 1, EngineValue(params[k - 1], rs[k - 1].value))];
        forall i | 0 <= i < |e| ensures e[i].SetValueNotifyingHost? && e[i].param < k {
          if i < |e0| {
            assert e[i] == e0[i];
          }
        }
        forall i, j | 0 <= i < j < |e| ensures e[i].param < e[j].param {
          assert e[i] == e0[i];
          if j < |e0| {
            assert e[j] == e0[j];
          }
        }
      } else {
        assert e == e0;
      }
    }
  }

  /** With nothing changed, the sync calls no setter. */
  lemma {:induction false} QuietWhenUnchanged(params: seq<Param>, cache: seq<real>, rs: seq<Option<real>>, k: nat)
    requires k <= |params| == |cache| == |rs|
    requires forall i :: 0 <= i < k ==> !Changed(cache, rs, i)
    ensures SyncEffects(params, cache, rs, k) == []
  {
    if k > 0 {
      QuietWhenUnchanged(params, cache, rs, k - 1);
    }
  }

  /**
   * De-bounce: a second block that reads the same port values leaves the
   * synced cache as it is and calls no setter, and so does every block
   * after it.
   */
  lemma SyncSettles(params: seq<Param>, cache: seq<real>, rs: seq<Option<real>>)
    requires |params| == |cache| == |rs|
    ensures var c := Synced(cache, rs);
      Synced(c, rs) == c && SyncEffects(params, c, rs, |params|) == []
  {
    var c := Synced(cache, rs);
    forall i | 0 <= i < |c| ensures !Changed(c, rs, i) {
    }
    QuietWhenUnchanged(params, c, rs, |params|);
    var c2 := Synced(c, rs);
    forall i | 0 <= i < |c| ensures c2[i] == c[i] {
    }
  }

  /**
   * Routing agrees with the sync: connecting pointer `d` to flat port `q`
   * changes what a regular parameter `i` reads exactly when `q` is the
   * index of its control slot, and then it reads `*d`.
   */
  lemma ControlPortRouting(params: seq<Param>, b: PortBindings, mem: Memory, f: Flags, i: nat, q: nat, d: Ptr)
    requires i < |params| && !params[i].isBypass
    requires |b.controls| == |params| && ControlPortsHeld(mem, b) && Holds(mem, d, 1)
    requires Fits(b, PortRole(q, |b.audioIns|, |b.audioOuts|, |params|, f))
    ensures var b' := Bind(b, PortRole(q, |b.audioIns|, |b.audioOuts|, |params|, f), d);
      && |b'.controls| == |params| && ControlPortsHeld(mem, b')
      && Reading(params, b', mem, i)
         == if q == ControlBase(|b.audioIns|, |b.audioOuts|, f) + ControlSlot(params, i)
            then (if d.Null? then None else Some(Load(mem, d)))
            else Reading(params, b, mem, i)
  {
    var r := PortRole(q, |b.audioIns|, |b.audioOuts|, |params|, f);
    var b' := Bind(b, r, d);
    var s := ControlSlot(params, i);
    var idx := ControlBase(|b.audioIns|, |b.audioOuts|, f) + s;
    if q == idx {
      PortIndexRoundTrip(Control(s), |b.audioIns|, |b.audioOuts|, |params|, f);
      assert r == Control(s);
    } else if r.Control? {
      assert r.slot != s;
    }
  }

  /**
   * Connecting pointer `d` to the "enabled" port drives the bypass
   * parameter, inverted; no other port does.
   */
  lemma EnabledPortRouting(params: seq<Param>, b: PortBindings, mem: Memory, f: Flags, i: nat, q: nat, d: Ptr)
    requires i < |params| && params[i].isBypass
    requires |b.controls| == |params| && ControlPortsHeld(mem, b) && Holds(mem, d, 1)
    requires Fits(b, PortRole(q, |b.audioIns|, |b.audioOuts|, |params|, f))
    ensures var b' := Bind(b, PortRole(q, |b.audioIns|, |b.audioOuts|, |params|, f), d);
      && |b'.controls| == |params| && ControlPortsHeld(mem, b')
      && Reading(params, b', mem, i)
         == if q == |b.audioIns| + |b.audioOuts|
            then (if d.Null? then None else Some(1.0 - Load(mem, d)))
            else Reading(params, b, mem, i)
  {
  }
}
