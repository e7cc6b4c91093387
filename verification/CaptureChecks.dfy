/** Which captures leave a snapshot that a rollback restores but cannot check. */
module CaptureChecks {
  import opened Prelude
  import opened Tensors
  import opened RouteRegistry
  import opened HotSwapModel
  import opened RouteWeights

  // The layer passes the checks of a capture.
  predicate Capturable<T>(ops: ModelOps<T>, w: Weights<T>, layer: Layer) {
    var k := ops.resolve(layer.name, w.Keys);
    k.Some? && k.value in w && layer.shape == Some(ops.shape(w[k.value])) && layer.dtype == Some(ops.dtype(w[k.value]))
  }

  // One of the first i layers names tensor k.
  ghost predicate Earlier<T>(ops: ModelOps<T>, w: Weights<T>, layers: seq<Layer>, i: nat, k: string) {
    exists j :: 0 <= j < i <= |layers| && ops.resolve(layers[j].name, w.Keys) == Some(k)
  }

  // The checksum that raises is that of a layer the capture gets to, and the first one of
  // its tensor.
  ghost predicate Strands<T>(ops: ModelOps<T>, w: Weights<T>, layers: seq<Layer>, fault: CaptureFault) {
    && fault.ChecksumRaises? && fault.at < |layers|
    && (forall j :: 0 <= j <= fault.at ==> Capturable(ops, w, layers[j]))
    && !Earlier(ops, w, layers, fault.at, ops.resolve(layers[fault.at].name, w.Keys).value)
  }

  // The dictionaries agree with each other and with the resolution of names.
  ghost predicate Complete<T>(ops: ModelOps<T>, w: Weights<T>, st: Store<T>) {
    && st.snapshots.Keys == st.checksums.Keys == st.names.Keys
    && forall n :: n in st.names ==> ops.resolve(n, w.Keys) == Some(st.names[n])
  }

  // The dictionaries after a capture of the first i layers.
  ghost predicate Tracks<T>(ops: ModelOps<T>, w: Weights<T>, layers: seq<Layer>, i: nat, st: Store<T>) {
    && i <= |layers| && Complete(ops, w, st)
    && (forall j :: 0 <= j < i ==> Capturable(ops, w, layers[j]))
    && (forall k :: Checked(st, k) <==> Earlier(ops, w, layers, i, k))
  }

  // A checksum is stored for a name of tensor k.
  lemma CheckedUpdate<T>(st: Store<T>, st': Store<T>, name: string, k: string, sum: string, t: string)
    requires st.checksums.Keys == st.names.Keys && (name in st.names ==> st.names[name] == k)
    requires st'.checksums == st.checksums[name := sum] && st'.names == st.names[name := k]
    ensures Checked(st', t) <==> Checked(st, t) || t == k
  {
    if Checked(st, t) {
      var n :| n in st.checksums && Target(st.names, n) == t;
      assert n in st'.checksums && Target(st'.names, n) == t;
    }
    if t == k {
      assert name in st'.checksums && Target(st'.names, name) == k;
    }
  }

  // A name of tensor k is stored without a checksum.
  lemma CheckedKept<T>(st: Store<T>, st': Store<T>, name: string, k: string, t: string)
    requires st.checksums.Keys == st.names.Keys && (name in st.names ==> st.names[name] == k)
    requires st'.checksums == st.checksums && st'.names == st.names[name := k]
    ensures Checked(st', t) <==> Checked(st, t)
  {
    if Checked(st, t) {
      var n :| n in st.checksums && Target(st.names, n) == t;
      assert n in st'.checksums && Target(st'.names, n) == t;
    }
  }

  lemma EarlierStep<T>(ops: ModelOps<T>, w: Weights<T>, layers: seq<Layer>, i: nat, k: string)
    requires i < |layers|
    ensures Earlier(ops, w, layers, i + 1, k)
        <==> Earlier(ops, w, layers, i, k) || ops.resolve(layers[i].name, w.Keys) == Some(k)
  {
  }

  // A layer that is captured.
  lemma CaptureTracks<T>(ops: ModelOps<T>, w: Weights<T>, layers: seq<Layer>, i: nat, fault: CaptureFault, st: Store<T>)
    requires Tracks(ops, w, layers, i, st) && i < |layers| && Capturable(ops, w, layers[i])
    requires fault != ChecksumRaises(i) && fault != CloneRaises(i)
    ensures var (st', ok) := CaptureLayer(ops, w, layers[i], i, fault, st); ok && Tracks(ops, w, layers, i + 1, st')
  {
    var st', name := CaptureLayer(ops, w, layers[i], i, fault, st).0, layers[i].name;
    var k := ops.resolve(name, w.Keys).value;
    forall t ensures Checked(st', t) <==> Earlier(ops, w, layers, i + 1, t) {
      CheckedUpdate(st, st', name, k, ops.checksum(w[k]), t);
      EarlierStep(ops, w, layers, i, t);
    }
  }

  // A layer at which the capture stops before its snapshot is stored.
  lemma CaptureStops<T>(ops: ModelOps<T>, w: Weights<T>, layers: seq<Layer>, i: nat, fault: CaptureFault, st: Store<T>)
    requires Tracks(ops, w, layers, i, st) && i < |layers|
    requires !Capturable(ops, w, layers[i]) || fault == CloneRaises(i)
    ensures var (st', ok) := CaptureLayer(ops, w, layers[i], i, fault, st); !ok && TargetsChecked(st')
  {
    var st' := CaptureLayer(ops, w, layers[i], i, fault, st).0;
    assert Covered(st');
    CoveredTargets(st');
  }

  // A layer whose checksum raises: its tensor is unchecked unless an earlier layer names it.
  lemma CaptureStrands<T>(ops: ModelOps<T>, w: Weights<T>, layers: seq<Layer>, i: nat, st: Store<T>)
    requires Tracks(ops, w, layers, i, st) && i < |layers| && Capturable(ops, w, layers[i])
    ensures var (st', ok) := CaptureLayer(ops, w, layers[i], i, ChecksumRaises(i), st);
      !ok && (TargetsChecked(st') <==> Earlier(ops, w, layers, i, ops.resolve(layers[i].name, w.Keys).value))
  {
    var st', name := CaptureLayer(ops, w, layers[i], i, ChecksumRaises(i), st).0, layers[i].name;
    var k := ops.resolve(name, w.Keys).value;
    CheckedKept(st, st', name, k, k);
    assert IsTarget(st', k) by { assert name in st'.snapshots && Target(st'.names, name) == k; }
    forall t | IsTarget(st', t) && t != k ensures Checked(st', t) {
      var n :| n in st'.snapshots && Target(st'.names, n) == t;
      assert n in st'.checksums;
    }
  }

  lemma {:induction false} CaptureChecksIff<T>(
      ops: ModelOps<T>, w: Weights<T>, layers: seq<Layer>, i: nat, fault: CaptureFault, st: Store<T>)
    requires Tracks(ops, w, layers, i, st) && (fault.ChecksumRaises? ==> i <= fault.at)
    ensures TargetsChecked(CaptureLayers(ops, w, layers, i, fault, st).0) <==> !Strands(ops, w, layers, fault)
    decreases |layers| - i
  {
    if i == |layers| {
      CoveredTargets(st);
    } else if !Capturable(ops, w, layers[i]) || fault == CloneRaises(i) {
      CaptureStops(ops, w, layers, i, fault, st);
    } else if fault == ChecksumRaises(i) {
      CaptureStrands(ops, w, layers, i, st);
    } else {
      CaptureTracks(ops, w, layers, i, fault, st);
      CaptureChecksIff(ops, w, layers, i + 1, fault, CaptureLayer(ops, w, layers[i], i, fault, st).0);
    }
  }

  // Every tensor that a capture leaves restorable has a checksum, exactly when it had one
  // before, for reused snapshots, or, for fresh ones, when the capture strands no tensor.
  lemma SnapshotsCheckedIff<T>(ops: ModelOps<T>, w: Weights<T>, st: Store<T>, layers: seq<Layer>, fault: CaptureFault)
    ensures TargetsChecked(CaptureSnapshot(ops, w, st, layers, fault).0) <==>
      if Golden(st, layers) then TargetsChecked(st) else !Strands(ops, w, layers, fault)
  {
    CaptureChecksIff(ops, w, layers, 0, fault, EmptyStore());
  }

  lemma {:induction false} LayersCovered<T>(
      ops: ModelOps<T>, w: Weights<T>, layers: seq<Layer>, i: nat, fault: CaptureFault, st: Store<T>)
    requires i <= |layers| && Covered(st) && !fault.ChecksumRaises?
    ensures Covered(CaptureLayers(ops, w, layers, i, fault, st).0)
    decreases |layers| - i
  {
    if i < |layers| {
      var (st', ok) := CaptureLayer(ops, w, layers[i], i, fault, st);
      if ok {
        LayersCovered(ops, w, layers, i + 1, fault, st');
      }
    }
  }

  // While no checksum raises, every snapshot keeps its checksum.
  lemma SnapshotsCovered<T>(ops: ModelOps<T>, w: Weights<T>, st: Store<T>, layers: seq<Layer>, fault: CaptureFault)
    requires Covered(st) && !fault.ChecksumRaises?
    ensures Covered(CaptureSnapshot(ops, w, st, layers, fault).0)
  {
    LayersCovered(ops, w, layers, 0, fault, EmptyStore());
  }

  // The tensor that the name resolves to, its value and its checksum are stored.
  ghost predicate Entry<T>(ops: ModelOps<T>, w: Weights<T>, st: Store<T>, n: string) {
    && n in st.names && ops.resolve(n, w.Keys) == Some(st.names[n]) && st.names[n] in w
    && n in st.snapshots && st.snapshots[n] == w[st.names[n]]
    && n in st.checksums && st.checksums[n] == ops.checksum(w[st.names[n]])
  }

  ghost predicate Named(layers: seq<Layer>, i: nat, n: string) {
    exists j :: 0 <= j < i <= |layers| && layers[j].name == n
  }

  // The dictionaries hold an entry for each of the first i layers and no other.
  ghost predicate Holds<T>(ops: ModelOps<T>, w: Weights<T>, layers: seq<Layer>, i: nat, st: Store<T>) {
    && st.snapshots.Keys == st.checksums.Keys == st.names.Keys
    && forall n :: (n in st.names <==> Named(layers, i, n)) && (n in st.names ==> Entry(ops, w, st, n))
  }

  lemma NamedNext(layers: seq<Layer>, i: nat, n: string)
    requires i < |layers|
    ensures Named(layers, i + 1, n) <==> Named(layers, i, n) || layers[i].name == n
  {
  }

  lemma HoldsStep<T>(ops: ModelOps<T>, w: Weights<T>, layers: seq<Layer>, i: nat, fault: CaptureFault, st: Store<T>)
    requires i < |layers| && Holds(ops, w, layers, i, st) && CaptureLayer(ops, w, layers[i], i, fault, st).1
    ensures Holds(ops, w, layers, i + 1, CaptureLayer(ops, w, layers[i], i, fault, st).0)
  {
    var st' := CaptureLayer(ops, w, layers[i], i, fault, st).0;
    forall n ensures (n in st'.names <==> Named(layers, i + 1, n)) && (n in st'.names ==> Entry(ops, w, st', n)) {
      NamedNext(layers, i, n);
      if n != layers[i].name && n in st.names {
        assert Entry(ops, w, st, n);
      }
    }
  }

  lemma {:induction false} FreshHolds<T>(
      ops: ModelOps<T>, w: Weights<T>, layers: seq<Layer>, i: nat, fault: CaptureFault, st: Store<T>)
    requires i <= |layers| && Holds(ops, w, layers, i, st) && CaptureLayers(ops, w, layers, i, fault, st).1
    ensures Holds(ops, w, layers, |layers|, CaptureLayers(ops, w, layers, i, fault, st).0)
    decreases |layers| - i
  {
    if i < |layers| {
      HoldsStep(ops, w, layers, i, fault, st);
      FreshHolds(ops, w, layers, i + 1, fault, CaptureLayer(ops, w, layers[i], i, fault, st).0);
    }
  }

  // Snapshots are reused as they are when there are some, for every layer; otherwise a
  // capture that gets through forgets the old ones and holds those of its own layers.
  lemma CaptureExact<T>(ops: ModelOps<T>, w: Weights<T>, st: Store<T>, layers: seq<Layer>, fault: CaptureFault)
    ensures var (st', ok) := CaptureSnapshot(ops, w, st, layers, fault);
      var named := set i | 0 <= i < |layers| :: layers[i].name;
      if st.snapshots.Keys != {} && named <= st.snapshots.Keys then ok && st' == st
      else ok ==> Holds(ops, w, layers, |layers|, st')
  {
    var named := set i | 0 <= i < |layers| :: layers[i].name;
    assert named <= st.snapshots.Keys <==> forall i :: 0 <= i < |layers| ==> layers[i].name in st.snapshots by {
      if named <= st.snapshots.Keys {
        forall i | 0 <= i < |layers| ensures layers[i].name in st.snapshots {
          assert layers[i].name in named;
        }
      }
    }
    if !Golden(st, layers) && CaptureSnapshot(ops, w, st, layers, fault).1 {
      FreshHolds(ops, w, layers, 0, fault, EmptyStore());
    }
  }

  // Without faults, reused snapshots accept a route exactly as fresh ones would when every
  // layer of it would pass the checks of a fresh capture.
  lemma {:induction false} FreshAccepts<T>(
      ops: ModelOps<T>, w: Weights<T>, layers: seq<Layer>, i: nat, st: Store<T>)
    requires i <= |layers|
    ensures CaptureLayers(ops, w, layers, i, NoCaptureFault, st).1
      <==> forall j :: i <= j < |layers| ==> Capturable(ops, w, layers[j])
    decreases |layers| - i
  {
    if i < |layers| {
      var (st', ok) := CaptureLayer(ops, w, layers[i], i, NoCaptureFault, st);
      if ok {
        FreshAccepts(ops, w, layers, i + 1, st');
      }
    }
  }

  lemma ReuseAgreesIff<T>(ops: ModelOps<T>, w: Weights<T>, st: Store<T>, layers: seq<Layer>)
    ensures CaptureSnapshot(ops, w, st, layers, NoCaptureFault).1
        == CaptureSnapshot(ops, w, EmptyStore(), layers, NoCaptureFault).1
      <==> !Golden(st, layers) || forall j :: 0 <= j < |layers| ==> Capturable(ops, w, layers[j])
  {
    FreshAccepts(ops, w, layers, 0, EmptyStore());
  }
}
