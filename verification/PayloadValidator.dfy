/** Pre-swap validation of a route's payload file. */
module PayloadValidator {
  import opened Prelude
  import opened Tensors
  import opened FailurePolicy
  import opened RouteRegistry

  datatype Parsed<T> = Parsed(tensors: map<string, T>) | HeaderError | LoadError

  // The payload file as the file system presents it; None where the call raises OSError.
  datatype PayloadFile<T> = PayloadFile(present: bool, size: Option<nat>, sha256: Option<string>, parsed: Parsed<T>)

  // resolve_payload_path: no payload block or no uri means there is nothing to validate.
  predicate HasUri(m: Manifest) {
    m.payload.Some? && m.payload.value.uri != ""
  }

  // The file-level checks, in the order they are made.
  function OpenPayload<T>(m: Manifest, f: PayloadFile<T>, maxBytes: nat): Result<map<string, T>, FailureClass>
    requires HasUri(m)
  {
    var expected := m.payload.value.sha256;
    if !f.present then Err(PayloadFileNotFound)
    else if f.size.None? then Err(PayloadIoError)
    else if f.size.value > maxBytes then Err(PayloadTooLarge)
    else if expected.Some? && expected.value != "" && f.sha256.None? then Err(PayloadIoError)
    else if expected.Some? && expected.value != "" && f.sha256.value != expected.value then Err(PayloadSha256Mismatch)
    else match f.parsed
         case HeaderError => Err(PayloadHeaderCorrupted)
         case LoadError => Err(PayloadIoError)
         case Parsed(tensors) => Ok(tensors)
  }

  function PayloadKey(layer: Layer): string {
    if layer.payloadKey.Some? then layer.payloadKey.value else layer.name
  }

  // The first check a layer's tensor fails, if any.
  function LayerFailure<T>(ops: ModelOps<T>, tensors: map<string, T>, layer: Layer): Option<FailureClass> {
    if PayloadKey(layer) !in tensors then Some(PayloadTensorKeyMissing)
    else
      var delta := tensors[PayloadKey(layer)];
      if layer.shape.Some? && layer.shape.value != [] && ops.shape(delta) != layer.shape.value
      then Some(PayloadShapeMismatch)
      else if layer.dtype.Some? && layer.dtype.value != "" && ops.dtype(delta) != layer.dtype.value
      then Some(PayloadDtypeMismatch)
      else if !ops.finite(delta) then Some(PayloadNanInfDetected)
      else None
  }

  function CollectDeltas<T>(
      ops: ModelOps<T>, tensors: map<string, T>, layers: seq<Layer>, i: nat, deltas: map<string, T>)
    : Result<map<string, T>, FailureClass>
    requires i <= |layers|
    decreases |layers| - i
  {
    if i == |layers| then Ok(deltas)
    else
      var failure := LayerFailure(ops, tensors, layers[i]);
      if failure.Some? then Err(failure.value)
      else CollectDeltas(ops, tensors, layers, i + 1, deltas[layers[i].name := tensors[PayloadKey(layers[i])]])
  }

  function ValidatePayload<T>(
      ops: ModelOps<T>, m: Manifest, f: PayloadFile<T>, maxBytes: nat): Result<map<string, T>, FailureClass> {
    if !HasUri(m) then Ok(map[])
    else
      var file := OpenPayload(m, f, maxBytes);
      if file.Err? then Err(file.error)
      else CollectDeltas(ops, file.value, m.layers, 0, map[])
  }

  // The loop of validate_payload.
  method Validate<T>(
      ops: ModelOps<T>, m: Manifest, f: PayloadFile<T>, maxBytes: nat) returns (r: Result<map<string, T>, FailureClass>)
    ensures r == ValidatePayload(ops, m, f, maxBytes)
    ensures r.Ok? <==> m.payload.None? || m.payload.value.uri == "" || Fits(ops, m, f, maxBytes)
  {
    if m.payload.Some? && m.payload.value.uri != "" {
      ValidatesIff(ops, m, f, maxBytes);
    }
    if m.payload.None? || m.payload.value.uri == "" {
      return Ok(map[]);
    }
    var file := OpenPayload(m, f, maxBytes);
    if file.Err? {
      return Err(file.error);
    }
    r := ValidateLayers(ops, file.value, m.layers);
  }

  // The loop over the layers.
  method ValidateLayers<T>(
      ops: ModelOps<T>, tensors: map<string, T>, layers: seq<Layer>) returns (r: Result<map<string, T>, FailureClass>)
    ensures r == CollectDeltas(ops, tensors, layers, 0, map[])
  {
    var deltas: map<string, T> := map[];
    for i := 0 to |layers|
      invariant CollectDeltas(ops, tensors, layers, 0, map[]) == CollectDeltas(ops, tensors, layers, i, deltas)
    {
      var layer := layers[i];
      var key := if layer.payloadKey.Some? then layer.payloadKey.value else layer.name;
      if key !in tensors {
        return Err(PayloadTensorKeyMissing);
      }
      var delta := tensors[key];
      if layer.shape.Some? && layer.shape.value != [] && ops.shape(delta) != layer.shape.value {
        return Err(PayloadShapeMismatch);
      }
      if layer.dtype.Some? && layer.dtype.value != "" && ops.dtype(delta) != layer.dtype.value {
        return Err(PayloadDtypeMismatch);
      }
      if !ops.finite(delta) {
        return Err(PayloadNanInfDetected);
      }
      deltas := deltas[layer.name := delta];
    }
    return Ok(deltas);
  }

  // Layer `j` is the last one of its name.
  ghost predicate LastNamed(layers: seq<Layer>, j: nat) {
    j < |layers| && forall k :: j < k < |layers| ==> layers[k].name != layers[j].name
  }

  ghost predicate AllPass<T>(ops: ModelOps<T>, tensors: map<string, T>, layers: seq<Layer>, from: nat, to: nat) {
    forall j :: from <= j < to <= |layers| ==> LayerFailure(ops, tensors, layers[j]).None?
  }

  // The loop from layer `i` raises the first failure from there on.
  lemma {:induction false} FirstFailureWins<T>(
      ops: ModelOps<T>, tensors: map<string, T>, layers: seq<Layer>, i: nat, deltas: map<string, T>) returns (j: nat)
    requires i <= |layers|
    requires CollectDeltas(ops, tensors, layers, i, deltas).Err?
    ensures i <= j < |layers| && AllPass(ops, tensors, layers, i, j)
    ensures LayerFailure(ops, tensors, layers[j]) == Some(CollectDeltas(ops, tensors, layers, i, deltas).error)
    decreases |layers| - i
  {
    if LayerFailure(ops, tensors, layers[i]).Some? {
      j := i;
    } else {
      j := FirstFailureWins(ops, tensors, layers, i + 1, deltas[layers[i].name := tensors[PayloadKey(layers[i])]]);
    }
  }

  ghost predicate NamedFrom(layers: seq<Layer>, from: nat, name: string) {
    exists j :: from <= j < |layers| && layers[j].name == name
  }

  lemma NamedFromStep(layers: seq<Layer>, i: nat, name: string)
    requires i < |layers|
    ensures NamedFrom(layers, i, name) <==> layers[i].name == name || NamedFrom(layers, i + 1, name)
  {
  }

  // The loop from layer `i`, when every layer passes: a name has a delta exactly when it
  // had one or some layer bears it, and it ends with the tensor of its last layer.
  lemma {:induction false} LastLayerWins<T>(
      ops: ModelOps<T>, tensors: map<string, T>, layers: seq<Layer>, i: nat, deltas: map<string, T>, name: string)
    requires i <= |layers| && AllPass(ops, tensors, layers, i, |layers|)
    ensures var r := CollectDeltas(ops, tensors, layers, i, deltas);
      && r.Ok?
      && (name in r.value <==> name in deltas || NamedFrom(layers, i, name))
      && (name in deltas && !NamedFrom(layers, i, name) ==> r.value[name] == deltas[name])
      && (forall j: nat :: i <= j && LastNamed(layers, j) && layers[j].name == name ==>
            r.value[name] == tensors[PayloadKey(layers[j])])
    decreases |layers| - i
  {
    if i < |layers| {
      NamedFromStep(layers, i, name);
      LastLayerWins(ops, tensors, layers, i + 1, deltas[layers[i].name := tensors[PayloadKey(layers[i])]], name);
    }
  }

  // `name` has a delta exactly when some layer bears it: the tensor of its last layer.
  ghost predicate FromLastLayer<T>(tensors: map<string, T>, layers: seq<Layer>, deltas: map<string, T>, name: string) {
    && (name in deltas <==> NamedFrom(layers, 0, name))
    && (name in deltas ==>
          forall j: nat :: LastNamed(layers, j) && layers[j].name == name && PayloadKey(layers[j]) in tensors ==>
            deltas[name] == tensors[PayloadKey(layers[j])])
  }

  // Fail-close: validation of a route with a payload succeeds exactly when the file
  // opens and every layer passes, it raises payload failures only, and on success
  // there is a delta for every layer and for nothing else.
  lemma ValidationIsFailClose<T>(ops: ModelOps<T>, m: Manifest, f: PayloadFile<T>, maxBytes: nat)
    requires HasUri(m)
    ensures var r := ValidatePayload(ops, m, f, maxBytes); var file := OpenPayload(m, f, maxBytes);
      && (r.Ok? <==> file.Ok? && AllPass(ops, file.value, m.layers, 0, |m.layers|))
      && (r.Err? ==> PayloadClass(r.error))
      && (r.Ok? ==> forall name :: FromLastLayer(file.value, m.layers, r.value, name))
  {
    var file := OpenPayload(m, f, maxBytes);
    if file.Ok? {
      if AllPass(ops, file.value, m.layers, 0, |m.layers|) {
        var r := CollectDeltas(ops, file.value, m.layers, 0, map[]);
        LastLayerWins(ops, file.value, m.layers, 0, map[], "");
        forall name ensures FromLastLayer(file.value, m.layers, r.value, name) {
          LastLayerWins(ops, file.value, m.layers, 0, map[], name);
        }
      } else if CollectDeltas(ops, file.value, m.layers, 0, map[]).Err? {
        var j := FirstFailureWins(ops, file.value, m.layers, 0, map[]);
      } else {
        SuccessMeansAllPass(ops, file.value, m.layers, 0, map[]);
      }
    }
  }

  lemma {:induction false} SuccessMeansAllPass<T>(
      ops: ModelOps<T>, tensors: map<string, T>, layers: seq<Layer>, i: nat, deltas: map<string, T>)
    requires i <= |layers|
    requires CollectDeltas(ops, tensors, layers, i, deltas).Ok?
    ensures AllPass(ops, tensors, layers, i, |layers|)
    decreases |layers| - i
  {
    if i < |layers| {
      SuccessMeansAllPass(ops, tensors, layers, i + 1, deltas[layers[i].name := tensors[PayloadKey(layers[i])]]);
    }
  }

  // ----- What validation means, on the fields of the file and of the layers -----

  ghost predicate SizeFits<T>(f: PayloadFile<T>, maxBytes: nat) {
    f.size.Some? && f.size.value <= maxBytes
  }

  // A declared hash is that of the file.
  ghost predicate HashFits<T>(declared: Option<string>, f: PayloadFile<T>) {
    declared.Some? && declared.value != "" ==> f.sha256.Some? && f.sha256.value == declared.value
  }

  function KeyOf(layer: Layer): string {
    match layer.payloadKey
    case Some(key) => key
    case None => layer.name
  }

  // A shape or a dtype that is declared is the tensor's.
  ghost predicate ShapeFits(layer: Layer, shape: seq<nat>) {
    layer.shape.Some? && layer.shape.value != [] ==> layer.shape.value == shape
  }

  ghost predicate DtypeFits(layer: Layer, dtype: string) {
    layer.dtype.Some? && layer.dtype.value != "" ==> layer.dtype.value == dtype
  }

  ghost predicate LayerFits<T>(ops: ModelOps<T>, tensors: map<string, T>, layer: Layer) {
    var key := KeyOf(layer);
    && key in tensors
    && ShapeFits(layer, ops.shape(tensors[key])) && DtypeFits(layer, ops.dtype(tensors[key]))
    && ops.finite(tensors[key])
  }

  // The file is there, no larger than allowed, hashes to a declared hash and parses, and
  // every layer's tensor in it fits.
  ghost predicate Fits<T>(ops: ModelOps<T>, m: Manifest, f: PayloadFile<T>, maxBytes: nat)
    requires m.payload.Some?
  {
    && f.present && SizeFits(f, maxBytes) && HashFits(m.payload.value.sha256, f) && f.parsed.Parsed?
    && forall j :: 0 <= j < |m.layers| ==> LayerFits(ops, f.parsed.tensors, m.layers[j])
  }

  lemma LayerFitsIff<T>(ops: ModelOps<T>, tensors: map<string, T>, layer: Layer)
    ensures PayloadKey(layer) == KeyOf(layer)
    ensures LayerFits(ops, tensors, layer) <==> LayerFailure(ops, tensors, layer).None?
  {
  }

  // A route whose payload block names a file validates exactly when the file and every layer
  // fit. Every layer's name then has the tensor of the last layer of that name; and nothing
  // else has one.
  lemma ValidatesIff<T>(ops: ModelOps<T>, m: Manifest, f: PayloadFile<T>, maxBytes: nat)
    requires m.payload.Some? && m.payload.value.uri != ""
    ensures var r := ValidatePayload(ops, m, f, maxBytes);
      && (r.Ok? <==> Fits(ops, m, f, maxBytes))
      && (r.Ok? ==>
            && (forall name :: name in r.value ==> NamedFrom(m.layers, 0, name))
            && (forall j: nat :: LastNamed(m.layers, j) ==>
                  var layer := m.layers[j];
                  layer.name in r.value && KeyOf(layer) in f.parsed.tensors
                  && r.value[layer.name] == f.parsed.tensors[KeyOf(layer)]))
  {
    ValidationIsFailClose(ops, m, f, maxBytes);
    var file := OpenPayload(m, f, maxBytes);
    if file.Ok? {
      forall j | 0 <= j < |m.layers|
        ensures LayerFits(ops, file.value, m.layers[j]) <==> LayerFailure(ops, file.value, m.layers[j]).None?
      {
        LayerFitsIff(ops, file.value, m.layers[j]);
      }
      var r := ValidatePayload(ops, m, f, maxBytes);
      if r.Ok? {
        forall name | name in r.value ensures NamedFrom(m.layers, 0, name) {
          assert FromLastLayer(file.value, m.layers, r.value, name);
        }
        forall j: nat | LastNamed(m.layers, j)
          ensures m.layers[j].name in r.value && KeyOf(m.layers[j]) in file.value
          ensures r.value[m.layers[j].name] == file.value[KeyOf(m.layers[j])]
        {
          LayerFitsIff(ops, file.value, m.layers[j]);
          assert FromLastLayer(file.value, m.layers, r.value, m.layers[j].name);
        }
      }
    }
  }

  // Without a payload block, or without a uri in it, there is nothing to validate.
  lemma NothingToValidate<T>(ops: ModelOps<T>, m: Manifest, f: PayloadFile<T>, maxBytes: nat)
    requires m.payload.None? || m.payload.value.uri == ""
    ensures ValidatePayload(ops, m, f, maxBytes) == Ok(map[])
  {
  }

  // The class raised is that of the first thing wrong with the file.
  lemma FileErrorClass<T>(ops: ModelOps<T>, m: Manifest, f: PayloadFile<T>, maxBytes: nat)
    requires m.payload.Some? && m.payload.value.uri != ""
    requires !(f.present && SizeFits(f, maxBytes) && HashFits(m.payload.value.sha256, f) && f.parsed.Parsed?)
    ensures ValidatePayload(ops, m, f, maxBytes) == Err(
      if !f.present then PayloadFileNotFound
      else if !SizeFits(f, maxBytes) then (if f.size.Some? then PayloadTooLarge else PayloadIoError)
      else if !HashFits(m.payload.value.sha256, f) then
        (if f.sha256.Some? then PayloadSha256Mismatch else PayloadIoError)
      else if f.parsed.HeaderError? then PayloadHeaderCorrupted else PayloadIoError)
  {
  }

  // With nothing wrong with the file, it is that of the first layer that does not fit, and of
  // the first thing wrong with it.
  lemma LayerErrorClass<T>(ops: ModelOps<T>, m: Manifest, f: PayloadFile<T>, maxBytes: nat, j: nat)
    requires m.payload.Some? && m.payload.value.uri != ""
    requires f.present && SizeFits(f, maxBytes) && HashFits(m.payload.value.sha256, f) && f.parsed.Parsed?
    requires j < |m.layers| && !LayerFits(ops, f.parsed.tensors, m.layers[j])
    requires forall i :: 0 <= i < j ==> LayerFits(ops, f.parsed.tensors, m.layers[i])
    ensures var tensors, layer := f.parsed.tensors, m.layers[j];
      ValidatePayload(ops, m, f, maxBytes) == Err(
        if KeyOf(layer) !in tensors then PayloadTensorKeyMissing
        else if !ShapeFits(layer, ops.shape(tensors[KeyOf(layer)])) then PayloadShapeMismatch
        else if !DtypeFits(layer, ops.dtype(tensors[KeyOf(layer)])) then PayloadDtypeMismatch
        else PayloadNanInfDetected)
  {
    var tensors := f.parsed.tensors;
    ValidatesIff(ops, m, f, maxBytes);
    var first := FirstFailureWins(ops, tensors, m.layers, 0, map[]);
    LayerFitsIff(ops, tensors, m.layers[first]);
    LayerFitsIff(ops, tensors, m.layers[j]);
  }
}
