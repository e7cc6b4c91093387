/** What the runtime needs of tensors and of the model that holds them. Tensors are
    of an arbitrary type T and the operations are unknown functions, so nothing
    below relies on any algebra of floating-point numbers, nor on which of several
    spellings a layer name resolves to. */
module Tensors {
  import opened Prelude

  datatype ModelOps<!T> = ModelOps(
    resolve: (string, set<string>) -> Option<string>,  // layer name and state-dict keys to key
    add: (T, T) -> T,        // live.add_(delta cast to the live dtype)
    addDummy: T -> T,        // live.add_(0.01), the simulation fallback
    shape: T -> seq<nat>,
    dtype: T -> string,
    finite: T -> bool,       // no NaN and no Inf
    checksum: T -> string)   // hex digest of the raw bytes

  // The weights of a model, by state-dict key.
  type Weights<T> = map<string, T>

  // The checksum tells tensors apart.
  ghost predicate Collisionless<T(!new)>(ops: ModelOps<T>) {
    forall a, b :: ops.checksum(a) == ops.checksum(b) ==> a == b
  }
}
