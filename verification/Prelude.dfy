/** Failure-carrying results shared by every component. */
module Prelude {
  datatype Option<+T> = None | Some(value: T)

  datatype Result<+T, +E> = Ok(value: T) | Err(error: E)

  type RouteId = string

  // The route id that stands for the unmodified base model.
  const BASE: RouteId := "__base__"
}
