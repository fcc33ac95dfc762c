/**
 * Movement directions used by the input handlers and direction requests.
 * MoveDir.h is not part of this model; the constructors are the values the
 * modelled code refers to.
 */
module MoveDirs {
  datatype MoveDir = None | Fwd | Bwd | Left | Right
}
