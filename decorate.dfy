/** The `logdecorate(prefix)` decorator that every handler of the charm carries. */
module Decorate {

  /**
   * The wrapper that `logdecorate(prefix)(f)` returns. It logs the call and its result at debug
   * level (the log is not modelled) and hands back what `f` returned, unchanged.
   */
  function LogDecorate<A(!new), R>(prefix: string, f: A -> R): (wrapper: A -> R)
    ensures forall a :: wrapper(a) == f(a)
  {
    a => f(a)
  }
}
