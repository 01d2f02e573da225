/**
 * WordPress filter points, made explicit. A registry maps a hook name to the
 * callbacks registered for it, already in the order WordPress runs them
 * (by priority, then by registration). `apply_filters` threads the default
 * value through every callback in that order.
 */
module Filters {
  import opened PhpArrays

  /** A filter callback on the arrays this panel filters. */
  type Filter = PhpArray -> PhpArray

  type Registry = map<string, seq<Filter>>

  /** The callbacks registered for `hook`; a hook nobody uses has none. */
  function Callbacks(reg: Registry, hook: string): seq<Filter> {
    if hook in reg then reg[hook] else []
  }

  /** Left fold: `fs[0]` sees the default, each later callback sees its predecessor's result. */
  function Fold(fs: seq<Filter>, init: PhpArray): PhpArray
    decreases |fs|
  {
    if fs == [] then init else Fold(fs[1..], fs[0](init))
  }

  /** `apply_filters($hook, $default)`. */
  function ApplyFilters(reg: Registry, hook: string, default: PhpArray): (r: PhpArray)
    ensures Callbacks(reg, hook) == [] ==> r == default
  {
    Fold(Callbacks(reg, hook), default)
  }

  /** `add_filter($hook, $f)` at the lowest priority so far: `f` runs after every earlier callback. */
  function AddFilter(reg: Registry, hook: string, f: Filter): (r: Registry)
    ensures Callbacks(r, hook) == Callbacks(reg, hook) + [f]
    ensures forall h :: h != hook ==> Callbacks(r, h) == Callbacks(reg, h)
  {
    reg[hook := Callbacks(reg, hook) + [f]]
  }

  /** Running two batches of callbacks is running the second on the first's result. */
  lemma {:induction false} FoldAppend(fs: seq<Filter>, gs: seq<Filter>, init: PhpArray)
    ensures Fold(fs + gs, init) == Fold(gs, Fold(fs, init))
    decreases |fs|
  {
    if fs == [] {
      assert fs + gs == gs;
    } else {
      assert (fs + gs)[1..] == fs[1..] + gs;
      FoldAppend(fs[1..], gs, fs[0](init));
    }
  }

  /** A callback registered last sees the value every earlier callback produced. */
  lemma FilterRunsLast(reg: Registry, hook: string, f: Filter, default: PhpArray)
    ensures ApplyFilters(AddFilter(reg, hook, f), hook, default) == f(ApplyFilters(reg, hook, default))
  {
    FoldAppend(Callbacks(reg, hook), [f], default);
  }

  /** Registering on one hook leaves every other filter point's value unchanged. */
  lemma FilterIsolated(reg: Registry, hook: string, f: Filter, other: string, default: PhpArray)
    requires other != hook
    ensures ApplyFilters(AddFilter(reg, hook, f), other, default) == ApplyFilters(reg, other, default)
  {
  }
}
