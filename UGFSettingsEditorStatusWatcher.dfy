/**
 * The editor focus watcher: polled on every editor update, it reloads the
 * settings and raises the focus event when the editor regains focus.
 */
module EditorStatusWatchers {

  /** Is the change from `wasFocused` to `active` the editor regaining focus? */
  predicate RisingEdge(wasFocused: bool, active: bool) {
    !wasFocused && active
  }

  /** The number of reloads a sequence of polled activity values triggers, starting from `focused`. */
  function Reloads(focused: bool, actives: seq<bool>): (n: nat)
    ensures n <= |actives|
    decreases |actives|
  {
    if actives == [] then 0
    else (if RisingEdge(focused, actives[0]) then 1 else 0) + Reloads(actives[0], actives[1..])
  }

  /** Reloads need a lost focus in between: at most one for every two polls (rounded up when starting unfocused). */
  lemma {:induction false} ReloadsBound(focused: bool, actives: seq<bool>)
    ensures Reloads(focused, actives) <= (|actives| + (if focused then 0 else 1)) / 2
    decreases |actives|
  {
    if actives != [] {
      ReloadsBound(actives[0], actives[1..]);
    }
  }

  /** A steady activity value triggers no reload, however often it is polled. */
  lemma {:induction false} SteadyFocusNoReload(focused: bool, actives: seq<bool>)
    requires forall i :: 0 <= i < |actives| ==> actives[i] == focused
    ensures Reloads(focused, actives) == 0
    decreases |actives|
  {
    if actives != [] {
      SteadyFocusNoReload(focused, actives[1..]);
    }
  }

  class StatusWatcher {
    var isFocused: bool
    /** How often the settings were reloaded, and how often the focus event was raised. */
    var reloads: nat
    var callbacks: nat

    constructor ()
      ensures !isFocused && reloads == 0 && callbacks == 0
    {
      isFocused := false;
      reloads := 0;
      callbacks := 0;
    }

    /**
     * `Update`, with `active` the application's current activity and
     * `hasCallback` whether a focus handler is subscribed.
     */
    method Update(active: bool, hasCallback: bool)
      modifies this
      ensures isFocused == active
      ensures reloads == old(reloads) + Reloads(old(isFocused), [active])
      ensures callbacks == old(callbacks) + (if RisingEdge(old(isFocused), active) && hasCallback then 1 else 0)
      ensures old(isFocused) == active ==> unchanged(this)
    {
      if isFocused != active {
        isFocused := active;
        if isFocused {
          reloads := reloads + 1;
          if hasCallback {
            callbacks := callbacks + 1;
          }
        }
      }
    }
  }
}
