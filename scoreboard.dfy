/** The score sheet's two controls: the deep-work cycle and the yes/no
    toggles, both written through the shell's `updateScore`. */
module Scoreboard {
  import opened Types
  import App

  /** The deep-work cycle: none (0) to full (2) to partial (1) and back to
      none. */
  function NextDeepWork(current: int): (next: int)
    ensures 0 <= next <= 2
  {
    if current == 0 then 2
    else if current == 2 then 1
    else 0
  }

  /** `toggleDeepWork`. */
  function ToggleDeepWork(s: ScoreState, k: App.DeepWorkKey): ScoreState {
    App.SetDeepWork(s, k, NextDeepWork(App.DeepWork(s, k)))
  }

  /** `toggleBoolean`. */
  function ToggleBoolean(s: ScoreState, k: App.FlagKey): ScoreState {
    App.SetFlag(s, k, !App.Flag(s, k))
  }

  // ---------------------------------------------------------------
  // Properties
  // ---------------------------------------------------------------

  /** The cycle takes 0 to 2 and 2 to 1, and everything else, 1 included,
      to 0. */
  lemma CycleSteps(v: int)
    ensures NextDeepWork(0) == 2 && NextDeepWork(2) == 1 && NextDeepWork(1) == 0
    ensures v != 0 && v != 2 ==> NextDeepWork(v) == 0
  {
  }

  /** Three steps bring any value of the scale back to itself, and any
      other value lands on the scale after one step. */
  lemma CycleReturns(v: int)
    ensures 0 <= v <= 2 ==> NextDeepWork(NextDeepWork(NextDeepWork(v))) == v
    ensures 0 <= v <= 2 ==> NextDeepWork(v) != v && NextDeepWork(NextDeepWork(v)) != v
  {
  }

  /** A deep-work toggle keeps both blocks on the scale and leaves the other
      block and every flag alone; three toggles restore the sheet. */
  lemma ToggleDeepWorkEffect(s: ScoreState, k: App.DeepWorkKey, j: App.DeepWorkKey, g: App.FlagKey)
    ensures App.DeepWorkInRange(s) ==> App.DeepWorkInRange(ToggleDeepWork(s, k))
    ensures j != k ==> App.DeepWork(ToggleDeepWork(s, k), j) == App.DeepWork(s, j)
    ensures App.Flag(ToggleDeepWork(s, k), g) == App.Flag(s, g)
    ensures App.DeepWorkInRange(s) ==> ToggleDeepWork(ToggleDeepWork(ToggleDeepWork(s, k), k), k) == s
  {
    CycleReturns(App.DeepWork(s, k));
  }

  /** A yes/no toggle negates exactly its own item, so two toggles restore
      the sheet. */
  lemma ToggleBooleanEffect(s: ScoreState, k: App.FlagKey, g: App.FlagKey)
    ensures App.Flag(ToggleBoolean(s, k), k) == !App.Flag(s, k)
    ensures g != k ==> App.Flag(ToggleBoolean(s, k), g) == App.Flag(s, g)
    ensures ToggleBoolean(ToggleBoolean(s, k), k) == s
  {
    App.UpdateFlagOnlyKey(s, k, g, App.DeepWork1Key, !App.Flag(s, k));
    App.UpdateFlagOnlyKey(ToggleBoolean(s, k), k, k, App.DeepWork1Key, App.Flag(s, k));
    match k {
      case ShippedKey =>
      case MoveKey =>
      case FoodWaterKey =>
      case ShutdownKey =>
      case DistractionKey =>
    }
  }
}
