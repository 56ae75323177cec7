/** The feature-flag store: two booleans, each toggled on its own, and a
    reset to the defaults. */
module FeatureFlags {

  datatype Flag = ChartV2 | ModernColors

  datatype Flags = Flags(chartV2: bool, modernColors: bool)
  {
    /** `flags[flag]`. */
    function Get(flag: Flag): bool
    {
      match flag
      case ChartV2 => chartV2
      case ModernColors => modernColors
    }
  }

  /** Both flags off. */
  const DefaultFlags: Flags := Flags(false, false)

  /** `{ ...prev, [flag]: !prev[flag] }`: the named flag is negated and the
      other one kept. */
  function Toggled(flags: Flags, flag: Flag): (r: Flags)
    ensures r.Get(flag) == !flags.Get(flag)
    ensures forall other: Flag :: other != flag ==> r.Get(other) == flags.Get(other)
  {
    match flag
    case ChartV2 => flags.(chartV2 := !flags.chartV2)
    case ModernColors => flags.(modernColors := !flags.modernColors)
  }

  /** The number of flags that are on, shown as the developer panel's
      badge. It is zero exactly for the defaults. */
  function ActiveCount(flags: Flags): (n: nat)
    ensures n <= 2
    ensures n == 0 <==> flags == DefaultFlags
    ensures n == 2 <==> flags.chartV2 && flags.modernColors
  {
    (if flags.chartV2 then 1 else 0) + (if flags.modernColors then 1 else 0)
  }

  /** Toggling the same flag twice restores the flags. */
  lemma ToggleTwice(flags: Flags, flag: Flag)
    ensures Toggled(Toggled(flags, flag), flag) == flags
  {
  }

  /** Each toggle moves the badge count by exactly one: up when the flag was
      off, down when it was on. */
  lemma ToggleMovesCountByOne(flags: Flags, flag: Flag)
    ensures flags.Get(flag) ==> ActiveCount(Toggled(flags, flag)) + 1 == ActiveCount(flags)
    ensures !flags.Get(flag) ==> ActiveCount(Toggled(flags, flag)) == ActiveCount(flags) + 1
  {
  }

  /** The provider's state. */
  class FeatureFlagsProvider {
    var flags: Flags

    constructor()
      ensures flags == DefaultFlags
    {
      flags := DefaultFlags;
    }

    method ToggleFlag(flag: Flag)
      modifies this
      ensures flags == Toggled(old(flags), flag)
    {
      flags := Toggled(flags, flag);
    }

    /** Back to both flags off, from any state. */
    method ResetFlags()
      modifies this
      ensures flags == DefaultFlags && ActiveCount(flags) == 0
    {
      flags := DefaultFlags;
    }
  }
}
