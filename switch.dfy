/** The print-style switch (`src/services/SwitchContext.tsx`): a boolean that starts off and is flipped. */
module Switch {
  import opened Wrappers

  class SwitchProvider {
    var isSwitchOn: bool

    /** The switch starts off. */
    constructor()
      ensures !isSwitchOn
    {
      isSwitchOn := false;
    }

    /** `toggleSwitch`: flip the switch. */
    method ToggleSwitch()
      modifies this
      ensures isSwitchOn == !old(isSwitchOn)
    {
      isSwitchOn := !isSwitchOn;
    }
  }

  /** Two toggles put the switch back. */
  method DosToggles(s: SwitchProvider)
    modifies s
    ensures s.isSwitchOn == old(s.isSwitchOn)
  {
    s.ToggleSwitch();
    s.ToggleSwitch();
  }

  /** A fresh switch toggled `n` times is on exactly when `n` is odd. */
  method ToggleVeces(n: nat) returns (s: SwitchProvider)
    ensures s.isSwitchOn <==> n % 2 == 1
  {
    s := new SwitchProvider();
    var i := 0;
    while i < n
      invariant 0 <= i <= n
      invariant s.isSwitchOn <==> i % 2 == 1
    {
      s.ToggleSwitch();
      i := i + 1;
    }
  }

  const FueraDelProveedor := "useSwitch must be used within a SwitchProvider"

  /** `useSwitch`: the provider's context, or the error thrown outside one. */
  function UseSwitch(context: Option<SwitchProvider>): (r: Result<SwitchProvider, string>)
    ensures r.Success? <==> context.Some?
    ensures r.Success? ==> r.value == context.value
    ensures r.Failure? ==> r.error == FueraDelProveedor
  {
    match context
    case Some(p) => Success(p)
    case None => Failure(FueraDelProveedor)
  }
}
