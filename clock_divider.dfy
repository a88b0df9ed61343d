/** The prescaler-to-divider selection done during timer initialisation. */
module ClockDivider {
  import opened Uint

  /** The vendor divider codes CLOCK_DIV_1 ... CLOCK_DIV_64; their numeric encodings
      belong to the vendor header and are kept abstract. */
  datatype ClockDiv = Div1 | Div2 | Div4 | Div8 | Div16 | Div32 | Div40 | Div64

  /** The prescaler values the switch has a case for. */
  predicate Recognized(prescaler: u16) {
    prescaler == 1 || prescaler == 2 || prescaler == 4 || prescaler == 8 ||
    prescaler == 16 || prescaler == 32 || prescaler == 40 || prescaler == 64
  }

  /** The division factor a divider code stands for; every code stands for a recognised prescaler. */
  function Factor(d: ClockDiv): (f: u16)
    ensures Recognized(f)
  {
    match d
    case Div1 => 1
    case Div2 => 2
    case Div4 => 4
    case Div8 => 8
    case Div16 => 16
    case Div32 => 32
    case Div40 => 40
    case Div64 => 64
  }

  /** The `switch (config->prescaler)` of the init routine: a recognised prescaler selects the
      divider with that factor, anything else silently falls back to divide-by-1. */
  function DividerOf(prescaler: u16): (d: ClockDiv)
    ensures Recognized(prescaler) ==> Factor(d) == prescaler
    ensures !Recognized(prescaler) ==> d == Div1
  {
    match prescaler
    case 1 => Div1
    case 2 => Div2
    case 4 => Div4
    case 8 => Div8
    case 16 => Div16
    case 32 => Div32
    case 40 => Div40
    case 64 => Div64
    case _ => Div1
  }

  /** Selecting the divider for a code's own factor gives back that code, so the eight cases are
      distinct codes. */
  lemma DividerOfFactor(d: ClockDiv)
    ensures DividerOf(Factor(d)) == d
  {
  }

  /** The selected divider divides by the prescaler exactly when the prescaler is recognised. */
  lemma DividerMatchesPrescaler(prescaler: u16)
    ensures Factor(DividerOf(prescaler)) == prescaler <==> Recognized(prescaler)
  {
  }
}
