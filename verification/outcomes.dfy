/** Optional values, results and the error outcomes raised by the production model. */
module Outcomes {

  datatype Option<+T> = None | Some(value: T)

  datatype Result<+T> = Ok(value: T) | Err(error: Error)

  /** The exceptions the modelled code raises, one constructor per cause. */
  datatype Error =
    | ValueError         // a factory given an efficiency it has no option for
    | NoSharedMaterial   // MindustryException: the divisor produces none of the dividend's inputs
    | NotNatural         // MindustryException: a collector asked for a manufactured material
    | TooHard            // MindustryException: the ore is harder than the drill can mine
    | NotLiquid          // MindustryException: a pump asked for a non-liquid
    | TypeError          // an operand or a call the code does not accept
    | ZeroDivisionError  // a rate divided by zero
    | AttributeError     // a boosted drill that declares no water boost
}
