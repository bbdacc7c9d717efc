/** Definitions shared by every module of the model. */
module Common {

  datatype Option<+T> = None | Some(value: T)

  /** Boot rate of the compute clock in Hz; domains may switch only at this rate. */
  const SAFE_RATE: nat := 200_000_000

  /** Rates above this one need VOLT_FOR_HIGH on the rail. */
  const HIGH_RATE: nat := 700_000_000

  /** Microvolts the driver must read before it grants a rate above HIGH_RATE. */
  const VOLT_FOR_HIGH: int := 850_000

  /** Number of notifier blocks and of busy counters. */
  const MAX_NB: nat := 4
}
