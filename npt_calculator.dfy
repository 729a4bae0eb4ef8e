/**
 * The non-productive-time calculator: hours lost times the rig's hourly
 * rate.
 */
module NptCalculator {
  import opened Numeric

  /** The calculator's two inputs. */
  datatype NptInputs = NptInputs(nptHours: real, rigHourlyRate: real)

  /** Both inputs start at 0. */
  function InitialInputs(): (inputs: NptInputs)
    ensures inputs.nptHours == 0.0 && inputs.rigHourlyRate == 0.0
  {
    NptInputs(0.0, 0.0)
  }

  /** `calculateNptCost`: `nptHours * rigHourlyRate`. */
  function NptCost(inputs: NptInputs): (cost: real)
    ensures inputs.nptHours == 0.0 || inputs.rigHourlyRate == 0.0 ==> cost == 0.0
  {
    inputs.nptHours * inputs.rigHourlyRate
  }

  /** The hours box's `onChange`: `parseFloat(value) || 0`; the rate is kept. */
  function SetHours(inputs: NptInputs, value: string, parse: Parser): (next: NptInputs)
    ensures next.rigHourlyRate == inputs.rigHourlyRate
    ensures parse(value).None? ==> next.nptHours == 0.0
    ensures parse(value).Some? ==> next.nptHours == parse(value).value
  {
    inputs.(nptHours := Coerce(parse, value))
  }

  /** The rate box's `onChange`: `parseFloat(value) || 0`; the hours are kept. */
  function SetRate(inputs: NptInputs, value: string, parse: Parser): (next: NptInputs)
    ensures next.nptHours == inputs.nptHours
    ensures parse(value).None? ==> next.rigHourlyRate == 0.0
    ensures parse(value).Some? ==> next.rigHourlyRate == parse(value).value
  {
    inputs.(rigHourlyRate := Coerce(parse, value))
  }

  /** The starting cost is 0, and stays 0 until both inputs are set to non-zero values. */
  lemma InitialCostZero(value: string, parse: Parser)
    ensures NptCost(InitialInputs()) == 0.0
    ensures NptCost(SetHours(InitialInputs(), value, parse)) == 0.0
    ensures NptCost(SetRate(InitialInputs(), value, parse)) == 0.0
  {
    ZeroFactorCostsNothing(SetHours(InitialInputs(), value, parse));
    ZeroFactorCostsNothing(SetRate(InitialInputs(), value, parse));
  }

  /** A zero factor makes the cost zero. */
  lemma ZeroFactorCostsNothing(inputs: NptInputs)
    requires inputs.nptHours == 0.0 || inputs.rigHourlyRate == 0.0
    ensures NptCost(inputs) == 0.0
  {
  }

  /** Non-negative hours at a non-negative rate cost nothing negative. */
  lemma NptCostNonNegative(inputs: NptInputs)
    requires inputs.nptHours >= 0.0 && inputs.rigHourlyRate >= 0.0
    ensures NptCost(inputs) >= 0.0
  {
    assert inputs.nptHours * inputs.rigHourlyRate >= 0.0 * inputs.rigHourlyRate;
  }

  /** At a non-negative rate, more lost hours never cost less. */
  lemma NptCostMonotone(inputs: NptInputs, hours: real)
    requires inputs.rigHourlyRate >= 0.0 && inputs.nptHours <= hours
    ensures NptCost(inputs) <= NptCost(inputs.(nptHours := hours))
  {
    assert (hours - inputs.nptHours) * inputs.rigHourlyRate >= 0.0;
  }

  /** An input that does not parse zeroes the cost. */
  lemma UnparsedInputZeroesCost(inputs: NptInputs, value: string, parse: Parser)
    requires parse(value).None?
    ensures NptCost(SetHours(inputs, value, parse)) == 0.0
    ensures NptCost(SetRate(inputs, value, parse)) == 0.0
  {
  }
}
