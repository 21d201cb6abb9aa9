/** The optimisation wizard's page state: which step is shown, the project
    details collected on the first step, and the coercion of the assumption
    form's numeric fields from text to numbers before they are sent. */
module Wizard {

  import opened Wrappers

  // ---------------------------------------------------------------------
  // Step navigation
  // ---------------------------------------------------------------------

  /** The wizard's steps, in order. */
  const Steps: seq<string> := ["project-details", "financial-model", "assumptions-variables", "network-editor"]

  /** `Array.prototype.findIndex` by id: the first position of `x`, or -1. */
  function IndexOf(list: seq<string>, x: string): (r: int)
    ensures -1 <= r < |list|
    ensures r >= 0 ==> list[r] == x && forall j :: 0 <= j < r ==> list[j] != x
    ensures r == -1 <==> x !in list
  {
    if |list| == 0 then -1
    else if list[0] == x then 0
    else
      var k := IndexOf(list[1..], x);
      if k == -1 then -1 else k + 1
  }

  function StepIndex(stepId: string): int
  {
    IndexOf(Steps, stepId)
  }

  /** `handleStepChange`: the step shown after asking for `target` while on
      `current`. The move happens only when the target's index is below the
      current one's. */
  function NextStep(current: string, target: string): string
  {
    if StepIndex(target) < StepIndex(current) then target else current
  }

  /** The step handler only ever goes back: asking for the current step or a
      later one changes nothing, and asking for an earlier one goes there. */
  lemma NavigationOnlyGoesBack(current: string, target: string)
    requires current in Steps && target in Steps
    ensures StepIndex(target) >= StepIndex(current) ==> NextStep(current, target) == current
    ensures StepIndex(target) < StepIndex(current) ==> NextStep(current, target) == target
    ensures StepIndex(NextStep(current, target)) <= StepIndex(current)
  {
  }

  /** An id that is not a step has index -1, below every step's, so asking
      for it from any step makes it the current step. */
  lemma UnknownTargetIsAccepted(current: string, target: string)
    requires current in Steps && target !in Steps
    ensures NextStep(current, target) == target
  {
  }

  /** Once the current step is not a step, nothing is below its index -1:
      the step handler can no longer move. */
  lemma StuckOnUnknownStep(current: string, target: string)
    requires current !in Steps
    ensures NextStep(current, target) == current
  {
  }

  /** From the first step nothing known can be reached by the step
      handler. */
  lemma NoMoveFromFirstStep(target: string)
    requires target in Steps
    ensures NextStep(Steps[0], target) == Steps[0]
  {
  }

  // ---------------------------------------------------------------------
  // Project details
  // ---------------------------------------------------------------------

  /** The project details; an optional field that is `None` is absent from
      the object. */
  datatype ProjectDetails = ProjectDetails(
    name: string,
    latitude: Option<real>,
    longitude: Option<real>,
    financialModel: string,
    clientId: Option<string>)

  const InitialDetails: ProjectDetails := ProjectDetails("", None, None, "", None)

  /** A field of the submitted details when present, else the old one. */
  function Override<T>(current: Option<T>, submitted: Option<T>): (r: Option<T>)
    ensures submitted.Some? ==> r == submitted
    ensures submitted.None? ==> r == current
  {
    if submitted.Some? then submitted else current
  }

  /** `{ ...projectDetails, ...data }`: the submitted details over the old
      ones. The required fields are always replaced; an optional field is
      replaced only when the submission carries it. */
  function MergeDetails(current: ProjectDetails, data: ProjectDetails): (r: ProjectDetails)
    ensures r.name == data.name && r.financialModel == data.financialModel
    ensures data.latitude.Some? ==> r.latitude == data.latitude
    ensures data.latitude.None? ==> r.latitude == current.latitude
    ensures data.longitude.Some? ==> r.longitude == data.longitude
    ensures data.longitude.None? ==> r.longitude == current.longitude
    ensures data.clientId.Some? ==> r.clientId == data.clientId
    ensures data.clientId.None? ==> r.clientId == current.clientId
  {
    ProjectDetails(
      data.name,
      Override(current.latitude, data.latitude),
      Override(current.longitude, data.longitude),
      data.financialModel,
      Override(current.clientId, data.clientId))
  }

  /** Submitting the same details twice is the same as submitting them once,
      and a submission carrying every field replaces the details outright. */
  lemma MergeDetailsIdempotent(current: ProjectDetails, data: ProjectDetails)
    ensures MergeDetails(MergeDetails(current, data), data) == MergeDetails(current, data)
    ensures data.latitude.Some? && data.longitude.Some? && data.clientId.Some? ==>
      MergeDetails(current, data) == data
  {
  }

  // ---------------------------------------------------------------------
  // Numeric coercion of the assumption form
  // ---------------------------------------------------------------------

  /** A form value: the text an input holds, or a number once coerced. */
  datatype FormValue = Str(s: string) | Num(x: real)

  /** The form fields sent as numbers. */
  const NumericFields: seq<string> := [
    "client_h2flowrate", "client_h2flowhours", "projectLifetime", "o2MarketSellLimit",
    "excessProductionH2MerchantLimit", "electrolyzerstackConversion100Percent",
    "electrolyzerstackConversionMinTurndown", "stackMinTurndownratio",
    "stackefficiencydegradation", "stackLifetime", "TotalAuxRatedPowerDuringOperating",
    "TotalAuxRatedPowerOutsideOperating", "BatteryroundtripEfficiency", "BatteryLife",
    "BatteryCapacityAnnualDegradation", "PVOutputAnnualDegradation",
    "PV_DC_size_LowerRange", "PV_DC_size_HigherRange", "inverter_ac_size_low",
    "inverter_ac_size_high", "wind_size_low", "wind_size_high",
    "power_evactuation_size_low", "power_evactuation_size_high", "ltoa_size_low",
    "ltoa_size_high", "battery_size_low", "battery_size_high", "electrolyser_size_low",
    "electrolyser_size_high", "low_bar_h2_storage_size_low",
    "low_bar_h2_storage_size_high", "high_bar_h2_storage_size_low",
    "high_bar_h2_storage_size_high", "h2_compressor_throughput_low",
    "h2_compressor_throughput_high", "o2_storage_low", "o2_storage_high",
    "o2_compressor_throughput_low", "o2_compressor_throughput_high"
  ]

  /** One field's coercion: text that parses is replaced by its number,
      text that does not parse (NaN) stays as it was, numbers are left
      alone. `parse` stands for `parseFloat`, with NaN as `None`. */
  function Coerce(v: FormValue, parse: string -> Option<real>): (r: FormValue)
    ensures v.Str? && parse(v.s).Some? ==> r == Num(parse(v.s).value)
    ensures v.Str? && parse(v.s).None? ==> r == v
    ensures v.Num? ==> r == v
  {
    match v
    case Str(s) => (match parse(s) case Some(x) => Num(x) case None => v)
    case Num(_) => v
  }

  /** Coercing a coerced value changes nothing more. */
  lemma CoerceIdempotent(v: FormValue, parse: string -> Option<real>)
    ensures Coerce(Coerce(v, parse), parse) == Coerce(v, parse)
  {
  }

  /** The form values with every field of `fields` coerced: the same
      fields, listed ones coerced, the rest (text choices such as the
      contract currency) untouched; absent fields stay absent. */
  function CoercedValues(values: map<string, FormValue>, fields: seq<string>,
                         parse: string -> Option<real>): (r: map<string, FormValue>)
    ensures r.Keys == values.Keys
    ensures forall k :: k in values && k !in fields ==> r[k] == values[k]
    ensures forall k :: k in values && k in fields ==> r[k] == Coerce(values[k], parse)
  {
    map k | k in values :: if k in fields then Coerce(values[k], parse) else values[k]
  }

  /** The coercion loop of the submit handlers: a copy of the values is
      updated field by field in the order of the list (`NumericFields` on
      the page). */
  method CoerceNumericFields(values: map<string, FormValue>, fields: seq<string>,
                             parse: string -> Option<real>)
    returns (processed: map<string, FormValue>)
    ensures processed == CoercedValues(values, fields, parse)
  {
    processed := values;
    for i := 0 to |fields|
      invariant processed.Keys == values.Keys
      invariant forall k :: k in values ==>
        processed[k] == if k in fields[..i] then Coerce(values[k], parse) else values[k]
    {
      var field := fields[i];
      assert fields[..i + 1] == fields[..i] + [field];
      if field in processed {
        var value := processed[field];
        if value.Str? {
          var parsed := parse(value.s);
          if parsed.Some? {
            processed := processed[field := Num(parsed.value)];
          }
        }
        CoerceIdempotent(values[field], parse);
      }
    }
    assert fields[..|fields|] == fields;
  }

  // ---------------------------------------------------------------------
  // The page
  // ---------------------------------------------------------------------

  /** The wizard's state: the step shown and the project details. */
  class Page {
    var currentStep: string
    var projectDetails: ProjectDetails

    /** The page opens on the first step with empty details. */
    constructor ()
      ensures currentStep == "project-details" && currentStep == Steps[0]
      ensures projectDetails == InitialDetails
    {
      currentStep := "project-details";
      projectDetails := InitialDetails;
    }

    /** `handleStepChange`: goes back to an earlier step, never forward. */
    method HandleStepChange(stepId: string)
      modifies this
      ensures currentStep == NextStep(old(currentStep), stepId)
      ensures projectDetails == old(projectDetails)
    {
      var currentIndex := StepIndex(currentStep);
      var targetIndex := StepIndex(stepId);
      if targetIndex < currentIndex {
        currentStep := stepId;
      }
    }

    /** `handleProjectDetailsSubmit`: merges the submitted details and moves
        on to the financial model step. */
    method HandleProjectDetailsSubmit(data: ProjectDetails)
      modifies this
      ensures projectDetails == MergeDetails(old(projectDetails), data)
      ensures currentStep == "financial-model" == Steps[1]
    {
      projectDetails := MergeDetails(projectDetails, data);
      currentStep := "financial-model";
    }

    /** `handleAssumptionsSubmit`: coerces the numeric fields and moves on to
        the network editor step. The page does nothing with the coerced
        values; they are returned here so that their contract can be
        stated. */
    method HandleAssumptionsSubmit(values: map<string, FormValue>, parse: string -> Option<real>)
      returns (processed: map<string, FormValue>)
      modifies this
      ensures processed == CoercedValues(values, NumericFields, parse)
      ensures currentStep == "network-editor" == Steps[3]
      ensures projectDetails == old(projectDetails)
    {
      processed := CoerceNumericFields(values, NumericFields, parse);
      currentStep := "network-editor";
    }
  }
}
