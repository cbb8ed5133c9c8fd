/**
 * The prompts-per-day widget (src/components/PromptsPerDayInput.tsx): a slider and a number
 * field that both report a daily prompt count to their owner. Parsing is outside the model:
 * the field's handler receives the already-parsed integer, or None where parsing gave NaN.
 */
module PromptsPerDayInput {

  import opened Wrappers
  import Calculation

  /** The cap applied to typed values. */
  const MaxPromptsPerDay: int := 100

  /** The lower bound both widgets declare; typed values are not held to it. */
  const WidgetMinimum: int := 1

  /**
   * handleInputChange: the value passed on to onChange, or None when nothing is passed on.
   * NaN and negative values are dropped; the rest are capped at 100.
   */
  function HandleInputChange(parsed: Option<int>): (forwarded: Option<int>)
    ensures forwarded.Some? <==> parsed.Some? && parsed.value >= 0
    ensures forwarded.Some? ==> 0 <= forwarded.value <= MaxPromptsPerDay
    ensures forwarded.Some? && parsed.value <= MaxPromptsPerDay ==> forwarded.value == parsed.value
    ensures forwarded.Some? && parsed.value > MaxPromptsPerDay ==> forwarded.value == MaxPromptsPerDay
  {
    match parsed
    case None => None
    case Some(v) => if v >= 0 then Some(if v < MaxPromptsPerDay then v else MaxPromptsPerDay) else None
  }

  /** 0 is passed on although both widgets declare a minimum of 1. */
  lemma ZeroIsAccepted()
    ensures HandleInputChange(Some(0)) == Some(0)
    ensures 0 < WidgetMinimum
  {
  }

  /** Typing a value that was already passed on passes it on unchanged: the cap is idempotent. */
  lemma InputChangeIdempotent(parsed: Option<int>)
    requires HandleInputChange(parsed).Some?
    ensures HandleInputChange(HandleInputChange(parsed)) == HandleInputChange(parsed)
  {
  }

  /**
   * handleSliderChange: the slider's first value is passed on as it is. The slider has a single
   * thumb, so its value list always holds exactly one entry.
   */
  function HandleSliderChange(values: seq<int>): (forwarded: int)
    requires |values| > 0
    ensures forwarded == values[0]
  {
    values[0]
  }

  /** In the slider's range [1, 100] the slider and the typed field pass on the same value. */
  lemma SliderAgreesWithInput(v: int)
    requires WidgetMinimum <= v <= MaxPromptsPerDay
    ensures HandleInputChange(Some(v)) == Some(HandleSliderChange([v]))
  {
  }

  /** The monthly count shown under the widget. */
  function DisplayedMonthlyPrompts(value: int): (r: int)
    ensures r as real == Calculation.MonthlyPrompts(value as real)
  {
    value * 30
  }
}
