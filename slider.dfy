/** The caption above a slider: its content, the current value and a unit. */
module Slider {
  import opened Wrappers

  /** `getContent(content, contentUnit, value)`: nothing without content; without a unit
      the values "0" and "1" get one decimal so every caption has the same width; with a
      unit the value and the unit follow the content. */
  function GetContent(content: Option<string>, contentUnit: string, value: string): (r: string)
    ensures content.None? ==> r == ""
    ensures content.Some? && contentUnit == "" ==>
      r == content.value + " " + (if value == "0" then "0.0" else if value == "1" then "1.0" else value)
  {
    if contentUnit == "" then
      if content.None? then "" else content.value + " " + (if value == "0" then "0.0" else if value == "1" then "1.0" else value)
    else
      if content.None? then "" else content.value + " " + (if value == "0" then "0 " + contentUnit else value + " " + contentUnit)
  }

  /** With a unit the zero branch is the general one: the caption is always the content,
      the value and the unit separated by spaces. */
  lemma UnitCaption(content: string, contentUnit: string, value: string)
    requires contentUnit != ""
    ensures GetContent(Some(content), contentUnit, value) == content + " " + value + " " + contentUnit
  {
    if value == "0" {
      assert "0 " + contentUnit == value + " " + contentUnit;
    }
    assert content + " " + (value + " " + contentUnit) == content + " " + value + " " + contentUnit;
  }
}

/** The threshold slider's caption, written out again in its own component. */
module TresholdSlider {
  import opened Wrappers
  import Slider

  /** `getContent(content, contentUnit, value)` of the threshold slider. */
  function GetContent(content: Option<string>, contentUnit: string, value: string): (r: string)
    ensures content.None? ==> r == ""
    ensures content.Some? && contentUnit == "" && value != "0" && value != "1" ==> r == content.value + " " + value
  {
    if contentUnit == "" then
      if content.None? then "" else content.value + " " + (if value == "0" then "0.0" else if value == "1" then "1.0" else value)
    else
      if content.None? then "" else content.value + " " + (if value == "0" then "0 " + contentUnit else value + " " + contentUnit)
  }

  /** The two captions agree on every input, and without a unit only "0" and "1" are
      rewritten. */
  lemma AgreesWithSlider(content: Option<string>, contentUnit: string, value: string)
    ensures GetContent(content, contentUnit, value) == Slider.GetContent(content, contentUnit, value)
    ensures content.Some? && contentUnit == "" ==>
      GetContent(content, contentUnit, value) == content.value + " " + (if value == "0" then "0.0" else if value == "1" then "1.0" else value)
  {
  }
}
