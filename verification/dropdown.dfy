/**
 * `dropdown_options`: the callback that fills the sub-value dropdown when
 * the data selector (Age, Poverty or Education) changes.
 */
module Dropdown {

  /** One `{'label': ..., 'value': ...}` item of the dropdown; `label` is a Dafny keyword, hence `caption`. */
  datatype DropdownOption = DropdownOption(caption: string, value: string)

  /** The callback's two outputs: the dropdown's items and its selected value. */
  datatype DropdownState = DropdownState(options: seq<DropdownOption>, value: string)

  /** The demographic categories the data selector offers. */
  datatype Category = Age | Poverty | Education

  /** The category the callback's branches pick for a selector value: the
      `else` branch takes everything other than 'Age' and 'Poverty'. */
  function CategoryOf(dataValue: string): (c: Category)
    ensures c == Age <==> dataValue == "Age"
    ensures c == Poverty <==> dataValue == "Poverty"
  {
    if dataValue == "Age" then Age
    else if dataValue == "Poverty" then Poverty
    else Education
  }

  /** The percentage columns of the table that belong to each category, in
      the order the dropdown lists them. */
  function Columns(c: Category): seq<string> {
    match c
    case Age => ["5 to 17", "18 to 64", "65+"]
    case Poverty => ["Below poverty level", "At or above poverty level"]
    case Education => ["Less than high school graduate", "High school graduate",
                       "Some college or associate's degree", "Bachelor's degree or higher"]
  }

  function Values(options: seq<DropdownOption>): (vs: seq<string>)
    ensures |vs| == |options|
    ensures forall k :: 0 <= k < |options| ==> vs[k] == options[k].value
  {
    seq(|options|, k requires 0 <= k < |options| => options[k].value)
  }

  /** `dropdown_options(data_value)`. The items offered are exactly the
      columns of the selected category, in order; Age items are labelled
      "Age <column>", the others by the column itself; the selected value is
      the first item's, so changing the category resets the selection. */
  function DropdownOptions(dataValue: string): (r: DropdownState)
    ensures Values(r.options) == Columns(CategoryOf(dataValue))
    ensures |r.options| == if dataValue == "Age" then 3 else if dataValue == "Poverty" then 2 else 4
    ensures r.value == r.options[0].value
    ensures dataValue == "Age" ==>
              forall k :: 0 <= k < |r.options| ==> r.options[k].caption == "Age " + r.options[k].value
    ensures dataValue != "Age" ==>
              forall k :: 0 <= k < |r.options| ==> r.options[k].caption == r.options[k].value
  {
    if dataValue == "Age" then
      DropdownState([DropdownOption("Age 5 to 17", "5 to 17"),
                     DropdownOption("Age 18 to 64", "18 to 64"),
                     DropdownOption("Age 65+", "65+")],
                    "5 to 17")
    else if dataValue == "Poverty" then
      DropdownState([DropdownOption("Below poverty level", "Below poverty level"),
                     DropdownOption("At or above poverty level", "At or above poverty level")],
                    "Below poverty level")
    else
      var cols := ["Less than high school graduate", "High school graduate",
                   "Some college or associate's degree", "Bachelor's degree or higher"];
      DropdownState(seq(|cols|, k requires 0 <= k < |cols| => DropdownOption(cols[k], cols[k])),
                    "Less than high school graduate")
  }

  /** Any selector value other than 'Age' and 'Poverty' gets the Education
      items, exactly as 'Education' itself does. */
  lemma OtherValuesGetEducation(dataValue: string)
    requires dataValue != "Age" && dataValue != "Poverty"
    ensures DropdownOptions(dataValue) == DropdownOptions("Education")
  {
  }

  /** No item is offered twice. */
  lemma OptionValuesDistinct(dataValue: string)
    ensures forall j, k :: 0 <= j < k < |DropdownOptions(dataValue).options| ==>
              DropdownOptions(dataValue).options[j].value != DropdownOptions(dataValue).options[k].value
  {
    var r := DropdownOptions(dataValue);
    assert forall k :: 0 <= k < |r.options| ==> r.options[k].value == Columns(CategoryOf(dataValue))[k];
  }
}
