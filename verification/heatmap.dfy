/**
 * The figure request `generate_heatmap` builds: the rows of the selected
 * language, the column that colours each state, the title and, in the
 * drafts that set them, the colour range and the colour bar's title.
 * Drawing the map is the plotting library's business and is not modelled.
 */
module Heatmap {
  import opened Wrappers
  import opened Text
  import opened Dataset
  import opened Dropdown

  /** `range_color = [lo, hi]`; `hi` is None where pandas' `max` gives NaN,
      that is when no row holds a number in the column. */
  datatype ColorRange = ColorRange(lo: real, hi: Option<real>)

  /** The arguments of the choropleth call and of the layout update that
      matter here. The rows are located on the map by their State cell. */
  datatype Figure = Figure(
    rows: seq<Row>,
    color: string,
    title: string,
    rangeColor: Option<ColorRange>,
    colorbarTitle: Option<string>)

  /** `df[df['Language'] == lang]`: the rows of language `lang` and no other. */
  function FilterLanguage(t: seq<Row>, lang: string): (r: seq<Row>)
    ensures |r| <= |t|
    ensures forall x :: x in r <==> x in t && x.language == lang
  {
    if t == [] then []
    else (if t[0].language == lang then [t[0]] else []) + FilterLanguage(t[1..], lang)
  }

  /** Each row of language `lang` is kept as often as it occurs in `t`. */
  lemma {:induction false} FilterLanguageCounts(t: seq<Row>, lang: string)
    ensures forall x :: multiset(FilterLanguage(t, lang))[x] == if x.language == lang then multiset(t)[x] else 0
  {
    if t != [] {
      FilterLanguageCounts(t[1..], lang);
      assert t == [t[0]] + t[1..];
    }
  }

  /** Filtering keeps the original order: filtering a concatenation is
      concatenating the filtered parts. */
  lemma {:induction false} FilterLanguageAppend(a: seq<Row>, b: seq<Row>, lang: string)
    ensures FilterLanguage(a + b, lang) == FilterLanguage(a, lang) + FilterLanguage(b, lang)
  {
    if a == [] {
      assert a + b == b;
    } else {
      var head := if a[0].language == lang then [a[0]] else [];
      assert (a + b)[0] == a[0] && (a + b)[1..] == a[1..] + b;
      assert FilterLanguage(a + b, lang) == head + FilterLanguage(a[1..] + b, lang);
      FilterLanguageAppend(a[1..], b, lang);
      assert FilterLanguage(a, lang) == head + FilterLanguage(a[1..], lang);
    }
  }

  /** `df[col].max()`: the largest number in column `col`, skipping empty
      cells; None (NaN) when the column holds no number at all. */
  function ColumnMax(t: seq<Row>, col: string): (m: Option<real>)
    ensures m.None? <==> forall k :: 0 <= k < |t| ==> col !in t[k].percents
    ensures m.Some? ==> exists k :: 0 <= k < |t| && col in t[k].percents && t[k].percents[col] == m.value
    ensures m.Some? ==> forall k :: 0 <= k < |t| && col in t[k].percents ==> t[k].percents[col] <= m.value
  {
    if t == [] then None
    else
      var rest := ColumnMax(t[1..], col);
      assert forall k :: 1 <= k < |t| ==> t[k] == t[1..][k - 1];
      if col !in t[0].percents then rest
      else
        var v := t[0].percents[col];
        match rest
        case None => Some(v)
        case Some(w) => Some(if v >= w then v else w)
  }

  /** `f'{lang} Speakers - {dropdown.capitalize()} Heatmap'`. */
  function HeatmapTitle(lang: string, dropdown: string): (title: string)
    ensures |title| == |lang| + |dropdown| + 20
    ensures title[..|lang|] == lang
    ensures title[|lang|..|lang| + 12] == " Speakers - "
    ensures title[|lang| + 12..|title| - 8] == Capitalize(dropdown)
    ensures title[|title| - 8..] == " Heatmap"
  {
    lang + " Speakers - " + Capitalize(dropdown) + " Heatmap"
  }

  /** A column name already in capitalized form appears in the title as it is. */
  lemma TitleOfCapitalized(lang: string, v: string)
    requires Capitalized(v)
    ensures HeatmapTitle(lang, v) == lang + " Speakers - " + v + " Heatmap"
  {
    CapitalizeFixed(v);
  }

  /** Every column the dropdown offers is already in capitalized form, so the
      title shows the selected column exactly as the dropdown lists it. */
  lemma TitleOfOfferedColumn(lang: string, dataValue: string, k: int)
    requires 0 <= k < |DropdownOptions(dataValue).options|
    ensures var v := DropdownOptions(dataValue).options[k].value;
            HeatmapTitle(lang, v) == lang + " Speakers - " + v + " Heatmap"
  {
    OfferedColumnCapitalized(dataValue, k);
    TitleOfCapitalized(lang, DropdownOptions(dataValue).options[k].value);
  }

  /** The columns the dropdown offers are all in capitalized form. */
  lemma OfferedColumnCapitalized(dataValue: string, k: int)
    requires 0 <= k < |DropdownOptions(dataValue).options|
    ensures Capitalized(DropdownOptions(dataValue).options[k].value)
  {
    var c := CategoryOf(dataValue);
    assert DropdownOptions(dataValue).options[k].value == Columns(c)[k];
    match c
    case Age => AgeColumnsCapitalized();
    case Poverty => PovertyColumnsCapitalized();
    case Education => EducationColumnsCapitalized();
  }

  lemma AgeColumnsCapitalized()
    ensures forall k :: 0 <= k < |Columns(Age)| ==> Capitalized(Columns(Age)[k])
  {
  }

  lemma PovertyColumnsCapitalized()
    ensures forall k :: 0 <= k < |Columns(Poverty)| ==> Capitalized(Columns(Poverty)[k])
  {
  }

  lemma EducationColumnsCapitalized()
    ensures forall k :: 0 <= k < |Columns(Education)| ==> Capitalized(Columns(Education)[k])
  {
    EducationColumnCapitalized0();
    EducationColumnCapitalized1();
    EducationColumnCapitalized2();
    EducationColumnCapitalized3();
  }

  lemma EducationColumnCapitalized0() ensures Capitalized(Columns(Education)[0]) { }
  lemma EducationColumnCapitalized1() ensures Capitalized(Columns(Education)[1]) { }
  lemma EducationColumnCapitalized2() ensures Capitalized(Columns(Education)[2]) { }
  lemma EducationColumnCapitalized3() ensures Capitalized(Columns(Education)[3]) { }
}
