# Language diversity heatmap, modelled in Dafny

The dashboard loads a table of percentages with one row per state and language
(`percent_languages.csv`). Each row has a State cell and a Language cell, and
holds numbers for the demographic columns: three age bands, two poverty
columns and four education columns. Three pieces of logic are modelled:

- `abbrev(df, col)` strips the whitespace around every cell of a text column.
  It then replaces each full state name found in a fixed dictionary
  (`state2abbrev`) by its two-letter postal code, in place.
- `dropdown_options(data_value)` fills the second dropdown with the columns of
  the chosen category (Age, Poverty, or anything else, which means Education).
  It also selects the first of those columns.
- `generate_heatmap(dropdown_value, lang_value)` keeps the rows of one
  language. It colours the states by the chosen column and titles the map
  `<language> Speakers - <Column> Heatmap`. In the `geo_map.py` draft it also
  sets the colour range to run from 0 to the column's maximum over the whole
  table, and titles the colour bar `<column> (%)`.

Both drafts, `geo_map.py` and `map1.py`, share `abbrev` and `dropdown_options`
word for word: map1.py:27-85 is the same text as geo_map.py:16-74, and
map1.py:156-174 is the same text as geo_map.py:164-182. Those two functions are
therefore modelled once, in shared modules. The drafts differ only in
`generate_heatmap`, so each draft gets its own module: `GeoMap` and `Map1`.

The modules are:

- `Wrappers`: the `Option` type.
- `Text`: Python's `str.strip()` and `str.capitalize()` on ASCII.
- `StateCodes`: the dictionary and lookups in it.
- `Dataset`: table rows and `abbrev`.
- `Dropdown`: `dropdown_options`.
- `Heatmap`: filtering, the column maximum and the title.
- `GeoMap` and `Map1`: the two callbacks.

`abbrev` updates the table in place and hands back the same object. It is
therefore a method on an `array<Row>`, proved against the function
`AbbrevColumn`. The source rewrites the column in one vectorized assignment,
with no loop, so the method does it in one parallel `forall` assignment. The callbacks are pure functions of their inputs. The loaded
table (after `df = abbrev(df, 'State')` at geo_map.py:76) is passed to them as
a parameter; the source reads it from a global.

The dictionary as written has 53 entries: the 50 states, the District of
Columbia, Puerto Rico, and 'Virigin Islands'. That last key is spelled as it is
in the code. The keys are proved pairwise distinct, and so are the codes.

## Model

| member | source | states |
|---|---|---|
| Text.Strip | geo_map.py:73 | `.str.strip()` leaves a string with no whitespace at either end, no longer than the cell |
| Text.StripBounds | geo_map.py:73 | strip removes only whitespace, and only from the two ends: the result is an infix and everything outside it is whitespace |
| Text.StripFixed | geo_map.py:73 | a string with no whitespace at its ends is unchanged by strip |
| Text.StripIdempotent | geo_map.py:73 | stripping twice is stripping once |
| Text.Capitalize | geo_map.py:199 | `capitalize()` keeps the length, upper-cases the first character and lower-cases every other |
| Text.CapitalizeFixed | geo_map.py:199 | a string whose first character is not lower-case and whose later characters are not upper-case is unchanged by capitalize |
| Text.CapitalizeIdempotent | map1.py:193 | capitalizing twice is capitalizing once |
| StateCodes.TableNamesDistinct | geo_map.py:17-71 | no full name occurs twice among the dictionary's keys |
| StateCodes.TableCodesDistinct | map1.py:28-82 | no code occurs twice among the dictionary's values |
| StateCodes.TableShape | geo_map.py:17-71 | the dictionary has 53 entries; every code is two upper-case letters and every name is at least four characters |
| StateCodes.Lookup | geo_map.py:73 | the dictionary lookup `replace` performs on one stripped cell; its contract is stated by LookupMissing, LookupFound and LookupUnique below |
| StateCodes.LookupMissing | geo_map.py:73 | a lookup finds nothing exactly when no entry has the key |
| StateCodes.LookupFound | geo_map.py:73 | what a lookup finds is the code of an entry with that key |
| StateCodes.LookupUnique | geo_map.py:73 | with distinct keys, each key finds its own entry's code |
| StateCodes.Abbreviation | geo_map.py:17-73 | the lookup in `state2abbrev` itself; its contract is stated by AbbreviationOfName, AbbreviationInjective and AbbreviationIsCode below |
| StateCodes.AbbreviationOfName | geo_map.py:17-73 | every full name in the dictionary is replaced by the code written beside it |
| StateCodes.AbbreviationInjective | geo_map.py:17-71 | two names replaced by the same code are the same name |
| StateCodes.AbbreviationIsCode | geo_map.py:17-73 | a replacement is a two-letter upper-case code that is not itself a key, and replaces a name of at least four characters |
| Dataset.NormalizeCell | geo_map.py:73 | one cell of `.str.strip().replace(state2abbrev)`; its contract is stated by the four NormalizeCell lemmas below |
| Dataset.NormalizeCellShape | geo_map.py:73 | a normalized cell has no whitespace at its ends and is no longer than the original cell |
| Dataset.NormalizeCellOfName | geo_map.py:73 | a cell whose stripped text is a key becomes that key's code |
| Dataset.NormalizeCellOfOther | geo_map.py:73 | a cell whose stripped text is not a key comes out stripped and otherwise unchanged |
| Dataset.NormalizeCellIdempotent | geo_map.py:73 | normalizing a normalized cell changes nothing |
| Dataset.AbbrevColumn | geo_map.py:73 | the rows keep their number and order; column `col` of every row is normalized; the other text column and the percentages are untouched |
| Dataset.AbbrevColumnIdempotent | geo_map.py:16-74 | running `abbrev` on its own output changes nothing |
| Dataset.AbbrevColumnAllCodes | geo_map.py:73 | a column whose every cell is a padded full name ends up holding, in every cell, the code of that name, two upper-case letters |
| Dataset.AbbrevColumnOfNames | map1.py:28-84 | for every row and every dictionary line, a cell that strips to that line's name ends up holding that line's code |
| Dataset.Abbrev | geo_map.py:16-74 | rewrites the whole column in place in one assignment, leaving exactly `AbbrevColumn` of the old table, and returns the same table object |
| Dropdown.CategoryOf | geo_map.py:165-176 | 'Age' picks Age and 'Poverty' picks Poverty, each in both directions; every other value falls to the Education branch |
| Dropdown.DropdownOptions | geo_map.py:164-182 | the values offered are the category's columns, in order, and there are 3, 2 or 4 of them. The selection is the first value. Age items are labelled "Age " plus the value; all others are labelled by the value |
| Dropdown.OtherValuesGetEducation | map1.py:168-172 | any selector value other than 'Age' and 'Poverty' gets exactly the Education dropdown |
| Dropdown.OptionValuesDistinct | geo_map.py:166-179 | no dropdown value is offered twice |
| Heatmap.FilterLanguage | geo_map.py:194 | a row is kept if and only if it is a row of the table with the selected language |
| Heatmap.FilterLanguageCounts | geo_map.py:194 | every kept row occurs as often as in the table; rows of other languages do not occur |
| Heatmap.FilterLanguageAppend | map1.py:188 | filtering keeps the table's order: filtering a concatenation concatenates the filtered parts |
| Heatmap.ColumnMax | geo_map.py:201 | `df[col].max()` is missing (NaN) exactly when no row holds a number in the column. Otherwise some row attains it and every number in the column is at most it |
| Heatmap.HeatmapTitle | geo_map.py:199 | the title is the language, then " Speakers - ", then the capitalized column, then " Heatmap", each piece stated as a slice of the title |
| Heatmap.TitleOfCapitalized | map1.py:193 | a column already in capitalized form appears in the title exactly as written |
| Heatmap.OfferedColumnCapitalized | geo_map.py:166-179 | every column the dropdown offers is already in capitalized form |
| Heatmap.TitleOfOfferedColumn | geo_map.py:199 | for every column the dropdown offers, the title reads `<language> Speakers - <column> Heatmap` with the column exactly as offered |
| GeoMap.GenerateHeatmap | geo_map.py:191-221 | the figure plots the filtered rows (each row of the selected language once, in table order, and no other), coloured by the selected column, under the capitalized title. Its colour range starts at 0 and tops out at `ColumnMax` of the whole, unfiltered table: a value some row of the table attains, bounding every row of the table and so every plotted value, and missing only when the column holds no number. The colour bar is titled `<column> (%)` |
| GeoMap.RangeSharedAcrossLanguages | geo_map.py:201 | the colour range does not depend on the selected language |
| Map1.GenerateHeatmap | map1.py:184-213 | the figure plots the filtered rows (each row of the selected language once, in table order, and no other), coloured by the selected column, under the capitalized title. It has no colour range and no colour-bar title |
| Map1.DraftsDifferOnlyInScale | map1.py:191-196 | map1's figure is geo_map's figure without the colour range and the colour-bar title |

## Left out

- Reading `percent_languages.csv`, the Dash layout, the callback wiring, and rendering the choropleth: the loaded table and the selected values are parameters.
- Floating-point percentages are modelled as `real`, and an empty (NaN) cell as a column name absent from the row's `percents` map.
- Text.Strip, Text.Capitalize: cover ASCII only. Python also strips Unicode whitespace (such as U+0085 and U+00A0) and case-maps non-ASCII letters, which the model does not.
- Dataset.Abbrev: takes only the two text columns. Applied to a numeric column, pandas' `.str` accessor raises, and that path is not modelled.
- Dataset.Abbrev: does not model a NaN cell in a text column, which `.str.strip()` would keep as NaN.
- Dataset.AbbrevColumn: does not model pandas' `replace` behaviour when a replacement is itself a key. That case cannot arise, because no code is a key (`StateCodes.AbbreviationIsCode`).
- Heatmap.ColumnMax, GeoMap.GenerateHeatmap, Map1.GenerateHeatmap: a dropdown value that names no column of the table makes pandas raise a `KeyError` (geo_map.py:201) and the plotting call raise a `ValueError` (geo_map.py:197, map1.py:191). The model does not raise: it reads such a value as a column with no numbers and returns a figure.
- GeoMap.GenerateHeatmap, Map1.GenerateHeatmap: take the dropdown value as a string. The `None` that Dash may pass before the dropdown is filled, which would make `capitalize` fail, is not modelled.
- Styling arguments (fonts, colour scale, colour-bar placement, map scope, hover names) carry no logic and are not modelled.
