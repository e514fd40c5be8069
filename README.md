# Water-quality backend: comparison rule, distinct-value queries and table augmentation

This project is a Dafny model of the logic of a small water-quality backend.
It covers two parts:

- `app.py` answers queries over a table of water-quality measurements. It lists
  the distinct states, lists the distinct monitoring locations of a state, and
  compares two locations on a chosen parameter. The location with the higher
  mean of that parameter is "more polluted". A second parameter breaks a tie,
  and a remediation text is attached.
- `clean.py` is an offline script. It adds a `Pollution_Reasons` column
  (the reasons of each row's state, looked up in a static table and joined with
  `'; '`) and eight constant `*_Solutions` columns (one per water-quality
  parameter) to the table.

Files:

- `wrappers.dfy`: the `Option` type. A blank cell and a JSON field the client
  left out are both `None`.
- `series.dfy` (module `Series`): the column operations of the table library
  that the code relies on.
  - `dropna`: `DropNulls`.
  - `unique`, which keeps first-occurrence order: `Unique`.
  - `mean` over exact reals, `None` on an empty column: `Mean`.
- `text.dfy` (module `Text`): `str.join` and `str.split` on a separator.
  Also proves that splitting a joined list gives the list back.
- `app.dfy` (module `App`): the table, the two distinct-value queries and
  `compare_data`, as pure functions of the table and the request. The table is
  loaded once and only read.
- `clean.dfy` (module `Clean`): the two static tables, the two lookups with
  their `'Unknown'` default, and the per-row effect of the script.
  - The script's in-place column assignments are the methods of the class
    `Frame`, whose `rows` field the methods reassign.
  - `Assign` and `AssignConstant` are proved against the map update of each
    row, `AddSolutionColumns` against the block write `SetCells`, and the
    whole script, `Augment`, against the per-row function `AugmentRecord`.

The comparison returns an `Outcome`:

- `InvalidInput` (status 400): a location or the parameter is missing or empty.
- `MissingColumn`: the column selection fails. The code raises a `KeyError` when
  the parameter or the secondary parameter is not a column, and when the
  secondary parameter was not supplied, because selecting the column `None`
  fails. The handler does not catch it, so the request ends with status 500.
  The model states this outcome instead of requiring callers to supply the
  secondary parameter: the code itself places no such demand on its callers.
- `Compared`: the verdict.

A mean is `None` when a location has no qualifying row. The library's mean is
then not-a-number, which compares false with everything, so `Above` (the
model of `>`) is false whenever either side is `None`.

## Model

| member | source | states |
|---|---|---|
| `App.SolutionFor` | app.py:73 | the table's text for a known parameter; the fixed default text exactly when the parameter is not a key (no table text equals the default) |
| `App.UniqueStates` | app.py:31-34 | no state twice; a state is listed exactly when some row carries it (null cells are skipped) |
| `App.UniqueStatesOrder` | app.py:33 | the states come in the order of their first row |
| `App.UniqueNonNullOrder` | app.py:33 | `dropna().unique()` of a column lists each value in the order of its first occurrence in the column, nulls included |
| `App.DropNullsFirstIndex` | app.py:33 | dropping the nulls keeps the relative order of first occurrences, both directions |
| `App.RowsInState` | app.py:39 | a row is kept exactly when its STATE equals the requested state; a null state (missing field) matches no row |
| `App.RowsInStateAppend` | app.py:39 | the state mask distributes over concatenation, so kept rows stay in file order with their multiplicity |
| `App.LocationsInState` | app.py:36-40 | no location twice; a location is listed exactly when some row of that state carries it |
| `App.LocationsInStateOrder` | app.py:39 | the locations come in the order of their first row within the state |
| `App.Truthy` | app.py:50 | a request field is falsy exactly when it is absent or the empty string |
| `App.Valid` | app.py:50 | the guard holds exactly when neither location nor the parameter is absent or empty; the secondary parameter is not consulted |
| `App.HttpStatus` | app.py:76-84 | status 400 exactly for a rejected request, 500 exactly for a failed column selection, 200 exactly for a verdict |
| `App.ErrorBody` | app.py:76 | the `'Invalid input'` error body appears exactly on a status 400 response |
| `App.Keeps` | app.py:51-52 | a row is kept exactly when its location is the requested one and neither chosen cell is null |
| `App.Project` | app.py:51-52 | the record of a kept row holds its location and its two chosen cells |
| `App.Above` | app.py:57-66 | `>` on means is false when either mean is undefined, and is the order of reals otherwise |
| `App.Select` | app.py:51-52 | every selected sample belongs to the requested location; the selection is empty exactly when no row has that location with both chosen cells present |
| `App.SelectAppend` | app.py:51-52 | the filter distributes over concatenation of row sequences, so file order is kept |
| `App.SelectMembership` | app.py:51-52 | a sample is selected exactly when some row has the location and both cells and projects to it |
| `App.Compare` | app.py:42-84 | invalid input exactly when a location or the parameter is falsy; a column error exactly when a column is absent or the secondary is missing; otherwise the winner is one of the two locations, the data are the two selections, the solution is the lookup for the parameter, and the reason names the winner |
| `App.RejectsMissingFields` | app.py:50-76 | a request missing a location or the parameter gets `InvalidInput` with status 400 and the `'Invalid input'` error body |
| `App.PrimaryMeanDecides` | app.py:57-62 | a strictly higher primary mean wins, on either side |
| `App.SecondaryMeanBreaksTie` | app.py:63-71 | without a strictly higher primary mean, location 1 wins exactly when its secondary mean is strictly higher; otherwise location 2 wins |
| `App.EmptySideSecondWins` | app.py:54-71 | if either location has no qualifying row, location 2 wins |
| `App.SwapKeepsWinner` | app.py:57-62 | with two defined, different primary means, swapping the locations keeps the winner |
| `App.FullTieFavoursSecond` | app.py:63-71 | with equal primary and equal secondary means, the location passed second wins, so swapping them swaps the winner |
| `Series.DropNulls` | app.py:33 | `dropna` keeps exactly the present values and is no longer than the column |
| `Series.DropNullsAppend` | app.py:33 | `dropna` distributes over concatenation |
| `Series.Unique` | app.py:33 | `unique` has no duplicates and holds exactly the values of its input |
| `Series.UniqueFirstOccurrenceOrder` | app.py:33 | `unique` lists its values in the order of their first occurrence |
| `Series.Mean` | app.py:54-55 | the mean is undefined exactly on an empty column; otherwise mean times count is the sum |
| `Series.MeanBetween` | app.py:54-55 | a mean lies between any lower and upper bound of its values |
| `Series.MeanOfConstant` | app.py:54-55 | the mean of a column holding one value is that value |
| `Text.SplitJoin` | clean.py:127 | splitting a `sep.join` of pieces without `sep` (with `sep` unable to overlap itself) gives the pieces back |
| `Clean.Lookup` | clean.py:127 | a key of the table gives its list; a missing key gives `['Unknown']` |
| `Clean.GetPollutionReasons` | clean.py:126-127 | a state without an entry gives `'Unknown'` |
| `Clean.GetPollutionSolutions` | clean.py:130-131 | a parameter without an entry gives `'Unknown'` |
| `Clean.ReasonsTableWellFormed` | clean.py:24-71 | every reasons list has more than one entry and no entry contains `;` |
| `Clean.SolutionsTableWellFormed` | clean.py:73-123 | every solutions list has more than one entry and no entry contains `;` |
| `Clean.LookupRoundTrip` | clean.py:126-131 | for a well-formed table, splitting a lookup's joined string on `'; '` gives back the list it came from, for any key |
| `Clean.ReasonsRoundTrip` | clean.py:126-127 | splitting a state's reasons string on `'; '` gives the state's list in table order, or `['Unknown']` |
| `Clean.SolutionsRoundTrip` | clean.py:130-131 | splitting a parameter's solutions string on `'; '` gives its list in table order, or `['Unknown']` |
| `Clean.UnknownRoundTrip` | clean.py:127 | the default string splits back into the default list |
| `Clean.LookupUnknownExactlyWhenMissing` | clean.py:126-131 | for a well-formed table, the joined string is `'Unknown'` exactly when the key is missing |
| `Clean.ReasonsUnknownExactlyWhenMissing` | clean.py:126-127 | the reasons string is `'Unknown'` exactly for states without an entry |
| `Clean.SolutionsUnknownExactlyWhenMissing` | clean.py:130-131 | the solutions string is `'Unknown'` exactly for parameters without an entry |
| `Clean.SolutionsKeyIsCaseSensitive` | clean.py:130-131 | `'pH'` is a key and `'PH'` is not, so `'PH'` gives `'Unknown'` |
| `Clean.SolutionParametersKnown` | clean.py:137-144 | each of the eight parameters has a solutions entry, and its text splits back into that entry's list |
| `Clean.SolutionTexts` | clean.py:137-144 | the k-th solutions text is the lookup of the k-th parameter; that parameter has an entry, so the text splits into its list in table order and is never `'Unknown'` |
| `Clean.ReasonsFor` | clean.py:134 | a text STATE cell gives `get_pollution_reasons` of its text; a cell that is not text (blank) is no key and gives `'Unknown'` |
| `Clean.AddColumn` | clean.py:134-144 | assigning one column keeps the old columns in front, adds at most one, and ends with exactly the old names and the new one |
| `Clean.AppendNew` | clean.py:137-144 | assigning a block of columns keeps the old columns in front and adds at most one column per name |
| `Clean.AppendNewColumns` | clean.py:134-144 | assigning columns keeps the old ones in front in their order, ends with exactly the old and new names, and never duplicates a name |
| `Clean.AppendNewEight` | clean.py:137-144 | the eight assignments one at a time add the same columns, in the same order, as the block of eight names |
| `Clean.SetCells` | clean.py:137-144 | writing a block of cells adds exactly those keys, leaves every other cell alone, and with distinct names puts the k-th text in the k-th cell |
| `Clean.SetCellsEight` | clean.py:137-144 | eight single-cell writes equal the block write |
| `Clean.AddedHeadersDistinct` | clean.py:134-144 | the nine added column names are all different |
| `Clean.AugmentRecord` | clean.py:134-144 | an augmented row has the old keys plus the nine new ones; its reasons cell is the lookup of its own STATE; its k-th solutions cell is the lookup of the k-th parameter; every other cell is unchanged |
| `Clean.SolutionColumnsConstant` | clean.py:137-144 | every row gets the same text in each solutions column |
| `Clean.Frame.constructor` | clean.py:21 | a frame with distinct column names whose rows have exactly those columns is valid |
| `Clean.Frame.Assign` | clean.py:134 | assigning one value per row: the column is added last if new, the row count is kept, and row i gets value i in that column and nothing else changes |
| `Clean.Frame.AssignConstant` | clean.py:137 | assigning one scalar: every row gets the same text in that column |
| `Clean.Frame.AddPollutionReasons` | clean.py:134 | each row gets the reasons of its own STATE; row count and other cells unchanged |
| `Clean.Frame.AddSolutionColumns` | clean.py:137-144 | the eight solutions columns are added in source order and each row gets the eight texts |
| `Clean.Frame.Augment` | clean.py:134-144 | the whole script: the nine columns are appended in order, the row count is kept, and every row becomes `AugmentRecord` of its old self |

## Left out

- HTTP layer: Flask routing, CORS, `request.json` parsing, `jsonify` and `app.run` (app.py:1-7, app.py:86-87) are I/O. The `/api/data` handler (app.py:27-29) only serialises the table and is not modelled.
- File I/O: reading the CSV with its encoding and writing the updated CSV (app.py:10-11, clean.py:20-21, clean.py:147-150) are I/O. The commented-out block at clean.py:1-14 is dead code.
- Floating point: means are exact sums over counts of reals. Rounding in `mean()` is not modelled, so two means that round to the same float may be distinct reals here.
- Reason text: the `reason` f-strings (app.py:59-71) are modelled as the `Reason` datatype. It records which branch was taken and which names and means it cites, not the rendered text.
- JSON records: `to_dict(orient='records')` is modelled as the sequence of `Sample`s (location, primary value, secondary value) in row order. Dictionary key spelling is not modelled.
- Duplicate column: `parameter == secondary_parameter` selects a duplicated column in the table library. The model compares the column with itself.
- App.Compare: only the numeric columns are parameters, and the model answers `MissingColumn` (status 500) whenever the parameter or the secondary parameter is not one. The code selects any existing column, text columns such as `STATE` included, so it departs from the model in these cases:
  - a text secondary parameter is averaged only in the tie branch (app.py:64-65), so when the primary means differ the code returns a verdict with status 200;
  - the mean of a text column raises an error (status 500) on a non-empty selection, but is not-a-number on an empty one, after which the code goes on to a verdict.
  Column types are not modelled, so these verdicts are not.
- Clean.AugmentRecord, Clean.Frame.AddPollutionReasons, Clean.Frame.Augment: require a STATE column. Without one, clean.py:134 raises a `KeyError` and the script stops; the script assumes the column exists (its comment at clean.py:133), and the model does not give that error path.
- Request field types: every request field is treated as a string or absent. A non-string JSON value (a number, a list) is not modelled.
- AI and report endpoints: the AI proxy and the PDF report are not part of this model; their code is not in `app.py` or `clean.py`.
- Cell types: `Frame` does not constrain which kind of cell a column holds; the script never depends on it.
