# Toronto Airbnb price estimator — feature encoding and what-if scenarios

This project models the computational core of a single-page nightly-price
estimator for Toronto Airbnb listings (`predictor.py`). The user picks a
neighbourhood, a guest capacity, a room type and five numeric attributes.
The page then does three things:

- It turns those choices into a dictionary of named feature values: five
  numeric columns plus three one-hot columns named `<field>_<value>`.
- It reindexes that dictionary against the fixed feature-column schema of a
  pretrained regressor. The result is a one-row frame with one value per
  schema column, and 0 where the dictionary has no value.
- It derives four "what-if" copies of that baseline row. Each copy assigns
  one column. The page reports each copy's predicted price minus the
  baseline price.

Modules:

- `Frames` (`frames.dfy`) models the one-row table:
  - `Frame(columns, row)` with lookup `Get` (`df[name]`, `name in df.columns`);
  - assignment `Set` (`df[name] = x`), which overwrites a column that exists
    and appends one that does not, as pandas does;
  - `Reindex` (`DataFrame([d]).reindex(columns=…, fill_value=0)`);
  - `FirstIndex` (`list.index`).
- `Decimal` (`decimal.dfy`) renders an integer in decimal, as the f-string
  placeholder does. It also proves that the rendering is injective, by a
  parse round trip.
- `Encoder` (`encoder.dfy`) holds:
  - the user's selection and the loaded artifacts;
  - the default room-type index;
  - the input dictionary `UserInput`;
  - `ColumnValue`, the reference definition of what each column must hold;
  - `Encode`, which builds the baseline frame.
- `Scenarios` (`scenarios.dfy`) holds:
  - the four guarded scenario variants;
  - `Estimate`, which assembles the price and the four deltas;
  - lemmas that restate each scenario's guard in terms of the user's choices.

The regressor is the parameter `predict: Frame -> real`, and nothing is
assumed about it. A reported difference is therefore 0 whenever the
variant's frame equals the baseline frame (a particular regressor may also
give 0 on different frames).

`copy()` followed by a column assignment becomes a value update of an
immutable `Frame`. Every variant is built from the same baseline value,
which no scenario can change.

Where the description of the system and the code differ, the model follows
the code:

- "Switch to Entire Place" only clears `room_type_Private room`. It sets no
  other room-type column, so the variant row has no room type switched on.
- "Add 1 More Guest" sets `accommodates_<a+1>` and leaves
  `accommodates_<a>` at 1. The variant row therefore has two accommodates
  columns switched on.
- "Move to Waterfront Island" likewise leaves the user's own neighbourhood
  column at 1.
- "Add 1 More Guest" tests the loaded column list (line 76) rather than the
  frame's columns. The two are equal after the reindex at line 49, and
  `AddOneGuest` takes both.

## Model

| member | source | states |
|---|---|---|
| `Decimal.NatToString` | predictor.py:44 | an accommodates count renders as a non-empty string of digits, with a leading `0` only for 0 itself |
| `Decimal.ParseNatToString` | predictor.py:74-75 | parsing the rendered text of any count gives the count back |
| `Decimal.NatToStringInjective` | predictor.py:74-76 | different counts render to different texts, so `accommodates_<a+1>` never names the column of `a` |
| `Frames.FirstIndex` | predictor.py:26 | the result is absent exactly when the value does not occur; otherwise it is a position holding the value, with no earlier occurrence |
| `Frames.Reindex` | predictor.py:48-49 | one value per schema column, in schema order: the dictionary's value when it has the key, else 0 |
| `Frames.ReindexIgnoresForeignKeys` | predictor.py:48-49 | removing dictionary keys that are not schema columns leaves the reindexed row unchanged, so such keys are dropped without error |
| `Frames.Frame.Get` | predictor.py:67 | lookup is absent exactly when the label is not a column; otherwise it yields that column's value |
| `Frames.Frame.Set` | predictor.py:91 | the frame stays well formed; an existing column is overwritten in place and a missing one is appended; the assigned column then holds the new value; every other column keeps its value |
| `Encoder.DefaultRoomTypeIndex` | predictor.py:26 | the index is the first position of "Private room" when the list has it, else 0; it is a valid index for any non-empty list |
| `Encoder.ColumnNamesDisjoint` | predictor.py:37-46 | the three one-hot names differ from the five numeric names and from each other, whatever the chosen values are |
| `Encoder.UserInputMatchesColumnValue` | predictor.py:37-46 | the dictionary literal `UserInput` has exactly the five numeric keys and the three one-hot keys, and no key overwrites another |
| `Encoder.Encode` | predictor.py:37-49 | the baseline frame has the schema's columns in order, one value each; numeric columns carry the form values; outside them the row is 1 exactly at the selected one-hot columns and 0 elsewhere |
| `Encoder.EncodeGet` | predictor.py:48-49 | a column lookup in the baseline frame is present exactly when the schema has the column, and then holds the prescribed value |
| `Encoder.AbsentOneHotContributesNothing` | predictor.py:43-49 | a one-hot name missing from the schema leaves the baseline row identical to the row built without that key |
| `Scenarios.SwitchToEntirePlace` | predictor.py:67-69 | the variant exists exactly when `room_type_Private room` is a column holding 1; it clears that column and changes no other |
| `Scenarios.AddOneGuest` | predictor.py:74-78 | the variant exists exactly when the schema has `accommodates_<a+1>`; that column becomes 1 (appended at the end if the frame lacked it) and no other column changes |
| `Scenarios.MoveToWaterfront` | predictor.py:83-85 | the variant exists exactly when the waterfront column is present and holds 0; it becomes 1 and no other column changes |
| `Scenarios.ReduceMinimumNight` | predictor.py:90-91 | always produced; `minimum_nights` becomes `m-1` for `m >= 2` and 1 otherwise, so it is at least 1; the columns stay as they are, or gain `minimum_nights` at the end when it was missing; every other column is unchanged |
| `Scenarios.DeltaOf` | predictor.py:70 | a difference is reported exactly when its scenario ran, and it is the regressor's price on the variant minus its price on the baseline |
| `Scenarios.PrivateRoomColumnValue` | predictor.py:45 | the baseline's `room_type_Private room` value is 1 exactly when the chosen room type is "Private room", else 0 |
| `Scenarios.WaterfrontColumnValue` | predictor.py:43 | the baseline's waterfront value is 1 exactly when the chosen neighbourhood is the waterfront, else 0 |
| `Scenarios.NextAccommodatesColumnValue` | predictor.py:74-76 | the baseline holds 0 in the column for one more guest |
| `Scenarios.ReduceMinimumNightFromOneIsBaseline` | predictor.py:90-92 | with a one-night minimum and `minimum_nights` in the schema, the reduced variant equals the baseline frame |
| `Scenarios.Estimate` | predictor.py:52-92 | the price is the regressor on the baseline; entire-place is reported iff the column exists and "Private room" was chosen; add-guest iff the next count's column exists; waterfront iff its column exists and another neighbourhood was chosen; each reported delta is the regressor's price on that scenario's copy of the baseline, with its one column assigned, minus the baseline price; at a one-night minimum the minimum-night delta is exactly 0 |
| `Scenarios.AddOneGuestChangesOneColumn` | predictor.py:74-78 | the add-guest variant differs from the baseline in exactly one column, which goes from 0 to 1; the current count's column keeps its 1 |
| `Scenarios.ReduceMinimumNightWithinWidgetRange` | predictor.py:32 | for a minimum stay the widget allows (1 to 90), the reduced value lies in 1 to 89 and never exceeds the user's own |
| `Scenarios.WaterfrontPrivateRoomExample` | predictor.py:37-87 | for a private room for two on the waterfront, the three chosen one-hot columns hold 1 and every other non-numeric column holds 0; waterfront is skipped and entire-place is reported |

## Left out

- Widgets and rendering are not modelled: the title, sidebar controls, markdown, metrics and number formatting (lines 15-34, 53-60, 64, 71, 80, 87, 93). The widget ranges appear only as the predicate `Encoder.FromWidgets`.
- Artifact loading with `joblib.load` (lines 8-13) is not modelled. The schema and option lists are the fields of `Encoder.Artifacts`.
- The regressor `xgb.predict` is a foreign call. It is the total, unconstrained parameter `predict`. Its rejection of a frame whose columns differ from the training schema is not modelled.
- The comparison against dataset averages (lines 95-101) and the monthly revenue projection (lines 103-107) are display arithmetic and are not modelled.
- Values are exact reals. Floating-point rounding and pandas column dtypes (int versus float columns) are not modelled. A difference of two predictions on identical rows is 0 in floating point as well.
- Accommodates options are modelled as natural numbers rendered in decimal. An option list stored as floats would render as `2.0`, and that case is not modelled.
- A selectbox over an empty option list, which yields no value, is not modelled.
- The schema is required to have distinct column names (`Distinct`). Duplicate labels, where pandas would assign or return several columns at once, are not modelled.
- Copy-and-assign is a value update. The in-place mutation of the copied frame and any aliasing are not modelled.
- Encoding twice gives the same frame because `Encode` is a function. No separate lemma states this.
