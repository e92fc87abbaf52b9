# Churn feature builder, modelled in Dafny

This project models the feature-building step of a churn-prediction pipeline
(`src/features/build_features.py`). The step takes one raw table and does three
things in order:

1. It checks that every configured column is present. The configured columns
   are the numerical features, the categorical features and the target.
2. It coerces the `TotalCharges` column to numbers. A value that does not parse
   becomes 0.
3. It encodes the target label: `"Yes"` becomes 1 and `"No"` becomes 0.

Files:

- `wrappers.dfy`: the `Option` type that the number parser returns.
- `frame.dfy`: table cells (`Str`, `Num`, `Missing`), the element-wise column
  map `MapCells`, and the `DataFrame` class. A `DataFrame` has ordered distinct
  column names, one cell sequence per column and a row count.
- `build_features.dfy`: the configuration record and the column check. It also
  holds the specification functions for each column and table transform, the
  in-place methods `CleanTotalCharges` and `EncodeTarget`, and `ProcessTable`,
  which is the validate, clean, encode sequence of `main`.
- `properties.dfy`: lemmas that relate several calls or several inputs, and the
  two end-to-end scenarios as client methods.

The cleaner and the encoder overwrite a column of the table in place, so they
are methods over a `DataFrame` with ``modifies df`data``. Each is proved against a
pure function of the old table contents (`CleanData`, `EncodeData`). The
properties the source promises are proved about those functions.

Number parsing is a parameter `parse: string -> Option<real>`. `Some(v)` means
the text reads as the number `v`. `None` means the text does not parse, or reads
as NaN. The model therefore holds for every parser. The floating-point grammar of
`pd.to_numeric` is not modelled.

Where the code departs from what a reader might expect, the model follows the code:

- The cleaner always works on the column named `TotalCharges`. That name is
  fixed in the code (lines 24-27) and is not taken from the configuration.
- The column check does not guarantee that `TotalCharges` exists. A table that
  passes the check but has no such column makes the cleaner raise `KeyError`.
  `ProcessTable` models this as the `KeyError` result, with the table unchanged.
- If the configured target is `TotalCharges` itself, the code still runs. The
  cleaner makes every cell a number, and then the encoder makes every cell
  missing (`TargetTotalChargesAllMissing`).

## Model

| member | source | states |
|---|---|---|
| `Frame.MapCells` | src/features/build_features.py:32 | An element-wise Series operation gives a column of the same length whose cell i is f applied to input cell i. It is the shared per-cell step of the label map here and of the coercion and fill at lines 24-27. |
| `Frame.DataFrame.constructor` | src/features/build_features.py:42 | The table as read holds exactly the given distinct columns, each with the given number of rows. |
| `BuildFeatures.Expected` | src/features/build_features.py:12-16 | The expected list holds exactly the numerical names, the categorical names and the target. |
| `BuildFeatures.ValidateColumns` | src/features/build_features.py:11-20 | The check fails if and only if some configured name is not a column. On failure the reported set is exactly the configured names that are absent, and it is never empty. |
| `BuildFeatures.CoerceColumn` | src/features/build_features.py:24-26 | Coercion keeps the length and leaves no text. Numbers stay, missing stays missing, and text becomes its parsed number or missing. This row also covers the per-cell helper `CoerceCell`. |
| `BuildFeatures.FillMissing` | src/features/build_features.py:27 | Filling keeps the length, turns each missing cell into the fill value, and keeps every other cell. |
| `BuildFeatures.CleanedCharges` | src/features/build_features.py:23-28 | The cleaned charges column has the input's length and only numbers. A number is kept, a parseable text keeps its parsed value, and an unparseable text or a missing cell becomes 0. |
| `BuildFeatures.EncodedTarget` | src/features/build_features.py:32 | The encoded column has the input's length and holds only 1, 0 or missing. A cell is 1 iff it was "Yes", 0 iff it was "No", and missing iff it was anything else. This row also covers the per-cell helper `EncodeLabel`. |
| `BuildFeatures.CleanData` | src/features/build_features.py:23-28 | Cleaning keeps the column names and every column's length. It changes no column other than TotalCharges, and leaves TotalCharges all numeric. |
| `BuildFeatures.EncodeData` | src/features/build_features.py:31-33 | Encoding keeps the column names and every column's length. It changes no column other than the target, and leaves the target holding only 1, 0 or missing. |
| `BuildFeatures.ReplaceColumnKeepsWellFormed` | src/features/build_features.py:24 | Overwriting an existing column with one of the same length keeps the table well formed. |
| `BuildFeatures.CleanTotalCharges` | src/features/build_features.py:23-28 | The in-place cleaner keeps the table well formed. Its new contents are CleanData of the old contents. |
| `BuildFeatures.EncodeTarget` | src/features/build_features.py:31-33 | The in-place encoder keeps the table well formed. Its new contents are EncodeData of the old contents. |
| `BuildFeatures.ProcessTable` | src/features/build_features.py:44-46 | The run raises ValueError iff the check fails, with the check's missing set. It raises KeyError iff the check passes without a TotalCharges column. On either error the table is unchanged. Otherwise it is cleaned and then encoded. The column names and the row count never change. |
| `FeatureProperties.ValidateIgnoresOrderAndDuplicates` | src/features/build_features.py:12-18 | Two configurations that name the same columns, in any order and with any repetition, give the same check result. |
| `FeatureProperties.ValidateDependsOnColumnSet` | src/features/build_features.py:18 | Two tables with the same set of column names give the same check result. |
| `FeatureProperties.ExtraColumnsNeverFail` | src/features/build_features.py:18-20 | A table with more columns passes whenever one with fewer passes. When it fails, it reports a subset of the narrower table's missing names. |
| `FeatureProperties.CleanedChargesIdempotent` | src/features/build_features.py:24-27 | Cleaning an already cleaned charges column changes nothing. |
| `FeatureProperties.CleanDataIdempotent` | src/features/build_features.py:23-28 | Running the cleaner on an already cleaned table changes nothing. |
| `FeatureProperties.EncodedTargetTwiceAllMissing` | src/features/build_features.py:32 | Encoding an encoded column makes every cell missing. |
| `FeatureProperties.EncodeTargetNotIdempotent` | src/features/build_features.py:31-33 | Encoding a column a second time changes it if and only if the column holds a "Yes" or "No" label. |
| `FeatureProperties.CleanEncodeCommute` | src/features/build_features.py:45-46 | When the target is not TotalCharges, cleaning and encoding give the same table in either order. |
| `FeatureProperties.TargetTotalChargesAllMissing` | src/features/build_features.py:45-46 | When the target is TotalCharges, every target cell is missing after the clean-then-encode sequence. |
| `FeatureProperties.EndToEndScenario` | src/features/build_features.py:44-46 | Take columns A, B, TotalCharges, Churn with the row (1, 2, "", "Yes"). The run completes, and the row becomes (1, 2, 0, 1). |
| `FeatureProperties.MissingColumnScenario` | src/features/build_features.py:44-46 | When column B is configured but absent, the run raises ValueError naming exactly {B}. |

## Left out

- `load_config` (lines 6-8) reads a YAML file from a fixed path. The configuration is a plain `Config` value instead. Only the fields this step reads are kept: the numerical and categorical lists and the target. The raw and processed paths are not.
- `pd.read_csv`, `Path.mkdir`, `df.to_csv` and `print` in `main` (lines 42, 48-51) are file-system and console I/O. The table as read is a `DataFrame` built by its constructor. A run that completes is `Done`.
- The numeric grammar and the floating-point results of `pd.to_numeric(errors="coerce")` (lines 24-26) are not modelled. Parsing is an arbitrary `parse` parameter, and numbers are `real`. Infinities are not modelled either: `pd.to_numeric` turns the text `"inf"` into an infinite float that `fillna` keeps, while a `real` cannot hold it. Text whose exponent overflows, such as `"1e400"`, fails to parse and becomes 0, which is `parse` returning `None`.
- pandas dtypes are not modelled. An encoded column is float when it holds NaN and int otherwise, and the model writes every number as `Num(real)`. Cells holding booleans or other non-text, non-numeric objects are not modelled.
- Pandas copy-on-write is an open question. On pandas versions with copy-on-write, `df["TotalCharges"].fillna(0, inplace=True)` (line 27) is a chained assignment and may leave `df` unchanged, so missing charges would stay missing. The model follows the evident intent: missing becomes 0.
- `clean_total_charges` and `encode_target` return the same table object they mutate, and `main` rebinds `df` to it. The methods return nothing, because the caller's `DataFrame` is the mutated table.
- `encode_target` would raise `KeyError` on a missing target column. `EncodeTarget` requires the column instead, because in `main` it is reached only after the check has guaranteed the target is present.
- Running the step twice on the same input gives the same output. In the model this is determinism, and it holds because every step is a function of its inputs. No separate lemma states it.
- The code does not check that configured names are non-empty strings, so the model does not either.
