# Valorant agent recommender — verified model

The page takes seven player metrics from sliders. It builds a one-row feature table from
them, adds a fixed head-shot percentage (0.25), and adds three playstyle one-hot columns set
to zero. It then narrows and reorders that row to the columns the trained classifier was
fitted on (`feature_names_in_`). The classifier predicts a role. The page then recommends the
first three agents that its role catalog lists for that role.

This project models that logic in Dafny:

- `wrappers.dfy` — module `Wrappers`: the `Option` and `Result` types; `Result.Err` stands for the page's KeyErrors.
- `catalog.dfy` — module `Catalog`: the role → agents table (`RoleToAgents`), Python's `[:3]`
  slice (`Take`), and the lookup-and-truncate recommendation (`Recommend`). It also proves
  that the catalog has four roles, each with at least five agents, and that no agent appears under two roles.
- `frame.dfy` — module `Frame`: the one-row pandas DataFrame behaviour the page relies on.
  `Row` is a value: an insertion-ordered column list plus a map from column name to value.
  `DataFrame` is a class whose fields are updated in place by `Assign` (`df[col] = v`).
  `AddZeroColumns` is the page's `for col in playstyle_columns: input_df[col] = 0` loop, proved
  against the function `ZeroFilled`. `Select` is `df[names]`: the values in schema order, or a
  failure that names every missing column.
- `app.dfy` — module `App`: the metrics record, the base row, and the classifier as a value.
  The classifier holds its feature-name list and an opaque prediction function. `Predict` is
  the button handler as a function. `RecommendAgents` is the same handler written as the page
  runs it, with the mutable frame, and is proved equal to `Predict`.

Metric values are opaque `real`s; nothing computes with them. The playstyle fill value 0 is
modelled as `0.0`.

## Behaviour of the page

- The page always adds the same three playstyle columns, whatever columns the classifier was fitted on.
- A classifier column the row lacks makes `input_df[model.feature_names_in_]` raise pandas' KeyError (`Failure.MissingFeatures`, carrying the missing names).
- Row columns the classifier does not name are dropped silently.
- A predicted role the catalog lacks makes `role_to_agents[predicted_role]` raise a dict KeyError (`Failure.RoleNotInCatalog`, carrying that role).

## Model

| member | source | states |
|---|---|---|
| `Catalog.RoleToAgents` | app/app.py:13-18 | the catalog's keys are exactly Duelist, Controller, Sentinel and Initiator, and every list has at least five agents |
| `Catalog.CatalogAgentsDisjoint` | app/app.py:14-17 | no agent name is listed under two different roles |
| `Catalog.Take` | app/app.py:76 | Python's `s[:n]` gives a prefix of `s` of length `min(n, len(s))`; a short list is returned whole, with no error |
| `Catalog.Recommend` | app/app.py:76 | the lookup succeeds exactly when the role is a catalog key; the result is then a prefix of that role's list of length `min(3, len)`; otherwise it fails with UnknownRole for that role, never with an empty list |
| `Catalog.CatalogRoleYieldsThree` | app/app.py:76 | every catalog role yields exactly the first three agents of its list |
| `Catalog.RecommendedAgentHasOneRole` | app/app.py:14-17 | every recommended agent belongs to exactly one role, the one it was recommended for |
| `Frame.WithColumn` | app/app.py:69 | `df[col] = v` keeps the row well formed; `col` then holds `v`; every other column keeps its value; the key set grows by `col` only; the existing column order is a prefix of the new one |
| `Frame.ZeroFilled` | app/app.py:68-69 | assigning zero to a list of columns, one after another, keeps the row well formed (distinct columns, exactly the keys holding values) |
| `Frame.ZeroFilledSpec` | app/app.py:62-69 | after the zero-fill, every named column holds 0; every other column keeps its value; no other column is added; the earlier columns stay first, in their old order |
| `Frame.Select` | app/app.py:72 | `df[names]` succeeds exactly when every name is a column; the result then has one value per name, in the order of `names`, each the row's value under that name, and other columns are dropped; otherwise the KeyError lists exactly the missing names and never invents a value |
| `Frame.Values` | app/app.py:72 | the values under a list of present columns, aligned position by position with the list |
| `Frame.DataFrame.constructor` | app/app.py:50-59 | `pd.DataFrame([record])` holds exactly the given row |
| `Frame.DataFrame.Assign` | app/app.py:69 | assignment in place leaves the frame holding `WithColumn` of its old row |
| `Frame.AddZeroColumns` | app/app.py:68-69 | the in-place loop leaves the frame holding `ZeroFilled` of its old row: each playstyle column is 0, the other columns keep their values and their order |
| `App.BaseRow` | app/app.py:50-59 | the record is a well-formed row whose columns are the seven metric names followed by `headshot_pct`, in insertion order |
| `App.BaseRowCells` | app/app.py:50-59 | the base row maps each metric name to the user's value unchanged and `headshot_pct` to 0.25, and holds no other column |
| `App.FilledRow` | app/app.py:62-69 | the row after the zero-fill loop is well formed |
| `App.FilledRowCells` | app/app.py:50-69 | the filled row holds exactly the columns the page knows how to fill, each with its value (metric, 0.25 or 0), and keeps the base row's columns first |
| `App.AssembleFeatures` | app/app.py:50-72 | building, zero-filling and narrowing the row gives one value per classifier column, or a failure that names at least one column and only columns the classifier asked for |
| `App.AssembleFeaturesSpec` | app/app.py:50-72 | assembly for a schema succeeds exactly when every schema name is known to the page; the vector then follows the schema order with each name's value; otherwise the failure names exactly the unknown schema names |
| `App.Predict` | app/app.py:72-76 | a missing feature column fails with the missing names; otherwise success happens exactly when the predicted role is a catalog key, and then the result is that role with the first three agents of its catalog list; a role the catalog lacks fails with RoleNotInCatalog for that role |
| `App.RecommendAgents` | app/app.py:50-76 | the handler run step by step, with the frame mutated in place, gives exactly `Predict`'s result |

## Left out

- The Streamlit user interface (page setup, title, sliders, button, result rendering; app/app.py:23-43, 48, 79-82). The slider ranges are enforced by the widgets and do not constrain the logic, so the metrics are any reals.
- Loading the model with `joblib.load` (app/app.py:8): file I/O and deserialisation. The loaded model appears only as a `Classifier` value.
- The classifier's internals (app/app.py:75). Prediction is the opaque function inside `Classifier`, applied to the feature values in schema order; `[0]` of the result is the predicted role.
- Floating-point behaviour and pandas dtypes. Metric values are opaque reals, and the integer 0 written into the playstyle columns is `0.0`.
- pandas' exact KeyError message text. `Failure.MissingFeatures` carries the set of missing names.
- Schema names that occur twice: `Select` returns the value once per occurrence, as pandas does, but the column labels of the resulting frame are not modelled, only its values in order.
- Determinism of repeated calls with the same inputs is not stated as a lemma: `Predict` is a function, so equal inputs give equal results by construction.
