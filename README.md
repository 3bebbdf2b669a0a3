# NFL fantasy-points pipeline, modelled in Dafny

This project models the deterministic data pipeline of three scripts: the
single-output trainer `nfl-data.py`, the multi-output trainer `ml.py` and the
multi-output predictor `predictor.py`. It covers the parts that sit under the
dataframe calls:

- cleaning the nine stat counters and computing the fantasy score;
- season averages per player group;
- the opponent tier and venue encodings;
- player short names;
- the per-cohort feature and target lists and the choice of training rows;
- rebuilding a feature vector for one prediction query.

The regressors are parameters. Each is a function from the feature vector to the
model's output, so every statement about a prediction holds for any trained model.

The modules:

- `Frame` (`frame.dfy`) is the table. A row has typed `player`, `position` and
  `week` fields plus a map from column name to a numeric or text cell. A missing
  value (pandas' NaN) is a column absent from the row's map. Other members:
  - `Mapped` and the method `MapRows` model a vectorised column assignment over an
    `array<Row>`.
  - `Filter` models a boolean mask and `DropNa` models `dropna(subset=...)`.
  - `MeanIn` models pandas' NaN-skipping group `mean`.
- `Text` (`text.dfy`) holds Python's `str.split()` on its whitespace set, ASCII
  `upper`/`lower`, and the prediction-time venue flag. The venue flag is written the
  same way in both prediction functions, so both modules use this one definition.
- `NflData` (`nfl_data.dfy`) models `nfl-data.py`:
  - the cleaning loop, the score column, the `groupby(...).agg(mean)` table with
    its sorted keys, the left merge, the tier, tier-number and home columns;
  - `Prepare`, the whole script as one method over the table;
  - `PredictFantasyPoints`.
- `Training` (`training.dfy`) models `ml.py`:
  - the tier codes, the `is_home` default, `format_name` and the short-name column;
  - the averaging loop `AddShortAverages`;
  - the feature and target lists, the two cohorts and the helper data;
  - `PrepareTraining`, the whole script.
- `Predictor` (`predictor.dfy`) models `predictor.py`'s `predict_fantasy_points`
  as `Predict`. Its result is an `Outcome`: player not found, opponent not found,
  schema mismatch (the one-row frame cannot be built), or the model's value.

`predictor.py` repeats the training side's `format_name` character for character.
The model keeps one definition, `Training.FormatName`, and `Predictor.Predict`
calls it. Both sides therefore normalise names identically by construction.

`predictor.py` reads `helper_data['num_cols']`, but `ml.py` never stores that key.
The model passes the counter list as a field `numCols` of the predictor's
`Artifacts`. `Predictor.TrainedArtifacts` is the helper data with the training
script's counter list in that field. The lemmas about the trained artefacts are
stated for that value. With any other value the predictor's vector can fail to
fit the schema, and `Predict` returns `SchemaMismatch`.

## Model

| member | source | states |
|---|---|---|
| NflData.Coerce | nfl-data.py:17 | a missing cell becomes 0, a number is kept, and text that is not a number becomes 0; `CoerceCases` and `ParseNatText` give the values of decimal text |
| NflData.CleanRowSpec | nfl-data.py:16-17 | after cleaning, every counter is a number: the coerced old value, with a missing cell or unparseable text becoming 0; other columns and the grouping keys are unchanged |
| NflData.CleanStats | nfl-data.py:16-17 | the loop over the nine counters leaves each row as `CleanRow` of the old row |
| NflData.CoerceCases | nfl-data.py:17 | a missing value becomes 0, decimal text is read as its number, and "n/a" becomes 0 |
| NflData.ParseNatText | nfl-data.py:17 | a whole number written in decimal, with or without a minus sign, is read as that number |
| NflData.FantasyPoints | nfl-data.py:20-30 | a line without turnovers and with no negative counter never scores below 0; `FantasyPointsIsWeightedSum` gives the whole formula |
| NflData.FantasyPointsIsWeightedSum | nfl-data.py:20-30 | the score is the weighted sum of the nine counters with weights 1/25, 4, -2, 1/10, 6, 1, 1/10, 6, -2 |
| NflData.FantasyPointsMonotone | nfl-data.py:20-30 | the score never falls when yards, touchdowns or receptions rise, and never rises when interceptions or lost fumbles rise |
| NflData.FantasyPointsExamples | nfl-data.py:20-30 | an all-zero line scores 0; 250 passing yards, one touchdown and one interception score 12 |
| NflData.ScoreSpec | nfl-data.py:20-30 | scoring stores the formula's value of the row's counters and changes no other column |
| NflData.AddFantasyPoints | nfl-data.py:20-30 | the score column is added to every row of the table |
| NflData.CleanAndScoreSpec | nfl-data.py:16-30 | after cleaning and scoring, the counters and the score are numbers, the score is the formula on the cleaned counters, and all other columns are as read |
| NflData.CleanAndScoreAll | nfl-data.py:16-30 | the table after the cleaning loop and the score assignment is `ScoredRows` of the loaded table |
| NflData.KeyLessOrder | nfl-data.py:33 | groupby's order on (player, position) keys is irreflexive, transitive and total |
| NflData.InsertKey | nfl-data.py:33 | adding a key to a sorted key list keeps it sorted and adds exactly that key |
| NflData.GroupKeys | nfl-data.py:33-44 | the group keys are sorted and are exactly the keys of the rows present |
| NflData.GroupAveragesOwnRows | nfl-data.py:33-44 | a group's means depend only on the rows of that group, and mean `j` is present exactly when some row of the group has a number in column `j` |
| NflData.SeasonAverages | nfl-data.py:33-57 | the season table's keys strictly increase in groupby's order; every row's key has a table row and every table row's key is some row's key; each table row holds its own group's means |
| NflData.PutAveragesSpec | nfl-data.py:46-59 | the means are stored under the `_season_avg` names; every column other than the names written, and the key, are kept |
| NflData.FindGroupOfRow | nfl-data.py:59 | the merge finds, for the key of any row of the data, that key's own group means |
| NflData.MergeRow | nfl-data.py:59 | the merge keeps the row's (player, position) key; `MergeRowSpec` gives the columns |
| NflData.MergeRowSpec | nfl-data.py:59 | the left merge adds the matched group's means (missing when no group matches) and keeps every column other than the ten `_season_avg` names |
| NflData.MergeSeasonAverages | nfl-data.py:59 | the merge is applied to every row of the table |
| NflData.TiersResolve | nfl-data.py:62-73 | every team of `team_to_tier` has a tier that `tier_map` maps, and top (2) > mid (1) > bottom (0) |
| NflData.TeamCodesUpperCase | nfl-data.py:62-70 | every team code is its own upper-case form |
| NflData.EncodeContextSpec | nfl-data.py:76-82 | the encoding writes the opponent's `team_to_tier` label (missing for a team outside the table), the tier number, which is present exactly when the opponent has a tier, and the home flag, and keeps every other column |
| NflData.EncodeContext | nfl-data.py:76-82 | the three column assignments together encode every row |
| NflData.OpponentTierNumber | nfl-data.py:76-79 | a row against a team of the table has that team's tier number |
| NflData.FeaturesFollowCounters | nfl-data.py:85-97 | the 11 features are the nine counters' `_season_avg` names in counter order, then the tier number and the home flag |
| NflData.FeaturesAreAvgNames | nfl-data.py:85-97 | the feature list is the average names of the counters followed by the two context columns |
| NflData.AverageOfRow | nfl-data.py:33-59 | counter `j`'s season average on a pipeline row is present and equals the mean of that counter over the scored rows of the row's (player, position) group |
| NflData.SameGroupSameAverages | nfl-data.py:33-59 | all rows of one (player, position) group carry identical season averages |
| NflData.ScoreOfRow | nfl-data.py:20-59 | a pipeline row keeps its own score, the training label |
| NflData.TierOfRow | nfl-data.py:76-79 | a pipeline row holds its opponent's tier number, or none when the opponent has no tier |
| NflData.HomeOfRow | nfl-data.py:82 | a pipeline row holds the home flag of its venue as read |
| NflData.FeatureOfRow | nfl-data.py:85-97 | feature `j` of a pipeline row is the group mean of counter `j`, then the tier number, then the home flag |
| NflData.TrainingColsSplit | nfl-data.py:99 | a row has every training column exactly when it has every feature and the score |
| NflData.TrainingRowSelection | nfl-data.py:76-99 | a pipeline row has all 11 features and the score exactly when its opponent is in the tier table |
| NflData.Prepare | nfl-data.py:16-99 | the script's table is `Featurize` of the loaded table, the season table is `SeasonTable` of it, and the training rows are those with every training column |
| NflData.VectorMatchesQuery | nfl-data.py:101-142 | a row's model input (its values of the 11 features) is the query frame of a group, tier number and home flag exactly when the row holds the group's nine counter means, that tier number and that flag |
| NflData.QueryVectorsEqual | nfl-data.py:130-142 | two query frames are equal exactly when their groups' nine counter means, their tier numbers and their home flags are equal |
| NflData.PredictFantasyPoints | nfl-data.py:115-145 | the result is "no data" exactly when no season-table row has the player's name, and "unknown opponent" exactly when the name is found but the upper-cased opponent is not a team of the table; otherwise the model gets the query vector of the first matching row |
| NflData.PredictionUsesLeastPosition | nfl-data.py:120 | the first table row of a player is, among that player's positions, the least one in groupby's order |
| NflData.TwoPositionsDisagree | nfl-data.py:115-144 | for a player listed under two positions, a row of the greater position is queried with the group of a lesser position, so its training vector is not what the model gets when the two groups' means differ |
| NflData.TrainingVectorIsQueryVector | nfl-data.py:101-142 | a training row's vector is the query vector of its own group, tier and venue |
| NflData.OnlyGroupOfPlayer | nfl-data.py:116-120 | a player with one position has a season-table row, and every such row is that group's means |
| NflData.PredictionUsesGroup | nfl-data.py:115-144 | for a player with one position and a known opponent, the model gets that group's means, the tier number and the venue flag |
| NflData.PredictionReproducesTrainingRow | nfl-data.py:115-144 | querying a training row's own player, opponent and venue feeds the model exactly that row's training vector, when the venue text is "home" or does not lower-case to "home" |
| NflData.VenueFlagsAgree | nfl-data.py:82 | the training and query home flags agree unless the venue is a case variant of "home" other than "home" itself |
| NflData.VenueCaseDisagreement | nfl-data.py:82 | a row whose venue reads "Home" is trained as away but queried as home |
| Frame.DropNa | nfl-data.py:99 | `dropna` keeps exactly the rows with every listed column present, each as often as it occurs |
| Frame.MeanIn | nfl-data.py:33-44 | a group mean is present exactly when some row of the group has a number in the column |
| Frame.MeanOfConstant | nfl-data.py:33-44 | the mean of a group whose values are all `v` is `v` |
| Frame.MeanDependsOnColumn | ml.py:35 | a group mean depends only on group membership and the values of its column |
| Frame.MapRows | nfl-data.py:76 | a vectorised column assignment applies the row function to every row of the table |
| Training.TierCodesOrder | ml.py:11 | the tier codes cover exactly top, mid and bottom, with top (3) > mid (2) > bottom (1) |
| Training.AddTierCodeSpec | ml.py:12 | the tier code is missing exactly when the tier label is not one of the three tiers; "top" gives 3 and "bottom" gives 1 |
| Training.IsHomeDefaultSpec | ml.py:15 | a table without `is_home` gets 0 on every row; a table with it keeps it |
| Training.FormatName | ml.py:18-22 | a name that splits into fewer than two tokens (one token, empty, or only whitespace) is returned unchanged, so in particular a name without whitespace is |
| Training.FormatNameShape | ml.py:18-22 | a name of two or more tokens becomes the first token's initial, a dot and the last token, with no whitespace |
| Training.FormatNameIdempotent | ml.py:18-22 | formatting a formatted name changes nothing |
| Training.FormatNameOfTwo | ml.py:18-22 | two blank-separated tokens give the first one's initial, a dot and the second one |
| Training.FormatNameTwoTokens | ml.py:18-22 | "Aaron Rodgers" becomes "A.Rodgers" |
| Training.EncodeRowSpec | ml.py:12-24 | after the three assignments, a row holds its short name, its tier code and its home flag, with the other columns unchanged |
| Training.EncodeTable | ml.py:12-24 | the three assignments are applied to every row of the table |
| Training.WithShortAveragesKeeps | ml.py:34-35 | the first `k` passes write only the `k` averages' `_season_avg` names; every other column, the player and the position are kept |
| Training.WithShortAveragesValues | ml.py:34-35 | after `k` passes, the first `k` counters' short-name means are stored under their `_season_avg` names |
| Training.PassMeansUnchanged | ml.py:34-35 | each pass computes the same means on the partly updated table as on the table before the loop |
| Training.PassStep | ml.py:34-35 | one pass on the table after `k` passes gives the table after `k + 1` passes |
| Training.AddShortAverages | ml.py:34-35 | the loop leaves the table as the specification of all nine passes on the table before it |
| Training.EncodedShortMean | ml.py:24-35 | the short-name mean on the encoded table is the mean over the loaded rows whose player has that short name |
| Training.ShortAverageOfRow | ml.py:24-35 | counter `j`'s season average on a training row is the mean of that counter over all loaded rows whose player has the same short name |
| Training.SameShortNameSameAverages | ml.py:24-35 | rows whose players share a short name carry the same averages, whatever their positions |
| Training.TrainingRowEncoded | ml.py:12-35 | a training row holds its short name, its tier code and its home flag, with the row's player and position; the table keeps the number of rows |
| Training.TrainingRowKeepsColumn | ml.py:12-35 | a training row keeps, as loaded, every column other than the nine averages, the tier code, the home flag and the short name |
| Training.TrainingRowKeeps | ml.py:12-35 | a training row keeps its counters, its tier label and its opponent |
| Training.SkillListsExcludePassing | ml.py:39-43 | for any counter list, the skill lists hold no passing counter and no passing counter's average |
| Training.SkillBaseOfNumCols | ml.py:39-43 | the skill counters are the last six counters, in order |
| Training.QbSchema | ml.py:27-42 | `qb_features` has 11 names: the nine averages in counter order, then the tier code and the home flag; `qb_target_stats` is the counter list |
| Training.SkillSchema | ml.py:39-43 | `skill_features` has 8 names: the six non-passing averages in order, then the tier code and the home flag; `skill_target_stats` is the six non-passing counters |
| Training.QbRows | ml.py:46 | every row of the QB cohort is a QB row of the table with every QB feature and target present; `QbCohort` gives the converse and the counts |
| Training.SkillRows | ml.py:47 | every row of the skill cohort is an RB, WR or TE row of the table with every skill feature and target present; `SkillCohort` gives the converse and the counts |
| Training.QbCohort | ml.py:46 | the QB cohort holds exactly the QB rows with every QB feature and target present, each as often as the table holds it |
| Training.SkillCohort | ml.py:47 | the skill cohort holds exactly the RB, WR and TE rows with every skill feature and target present, each as often as the table holds it |
| Training.CohortsDisjoint | ml.py:46-47 | no row is in both cohorts, and rows of other positions are in neither |
| Training.Helper | ml.py:66-72 | the helper data holds the tier codes and the four lists |
| Training.PrepareTraining | ml.py:11-72 | the script's table is `TrainingTable` of the loaded table, the cohorts are selected from it, and the helper data is `Helper` |
| Predictor.TrainedArtifacts | predictor.py:8-12 | the artefacts hold the training script's tier codes, schemas and counter list, and each stored schema is exactly the predictor's base columns for that counter list and cohort followed by the tier code and the home flag |
| Predictor.FirstTier | predictor.py:27-30 | a resolved tier is one of the codes of the tier map |
| Predictor.FirstTierSpec | predictor.py:27-30 | the opponent's tier is missing exactly when no row whose opponent is exactly the query has a known tier, and otherwise it is the code of the first such row |
| Text.QueryIsHomeSpec | predictor.py:32 | the flag is 1 exactly for "home" in any letter case, and 0 otherwise |
| Predictor.LatestIn | predictor.py:34 | the chosen row is of the player, has the greatest week, and is the last of the rows with that week |
| Predictor.InputVectorIsTrainingValues | predictor.py:37-45 | the vector sent is the row's own values of the base columns, the tier code and the home flag (what the trainer fitted on) exactly when the row stores the tier code and home flag that are sent |
| Predictor.Query | predictor.py:36-47 | the position branch reaches the model or a schema mismatch; on success the output is the QB model's value for a QB and the skill model's otherwise, on a vector as long as that cohort's schema |
| Predictor.QuerySpec | predictor.py:36-47 | a successful branch calls the QB model exactly for position QB, and otherwise the skill model, on the base averages, the tier code and the venue flag |
| Predictor.TrainedQuery | predictor.py:36-47 | with the trained artefacts the branch never mismatches: the vector has 11 (QB) or 8 entries matching the cohort's schema position by position |
| Predictor.PlayerNotFoundIff | predictor.py:21-23 | the call fails with "not found", calling no model, exactly when no row carries the query's short name |
| Predictor.OpponentNotFoundIff | predictor.py:27-30 | the call fails with "opponent not found", calling no model, exactly when the player is found but no row against the exact opponent has a known tier |
| Predictor.Predict | predictor.py:20-47 | "player not found" names the query's player and "opponent not found" its opponent; a success is the chosen cohort model's output on a vector as long as that cohort's schema |
| Predictor.PredictedSpec | predictor.py:20-47 | a success uses the position of the player's first row, the player's latest row, the opponent's tier code and the venue flag |
| Predictor.TrainedSchemaMatch | predictor.py:36-47 | with the trained artefacts the vector matches `qb_features` or `skill_features`: the latest row's averages, then the tier, then the venue flag |
| Predictor.TrainedTierCode | predictor.py:27-30 | a resolved tier code is 3, 2 or 1 |
| Predictor.PredictionUsesShortMeans | predictor.py:20-47 | on the training table, entry `j` of the vector is the mean of the cohort's counter `j` over the loaded rows whose player has the query's short name |
| Predictor.TrainedPredictionReproducesRow | predictor.py:20-47 | querying a training row's own player, opponent and venue calls the row's cohort model on exactly the row's values of that cohort's schema, the vector the row contributes to `X_qb` or `X_skill` |
| Predictor.MissingIsHomeDisagreement | ml.py:15 | without an `is_home` column every training row is fitted with home flag 0, while a "home" query sends 1 |

## Left out

- File input and model persistence (`read_json`, `joblib.dump`, `joblib.load`) are left out. The loaded table is the input of the methods, and the models are function parameters.
- The artefact file names differ between the two sides (`qb_model.joblib` read, `qb_multi_model.joblib` written). That wiring is outside the model.
- Model fitting, `train_test_split` and the MAE evaluation are left out. The regressors are uninterpreted functions.
- Floating point is modelled as exact `real` arithmetic, so means and the divisions by 25 and 10 are exact.
- Printing and the text of the result strings (`.2f`, `title()`, `upper()` in the message) are left out. The outcome datatypes carry the values instead. In `predictor.py` the model's output is a vector, which `.2f` formatting would reject.
- Predictor.LatestIn: among rows of equal greatest week it takes the last in table order. `sort_values('week')` uses a sort that is not guaranteed stable, so the row pandas picks among ties is not fixed.
- Frame.NumberAt: a column the table lacks reads as missing. pandas would raise `KeyError` when selecting such a column.
- Training.AddShortAverages: a non-numeric counter cell is skipped by the mean. pandas' `mean` would raise on text.
- Training.SameShort: a row without a short name is in no group. `groupby` drops such rows the same way.
- Text.Upper and Text.Lower map ASCII letters only. Python's Unicode case mapping is not modelled. `Text.Split` uses Python's full whitespace set.
- `to_avg` in `ml.py` is never used. It is not modelled.
- Training.IsHomeDefault: whether the loaded table has an `is_home` column is a parameter, since column existence is a property of the table, not of a row.
- NflData.Coerce: `to_numeric` is modelled for decimal text with an optional sign and fraction. Exponents, `inf`, `nan` and surrounding whitespace are not modelled.
- The two sides read the venue differently. Training compares `home_away` to "home" case-sensitively, while prediction lower-cases first. `NflData.VenueCaseDisagreement` shows the difference, and `NflData.PredictionReproducesTrainingRow` assumes a venue on which the two agree.
- Rows have typed `player`, `position` and `week` fields, so these values cannot be missing. In pandas, `groupby` drops the rows whose player or position is NaN, and `sort_values('week')` puts a NaN week last. The model does not capture either behaviour.
- NflData.PredictionReproducesTrainingRow: assumes the player is listed under a single position. `.iloc[0]` takes the group of the player's least position, so a row of another position is queried with the wrong means. `NflData.TwoPositionsDisagree` shows this case.
- Predictor.TrainedPredictionReproducesRow: assumes the loaded table has `is_home`, that every row with the player's short name has one position, and that every row against the opponent with a known tier has the same tier. When `is_home` is missing, training sees 0 on every row while a "home" query sends 1; `Predictor.MissingIsHomeDisagreement` shows this.
- NflData.CleanStats: a counter column absent from the whole feed is stored as 0 on every row. In the script `df.get(col, 0)` then yields the scalar 0, and `.fillna(0)` on it raises `AttributeError`, so the script stops. Only NaN cells of an existing column become 0 in the source.
- NflData.CleanRowSpec: the same gap. Its "a missing cell becomes 0" also covers a column the whole feed lacks, where the script fails instead.
- NflData.MergeRowSpec: when the loaded table already has one of the ten `_season_avg` columns, the model's merge overwrites it. pandas' left merge keeps both as `<name>_x` and `<name>_y`, leaves no column of the plain name, and the later `dropna` on the feature names raises `KeyError`.
