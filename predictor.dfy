/** The multi-output predictor: it looks a player up by short name in the training
    table, resolves the opponent's tier code from that table, reads the venue, takes the
    player's latest-week row and assembles the input vector of the player's cohort. */
module Predictor {
  import opened Frame
  import opened Text
  import opened Training

  /** The stored artefacts the predictor reads: the tier codes, the counter list and the
      two feature schemas. */
  datatype Artifacts = Artifacts(tierMap: map<string, real>, numCols: seq<string>,
                                 qbFeatures: seq<string>, skillFeatures: seq<string>)

  /** The artefacts as the training script stores them, with the counter list the
      training script uses: each stored schema is exactly the predictor's average columns
      for that counter list and cohort, then the tier code and the home flag. */
  function TrainedArtifacts(): (a: Artifacts)
    ensures a.tierMap == Helper().tierMap && a.qbFeatures == Helper().qbFeatures && a.skillFeatures == Helper().skillFeatures
    ensures a.numCols == NumCols
    ensures a.qbFeatures == BaseColumns(a.numCols, QbModel) + [TierCol, IsHomeCol]
    ensures a.skillFeatures == BaseColumns(a.numCols, SkillModel) + [TierCol, IsHomeCol]
  {
    Artifacts(Helper().tierMap, NumCols, Helper().qbFeatures, Helper().skillFeatures)
  }

  datatype Cohort = QbModel | SkillModel

  /** What a prediction call returns. No model is consulted on the first three. */
  datatype Outcome =
    | PlayerNotFound(player: string)
    | OpponentNotFound(opponent: string)
    | SchemaMismatch(expected: nat, given: nat)
    | Predicted(cohort: Cohort, input: seq<Option<real>>, values: seq<real>)

  /** The rows of the player with short name `short`. */
  function HasShort(short: string): Row -> bool
  {
    r => ShortOf(r) == Some(short)
  }

  /** The tier code of row `r` for a query about `opponent`: the mapped tier label of a
      row whose opponent is exactly `opponent`, else missing. */
  function OpponentTier(tierMap: map<string, real>, r: Row, opponent: string): Option<real>
  {
    if Get(r, OpponentCol) == Some(Text(opponent)) then TierCode(tierMap, r) else None
  }

  function HasTier(tierMap: map<string, real>, opponent: string): Row -> bool
  {
    r => OpponentTier(tierMap, r, opponent).Some?
  }

  /** `tiers[0]` of the mapped, NaN-free, de-duplicated tiers of the opponent's rows,
      which `unique()` keeps in order of first appearance. */
  function FirstTier(tierMap: map<string, real>, data: seq<Row>, opponent: string): (t: Option<real>)
    ensures t.Some? ==> t.value in tierMap.Values
  {
    match FirstIndex(data, HasTier(tierMap, opponent))
    case Some(i) => OpponentTier(tierMap, data[i], opponent)
    case None => None
  }

  /** The tier is missing exactly when no row of the opponent has a known tier label;
      otherwise it is the code of the first such row. */
  lemma {:induction false} FirstTierSpec(tierMap: map<string, real>, data: seq<Row>, opponent: string)
    ensures FirstTier(tierMap, data, opponent).None? <==>
      forall i :: 0 <= i < |data| ==> OpponentTier(tierMap, data[i], opponent).None?
    ensures FirstTier(tierMap, data, opponent).Some? ==>
      exists i :: 0 <= i < |data| && Get(data[i], OpponentCol) == Some(Text(opponent)) &&
        Some(FirstTier(tierMap, data, opponent).value) == TierCode(tierMap, data[i]) &&
        forall j :: 0 <= j < i ==> OpponentTier(tierMap, data[j], opponent).None?
  {
    match FirstIndex(data, HasTier(tierMap, opponent))
    case Some(i) =>
      assert Get(data[i], OpponentCol) == Some(Text(opponent));
    case None =>
  }

  /** The latest row satisfying `p` among the first `n` rows: the greatest week, and of
      the rows with that week the last (what `sort_values('week').iloc[-1]` returns
      when the sort keeps ties in table order). */
  function LatestIn(data: seq<Row>, p: Row -> bool, n: nat): (k: Option<nat>)
    requires n <= |data|
    ensures k.None? <==> forall i :: 0 <= i < n ==> !p(data[i])
    ensures k.Some? ==> k.value < n && p(data[k.value])
    ensures k.Some? ==> forall i :: 0 <= i < n && p(data[i]) ==> data[i].week <= data[k.value].week
    ensures k.Some? ==> forall i :: k.value < i < n && p(data[i]) ==> data[i].week < data[k.value].week
  {
    if n == 0 then None
    else
      match LatestIn(data, p, n - 1)
      case None => if p(data[n - 1]) then Some(n - 1) else None
      case Some(b) => if p(data[n - 1]) && data[n - 1].week >= data[b].week then Some(n - 1) else Some(b)
  }

  /** The vector handed to the model: the player row's values of `base`, in order,
      then the tier code and the home flag. */
  function InputVector(row: Row, base: seq<string>, tier: real, isHome: real): (x: seq<Option<real>>)
    ensures |x| == |base| + 2
    ensures forall j :: 0 <= j < |base| ==> x[j] == NumberAt(row, base[j])
    ensures x[|base|] == Some(tier) && x[|base| + 1] == Some(isHome)
  {
    Values(row, base) + [Some(tier), Some(isHome)]
  }

  /** The vector sent for a row is that row's own values of the schema `base` + tier code
      + home flag (what the trainer fitted on) exactly when the row's stored tier code and
      home flag are the ones sent. */
  lemma {:induction false} InputVectorIsTrainingValues(row: Row, base: seq<string>, tier: real, isHome: real)
    ensures InputVector(row, base, tier, isHome) == Values(row, base + [TierCol, IsHomeCol]) <==>
      NumberAt(row, TierCol) == Some(tier) && NumberAt(row, IsHomeCol) == Some(isHome)
  {
    var x, v := InputVector(row, base, tier, isHome), Values(row, base + [TierCol, IsHomeCol]);
    assert (base + [TierCol, IsHomeCol])[|base|] == TierCol && (base + [TierCol, IsHomeCol])[|base| + 1] == IsHomeCol;
    if x == v {
      assert x[|base|] == v[|base|] && x[|base| + 1] == v[|base| + 1];
    }
    if NumberAt(row, TierCol) == Some(tier) && NumberAt(row, IsHomeCol) == Some(isHome) {
      forall j | 0 <= j < |x| ensures x[j] == v[j] {
        if j < |base| {
          assert (base + [TierCol, IsHomeCol])[j] == base[j];
        }
      }
    }
  }

  /** Two rows with the same values of `base` give the same vector. */
  lemma {:induction false} InputVectorOfSameBase(row: Row, row': Row, base: seq<string>, tier: real, isHome: real)
    requires forall j :: 0 <= j < |base| ==> NumberAt(row, base[j]) == NumberAt(row', base[j])
    ensures InputVector(row, base, tier, isHome) == InputVector(row', base, tier, isHome)
  {
    assert Values(row, base) == Values(row', base);
  }

  /** The average columns the predictor reads for a cohort. */
  function BaseColumns(numCols: seq<string>, cohort: Cohort): seq<string>
  {
    match cohort
    case QbModel => AvgNames(numCols)
    case SkillModel => AvgNames(SkillBase(numCols))
  }

  /** Building the one-row frame with the cohort's column names, which fails when the
      vector and the schema differ in length, then calling the cohort's model. */
  function Assemble(cohort: Cohort, model: seq<Option<real>> -> seq<real>, schema: seq<string>, x: seq<Option<real>>): Outcome
  {
    if |x| != |schema| then SchemaMismatch(|schema|, |x|) else Predicted(cohort, x, model(x))
  }

  function CohortOf(position: string): Cohort
  {
    if position == "QB" then QbModel else SkillModel
  }

  /** `predict_fantasy_points` with the two models as function parameters. */
  function Predict(art: Artifacts, qbModel: seq<Option<real>> -> seq<real>, skillModel: seq<Option<real>> -> seq<real>,
                   data: seq<Row>, player: string, opponent: string, venue: string): (o: Outcome)
    ensures o.PlayerNotFound? ==> o.player == player
    ensures o.OpponentNotFound? ==> o.opponent == opponent
    ensures o.Predicted? ==> o.values == if o.cohort == QbModel then qbModel(o.input) else skillModel(o.input)
    ensures o.Predicted? ==> |o.input| == |if o.cohort == QbModel then art.qbFeatures else art.skillFeatures|
  {
    var short := FormatName(player);
    match FirstIndex(data, HasShort(short))
    case None => PlayerNotFound(player)
    case Some(first) =>
      match FirstTier(art.tierMap, data, opponent)
      case None => OpponentNotFound(opponent)
      case Some(tier) =>
        var latest := LatestIn(data, HasShort(short), |data|).value;
        Query(art, qbModel, skillModel, data[first].position, data[latest], tier, QueryIsHome(venue))
  }

  /** The branch on the player's position: a QB gets the QB model on all nine
      averages, any other position the skill model on the six non-passing ones. */
  function Query(art: Artifacts, qbModel: seq<Option<real>> -> seq<real>, skillModel: seq<Option<real>> -> seq<real>,
                 position: string, row: Row, tier: real, isHome: real): (out: Outcome)
    ensures out.Predicted? || out.SchemaMismatch?
    ensures out.Predicted? ==> out.values == if out.cohort == QbModel then qbModel(out.input) else skillModel(out.input)
    ensures out.Predicted? ==> |out.input| == |if out.cohort == QbModel then art.qbFeatures else art.skillFeatures|
  {
    var cohort := CohortOf(position);
    var x := InputVector(row, BaseColumns(art.numCols, cohort), tier, isHome);
    match cohort
    case QbModel => Assemble(QbModel, qbModel, art.qbFeatures, x)
    case SkillModel => Assemble(SkillModel, skillModel, art.skillFeatures, x)
  }

  /** A successful branch calls the model of the position's cohort on the row's values
      of the cohort's average columns, then the tier code and the venue flag. */
  lemma {:induction false} QuerySpec(art: Artifacts, qbModel: seq<Option<real>> -> seq<real>, skillModel: seq<Option<real>> -> seq<real>,
                  position: string, row: Row, tier: real, isHome: real)
    requires Query(art, qbModel, skillModel, position, row, tier, isHome).Predicted?
    ensures var out := Query(art, qbModel, skillModel, position, row, tier, isHome);
      var base := BaseColumns(art.numCols, out.cohort);
      (out.cohort == QbModel <==> position == "QB") &&
      out.values == (if out.cohort == QbModel then qbModel(out.input) else skillModel(out.input)) &&
      |out.input| == |base| + 2 &&
      (forall j :: 0 <= j < |base| ==> out.input[j] == NumberAt(row, base[j])) &&
      out.input[|base|] == Some(tier) && out.input[|base| + 1] == Some(isHome)
  {
  }

  /** The branch never mismatches the schema when the schemas are those of the training
      script and so is the counter list. */
  lemma {:induction false} TrainedQuery(qbModel: seq<Option<real>> -> seq<real>, skillModel: seq<Option<real>> -> seq<real>,
                     position: string, row: Row, tier: real, isHome: real)
    ensures Query(TrainedArtifacts(), qbModel, skillModel, position, row, tier, isHome).Predicted?
    ensures var out := Query(TrainedArtifacts(), qbModel, skillModel, position, row, tier, isHome);
      var schema := if position == "QB" then QbFeatures(NumCols) else SkillFeatures(NumCols);
      |out.input| == |schema| == (if position == "QB" then 11 else 8) &&
      (forall j :: 0 <= j < |schema| - 2 ==> out.input[j] == NumberAt(row, schema[j])) &&
      schema[|schema| - 2] == TierCol && schema[|schema| - 1] == IsHomeCol
  {
    QbSchema();
    SkillSchema();
    var out := Query(TrainedArtifacts(), qbModel, skillModel, position, row, tier, isHome);
    var cohort := CohortOf(position);
    var schema := if position == "QB" then QbFeatures(NumCols) else SkillFeatures(NumCols);
    var base := BaseColumns(NumCols, cohort);
    assert |base| == |schema| - 2;
    assert forall j :: 0 <= j < |base| ==> base[j] == schema[j];
    QuerySpec(TrainedArtifacts(), qbModel, skillModel, position, row, tier, isHome);
  }

  /** The call fails with "not found", consulting no model, exactly when no row of the
      table carries the query's short name. */
  lemma {:induction false} PlayerNotFoundIff(art: Artifacts, qbModel: seq<Option<real>> -> seq<real>, skillModel: seq<Option<real>> -> seq<real>,
                          data: seq<Row>, player: string, opponent: string, venue: string)
    ensures Predict(art, qbModel, skillModel, data, player, opponent, venue).PlayerNotFound? <==>
      forall i :: 0 <= i < |data| ==> ShortOf(data[i]) != Some(FormatName(player))
  {
  }

  /** The call fails with "opponent not found", consulting no model, exactly when the
      player is found but no row whose opponent is exactly the query has a known tier. */
  lemma {:induction false} OpponentNotFoundIff(art: Artifacts, qbModel: seq<Option<real>> -> seq<real>, skillModel: seq<Option<real>> -> seq<real>,
                            data: seq<Row>, player: string, opponent: string, venue: string)
    ensures Predict(art, qbModel, skillModel, data, player, opponent, venue).OpponentNotFound? <==>
      (exists i :: 0 <= i < |data| && ShortOf(data[i]) == Some(FormatName(player))) &&
      forall i :: 0 <= i < |data| ==> OpponentTier(art.tierMap, data[i], opponent).None?
  {
    var short := FormatName(player);
    match FirstIndex(data, HasShort(short))
    case None =>
      assert forall i :: 0 <= i < |data| ==> !HasShort(short)(data[i]);
    case Some(first) =>
      assert ShortOf(data[first]) == Some(short);
      FirstTierSpec(art.tierMap, data, opponent);
  }

  /** The player's row for the prediction is the latest of the rows with the query's short name. */
  function LatestRow(data: seq<Row>, player: string): Option<nat>
  {
    LatestIn(data, HasShort(FormatName(player)), |data|)
  }

  /** On success the call reaches the branch with the position of the player's first
      row, the player's latest row, the opponent's tier code and the venue flag. */
  lemma {:induction false} PredictedSpec(art: Artifacts, qbModel: seq<Option<real>> -> seq<real>, skillModel: seq<Option<real>> -> seq<real>,
                      data: seq<Row>, player: string, opponent: string, venue: string)
    requires Predict(art, qbModel, skillModel, data, player, opponent, venue).Predicted?
    ensures FirstIndex(data, HasShort(FormatName(player))).Some? && LatestRow(data, player).Some?
    ensures FirstTier(art.tierMap, data, opponent).Some?
    ensures Predict(art, qbModel, skillModel, data, player, opponent, venue) ==
      Query(art, qbModel, skillModel, data[FirstIndex(data, HasShort(FormatName(player))).value].position,
            data[LatestRow(data, player).value], FirstTier(art.tierMap, data, opponent).value, QueryIsHome(venue))
  {
  }

  /** With the trained artefacts the vector always fits the schema: the QB vector has 11
      entries holding the latest row's values of `qb_features` in order, the skill
      vector 8 entries holding those of `skill_features`, and the last two entries stand
      where the schemas name the tier code and the home flag. */
  lemma {:induction false} TrainedSchemaMatch(qbModel: seq<Option<real>> -> seq<real>, skillModel: seq<Option<real>> -> seq<real>,
                           data: seq<Row>, player: string, opponent: string, venue: string)
    ensures !Predict(TrainedArtifacts(), qbModel, skillModel, data, player, opponent, venue).SchemaMismatch?
    ensures var out := Predict(TrainedArtifacts(), qbModel, skillModel, data, player, opponent, venue);
      out.Predicted? ==>
        var schema := if out.cohort == QbModel then QbFeatures(NumCols) else SkillFeatures(NumCols);
        |out.input| == |schema| &&
        (forall j :: 0 <= j < |schema| - 2 ==> out.input[j] == NumberAt(data[LatestRow(data, player).value], schema[j])) &&
        out.input[|schema| - 2] == FirstTier(TrainedArtifacts().tierMap, data, opponent) &&
        out.input[|schema| - 1] == Some(QueryIsHome(venue))
  {
    var out := Predict(TrainedArtifacts(), qbModel, skillModel, data, player, opponent, venue);
    var short := FormatName(player);
    match FirstIndex(data, HasShort(short))
    case None =>
    case Some(first) =>
      match FirstTier(TrainedArtifacts().tierMap, data, opponent)
      case None =>
      case Some(tier) =>
        var latest := LatestIn(data, HasShort(short), |data|).value;
        var position := data[first].position;
        TrainedQuery(qbModel, skillModel, position, data[latest], tier, QueryIsHome(venue));
        QuerySpec(TrainedArtifacts(), qbModel, skillModel, position, data[latest], tier, QueryIsHome(venue));
  }

  /** A tier code resolved with the training script's codes is 3, 2 or 1. */
  lemma {:induction false} TrainedTierCode(data: seq<Row>, opponent: string)
    ensures FirstTier(TierCodes, data, opponent).Some? ==> FirstTier(TierCodes, data, opponent).value in {1.0, 2.0, 3.0}
  {
    FirstTierSpec(TierCodes, data, opponent);
    TierCodesOrder();
  }

  /** Predicting from the training table: entry `j` of the vector is the mean of the
      cohort's counter `j` (all nine for a QB, the six non-passing ones otherwise) over
      the loaded rows whose player has the query's short name. */
  lemma {:induction false} PredictionUsesShortMeans(rows: seq<Row>, hasIsHome: bool, qbModel: seq<Option<real>> -> seq<real>,
                                 skillModel: seq<Option<real>> -> seq<real>, player: string, opponent: string, venue: string, j: nat)
    requires Predict(TrainedArtifacts(), qbModel, skillModel, TrainingTable(rows, hasIsHome), player, opponent, venue).Predicted?
    ensures var out := Predict(TrainedArtifacts(), qbModel, skillModel, TrainingTable(rows, hasIsHome), player, opponent, venue);
      var counters := if out.cohort == QbModel then QbTargets(NumCols) else SkillTargets(NumCols);
      j < |counters| ==> j < |out.input| && out.input[j] == MeanIn(rows, NamedAs(FormatName(player)), counters[j])
  {
    var data := TrainingTable(rows, hasIsHome);
    var out := Predict(TrainedArtifacts(), qbModel, skillModel, data, player, opponent, venue);
    TrainedSchemaMatch(qbModel, skillModel, data, player, opponent, venue);
    PredictedSpec(TrainedArtifacts(), qbModel, skillModel, data, player, opponent, venue);
    var latest := LatestRow(data, player).value;
    assert |data| == |rows|;
    TrainingRowEncoded(rows, hasIsHome, latest);
    assert FormatName(rows[latest].player) == FormatName(player);
    QbSchema();
    SkillSchema();
    if out.cohort == QbModel && j < 9 {
      ShortAverageOfRow(rows, hasIsHome, latest, j);
    }
    if out.cohort == SkillModel && j < 6 {
      ShortAverageOfRow(rows, hasIsHome, latest, j + 3);
      assert SkillTargets(NumCols)[j] == NumCols[j + 3];
    }
  }

  /** Rows whose players share a short name hold the same values of a cohort's average columns. */
  lemma {:induction false} SameShortNameSameBase(rows: seq<Row>, hasIsHome: bool, a: nat, b: nat, cohort: Cohort)
    requires a < |rows| && b < |rows| && FormatName(rows[a].player) == FormatName(rows[b].player)
    ensures var data, base := TrainingTable(rows, hasIsHome), BaseColumns(NumCols, cohort);
      forall j :: 0 <= j < |base| ==> NumberAt(data[a], base[j]) == NumberAt(data[b], base[j])
  {
    var base := BaseColumns(NumCols, cohort);
    SkillBaseOfNumCols();
    forall j | 0 <= j < |base|
      ensures NumberAt(TrainingTable(rows, hasIsHome)[a], base[j]) == NumberAt(TrainingTable(rows, hasIsHome)[b], base[j])
    {
      if cohort == QbModel {
        SameShortNameSameAverages(rows, hasIsHome, a, b, j);
      } else {
        assert base[j] == AvgName(NumCols[j + 3]);
        SameShortNameSameAverages(rows, hasIsHome, a, b, j + 3);
      }
    }
  }

  /** Querying a training row's own player finds the player, and the first row of the
      player's short name has the row's position when the short name has one position. */
  lemma {:induction false} PlayerOfTrainingRow(rows: seq<Row>, hasIsHome: bool, i: nat)
    requires i < |rows|
    requires forall q :: 0 <= q < |rows| && FormatName(rows[q].player) == FormatName(rows[i].player) ==> rows[q].position == rows[i].position
    ensures var data := TrainingTable(rows, hasIsHome);
      FirstIndex(data, HasShort(FormatName(rows[i].player))).Some? &&
      data[FirstIndex(data, HasShort(FormatName(rows[i].player))).value].position == rows[i].position
  {
    var data := TrainingTable(rows, hasIsHome);
    var short := FormatName(rows[i].player);
    TrainingRowEncoded(rows, hasIsHome, i);
    assert HasShort(short)(data[i]);
    var first := FirstIndex(data, HasShort(short)).value;
    assert first < |rows| && ShortOf(data[first]) == Some(short);
    TrainingRowEncoded(rows, hasIsHome, first);
    assert FormatName(rows[first].player) == short;
  }

  /** The latest row of a training row's short name has the row's averages. */
  lemma {:induction false} LatestOfTrainingRow(rows: seq<Row>, hasIsHome: bool, i: nat, cohort: Cohort)
    requires i < |rows|
    ensures LatestRow(TrainingTable(rows, hasIsHome), rows[i].player).Some?
    ensures var data, base := TrainingTable(rows, hasIsHome), BaseColumns(NumCols, cohort);
      var latest := LatestRow(data, rows[i].player).value;
      forall j :: 0 <= j < |base| ==> NumberAt(data[latest], base[j]) == NumberAt(data[i], base[j])
  {
    var data := TrainingTable(rows, hasIsHome);
    var short := FormatName(rows[i].player);
    TrainingRowEncoded(rows, hasIsHome, i);
    assert HasShort(short)(data[i]);
    var latest := LatestRow(data, rows[i].player).value;
    TrainingRowEncoded(rows, hasIsHome, latest);
    SameShortNameSameBase(rows, hasIsHome, latest, i, cohort);
  }

  /** With one tier among the opponent's rows, the tier the predictor resolves is a
      training row's own tier code. */
  lemma {:induction false} TierOfTrainingRow(rows: seq<Row>, hasIsHome: bool, i: nat, opponent: string)
    requires i < |rows|
    requires Get(rows[i], OpponentCol) == Some(Text(opponent)) && TierCode(TierCodes, rows[i]).Some?
    requires forall q :: 0 <= q < |rows| && Get(rows[q], OpponentCol) == Some(Text(opponent)) && TierCode(TierCodes, rows[q]).Some? ==>
      TierCode(TierCodes, rows[q]) == TierCode(TierCodes, rows[i])
    ensures FirstTier(TierCodes, TrainingTable(rows, hasIsHome), opponent) == TierCode(TierCodes, rows[i])
    ensures NumberAt(TrainingTable(rows, hasIsHome)[i], TierCol) == TierCode(TierCodes, rows[i])
  {
    var data := TrainingTable(rows, hasIsHome);
    TrainingRowEncoded(rows, hasIsHome, i);
    KeptTier(rows, hasIsHome, i, opponent);
    assert HasTier(TierCodes, opponent)(data[i]);
    var t := FirstIndex(data, HasTier(TierCodes, opponent)).value;
    KeptTier(rows, hasIsHome, t, opponent);
  }

  /** The training table keeps each row's opponent tier. */
  lemma {:induction false} KeptTier(rows: seq<Row>, hasIsHome: bool, i: nat, opponent: string)
    requires i < |rows|
    ensures OpponentTier(TierCodes, TrainingTable(rows, hasIsHome)[i], opponent) == OpponentTier(TierCodes, rows[i], opponent)
  {
    TrainingRowKeeps(rows, hasIsHome, i);
  }

  /** The multi-output round trip: when the loaded table has `is_home`, the player's short
      name has one position, the opponent's rows carry one tier, and the venue's flag is
      the row's own `is_home`, then predicting for a training row's player, opponent and
      venue calls the row's cohort model on exactly the row's values of the cohort's
      schema, the vector that row contributes to `X_qb` or `X_skill`. */
  lemma {:induction false} TrainedPredictionReproducesRow(rows: seq<Row>, hasIsHome: bool, i: nat,
                                                          qbModel: seq<Option<real>> -> seq<real>, skillModel: seq<Option<real>> -> seq<real>,
                                                          opponent: string, venue: string)
    requires i < |rows|
    requires forall q :: 0 <= q < |rows| && FormatName(rows[q].player) == FormatName(rows[i].player) ==> rows[q].position == rows[i].position
    requires Get(rows[i], OpponentCol) == Some(Text(opponent)) && TierCode(TierCodes, rows[i]).Some?
    requires forall q :: 0 <= q < |rows| && Get(rows[q], OpponentCol) == Some(Text(opponent)) && TierCode(TierCodes, rows[q]).Some? ==>
      TierCode(TierCodes, rows[q]) == TierCode(TierCodes, rows[i])
    requires hasIsHome && NumberAt(rows[i], IsHomeCol) == Some(QueryIsHome(venue))
    ensures var data := TrainingTable(rows, hasIsHome);
      var cohort := CohortOf(rows[i].position);
      var schema := if cohort == QbModel then QbFeatures(NumCols) else SkillFeatures(NumCols);
      var x := Values(data[i], schema);
      Predict(TrainedArtifacts(), qbModel, skillModel, data, rows[i].player, opponent, venue) ==
        Predicted(cohort, x, if cohort == QbModel then qbModel(x) else skillModel(x))
  {
    var data := TrainingTable(rows, hasIsHome);
    var cohort := CohortOf(rows[i].position);
    var base := BaseColumns(NumCols, cohort);
    var tier, home := TierCode(TierCodes, rows[i]).value, QueryIsHome(venue);
    PlayerOfTrainingRow(rows, hasIsHome, i);
    TierOfTrainingRow(rows, hasIsHome, i, opponent);
    LatestOfTrainingRow(rows, hasIsHome, i, cohort);
    var latest := LatestRow(data, rows[i].player).value;
    TrainingRowEncoded(rows, hasIsHome, i);
    assert NumberAt(data[i], IsHomeCol) == Some(home);
    InputVectorOfSameBase(data[latest], data[i], base, tier, home);
    InputVectorIsTrainingValues(data[i], base, tier, home);
    TrainedQuery(qbModel, skillModel, rows[i].position, data[latest], tier, home);
  }

  /** Without an `is_home` column every training row is fitted as away, while a "home"
      query sends 1: the round trip above needs `hasIsHome`. */
  lemma {:induction false} MissingIsHomeDisagreement(rows: seq<Row>, i: nat)
    requires i < |rows|
    ensures NumberAt(TrainingTable(rows, false)[i], IsHomeCol) == Some(0.0) && QueryIsHome("home") == 1.0
  {
    TrainingRowEncoded(rows, false, i);
    QueryIsHomeSpec("home");
  }
}
