/** The multi-output training script: tier codes, the home-flag default, player
    short names, season averages per short name, the per-cohort feature and target
    lists, the cohort row selection and the helper data handed to the predictor. */
module Training {
  import opened Frame
  import opened Text

  /** The nine counters the script averages and predicts, in its order. */
  const NumCols: seq<string> := [
    "passing_yards", "passing_tds", "interceptions",
    "rushing_yards", "rushing_tds",
    "receptions", "receiving_yards", "receiving_tds",
    "fumbles_lost"
  ]
  /** The counters a skill-position player is not trained on. */
  const PassingCols: seq<string> := ["passing_yards", "passing_tds", "interceptions"]

  const TierLabelCol: string := "tier"
  const TierCol: string := "opponent_defense_tier"
  const IsHomeCol: string := "is_home"
  const ShortCol: string := "player_short_name"
  const OpponentCol: string := "opponent_team"

  /** The tier codes of this script: 3, 2 and 1 for top, mid and bottom. */
  const TierCodes: map<string, real> := map["top" := 3.0, "mid" := 2.0, "bottom" := 1.0]

  lemma TierCodesOrder()
    ensures TierCodes.Keys == {"top", "mid", "bottom"}
    ensures TierCodes["top"] > TierCodes["mid"] > TierCodes["bottom"] > 0.0
  {
  }

  /** A counter list the averaging loop can work on: no name twice, none ending in
      "_season_avg", none of them a column the script writes. */
  predicate PlainCounters(cols: seq<string>)
  {
    (forall i, j :: 0 <= i < j < |cols| ==> cols[i] != cols[j]) &&
    (forall k :: 0 <= k < |cols| ==> !HasAvgSuffix(cols[k]) && cols[k] != ShortCol && cols[k] != TierCol && cols[k] != IsHomeCol)
  }

  lemma NumColsDistinct()
    ensures forall i, j :: 0 <= i < j < |NumCols| ==> NumCols[i] != NumCols[j]
  {
  }

  lemma NumColsUnwritten()
    ensures forall k :: 0 <= k < |NumCols| ==> !HasAvgSuffix(NumCols[k])
    ensures forall k :: 0 <= k < |NumCols| ==> NumCols[k] != ShortCol && NumCols[k] != TierCol && NumCols[k] != IsHomeCol
  {
  }

  lemma NumColsPlain()
    ensures PlainCounters(NumCols)
  {
    NumColsDistinct();
    NumColsUnwritten();
  }

  lemma ShortColPlain()
    ensures !HasAvgSuffix(ShortCol)
  {
  }

  lemma PassingColsPlain()
    ensures forall p :: p in PassingCols ==> !HasAvgSuffix(p)
  {
  }

  /** The columns the script reads and writes besides the counters are distinct and
      none of them ends in "_season_avg". */
  lemma ContextColsPlain()
    ensures !HasAvgSuffix(ShortCol) && !HasAvgSuffix(TierCol) && !HasAvgSuffix(IsHomeCol)
    ensures !HasAvgSuffix(TierLabelCol) && !HasAvgSuffix(OpponentCol)
    ensures TierCol != IsHomeCol && TierCol != ShortCol && IsHomeCol != ShortCol
    ensures TierLabelCol != TierCol && TierLabelCol != IsHomeCol && TierLabelCol != ShortCol
    ensures OpponentCol != TierCol && OpponentCol != IsHomeCol && OpponentCol != ShortCol
  {
  }

  // ---------------------------------------------------------------------------
  // Tier codes and the home flag (column assignments on the loaded table)

  /** `df['tier'].map(tier_map)` for one row: the code of a known tier label, else missing. */
  function TierCode(tierMap: map<string, real>, r: Row): Option<real>
  {
    match Get(r, TierLabelCol)
    case Some(Text(l)) => if l in tierMap then Some(tierMap[l]) else None
    case _ => None
  }

  function AddTierCode(r: Row): Row
  {
    Put(r, TierCol, NumCell(TierCode(TierCodes, r)))
  }

  /** The tier code column holds the code of the row's tier label, and is missing
      exactly when the label is not one of the three tiers. */
  lemma {:induction false} AddTierCodeSpec(r: Row)
    ensures NumberAt(AddTierCode(r), TierCol).None? <==> Get(r, TierLabelCol) !in {Some(Text("top")), Some(Text("mid")), Some(Text("bottom"))}
    ensures Get(r, TierLabelCol) == Some(Text("top")) ==> NumberAt(AddTierCode(r), TierCol) == Some(3.0)
    ensures Get(r, TierLabelCol) == Some(Text("bottom")) ==> NumberAt(AddTierCode(r), TierCol) == Some(1.0)
  {
    TierCodesOrder();
  }

  /** `df['is_home'] = df.get('is_home', 0)` for one row: a table that has the column
      keeps it, one that has not gets 0 on every row. */
  function IsHomeDefault(r: Row, hasColumn: bool): Row
  {
    if hasColumn then r else Put(r, IsHomeCol, Some(Num(0.0)))
  }

  lemma {:induction false} IsHomeDefaultSpec(r: Row, hasColumn: bool)
    ensures !hasColumn ==> NumberAt(IsHomeDefault(r, hasColumn), IsHomeCol) == Some(0.0)
    ensures hasColumn ==> IsHomeDefault(r, hasColumn) == r
    ensures forall c :: c != IsHomeCol ==> Get(IsHomeDefault(r, hasColumn), c) == Get(r, c)
  {
  }

  // ---------------------------------------------------------------------------
  // Short names

  /** `format_name`: "First ... Last" becomes the first initial, a dot and the last
      token; a name with fewer than two tokens is returned as it is, so in particular
      a name without whitespace is its own short name. */
  function FormatName(name: string): (short: string)
    ensures |Split(name)| < 2 ==> short == name
    ensures NoSpace(name) ==> short == name
  {
    FewTokensOfNoSpace(name);
    var parts := Split(name);
    if |parts| < 2 then name else [parts[0][0]] + "." + parts[|parts| - 1]
  }

  /** A name with two or more tokens becomes one token: the initial, a dot, and the
      last token, without any whitespace. */
  lemma {:induction false} FormatNameShape(name: string)
    requires |Split(name)| >= 2
    ensures FormatName(name) != [] && NoSpace(FormatName(name))
    ensures FormatName(name)[0] == Split(name)[0][0] && FormatName(name)[1] == '.'
    ensures FormatName(name)[2..] == Split(name)[|Split(name)| - 1]
  {
    var parts := Split(name);
    var out := FormatName(name);
    assert out == [parts[0][0]] + "." + parts[|parts| - 1];
    forall i | 0 <= i < |out| ensures !IsSpace(out[i]) {
      if i >= 2 {
        assert out[i] == parts[|parts| - 1][i - 2];
      }
    }
  }

  /** Formatting an already formatted name changes nothing. */
  lemma {:induction false} FormatNameIdempotent(name: string)
    ensures FormatName(FormatName(name)) == FormatName(name)
  {
    if |Split(name)| >= 2 {
      FormatNameShape(name);
      SplitOfToken(FormatName(name));
    }
  }

  /** Two tokens joined by a blank give the first one's initial, a dot and the second one. */
  lemma {:induction false} FormatNameOfTwo(first: string, last: string)
    requires first != [] && NoSpace(first) && last != [] && NoSpace(last)
    ensures FormatName(first + " " + last) == [first[0]] + "." + last
  {
    SplitTwoTokens(first, last);
  }

  /** "Aaron Rodgers" becomes "A.Rodgers". */
  lemma FormatNameTwoTokens()
    ensures FormatName("Aaron" + " " + "Rodgers") == "A.Rodgers"
  {
    assert NoSpace("Aaron") && NoSpace("Rodgers");
    FormatNameOfTwo("Aaron", "Rodgers");
  }

  /** The short-name key of a row, when it has one. */
  function ShortOf(r: Row): Option<string>
  {
    match Get(r, ShortCol)
    case Some(Text(s)) => Some(s)
    case _ => None
  }

  function AddShortName(r: Row): Row
  {
    Put(r, ShortCol, Some(Text(FormatName(r.player))))
  }

  // ---------------------------------------------------------------------------
  // Season averages per short name: `groupby('player_short_name')[col].transform('mean')`

  /** The rows of the group of short name `key`; a row without a short name is in no group. */
  function SameShort(key: Option<string>): Row -> bool
  {
    r => key.Some? && ShortOf(r) == key
  }

  /** The group mean of `col` that `transform('mean')` gives a row with short-name key
      `key` (missing for a row outside every group). */
  function ShortMean(rows: seq<Row>, key: Option<string>, col: string): Option<real>
  {
    MeanIn(rows, SameShort(key), col)
  }

  /** The loaded rows whose player name has short form `short`. */
  function NamedAs(short: string): Row -> bool
  {
    (r: Row) => FormatName(r.player) == short
  }

  /** Row `r` of table `rows` after the first `k` passes of the averaging loop over `cols`. */
  function WithShortAverages(rows: seq<Row>, r: Row, cols: seq<string>, k: nat): Row
    requires k <= |cols|
  {
    if k == 0 then r
    else Put(WithShortAverages(rows, r, cols, k - 1), AvgName(cols[k - 1]), NumCell(ShortMean(rows, ShortOf(r), cols[k - 1])))
  }

  lemma {:induction false} WithShortAveragesKeeps(rows: seq<Row>, r: Row, cols: seq<string>, k: nat)
    requires k <= |cols|
    ensures forall c :: (forall i :: 0 <= i < k ==> c != AvgName(cols[i])) ==> Get(WithShortAverages(rows, r, cols, k), c) == Get(r, c)
    ensures forall c :: !HasAvgSuffix(c) ==> Get(WithShortAverages(rows, r, cols, k), c) == Get(r, c)
    ensures WithShortAverages(rows, r, cols, k).position == r.position && WithShortAverages(rows, r, cols, k).player == r.player
  {
    if k > 0 {
      WithShortAveragesKeeps(rows, r, cols, k - 1);
      AvgNameHasSuffix(cols[k - 1]);
    }
  }

  lemma {:induction false} WithShortAveragesValues(rows: seq<Row>, r: Row, cols: seq<string>, k: nat)
    requires k <= |cols| && PlainCounters(cols)
    ensures forall j :: 0 <= j < k ==> NumberAt(WithShortAverages(rows, r, cols, k), AvgName(cols[j])) == ShortMean(rows, ShortOf(r), cols[j])
  {
    if k > 0 {
      WithShortAveragesValues(rows, r, cols, k - 1);
      forall j | 0 <= j < k - 1 ensures AvgName(cols[j]) != AvgName(cols[k - 1]) {
        AvgNameInjective(cols[j], cols[k - 1]);
      }
    }
  }

  /** One pass of the averaging loop computes its means on the table `cur` as it
      stands; they agree with the means on the table `orig` before the loop, because
      earlier passes only wrote season-average columns. */
  lemma {:induction false} PassMeansUnchanged(orig: seq<Row>, cur: seq<Row>, cols: seq<string>, k: nat)
    requires k < |cols| && PlainCounters(cols) && |cur| == |orig|
    requires forall n :: 0 <= n < |orig| ==> cur[n] == WithShortAverages(orig, orig[n], cols, k)
    ensures forall key :: ShortMean(cur, key, cols[k]) == ShortMean(orig, key, cols[k])
    ensures forall n :: 0 <= n < |orig| ==> ShortOf(cur[n]) == ShortOf(orig[n])
  {
    ShortColPlain();
    forall n | 0 <= n < |orig|
      ensures ShortOf(cur[n]) == ShortOf(orig[n]) && NumberAt(cur[n], cols[k]) == NumberAt(orig[n], cols[k])
    {
      WithShortAveragesKeeps(orig, orig[n], cols, k);
    }
    forall key: Option<string> ensures ShortMean(cur, key, cols[k]) == ShortMean(orig, key, cols[k]) {
      ShortMeanCongruent(cur, orig, key, cols[k]);
    }
  }

  /** A short-name mean depends only on the short names and the values of the column. */
  lemma {:induction false} ShortMeanCongruent(rows: seq<Row>, rows': seq<Row>, key: Option<string>, col: string)
    requires |rows| == |rows'|
    requires forall n :: 0 <= n < |rows| ==> ShortOf(rows[n]) == ShortOf(rows'[n]) && NumberAt(rows[n], col) == NumberAt(rows'[n], col)
    ensures ShortMean(rows, key, col) == ShortMean(rows', key, col)
  {
    MeanDependsOnColumn(rows, rows', SameShort(key), SameShort(key), col);
  }

  /** One pass of the averaging loop on one row of table `table`. */
  function AverageColumn(table: seq<Row>, col: string): Row -> Row
  {
    r => Put(r, AvgName(col), NumCell(ShortMean(table, ShortOf(r), col)))
  }

  /** The table `rows` after the first `k` passes of the averaging loop over `cols`. */
  function Averaged(rows: seq<Row>, cols: seq<string>, k: nat): (t: seq<Row>)
    requires k <= |cols|
    ensures |t| == |rows|
    ensures forall n :: 0 <= n < |rows| ==> t[n] == WithShortAverages(rows, rows[n], cols, k)
  {
    seq(|rows|, n requires 0 <= n < |rows| => WithShortAverages(rows, rows[n], cols, k))
  }

  /** A pass on the table after `k` passes gives the table after `k + 1` passes. */
  lemma {:induction false} PassStep(orig: seq<Row>, cols: seq<string>, k: nat)
    requires k < |cols| && PlainCounters(cols)
    ensures Mapped(Averaged(orig, cols, k), AverageColumn(Averaged(orig, cols, k), cols[k])) == Averaged(orig, cols, k + 1)
  {
    var cur := Averaged(orig, cols, k);
    PassMeansUnchanged(orig, cur, cols, k);
  }

  /** The averaging loop of the script, over the counters `cols`. */
  method AddShortAverages(df: array<Row>, cols: seq<string>)
    requires PlainCounters(cols)
    modifies df
    ensures df[..] == Averaged(old(df[..]), cols, |cols|)
  {
    ghost var orig := df[..];
    assert df[..] == Averaged(orig, cols, 0);
    for k := 0 to |cols|
      invariant df[..] == Averaged(orig, cols, k)
    {
      var table := df[..];
      PassStep(orig, cols, k);
      MapRows(df, AverageColumn(table, cols[k]));
    }
  }

  // ---------------------------------------------------------------------------
  // The table the models are trained on

  /** The tier code, home flag and short name assignments on one row. */
  function EncodeRow(r: Row, hasIsHome: bool): Row
  {
    AddShortName(IsHomeDefault(AddTierCode(r), hasIsHome))
  }

  function EncodedRows(rows: seq<Row>, hasIsHome: bool): (e: seq<Row>)
    ensures |e| == |rows|
    ensures forall i :: 0 <= i < |rows| ==> e[i] == EncodeRow(rows[i], hasIsHome)
  {
    seq(|rows|, i requires 0 <= i < |rows| => EncodeRow(rows[i], hasIsHome))
  }

  /** The table after the assignments and the averaging loop, given whether the loaded table had `is_home`. */
  function TrainingTable(rows: seq<Row>, hasIsHome: bool): seq<Row>
  {
    Averaged(EncodedRows(rows, hasIsHome), NumCols, |NumCols|)
  }

  lemma {:induction false} EncodeRowSpec(r: Row, hasIsHome: bool)
    ensures ShortOf(EncodeRow(r, hasIsHome)) == Some(FormatName(r.player))
    ensures NumberAt(EncodeRow(r, hasIsHome), TierCol) == TierCode(TierCodes, r)
    ensures !hasIsHome ==> NumberAt(EncodeRow(r, hasIsHome), IsHomeCol) == Some(0.0)
    ensures hasIsHome ==> Get(EncodeRow(r, hasIsHome), IsHomeCol) == Get(r, IsHomeCol)
    ensures forall c :: c != TierCol && c != IsHomeCol && c != ShortCol ==> Get(EncodeRow(r, hasIsHome), c) == Get(r, c)
    ensures EncodeRow(r, hasIsHome).position == r.position && EncodeRow(r, hasIsHome).player == r.player
  {
    ContextColsPlain();
    IsHomeDefaultSpec(AddTierCode(r), hasIsHome);
  }

  /** On the encoded table, counter `j`'s short-name mean for row `i` is the mean over
      the loaded rows whose player name has the same short form. */
  lemma {:induction false} EncodedShortMean(rows: seq<Row>, hasIsHome: bool, i: nat, col: string)
    requires i < |rows| && !HasAvgSuffix(col) && col != ShortCol && col != TierCol && col != IsHomeCol
    ensures ShortMean(EncodedRows(rows, hasIsHome), Some(FormatName(rows[i].player)), col) ==
      MeanIn(rows, NamedAs(FormatName(rows[i].player)), col)
  {
    var e := EncodedRows(rows, hasIsHome);
    var key := Some(FormatName(rows[i].player));
    forall n | 0 <= n < |rows|
      ensures SameShort(key)(e[n]) == NamedAs(FormatName(rows[i].player))(rows[n])
      ensures NumberAt(e[n], col) == NumberAt(rows[n], col)
    {
      EncodeRowSpec(rows[n], hasIsHome);
    }
    MeanDependsOnColumn(e, rows, SameShort(key), NamedAs(FormatName(rows[i].player)), col);
  }

  /** Counter `j`'s season average on a training row is the mean of that counter over
      all loaded rows whose player name has the same short form. */
  lemma {:induction false} ShortAverageOfRow(rows: seq<Row>, hasIsHome: bool, i: nat, j: nat)
    requires i < |rows| && j < |NumCols|
    ensures NumberAt(TrainingTable(rows, hasIsHome)[i], AvgName(NumCols[j])) ==
      MeanIn(rows, NamedAs(FormatName(rows[i].player)), NumCols[j])
  {
    var e := EncodedRows(rows, hasIsHome);
    NumColsPlain();
    WithShortAveragesValues(e, e[i], NumCols, |NumCols|);
    EncodeRowSpec(rows[i], hasIsHome);
    EncodedShortMean(rows, hasIsHome, i, NumCols[j]);
  }

  /** All training rows whose players share a short name carry the same season
      averages, whatever their positions: "Josh Allen" the quarterback and "Josh Allen"
      the linebacker are averaged together. */
  lemma {:induction false} SameShortNameSameAverages(rows: seq<Row>, hasIsHome: bool, i: nat, k: nat, j: nat)
    requires i < |rows| && k < |rows| && j < |NumCols|
    requires FormatName(rows[i].player) == FormatName(rows[k].player)
    ensures NumberAt(TrainingTable(rows, hasIsHome)[i], AvgName(NumCols[j])) ==
            NumberAt(TrainingTable(rows, hasIsHome)[k], AvgName(NumCols[j]))
  {
    ShortAverageOfRow(rows, hasIsHome, i, j);
    ShortAverageOfRow(rows, hasIsHome, k, j);
  }

  /** A training row holds its short name, its tier code and its home flag. */
  lemma {:induction false} TrainingRowEncoded(rows: seq<Row>, hasIsHome: bool, i: nat)
    requires i < |rows|
    ensures ShortOf(TrainingTable(rows, hasIsHome)[i]) == Some(FormatName(rows[i].player))
    ensures NumberAt(TrainingTable(rows, hasIsHome)[i], TierCol) == TierCode(TierCodes, rows[i])
    ensures !hasIsHome ==> NumberAt(TrainingTable(rows, hasIsHome)[i], IsHomeCol) == Some(0.0)
    ensures hasIsHome ==> Get(TrainingTable(rows, hasIsHome)[i], IsHomeCol) == Get(rows[i], IsHomeCol)
    ensures |TrainingTable(rows, hasIsHome)| == |rows|
    ensures TrainingTable(rows, hasIsHome)[i].position == rows[i].position && TrainingTable(rows, hasIsHome)[i].player == rows[i].player
  {
    var e := EncodedRows(rows, hasIsHome);
    ContextColsPlain();
    WithShortAveragesKeeps(e, e[i], NumCols, |NumCols|);
    EncodeRowSpec(rows[i], hasIsHome);
  }

  /** A training row keeps, as loaded, every column the script does not write: all but
      the nine average columns, the tier code, the home flag and the short name. */
  lemma {:induction false} TrainingRowKeepsColumn(rows: seq<Row>, hasIsHome: bool, i: nat, c: string)
    requires i < |rows|
    requires c !in AvgNames(NumCols) && c != TierCol && c != IsHomeCol && c != ShortCol
    ensures Get(TrainingTable(rows, hasIsHome)[i], c) == Get(rows[i], c)
    ensures TrainingTable(rows, hasIsHome)[i].position == rows[i].position
  {
    var e := EncodedRows(rows, hasIsHome);
    WithShortAveragesKeeps(e, e[i], NumCols, |NumCols|);
    EncodeRowSpec(rows[i], hasIsHome);
  }

  /** In particular, the counters, the tier label and the opponent. */
  lemma {:induction false} TrainingRowKeeps(rows: seq<Row>, hasIsHome: bool, i: nat)
    requires i < |rows|
    ensures forall k :: 0 <= k < |NumCols| ==> Get(TrainingTable(rows, hasIsHome)[i], NumCols[k]) == Get(rows[i], NumCols[k])
    ensures Get(TrainingTable(rows, hasIsHome)[i], TierLabelCol) == Get(rows[i], TierLabelCol)
    ensures Get(TrainingTable(rows, hasIsHome)[i], OpponentCol) == Get(rows[i], OpponentCol)
  {
    ContextColsPlain();
    PlainNotAvgName(TierLabelCol, NumCols);
    PlainNotAvgName(OpponentCol, NumCols);
    TrainingRowKeepsColumn(rows, hasIsHome, i, TierLabelCol);
    TrainingRowKeepsColumn(rows, hasIsHome, i, OpponentCol);
    NumColsPlain();
    forall k | 0 <= k < |NumCols|
      ensures Get(TrainingTable(rows, hasIsHome)[i], NumCols[k]) == Get(rows[i], NumCols[k])
    {
      PlainNotAvgName(NumCols[k], NumCols);
      TrainingRowKeepsColumn(rows, hasIsHome, i, NumCols[k]);
    }
  }

  // ---------------------------------------------------------------------------
  // Feature and target lists

  predicate NotPassing(c: string)
  {
    c !in PassingCols
  }

  /** The counters a skill-position model predicts: `cols` without the passing counters. */
  function SkillBase(cols: seq<string>): seq<string>
  {
    Filter(cols, NotPassing)
  }

  function QbFeatures(cols: seq<string>): seq<string>
  {
    AvgNames(cols) + [TierCol, IsHomeCol]
  }

  function SkillFeatures(cols: seq<string>): seq<string>
  {
    AvgNames(SkillBase(cols)) + [TierCol, IsHomeCol]
  }

  function QbTargets(cols: seq<string>): seq<string>
  {
    cols
  }

  function SkillTargets(cols: seq<string>): seq<string>
  {
    SkillBase(cols)
  }

  /** For any counter list, the skill lists hold no passing counter and no passing
      counter's average. */
  lemma {:induction false} SkillListsExcludePassing(cols: seq<string>)
    ensures forall p :: p in PassingCols ==> p !in SkillTargets(cols)
    ensures forall p :: p in PassingCols ==> AvgName(p) !in SkillFeatures(cols) && p !in SkillFeatures(cols)
  {
    var base := SkillBase(cols);
    forall p | p in PassingCols
      ensures AvgName(p) !in SkillFeatures(cols) && p !in SkillFeatures(cols)
    {
      PassingColsPlain();
      assert !HasAvgSuffix(p);
      forall j | 0 <= j < |base| ensures AvgName(p) != AvgName(base[j]) && p != AvgName(base[j]) {
        assert base[j] in base;
        AvgNameInjective(p, base[j]);
        AvgNameHasSuffix(base[j]);
      }
      AvgNameHasSuffix(p);
      assert forall j :: 0 <= j < |base| ==> SkillFeatures(cols)[j] == AvgName(base[j]);
    }
  }

  /** The counter list is the three passing counters followed by the six others. */
  lemma NumColsSplit()
    ensures NumCols[..3] == PassingCols && NumCols == NumCols[..3] + NumCols[3..]
  {
  }

  /** None of the last six counters is a passing counter. */
  lemma LastSixNotPassing()
    ensures forall i :: 3 <= i < |NumCols| ==> NotPassing(NumCols[i])
  {
    forall i | 3 <= i < |NumCols| ensures NotPassing(NumCols[i]) {
      assert NumCols[i] != PassingCols[0] && NumCols[i] != PassingCols[1] && NumCols[i] != PassingCols[2];
    }
  }

  /** The skill counters of the script are the last six counters, in order. */
  lemma SkillBaseOfNumCols()
    ensures SkillBase(NumCols) == NumCols[3..]
  {
    var pass, rest := NumCols[..3], NumCols[3..];
    NumColsSplit();
    LastSixNotPassing();
    assert forall i :: 0 <= i < |rest| ==> rest[i] == NumCols[i + 3];
    assert forall i :: 0 <= i < |pass| ==> pass[i] in PassingCols;
    FilterAppend(pass, rest, NotPassing);
    FilterAllOrNone(pass, NotPassing);
    FilterAllOrNone(rest, NotPassing);
  }

  /** The QB lists: the nine averages, then the tier code and the home flag (11 names);
      the targets are the nine counters. */
  lemma QbSchema()
    ensures |QbFeatures(NumCols)| == 11 && QbTargets(NumCols) == NumCols
    ensures forall j :: 0 <= j < 9 ==> QbFeatures(NumCols)[j] == AvgName(NumCols[j])
    ensures QbFeatures(NumCols)[9] == TierCol && QbFeatures(NumCols)[10] == IsHomeCol
  {
  }

  /** The skill lists: the six non-passing averages, then the tier code and the home
      flag (8 names); the targets are the six non-passing counters. */
  lemma SkillSchema()
    ensures |SkillFeatures(NumCols)| == 8 && SkillTargets(NumCols) == NumCols[3..]
    ensures forall j :: 0 <= j < 6 ==> SkillFeatures(NumCols)[j] == AvgName(NumCols[j + 3])
    ensures SkillFeatures(NumCols)[6] == TierCol && SkillFeatures(NumCols)[7] == IsHomeCol
  {
    SkillBaseOfNumCols();
  }

  // ---------------------------------------------------------------------------
  // Cohorts

  predicate IsQb(r: Row)
  {
    r.position == "QB"
  }

  predicate IsSkill(r: Row)
  {
    r.position == "RB" || r.position == "WR" || r.position == "TE"
  }

  function QbCols(): seq<string>
  {
    QbFeatures(NumCols) + QbTargets(NumCols)
  }

  function SkillCols(): seq<string>
  {
    SkillFeatures(NumCols) + SkillTargets(NumCols)
  }

  /** `df[df['position'] == 'QB'].dropna(subset=qb_features + qb_target_stats)`. */
  function QbRows(rows: seq<Row>): (qb: seq<Row>)
    ensures forall r :: r in qb ==> r in rows && r.position == "QB" && Complete(r, QbCols())
  {
    DropNa(Filter(rows, IsQb), QbCols())
  }

  /** `df[df['position'].isin(['RB', 'WR', 'TE'])].dropna(subset=skill_features + skill_target_stats)`. */
  function SkillRows(rows: seq<Row>): (skill: seq<Row>)
    ensures forall r :: r in skill ==> r in rows && r.position in {"RB", "WR", "TE"} && Complete(r, SkillCols())
  {
    DropNa(Filter(rows, IsSkill), SkillCols())
  }

  /** The QB cohort holds exactly the quarterback rows with every QB feature and
      target present, each as many times as the table holds it. */
  lemma {:induction false} QbCohort(rows: seq<Row>)
    ensures forall r :: r in QbRows(rows) <==> r in rows && r.position == "QB" && Complete(r, QbCols())
    ensures forall r :: multiset(QbRows(rows))[r] == if r.position == "QB" && Complete(r, QbCols()) then multiset(rows)[r] else 0
  {
    FilterCounts(rows, IsQb);
  }

  /** The skill cohort holds exactly the running back, wide receiver and tight end rows
      with every skill feature and target present, each as many times as the table holds it. */
  lemma {:induction false} SkillCohort(rows: seq<Row>)
    ensures forall r :: r in SkillRows(rows) <==>
      r in rows && (r.position == "RB" || r.position == "WR" || r.position == "TE") && Complete(r, SkillCols())
    ensures forall r :: multiset(SkillRows(rows))[r] == if IsSkill(r) && Complete(r, SkillCols()) then multiset(rows)[r] else 0
  {
    FilterCounts(rows, IsSkill);
  }

  /** No row is in both cohorts, and rows of other positions are in neither. */
  lemma {:induction false} CohortsDisjoint(rows: seq<Row>)
    ensures forall r :: r in QbRows(rows) ==> r !in SkillRows(rows)
    ensures forall r :: r in rows && r.position !in {"QB", "RB", "WR", "TE"} ==> r !in QbRows(rows) && r !in SkillRows(rows)
  {
  }

  // ---------------------------------------------------------------------------
  // Helper data and the whole script

  datatype HelperData = HelperData(tierMap: map<string, real>, qbFeatures: seq<string>, skillFeatures: seq<string>,
                                   qbTargets: seq<string>, skillTargets: seq<string>)

  function Helper(): (h: HelperData)
    ensures h.tierMap == TierCodes
    ensures h.qbFeatures == QbFeatures(NumCols) && h.skillFeatures == SkillFeatures(NumCols)
    ensures h.qbTargets == NumCols && h.skillTargets == NumCols[3..]
  {
    SkillBaseOfNumCols();
    HelperData(TierCodes, QbFeatures(NumCols), SkillFeatures(NumCols), QbTargets(NumCols), SkillTargets(NumCols))
  }

  /** The tier code, home flag and short name assignments on the whole table. */
  method EncodeTable(df: array<Row>, hasIsHome: bool)
    modifies df
    ensures df[..] == EncodedRows(old(df[..]), hasIsHome)
  {
    MapRows(df, AddTierCode);
    if !hasIsHome {
      MapRows(df, r => IsHomeDefault(r, false));
    }
    MapRows(df, AddShortName);
  }

  /** The whole script on the loaded table; `hasIsHome` says whether the
      loaded table has an `is_home` column. */
  method PrepareTraining(df: array<Row>, hasIsHome: bool) returns (qbDf: seq<Row>, skillDf: seq<Row>, helper: HelperData)
    modifies df
    ensures df[..] == TrainingTable(old(df[..]), hasIsHome)
    ensures qbDf == QbRows(df[..]) && skillDf == SkillRows(df[..])
    ensures helper == Helper()
  {
    ghost var input := df[..];
    EncodeTable(df, hasIsHome);
    NumColsPlain();
    AddShortAverages(df, NumCols);
    qbDf := QbRows(df[..]);
    skillDf := SkillRows(df[..]);
    helper := Helper();
  }
}
