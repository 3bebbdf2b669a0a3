/** The single-output fantasy-points pipeline: cleaning the nine stat counters,
    the fantasy score, the season averages per (player, position), the opponent
    tier and venue encodings, the choice of training rows, and the prediction
    function that rebuilds the feature vector for one query. */
module NflData {
  import opened Frame
  import opened Text

  const StatCols: seq<string> := [
    "passing_yards", "passing_tds", "interceptions",
    "rushing_yards", "rushing_tds",
    "receptions", "receiving_yards", "receiving_tds",
    "fumbles_lost"
  ]
  const FantasyCol: string := "fantasy_points"
  /** The columns whose means the season-average table holds, in its column order. */
  const AggCols: seq<string> := StatCols + [FantasyCol]

  const OpponentCol: string := "opponent_team"
  const VenueCol: string := "home_away"
  const TierCol: string := "opponent_defense_tier"
  const TierNumCol: string := "opponent_defense_tier_num"
  const IsHomeCol: string := "is_home"

  /** The model's input columns, in the order it is trained on them. */
  const Features: seq<string> := [
    "passing_yards_season_avg",
    "passing_tds_season_avg",
    "interceptions_season_avg",
    "rushing_yards_season_avg",
    "rushing_tds_season_avg",
    "receptions_season_avg",
    "receiving_yards_season_avg",
    "receiving_tds_season_avg",
    "fumbles_lost_season_avg",
    "opponent_defense_tier_num",
    "is_home"
  ]
  /** The columns a training row must have (`dropna(subset=features + ['fantasy_points'])`). */
  const TrainingCols: seq<string> := Features + [FantasyCol]

  lemma PassingFeatureNames()
    ensures Features[0] == AvgName(StatCols[0]) && Features[1] == AvgName(StatCols[1]) && Features[2] == AvgName(StatCols[2])
  {
  }

  lemma RushingFeatureNames()
    ensures Features[3] == AvgName(StatCols[3]) && Features[4] == AvgName(StatCols[4]) && Features[5] == AvgName(StatCols[5])
  {
  }

  lemma ReceivingFeatureNames()
    ensures Features[6] == AvgName(StatCols[6]) && Features[7] == AvgName(StatCols[7]) && Features[8] == AvgName(StatCols[8])
  {
  }

  /** The features are the season averages of the nine counters in counter order,
      then the tier number and the home flag. */
  lemma FeaturesFollowCounters()
    ensures |Features| == |StatCols| + 2
    ensures forall j :: 0 <= j < |StatCols| ==> Features[j] == AvgName(StatCols[j]) && Features[j] == AvgName(AggCols[j])
    ensures Features[|StatCols|] == TierNumCol && Features[|StatCols| + 1] == IsHomeCol
  {
    PassingFeatureNames();
    RushingFeatureNames();
    ReceivingFeatureNames();
    assert forall j :: 0 <= j < |StatCols| ==> AggCols[j] == StatCols[j];
  }

  /** The same as one list equation. */
  lemma FeaturesAreAvgNames()
    ensures Features == AvgNames(StatCols) + [TierNumCol, IsHomeCol]
  {
    FeaturesFollowCounters();
  }

  lemma StatColsDistinct()
    ensures forall i, j :: 0 <= i < j < |StatCols| ==> StatCols[i] != StatCols[j]
  {
  }

  /** The counters and the score are pairwise distinct names. */
  lemma AggColsDistinct()
    ensures forall i, j :: 0 <= i < j < |AggCols| ==> AggCols[i] != AggCols[j]
    ensures FantasyCol == AggCols[|StatCols|] && StatCols == AggCols[..|StatCols|]
  {
  }

  /** No counter and not the score is a season-average name or a context column. */
  lemma AggColsPlain()
    ensures forall i :: 0 <= i < |AggCols| ==> !HasAvgSuffix(AggCols[i])
    ensures forall i :: 0 <= i < |AggCols| ==>
      AggCols[i] != OpponentCol && AggCols[i] != VenueCol && AggCols[i] != TierCol &&
      AggCols[i] != TierNumCol && AggCols[i] != IsHomeCol
  {
  }

  /** The opponent, venue, tier and home-flag columns are five distinct names, none of
      them a season-average name. */
  lemma ContextColsPlain()
    ensures !HasAvgSuffix(OpponentCol) && !HasAvgSuffix(VenueCol) && !HasAvgSuffix(TierCol)
    ensures !HasAvgSuffix(TierNumCol) && !HasAvgSuffix(IsHomeCol)
    ensures OpponentCol != VenueCol && OpponentCol != TierCol && OpponentCol != TierNumCol && OpponentCol != IsHomeCol
    ensures VenueCol != TierCol && VenueCol != TierNumCol && VenueCol != IsHomeCol
    ensures TierCol != TierNumCol && TierCol != IsHomeCol && TierNumCol != IsHomeCol
  {
  }

  // ---------------------------------------------------------------------------
  // Cleaning: `pd.to_numeric(df.get(col, 0), errors='coerce').fillna(0)`

  predicate IsDigit(c: char)
  {
    '0' <= c <= '9'
  }

  predicate AllDigits(s: string)
  {
    forall i :: 0 <= i < |s| ==> IsDigit(s[i])
  }

  /** The value of a string of decimal digits. */
  function DigitsValue(s: string): nat
    requires AllDigits(s)
  {
    if s == [] then 0 else DigitsValue(s[..|s| - 1]) * 10 + (s[|s| - 1] as int - '0' as int)
  }

  function Pow10(n: nat): (p: nat)
    ensures p > 0
  {
    if n == 0 then 1 else 10 * Pow10(n - 1)
  }

  /** The index of the first '.' of `s`, or `|s|`. */
  function DotIndex(s: string): (k: nat)
    ensures k <= |s|
    ensures forall i :: 0 <= i < k ==> s[i] != '.'
    ensures k < |s| ==> s[k] == '.'
  {
    if s == [] || s[0] == '.' then 0 else DotIndex(s[1..]) + 1
  }

  /** Digits with an optional fractional part, at least one digit in all. */
  function ParseUnsigned(s: string): Option<real>
  {
    var k := DotIndex(s);
    var whole := s[..k];
    var frac := if k < |s| then s[k + 1..] else [];
    if AllDigits(whole) && AllDigits(frac) && |whole| + |frac| > 0 then
      Some(DigitsValue(whole) as real + DigitsValue(frac) as real / Pow10(|frac|) as real)
    else
      None
  }

  /** The numbers `to_numeric` reads from text: an optional sign, then `ParseUnsigned`. */
  function ParseNumber(s: string): Option<real>
  {
    if |s| > 0 && (s[0] == '-' || s[0] == '+') then
      match ParseUnsigned(s[1..])
      case Some(x) => Some(if s[0] == '-' then -x else x)
      case None => None
    else
      ParseUnsigned(s)
  }

  /** The decimal digits of `n`, most significant first. */
  function NatToString(n: nat): (s: string)
    ensures s != [] && AllDigits(s)
  {
    var d := ['0' + (n % 10) as char];
    if n < 10 then d else NatToString(n / 10) + d
  }

  lemma {:induction false} DigitsOfNat(n: nat)
    ensures DigitsValue(NatToString(n)) == n
    ensures DotIndex(NatToString(n)) == |NatToString(n)|
  {
    var s := NatToString(n);
    var last := s[|s| - 1];
    assert last as int - '0' as int == n % 10;
    if n >= 10 {
      DigitsOfNat(n / 10);
      assert s[..|s| - 1] == NatToString(n / 10);
    }
    DotIndexOfDigits(s);
  }

  lemma {:induction false} DotIndexOfDigits(s: string)
    requires AllDigits(s)
    ensures DotIndex(s) == |s|
  {
    if s != [] {
      DotIndexOfDigits(s[1..]);
    }
  }

  /** The digits of a whole number, without a sign, are read as that number. */
  lemma {:induction false} ParseUnsignedOfNat(n: nat)
    ensures ParseUnsigned(NatToString(n)) == Some(n as real)
  {
    var s := NatToString(n);
    DigitsOfNat(n);
    assert s[..|s|] == s;
  }

  /** Text holding a whole number in decimal, with or without a minus sign, is read as that number. */
  lemma {:induction false} ParseNatText(n: nat)
    ensures ParseNumber(NatToString(n)) == Some(n as real)
    ensures ParseNumber("-" + NatToString(n)) == Some(-(n as real))
  {
    var s := NatToString(n);
    ParseUnsignedOfNat(n);
    assert IsDigit(s[0]);
    assert ("-" + s)[0] == '-' && ("-" + s)[1..] == s;
  }

  /** One cell of a counter column after `to_numeric(errors='coerce')` and `fillna(0)`:
      a NaN cell or text that is not a number becomes 0. */
  function Coerce(v: Option<Cell>): (x: real)
    ensures v.None? ==> x == 0.0
    ensures v.Some? && v.value.Num? ==> x == v.value.n
    ensures v.Some? && v.value.Text? && ParseNumber(v.value.s).None? ==> x == 0.0
  {
    match v
    case None => 0.0
    case Some(Num(n)) => n
    case Some(Text(s)) =>
      match ParseNumber(s)
      case Some(x) => x
      case None => 0.0
  }

  lemma {:induction false} CoerceCases(n: nat)
    ensures Coerce(None) == 0.0
    ensures Coerce(Some(Text(NatToString(n)))) == n as real
    ensures Coerce(Some(Text("n/a"))) == 0.0
  {
    ParseNatText(n);
    assert DotIndex("n/a") == 3;
  }

  function CleanColumn(r: Row, col: string): Row
  {
    Put(r, col, Some(Num(Coerce(Get(r, col)))))
  }

  /** A row after the first `k` passes of the cleaning loop. */
  function CleanedUpTo(r: Row, k: nat): Row
    requires k <= |StatCols|
  {
    if k == 0 then r else CleanColumn(CleanedUpTo(r, k - 1), StatCols[k - 1])
  }

  function CleanRow(r: Row): Row
  {
    CleanedUpTo(r, |StatCols|)
  }

  /** The first `k` passes leave the key and every column they do not clean as it was. */
  lemma {:induction false} CleanedUpToKeeps(r: Row, k: nat, c: string)
    requires k <= |StatCols| && forall j :: 0 <= j < k ==> StatCols[j] != c
    ensures Get(CleanedUpTo(r, k), c) == Get(r, c)
    ensures KeyOf(CleanedUpTo(r, k)) == KeyOf(r)
  {
    if k > 0 {
      CleanedUpToKeeps(r, k - 1, c);
    }
  }

  /** The first `k` passes store the coerced value of each of the first `k` counters. */
  lemma {:induction false} CleanedUpToValues(r: Row, k: nat)
    requires k <= |StatCols|
    ensures forall j :: 0 <= j < k ==> Get(CleanedUpTo(r, k), StatCols[j]) == Some(Num(Coerce(Get(r, StatCols[j]))))
  {
    if k > 0 {
      CleanedUpToValues(r, k - 1);
      StatColsDistinct();
      CleanedUpToKeeps(r, k - 1, StatCols[k - 1]);
    }
  }

  predicate IsCleaned(r: Row)
  {
    forall k :: 0 <= k < |StatCols| ==> NumberAt(r, StatCols[k]).Some?
  }

  /** After cleaning, every counter is a number: the coerced old value; every other
      column and the grouping keys are as before. */
  lemma {:induction false} CleanRowSpec(r: Row)
    ensures forall k :: 0 <= k < |StatCols| ==> NumberAt(CleanRow(r), StatCols[k]) == Some(Coerce(Get(r, StatCols[k])))
    ensures IsCleaned(CleanRow(r))
    ensures forall c :: c !in StatCols ==> Get(CleanRow(r), c) == Get(r, c)
    ensures KeyOf(CleanRow(r)) == KeyOf(r)
  {
    CleanedUpToValues(r, |StatCols|);
    CleanedUpToKeeps(r, |StatCols|, FantasyCol);
    forall c | c !in StatCols ensures Get(CleanRow(r), c) == Get(r, c) {
      CleanedUpToKeeps(r, |StatCols|, c);
    }
  }

  /** The cleaning loop over the nine counters. */
  method CleanStats(df: array<Row>)
    modifies df
    ensures df[..] == Mapped(old(df[..]), CleanRow)
  {
    for k := 0 to |StatCols|
      invariant forall i :: 0 <= i < df.Length ==> df[i] == CleanedUpTo(old(df[i]), k)
    {
      MapRows(df, r => CleanColumn(r, StatCols[k]));
    }
  }


  // ---------------------------------------------------------------------------
  // Fantasy score

  /** The nine counters of a cleaned row, in `StatCols` order. */
  function StatLine(r: Row): (line: seq<real>)
    requires IsCleaned(r)
    ensures |line| == |StatCols|
    ensures forall k :: 0 <= k < |StatCols| ==> Some(line[k]) == NumberAt(r, StatCols[k])
  {
    seq(|StatCols|, k requires 0 <= k < |StatCols| => NumberAt(r, StatCols[k]).value)
  }

  /** The scoring formula, term by term, on a stat line in `StatCols` order. */
  function FantasyPoints(line: seq<real>): (points: real)
    requires |line| == |StatCols|
    ensures (forall k :: 0 <= k < |line| ==> line[k] >= 0.0) && line[2] == 0.0 && line[8] == 0.0 ==> points >= 0.0
  {
    line[0] / 25.0 +
    line[1] * 4.0 +
    line[2] * -2.0 +
    line[3] / 10.0 +
    line[4] * 6.0 +
    line[5] * 1.0 +
    line[6] / 10.0 +
    line[7] * 6.0 +
    line[8] * -2.0
  }

  /** Points per unit of each counter: the two turnover counters cost points, all others earn them. */
  const Weights: seq<real> := [0.04, 4.0, -2.0, 0.1, 6.0, 1.0, 0.1, 6.0, -2.0]

  /** The weighted sum of the first `n` counters of `line`. */
  function WeightedSum(line: seq<real>, n: nat): real
    requires n <= |line| && n <= |Weights|
  {
    if n == 0 then 0.0 else WeightedSum(line, n - 1) + Weights[n - 1] * line[n - 1]
  }

  /** The formula is the weighted sum of the counters with `Weights`. */
  lemma {:induction false} FantasyPointsIsWeightedSum(line: seq<real>)
    requires |line| == |StatCols|
    ensures FantasyPoints(line) == WeightedSum(line, |StatCols|)
  {
    assert Weights[0] == 0.04 && Weights[3] == 0.1 && Weights[6] == 0.1;
    assert WeightedSum(line, 1) == line[0] / 25.0;
    assert WeightedSum(line, 2) == WeightedSum(line, 1) + line[1] * 4.0;
    assert WeightedSum(line, 3) == WeightedSum(line, 2) + line[2] * -2.0;
    assert WeightedSum(line, 4) == WeightedSum(line, 3) + line[3] / 10.0;
    assert WeightedSum(line, 5) == WeightedSum(line, 4) + line[4] * 6.0;
    assert WeightedSum(line, 6) == WeightedSum(line, 5) + line[5] * 1.0;
    assert WeightedSum(line, 7) == WeightedSum(line, 6) + line[6] / 10.0;
    assert WeightedSum(line, 8) == WeightedSum(line, 7) + line[7] * 6.0;
    assert WeightedSum(line, 9) == WeightedSum(line, 8) + line[8] * -2.0;
  }

  lemma {:induction false} WeightedSumMonotone(s: seq<real>, t: seq<real>, n: nat)
    requires |s| == |t| == |Weights| && n <= |Weights|
    requires forall k :: 0 <= k < |Weights| && Weights[k] > 0.0 ==> s[k] <= t[k]
    requires forall k :: 0 <= k < |Weights| && Weights[k] < 0.0 ==> s[k] >= t[k]
    ensures WeightedSum(s, n) <= WeightedSum(t, n)
  {
    if n > 0 {
      WeightedSumMonotone(s, t, n - 1);
      var w := Weights[n - 1];
      if w > 0.0 {
        assert w * s[n - 1] <= w * t[n - 1];
      } else if w < 0.0 {
        assert w * s[n - 1] <= w * t[n - 1];
      }
    }
  }

  /** The score never falls when yards, touchdowns or receptions rise and never
      rises when interceptions (counter 2) or lost fumbles (counter 8) rise. */
  lemma {:induction false} FantasyPointsMonotone(s: seq<real>, t: seq<real>)
    requires |s| == |t| == |StatCols|
    requires forall k :: 0 <= k < |StatCols| && k != 2 && k != 8 ==> s[k] <= t[k]
    requires s[2] >= t[2] && s[8] >= t[8]
    ensures FantasyPoints(s) <= FantasyPoints(t)
  {
    FantasyPointsIsWeightedSum(s);
    FantasyPointsIsWeightedSum(t);
    WeightedSumMonotone(s, t, |Weights|);
  }

  /** An all-zero stat line scores 0; 250 passing yards with one touchdown and one
      interception score 10 + 4 - 2. */
  lemma FantasyPointsExamples()
    ensures FantasyPoints([0.0, 0.0, 0.0, 0.0, 0.0, 0.0, 0.0, 0.0, 0.0]) == 0.0
    ensures FantasyPoints([250.0, 1.0, 1.0, 0.0, 0.0, 0.0, 0.0, 0.0, 0.0]) == 12.0
  {
  }

  function Score(r: Row): Row
    requires IsCleaned(r)
  {
    Put(r, FantasyCol, Some(Num(FantasyPoints(StatLine(r)))))
  }

  method AddFantasyPoints(df: array<Row>)
    requires forall i :: 0 <= i < df.Length ==> IsCleaned(df[i])
    modifies df
    ensures df[..] == Mapped(old(df[..]), Score)
  {
    MapRows(df, Score);
  }

  /** A row after cleaning and scoring: every column of `AggCols` is a number. */
  predicate IsScored(r: Row)
  {
    forall j :: 0 <= j < |AggCols| ==> NumberAt(r, AggCols[j]).Some?
  }

  /** Scoring adds the formula's value of the row's counters and changes nothing else. */
  lemma {:induction false} ScoreSpec(r: Row)
    requires IsCleaned(r)
    ensures NumberAt(Score(r), FantasyCol) == Some(FantasyPoints(StatLine(r)))
    ensures forall c :: c != FantasyCol ==> Get(Score(r), c) == Get(r, c)
    ensures KeyOf(Score(r)) == KeyOf(r)
  {
  }

  function CleanAndScore(r: Row): Row
  {
    CleanRowSpec(r);
    Score(CleanRow(r))
  }

  /** After cleaning and scoring, the counters and the score are numbers, the score is
      the formula on the cleaned counters, and all other columns are as read. */
  lemma {:induction false} CleanAndScoreSpec(r: Row)
    ensures IsScored(CleanAndScore(r))
    ensures NumberAt(CleanAndScore(r), FantasyCol) == Some(FantasyPoints(StatLine(CleanRow(r))))
    ensures forall c :: c !in AggCols ==> Get(CleanAndScore(r), c) == Get(r, c)
    ensures KeyOf(CleanAndScore(r)) == KeyOf(r)
  {
    CleanRowSpec(r);
    var x := CleanRow(r);
    ScoreSpec(x);
    AggColsDistinct();
    forall j | 0 <= j < |AggCols| ensures NumberAt(Score(x), AggCols[j]).Some? {
      if j < |StatCols| {
        assert AggCols[j] == StatCols[j] != FantasyCol;
      }
    }
  }

  // ---------------------------------------------------------------------------
  // Season averages per (player_name, position)

  datatype Key = Key(player: string, position: string)

  function KeyOf(r: Row): Key
  {
    Key(r.player, r.position)
  }

  function InGroup(k: Key): Row -> bool
  {
    r => KeyOf(r) == k
  }

  /** Python's ordering of strings: lexicographic by code point. */
  predicate StrLess(a: string, b: string)
    decreases |a|
  {
    if a == [] then b != []
    else if b == [] then false
    else if a[0] != b[0] then a[0] < b[0]
    else StrLess(a[1..], b[1..])
  }

  lemma {:induction false} StrLessIrreflexive(a: string)
    ensures !StrLess(a, a)
    decreases |a|
  {
    if a != [] {
      StrLessIrreflexive(a[1..]);
    }
  }

  lemma {:induction false} StrLessTransitive(a: string, b: string, c: string)
    requires StrLess(a, b) && StrLess(b, c)
    ensures StrLess(a, c)
    decreases |a|
  {
    if a != [] && b != [] && c != [] && a[0] == b[0] && b[0] == c[0] {
      StrLessTransitive(a[1..], b[1..], c[1..]);
    }
  }

  lemma {:induction false} StrLessTotal(a: string, b: string)
    requires a != b
    ensures StrLess(a, b) || StrLess(b, a)
    decreases |a|
  {
    if a != [] && b != [] && a[0] == b[0] {
      assert a == [a[0]] + a[1..] && b == [b[0]] + b[1..];
      StrLessTotal(a[1..], b[1..]);
    }
  }

  /** The order of groupby's result: by player name, then by position. */
  predicate KeyLess(a: Key, b: Key)
  {
    StrLess(a.player, b.player) || (a.player == b.player && StrLess(a.position, b.position))
  }

  /** `KeyLess` is a strict total order. */
  lemma {:induction false} KeyLessOrder(a: Key, b: Key, c: Key)
    ensures !KeyLess(a, a)
    ensures KeyLess(a, b) && KeyLess(b, c) ==> KeyLess(a, c)
    ensures a != b ==> KeyLess(a, b) || KeyLess(b, a)
  {
    StrLessIrreflexive(a.player);
    StrLessIrreflexive(a.position);
    if KeyLess(a, b) && KeyLess(b, c) {
      if StrLess(a.player, b.player) && StrLess(b.player, c.player) {
        StrLessTransitive(a.player, b.player, c.player);
      }
      if StrLess(a.position, b.position) && StrLess(b.position, c.position) {
        StrLessTransitive(a.position, b.position, c.position);
      }
    }
    if a != b {
      if a.player != b.player {
        StrLessTotal(a.player, b.player);
      } else {
        StrLessTotal(a.position, b.position);
      }
    }
  }

  predicate SortedKeys(ks: seq<Key>)
  {
    forall i, j :: 0 <= i < j < |ks| ==> KeyLess(ks[i], ks[j])
  }

  /** Adds `k` to a sorted list of distinct keys. */
  function InsertKey(ks: seq<Key>, k: Key): (ks': seq<Key>)
    requires SortedKeys(ks)
    ensures SortedKeys(ks')
    ensures forall x :: x in ks' <==> x in ks || x == k
  {
    if ks == [] then [k]
    else if ks[0] == k then ks
    else if KeyLess(k, ks[0]) then
      assert forall j :: 0 < j < |ks| ==> KeyLess(k, ks[j]) by {
        forall j | 0 < j < |ks| ensures KeyLess(k, ks[j]) {
          KeyLessOrder(k, ks[0], ks[j]);
        }
      }
      [k] + ks
    else
      KeyLessOrder(ks[0], k, k);
      var rest := InsertKey(ks[1..], k);
      assert forall x :: x in rest ==> KeyLess(ks[0], x) by {
        forall x | x in rest ensures KeyLess(ks[0], x) {
          if x != k {
            var j :| 0 <= j < |ks[1..]| && ks[1..][j] == x;
            assert ks[j + 1] == x;
          }
        }
      }
      [ks[0]] + rest
  }

  /** The keys of `groupby(['player_name', 'position'])`: one per key present, sorted. */
  function GroupKeys(rows: seq<Row>): (ks: seq<Key>)
    ensures SortedKeys(ks)
    ensures forall k :: k in ks <==> exists r :: r in rows && KeyOf(r) == k
  {
    if rows == [] then []
    else
      var ks := InsertKey(GroupKeys(rows[1..]), KeyOf(rows[0]));
      assert forall r :: r in rows <==> r == rows[0] || r in rows[1..];
      ks
  }

  /** One row of the season-average table: a key and the means of `AggCols` over its group. */
  datatype GroupRow = GroupRow(key: Key, avgs: seq<Option<real>>)

  predicate WellFormedTable(table: seq<GroupRow>)
  {
    forall g :: g in table ==> |g.avgs| == |AggCols|
  }

  /** The means of `AggCols` over the rows with key `k`. */
  function GroupAverages(rows: seq<Row>, k: Key): (avgs: seq<Option<real>>)
    ensures |avgs| == |AggCols|
    ensures forall j :: 0 <= j < |AggCols| ==> avgs[j] == MeanIn(rows, InGroup(k), AggCols[j])
  {
    seq(|AggCols|, j requires 0 <= j < |AggCols| => MeanIn(rows, InGroup(k), AggCols[j]))
  }

  /** A group's averages are computed from the group's own rows alone, and its mean of a
      column is missing exactly when none of its rows has a number there. */
  lemma {:induction false} GroupAveragesOwnRows(rows: seq<Row>, k: Key)
    ensures GroupAverages(Filter(rows, InGroup(k)), k) == GroupAverages(rows, k)
    ensures forall j :: 0 <= j < |AggCols| ==>
      (GroupAverages(rows, k)[j].Some? <==> exists r :: r in rows && KeyOf(r) == k && NumberAt(r, AggCols[j]).Some?)
  {
    var a, b := GroupAverages(Filter(rows, InGroup(k)), k), GroupAverages(rows, k);
    forall j | 0 <= j < |AggCols| ensures a[j] == b[j] {
      MeanOfMembers(rows, InGroup(k), AggCols[j]);
    }
  }

  /** `df.groupby(['player_name', 'position']).agg(mean).reset_index()`: one row per key
      present, in groupby's strictly increasing key order, each holding its own group's
      means. */
  function SeasonAverages(rows: seq<Row>): (table: seq<GroupRow>)
    ensures WellFormedTable(table)
    ensures forall i, j :: 0 <= i < j < |table| ==> KeyLess(table[i].key, table[j].key)
    ensures forall r :: r in rows ==> exists g :: g in table && g.key == KeyOf(r)
    ensures forall g :: g in table ==> exists r :: r in rows && KeyOf(r) == g.key
    ensures forall g :: g in table ==> g.avgs == GroupAverages(rows, g.key)
  {
    var ks := GroupKeys(rows);
    TableOfSpec(rows, ks);
    assert forall r :: r in rows ==> KeyOf(r) in ks;
    TableOf(rows, ks)
  }

  /** The table with one row per key of `ks`, in that order. */
  function TableOf(rows: seq<Row>, ks: seq<Key>): (table: seq<GroupRow>)
    ensures |table| == |ks|
    ensures forall i :: 0 <= i < |ks| ==> table[i] == GroupRow(ks[i], GroupAverages(rows, ks[i]))
  {
    seq(|ks|, i requires 0 <= i < |ks| => GroupRow(ks[i], GroupAverages(rows, ks[i])))
  }

  lemma {:induction false} TableOfSpec(rows: seq<Row>, ks: seq<Key>)
    ensures forall g :: g in TableOf(rows, ks) ==> g.key in ks && g.avgs == GroupAverages(rows, g.key)
    ensures forall k :: k in ks ==> exists g :: g in TableOf(rows, ks) && g.key == k
    ensures WellFormedTable(TableOf(rows, ks))
  {
    var table := TableOf(rows, ks);
    forall k | k in ks ensures exists g :: g in table && g.key == k {
      var i :| 0 <= i < |ks| && ks[i] == k;
      assert table[i] in table;
    }
  }

  /** Row `i` of the season table is the `i`-th key with its group's means. */
  lemma {:induction false} SeasonAveragesAt(rows: seq<Row>)
    ensures |SeasonAverages(rows)| == |GroupKeys(rows)|
    ensures forall i :: 0 <= i < |GroupKeys(rows)| ==>
      SeasonAverages(rows)[i] == GroupRow(GroupKeys(rows)[i], GroupAverages(rows, GroupKeys(rows)[i]))
  {
  }

  /** Stores the means of `AggCols[..j]` under their `_season_avg` names. */
  function PutAverages(r: Row, avgs: seq<Option<real>>, j: nat): Row
    requires |avgs| == |AggCols| && j <= |AggCols|
  {
    if j == 0 then r else Put(PutAverages(r, avgs, j - 1), AvgName(AggCols[j - 1]), NumCell(avgs[j - 1]))
  }

  lemma {:induction false} PutAveragesSpec(r: Row, avgs: seq<Option<real>>, j: nat)
    requires |avgs| == |AggCols| && j <= |AggCols|
    ensures forall i :: 0 <= i < j ==> Get(PutAverages(r, avgs, j), AvgName(AggCols[i])) == NumCell(avgs[i])
    ensures forall c :: (forall i :: 0 <= i < j ==> c != AvgName(AggCols[i])) ==> Get(PutAverages(r, avgs, j), c) == Get(r, c)
    ensures forall c :: !HasAvgSuffix(c) ==> Get(PutAverages(r, avgs, j), c) == Get(r, c)
    ensures KeyOf(PutAverages(r, avgs, j)) == KeyOf(r)
  {
    PutAveragesWrites(r, avgs, j);
    PutAveragesKeeps(r, avgs, j);
    forall c | !HasAvgSuffix(c) ensures Get(PutAverages(r, avgs, j), c) == Get(r, c) {
      forall i | 0 <= i < j ensures c != AvgName(AggCols[i]) {
        AvgNameHasSuffix(AggCols[i]);
      }
    }
  }

  /** The columns `PutAverages` writes hold the given means. */
  lemma {:induction false} PutAveragesWrites(r: Row, avgs: seq<Option<real>>, j: nat)
    requires |avgs| == |AggCols| && j <= |AggCols|
    ensures forall i :: 0 <= i < j ==> Get(PutAverages(r, avgs, j), AvgName(AggCols[i])) == NumCell(avgs[i])
  {
    if j > 0 {
      PutAveragesWrites(r, avgs, j - 1);
      AggColsDistinct();
      forall i | 0 <= i < j - 1 ensures AvgName(AggCols[i]) != AvgName(AggCols[j - 1]) {
        AvgNameInjective(AggCols[i], AggCols[j - 1]);
      }
    }
  }

  /** `PutAverages` leaves every other column and the key as they were. */
  lemma {:induction false} PutAveragesKeeps(r: Row, avgs: seq<Option<real>>, j: nat)
    requires |avgs| == |AggCols| && j <= |AggCols|
    ensures forall c :: (forall i :: 0 <= i < j ==> c != AvgName(AggCols[i])) ==> Get(PutAverages(r, avgs, j), c) == Get(r, c)
    ensures KeyOf(PutAverages(r, avgs, j)) == KeyOf(r)
  {
    if j > 0 {
      PutAveragesKeeps(r, avgs, j - 1);
    }
  }

  /** The first row of the table with key `k`. */
  function FindGroup(table: seq<GroupRow>, k: Key): Option<GroupRow>
  {
    match FirstIndex(table, (g: GroupRow) => g.key == k)
    case Some(i) => Some(table[i])
    case None => None
  }

  /** The table row of a key present in the data is that key's group means. */
  lemma {:induction false} FindGroupOfRow(rows: seq<Row>, r: Row)
    requires r in rows
    ensures FindGroup(SeasonAverages(rows), KeyOf(r)) == Some(GroupRow(KeyOf(r), GroupAverages(rows, KeyOf(r))))
  {
    var table := SeasonAverages(rows);
    var g :| g in table && g.key == KeyOf(r);
    var n :| 0 <= n < |table| && table[n] == g;
    var p := (g: GroupRow) => g.key == KeyOf(r);
    assert p(table[n]);
    var i := FirstIndex(table, p).value;
    assert table[i] in table;
  }

  /** `df.merge(season_avg, on=['player_name', 'position'], how='left')` for one row:
      the group's means, or missing means when the key has no group. */
  function MergeRow(table: seq<GroupRow>, r: Row): (merged: Row)
    requires WellFormedTable(table)
    ensures KeyOf(merged) == KeyOf(r)
  {
    match FindGroup(table, KeyOf(r))
    case Some(g) =>
      PutAveragesKeeps(r, g.avgs, |AggCols|);
      PutAverages(r, g.avgs, |AggCols|)
    case None =>
      PutAveragesKeeps(r, seq(|AggCols|, j => None), |AggCols|);
      PutAverages(r, seq(|AggCols|, j => None), |AggCols|)
  }

  /** Merging adds the matched group's means under the `_season_avg` names and keeps
      every other column. */
  lemma {:induction false} MergeRowSpec(table: seq<GroupRow>, r: Row)
    requires WellFormedTable(table)
    ensures forall c :: c !in AvgNames(AggCols) ==> Get(MergeRow(table, r), c) == Get(r, c)
    ensures forall c :: !HasAvgSuffix(c) ==> Get(MergeRow(table, r), c) == Get(r, c)
    ensures KeyOf(MergeRow(table, r)) == KeyOf(r)
    ensures forall j :: 0 <= j < |AggCols| ==>
      Get(MergeRow(table, r), AvgName(AggCols[j])) ==
        match FindGroup(table, KeyOf(r)) case Some(g) => NumCell(g.avgs[j]) case None => None
  {
    match FindGroup(table, KeyOf(r))
    case Some(g) =>
      assert g in table by {
        var i := FirstIndex(table, (h: GroupRow) => h.key == KeyOf(r)).value;
        assert table[i] == g;
      }
      PutAveragesSpec(r, g.avgs, |AggCols|);
    case None =>
      PutAveragesSpec(r, seq(|AggCols|, j => None), |AggCols|);
  }

  method MergeSeasonAverages(df: array<Row>, table: seq<GroupRow>)
    requires WellFormedTable(table)
    modifies df
    ensures df[..] == Mapped(old(df[..]), r => MergeRow(table, r))
  {
    MapRows(df, r => MergeRow(table, r));
  }

  // ---------------------------------------------------------------------------
  // Opponent tier and venue

  const TeamToTier: map<string, string> := map[
    "KC" := "top", "BAL" := "top", "SF" := "top", "LAC" := "top", "DAL" := "top",
    "PIT" := "top", "JAX" := "top", "BUF" := "top", "LAR" := "top", "NE" := "top",
    "TEN" := "mid", "IND" := "mid", "LV" := "mid", "PHI" := "mid", "ARI" := "mid",
    "DEN" := "mid", "MIN" := "mid", "SEA" := "mid", "GB" := "mid", "MIA" := "mid",
    "CIN" := "bottom", "TB" := "bottom", "ATL" := "bottom", "NYG" := "bottom", "NO" := "bottom",
    "CAR" := "bottom", "HOU" := "bottom", "WAS" := "bottom", "CLE" := "bottom", "NYJ" := "bottom",
    "CHI" := "bottom", "DET" := "bottom"
  ]

  const TierMap: map<string, real> := map["top" := 2.0, "mid" := 1.0, "bottom" := 0.0]

  /** Every team of the table has one of the three tiers, and the tier numbers rank
      top above mid above bottom. */
  lemma TiersResolve()
    ensures forall t :: t in TeamToTier ==> TeamToTier[t] in TierMap
    ensures TierMap["top"] > TierMap["mid"] > TierMap["bottom"]
  {
  }

  /** Team codes are upper case, so `upper()` of a code is the code itself. */
  lemma {:induction false} TeamCodesUpperCase(t: string)
    requires t in TeamToTier
    ensures Upper(t) == t
  {
    UpperFixes(t);
  }

  /** The tier label of the opponent (`df['opponent_team'].map(team_to_tier)`): an
      exact, case-sensitive lookup; a team outside the table gets a missing tier. */
  function OpponentTier(r: Row): Option<string>
  {
    match Get(r, OpponentCol)
    case Some(Text(t)) => if t in TeamToTier then Some(TeamToTier[t]) else None
    case _ => None
  }

  function AddTier(r: Row): Row
  {
    Put(r, TierCol, match OpponentTier(r) case Some(l) => Some(Text(l)) case None => None)
  }

  function AddTierNum(r: Row): Row
  {
    Put(r, TierNumCol,
        match Get(r, TierCol)
        case Some(Text(l)) => if l in TierMap then Some(Num(TierMap[l])) else None
        case _ => None)
  }

  /** The training-time home flag: 1 exactly when `home_away` is the text "home". */
  function TrainingIsHome(r: Row): real
  {
    if Get(r, VenueCol) == Some(Text("home")) then 1.0 else 0.0
  }

  function AddIsHome(r: Row): Row
  {
    Put(r, IsHomeCol, Some(Num(TrainingIsHome(r))))
  }

  /** The tier number a row's opponent maps to, or None when it has no tier. */
  function TierNumber(r: Row): Option<real>
  {
    TiersResolve();
    match OpponentTier(r) case Some(l) => Some(TierMap[l]) case None => None
  }

  /** Steps 6 to 8 on one row. */
  function EncodeContextRow(r: Row): Row
  {
    AddIsHome(AddTierNum(AddTier(r)))
  }

  /** The context encoding adds the tier label, the tier number (present exactly when
      the opponent has a tier) and the home flag, and keeps every other column. */
  lemma {:induction false} EncodeContextSpec(r: Row)
    ensures forall t :: Get(r, OpponentCol) == Some(Text(t)) && t in TeamToTier ==>
      Get(EncodeContextRow(r), TierCol) == Some(Text(TeamToTier[t]))
    ensures OpponentTier(r).None? ==> Get(EncodeContextRow(r), TierCol) == None
    ensures Get(EncodeContextRow(r), TierNumCol) == NumCell(TierNumber(r))
    ensures NumberAt(EncodeContextRow(r), TierNumCol) == TierNumber(r)
    ensures NumberAt(EncodeContextRow(r), IsHomeCol) == Some(TrainingIsHome(r))
    ensures forall c :: c != TierCol && c != TierNumCol && c != IsHomeCol ==> Get(EncodeContextRow(r), c) == Get(r, c)
    ensures forall c :: HasAvgSuffix(c) ==> Get(EncodeContextRow(r), c) == Get(r, c)
    ensures KeyOf(EncodeContextRow(r)) == KeyOf(r)
  {
    TiersResolve();
    ContextColsPlain();
  }

  method EncodeContext(df: array<Row>)
    modifies df
    ensures df[..] == Mapped(old(df[..]), EncodeContextRow)
  {
    ghost var before := df[..];
    MapRows(df, AddTier);
    MapRows(df, AddTierNum);
    MapRows(df, AddIsHome);
    assert forall i :: 0 <= i < df.Length ==> df[i] == EncodeContextRow(before[i]);
  }

  // ---------------------------------------------------------------------------
  // The whole feature pipeline and the training set

  /** The rows after cleaning and scoring (steps 2 and 3). */
  function ScoredRows(rows: seq<Row>): (scored: seq<Row>)
    ensures |scored| == |rows|
    ensures forall i :: 0 <= i < |rows| ==> scored[i] == CleanAndScore(rows[i])
  {
    seq(|rows|, i requires 0 <= i < |rows| => CleanAndScore(rows[i]))
  }

  /** The season-average table (step 4). */
  function SeasonTable(rows: seq<Row>): (table: seq<GroupRow>)
    ensures WellFormedTable(table)
  {
    SeasonAverages(ScoredRows(rows))
  }

  function Encode(table: seq<GroupRow>, r: Row): Row
    requires WellFormedTable(table)
  {
    EncodeContextRow(MergeRow(table, r))
  }

  /** The table after steps 2 to 8: every scored row merged with the season table and encoded. */
  function Featurize(rows: seq<Row>): (out: seq<Row>)
    ensures |out| == |rows|
    ensures forall i :: 0 <= i < |rows| ==> out[i] == Encode(SeasonTable(rows), ScoredRows(rows)[i])
  {
    var table := SeasonTable(rows);
    var scored := ScoredRows(rows);
    seq(|rows|, i requires 0 <= i < |rows| => Encode(table, scored[i]))
  }

  /** Steps 2 and 3: the cleaning loop, then the score column. */
  method CleanAndScoreAll(df: array<Row>)
    modifies df
    ensures df[..] == ScoredRows(old(df[..]))
  {
    ghost var input := df[..];
    CleanStats(df);
    ghost var cleaned := df[..];
    forall i | 0 <= i < df.Length ensures IsCleaned(df[i]) {
      CleanRowSpec(input[i]);
    }
    AddFantasyPoints(df);
    assert forall i :: 0 <= i < df.Length ==> df[i] == Score(cleaned[i]);
  }

  /** Steps 4 (the merge) to 8 on the scored rows, with the season table already computed. */
  method EncodeAll(df: array<Row>, table: seq<GroupRow>)
    requires WellFormedTable(table)
    modifies df
    ensures forall i :: 0 <= i < df.Length ==> df[i] == Encode(table, old(df[i]))
  {
    MergeSeasonAverages(df, table);
    ghost var merged := df[..];
    EncodeContext(df);
    assert forall i :: 0 <= i < df.Length ==> df[i] == EncodeContextRow(merged[i]);
  }

  /** Steps 2 to 9 of the script on the loaded table, then the training-row selection. */
  method Prepare(df: array<Row>) returns (seasonAvg: seq<GroupRow>, modelDf: seq<Row>)
    modifies df
    ensures seasonAvg == SeasonTable(old(df[..]))
    ensures df[..] == Featurize(old(df[..]))
    ensures modelDf == DropNa(df[..], TrainingCols)
  {
    ghost var input := df[..];
    CleanAndScoreAll(df);
    seasonAvg := SeasonAverages(df[..]);
    EncodeAll(df, seasonAvg);
    FeaturizeOfEncoded(input, df[..]);
    modelDf := DropNa(df[..], TrainingCols);
  }

  /** A table whose every row is the encoding of the scored loaded row is `Featurize`
      of the loaded table. */
  lemma {:induction false} FeaturizeOfEncoded(input: seq<Row>, out: seq<Row>)
    requires |out| == |input|
    requires forall i :: 0 <= i < |out| ==> out[i] == Encode(SeasonTable(input), ScoredRows(input)[i])
    ensures out == Featurize(input)
  {
  }

  /** A row merged with the table and encoded holds its group's mean of counter `j`
      under the counter's `_season_avg` name. */
  lemma {:induction false} EncodeAverage(table: seq<GroupRow>, r: Row, g: GroupRow, j: nat)
    requires WellFormedTable(table) && FindGroup(table, KeyOf(r)) == Some(g) && j < |AggCols|
    ensures NumberAt(Encode(table, r), AvgName(AggCols[j])) == g.avgs[j]
  {
    MergeRowSpec(table, r);
    EncodeContextSpec(MergeRow(table, r));
    AvgNameHasSuffix(AggCols[j]);
  }

  /** A row merged with the table and encoded holds its opponent's tier number and its
      home flag. */
  lemma {:induction false} EncodeContextOf(table: seq<GroupRow>, r: Row)
    requires WellFormedTable(table)
    ensures Get(Encode(table, r), TierNumCol) == NumCell(TierNumber(r))
    ensures NumberAt(Encode(table, r), IsHomeCol) == Some(TrainingIsHome(r))
  {
    var merged := MergeRow(table, r);
    MergeRowSpec(table, r);
    EncodeContextSpec(merged);
    ContextColsPlain();
    assert Get(merged, OpponentCol) == Get(r, OpponentCol);
    assert Get(merged, VenueCol) == Get(r, VenueCol);
  }

  /** Merging and encoding keep every column they do not write. */
  lemma {:induction false} EncodeKeeps(table: seq<GroupRow>, r: Row, c: string)
    requires WellFormedTable(table)
    requires !HasAvgSuffix(c) && c != TierCol && c != TierNumCol && c != IsHomeCol
    ensures Get(Encode(table, r), c) == Get(r, c)
  {
    MergeRowSpec(table, r);
    EncodeContextSpec(MergeRow(table, r));
  }

  /** Cleaning and scoring keep the opponent and the venue. */
  lemma {:induction false} ScoredKeepsContext(r: Row)
    ensures Get(CleanAndScore(r), OpponentCol) == Get(r, OpponentCol)
    ensures Get(CleanAndScore(r), VenueCol) == Get(r, VenueCol)
  {
    CleanAndScoreSpec(r);
    AggColsPlain();
    assert OpponentCol !in AggCols && VenueCol !in AggCols by {
      forall j | 0 <= j < |AggCols| ensures AggCols[j] != OpponentCol && AggCols[j] != VenueCol {
      }
    }
  }

  /** The score is not a column the merge or the context encoding writes. */
  lemma FantasyColUnwritten()
    ensures !HasAvgSuffix(FantasyCol) && FantasyCol != TierCol && FantasyCol != TierNumCol && FantasyCol != IsHomeCol
  {
    AggColsPlain();
    AggColsDistinct();
  }

  /** Row `i` of the pipeline's output is row `i` of the scored table, merged and encoded. */
  lemma {:induction false} FeaturizeAt(rows: seq<Row>, i: nat)
    requires i < |rows|
    ensures Featurize(rows)[i] == Encode(SeasonTable(rows), ScoredRows(rows)[i])
    ensures ScoredRows(rows)[i] == CleanAndScore(rows[i])
  {
  }

  /** A row of the pipeline's output carries the season average of counter `j` of its
      own (player, position) group: the mean over all scored rows of that group,
      present since the row itself has the value. */
  lemma {:induction false} AverageOfRow(rows: seq<Row>, i: nat, j: nat)
    requires i < |rows| && j < |AggCols|
    ensures NumberAt(Featurize(rows)[i], AvgName(AggCols[j])) == MeanIn(ScoredRows(rows), InGroup(KeyOf(rows[i])), AggCols[j])
    ensures NumberAt(Featurize(rows)[i], AvgName(AggCols[j])).Some?
  {
    var scored := ScoredRows(rows);
    var s := scored[i];
    var k := KeyOf(rows[i]);
    CleanAndScoreSpec(rows[i]);
    assert s in scored;
    FindGroupOfRow(scored, s);
    EncodeAverage(SeasonTable(rows), s, GroupRow(k, GroupAverages(scored, k)), j);
    assert InGroup(k)(s) && NumberAt(s, AggCols[j]).Some?;
  }

  lemma {:induction false} AveragesOfRow(rows: seq<Row>, i: nat)
    requires i < |rows|
    ensures forall j :: 0 <= j < |AggCols| ==>
      NumberAt(Featurize(rows)[i], AvgName(AggCols[j])) == MeanIn(ScoredRows(rows), InGroup(KeyOf(rows[i])), AggCols[j])
    ensures forall j :: 0 <= j < |AggCols| ==> NumberAt(Featurize(rows)[i], AvgName(AggCols[j])).Some?
  {
    forall j | 0 <= j < |AggCols|
      ensures NumberAt(Featurize(rows)[i], AvgName(AggCols[j])) == MeanIn(ScoredRows(rows), InGroup(KeyOf(rows[i])), AggCols[j])
      ensures NumberAt(Featurize(rows)[i], AvgName(AggCols[j])).Some?
    {
      AverageOfRow(rows, i, j);
    }
  }

  /** All rows of one (player, position) group carry identical season averages. */
  lemma {:induction false} SameGroupSameAverages(rows: seq<Row>, i: nat, k: nat)
    requires i < |rows| && k < |rows|
    requires KeyOf(rows[i]) == KeyOf(rows[k])
    ensures forall j :: 0 <= j < |AggCols| ==>
      NumberAt(Featurize(rows)[i], AvgName(AggCols[j])) == NumberAt(Featurize(rows)[k], AvgName(AggCols[j]))
  {
    AveragesOfRow(rows, i);
    AveragesOfRow(rows, k);
  }

  /** The score a row gets from cleaning and scoring. */
  lemma {:induction false} ScoredScore(r: Row)
    ensures NumberAt(CleanAndScore(r), FantasyCol) == Some(FantasyPoints(StatLine(CleanRow(r))))
  {
    CleanRowSpec(r);
    ScoreSpec(CleanRow(r));
  }

  /** A pipeline row keeps its own score, the training label. */
  lemma {:induction false} ScoreOfRow(rows: seq<Row>, i: nat)
    requires i < |rows|
    ensures NumberAt(Featurize(rows)[i], FantasyCol) == Some(FantasyPoints(StatLine(CleanRow(rows[i]))))
  {
    FeaturizeAt(rows, i);
    ScoredScore(rows[i]);
    FantasyColUnwritten();
    EncodeKeeps(SeasonTable(rows), ScoredRows(rows)[i], FantasyCol);
  }

  /** A pipeline row holds its opponent's tier number, and lacks the column when the
      opponent has no tier. */
  lemma {:induction false} TierOfRow(rows: seq<Row>, i: nat)
    requires i < |rows|
    ensures Get(Featurize(rows)[i], TierNumCol) == NumCell(TierNumber(rows[i]))
    ensures NumberAt(Featurize(rows)[i], TierNumCol) == TierNumber(rows[i])
  {
    FeaturizeAt(rows, i);
    ScoredKeepsContext(rows[i]);
    EncodeContextOf(SeasonTable(rows), ScoredRows(rows)[i]);
    assert TierNumber(ScoredRows(rows)[i]) == TierNumber(rows[i]);
  }

  /** A pipeline row holds the home flag of its venue as read. */
  lemma {:induction false} HomeOfRow(rows: seq<Row>, i: nat)
    requires i < |rows|
    ensures NumberAt(Featurize(rows)[i], IsHomeCol) == Some(TrainingIsHome(rows[i]))
  {
    FeaturizeAt(rows, i);
    ScoredKeepsContext(rows[i]);
    EncodeContextOf(SeasonTable(rows), ScoredRows(rows)[i]);
    assert TrainingIsHome(ScoredRows(rows)[i]) == TrainingIsHome(rows[i]);
  }

  /** Feature `j` of a pipeline row: the group mean of counter `j`, then the opponent's
      tier number, then the home flag. */
  lemma {:induction false} FeatureOfRow(rows: seq<Row>, i: nat, j: nat)
    requires i < |rows| && j < |Features|
    ensures NumberAt(Featurize(rows)[i], Features[j]) ==
      if j < |StatCols| then MeanIn(ScoredRows(rows), InGroup(KeyOf(rows[i])), AggCols[j])
      else if j == |StatCols| then TierNumber(rows[i])
      else Some(TrainingIsHome(rows[i]))
    ensures j != |StatCols| ==> NumberAt(Featurize(rows)[i], Features[j]).Some?
  {
    FeaturesFollowCounters();
    if j < |StatCols| {
      AverageOfRow(rows, i, j);
    } else if j == |StatCols| {
      TierOfRow(rows, i);
    } else {
      HomeOfRow(rows, i);
    }
  }

  /** Whether the row's opponent is a team of the tier table, compared exactly. */
  predicate KnownOpponent(r: Row)
  {
    OpponentTier(r).Some?
  }

  /** A row has every training column exactly when it has every feature and the score. */
  lemma {:induction false} TrainingColsSplit(r: Row)
    ensures Complete(r, TrainingCols) <==>
      (forall j :: 0 <= j < |Features| ==> Features[j] in r.cells) && FantasyCol in r.cells
  {
    if (forall j :: 0 <= j < |Features| ==> Features[j] in r.cells) && FantasyCol in r.cells {
      forall k | 0 <= k < |TrainingCols| ensures TrainingCols[k] in r.cells {
        if k < |Features| {
          assert TrainingCols[k] == Features[k];
        }
      }
    }
    if Complete(r, TrainingCols) {
      assert TrainingCols[|Features|] == FantasyCol;
      forall j | 0 <= j < |Features| ensures Features[j] in r.cells {
        assert TrainingCols[j] == Features[j];
      }
    }
  }

  /** A pipeline row whose opponent has a tier has every feature. */
  lemma {:induction false} FeaturesPresent(rows: seq<Row>, i: nat)
    requires i < |rows| && KnownOpponent(rows[i])
    ensures forall j :: 0 <= j < |Features| ==> Features[j] in Featurize(rows)[i].cells
  {
    forall j | 0 <= j < |Features| ensures Features[j] in Featurize(rows)[i].cells {
      FeatureOfRow(rows, i, j);
    }
  }

  /** A pipeline row whose opponent has a tier is kept for training. */
  lemma {:induction false} TrainingRowKept(rows: seq<Row>, i: nat)
    requires i < |rows| && KnownOpponent(rows[i])
    ensures Complete(Featurize(rows)[i], TrainingCols)
  {
    TrainingColsSplit(Featurize(rows)[i]);
    FeaturesPresent(rows, i);
    ScoreOfRow(rows, i);
  }

  /** A pipeline row whose opponent has no tier lacks the tier number and is dropped. */
  lemma {:induction false} TrainingRowDropped(rows: seq<Row>, i: nat)
    requires i < |rows| && !KnownOpponent(rows[i])
    ensures !Complete(Featurize(rows)[i], TrainingCols)
  {
    TrainingColsSplit(Featurize(rows)[i]);
    TierOfRow(rows, i);
    FeaturesFollowCounters();
  }

  /** A row of the pipeline's output has every training column exactly when its
      opponent is in the tier table: the score, the averages and the home flag are
      always present, and rows against other opponents are the ones dropped. */
  lemma {:induction false} TrainingRowSelection(rows: seq<Row>, i: nat)
    requires i < |rows|
    ensures Complete(Featurize(rows)[i], TrainingCols) <==> KnownOpponent(rows[i])
  {
    if KnownOpponent(rows[i]) {
      TrainingRowKept(rows, i);
    } else {
      TrainingRowDropped(rows, i);
    }
  }

  // ---------------------------------------------------------------------------
  // Prediction

  datatype Outcome =
    | NoData(player: string)
    | UnknownOpponent(team: string)
    | Predicted(player: string, opponent: string, venue: string, points: real)

  /** The one-row frame handed to the model: the nine counter averages of the player's
      group, the tier number, the home flag. */
  function QueryVector(g: GroupRow, tierNum: real, isHome: real): (x: seq<Option<real>>)
    requires |g.avgs| == |AggCols|
    ensures |x| == |Features|
    ensures forall j :: 0 <= j < |StatCols| ==> x[j] == g.avgs[j]
    ensures x[|StatCols|] == Some(tierNum) && x[|StatCols| + 1] == Some(isHome)
  {
    g.avgs[..|StatCols|] + [Some(tierNum), Some(isHome)]
  }

  /** The season-table rows of player name `player`. */
  function PlayerIs(player: string): GroupRow -> bool
  {
    (g: GroupRow) => g.key.player == player
  }

  /** `predict_fantasy_points(player_name, opponent_team, home_away)` with the trained
      model as `model`: no model call unless the player has a row of the season-average
      table (the first in its order) and the upper-cased opponent has a tier. */
  function PredictFantasyPoints(seasonAvg: seq<GroupRow>, model: seq<Option<real>> -> real,
                                player: string, opponent: string, venue: string): (o: Outcome)
    requires WellFormedTable(seasonAvg)
    ensures o.NoData? <==> forall g :: g in seasonAvg ==> g.key.player != player
    ensures o.UnknownOpponent? <==> (exists g :: g in seasonAvg && g.key.player == player) && Upper(opponent) !in TeamToTier
    ensures o.Predicted? ==>
      exists i :: 0 <= i < |seasonAvg| && seasonAvg[i].key.player == player &&
        (forall j :: 0 <= j < i ==> seasonAvg[j].key.player != player) &&
        o == Predicted(player, Upper(opponent), venue,
                       model(QueryVector(seasonAvg[i], TierMap[TeamToTier[Upper(opponent)]], QueryIsHome(venue))))
  {
    TiersResolve();
    match FirstIndex(seasonAvg, PlayerIs(player))
    case None => NoData(player)
    case Some(i) =>
      var team := Upper(opponent);
      if team !in TeamToTier then UnknownOpponent(opponent)
      else
        var tierNum := TierMap[TeamToTier[team]];
        var isHome := QueryIsHome(venue);
        Predicted(player, team, venue, model(QueryVector(seasonAvg[i], tierNum, isHome)))
  }

  /** The group a prediction uses is, of all groups of that player name, the one with
      the least position in groupby's order. */
  lemma {:induction false} PredictionUsesLeastPosition(rows: seq<Row>, i: nat, r: Row)
    requires i < |SeasonAverages(rows)|
    requires forall j :: 0 <= j < i ==> SeasonAverages(rows)[j].key.player != SeasonAverages(rows)[i].key.player
    requires r in rows && r.player == SeasonAverages(rows)[i].key.player
    ensures !StrLess(r.position, SeasonAverages(rows)[i].key.position)
  {
    var ks := GroupKeys(rows);
    SeasonAveragesAt(rows);
    assert KeyOf(r) in ks;
    var n :| 0 <= n < |ks| && ks[n] == KeyOf(r);
    LeastPositionOfKeys(ks, i, n);
  }

  /** In sorted keys, the first key of a player name has that name's least position. */
  lemma {:induction false} LeastPositionOfKeys(ks: seq<Key>, i: nat, n: nat)
    requires SortedKeys(ks) && i < |ks| && n < |ks|
    requires forall j :: 0 <= j < i ==> ks[j].player != ks[i].player
    requires ks[n].player == ks[i].player
    ensures !StrLess(ks[n].position, ks[i].position)
  {
    StrLessIrreflexive(ks[n].position);
    if n > i {
      assert KeyLess(ks[i], ks[n]);
      StrLessIrreflexive(ks[n].player);
      if StrLess(ks[n].position, ks[i].position) {
        StrLessTransitive(ks[n].position, ks[i].position, ks[n].position);
      }
    }
  }

  /** Every key of the season table is the key of some input row. */
  lemma {:induction false} TableKeyFromRow(rows: seq<Row>, n: nat)
    requires n < |SeasonTable(rows)|
    ensures exists q :: 0 <= q < |rows| && KeyOf(rows[q]) == SeasonTable(rows)[n].key
  {
    var scored := ScoredRows(rows);
    SeasonAveragesAt(scored);
    var k := GroupKeys(scored)[n];
    assert k in GroupKeys(scored);
    var r :| r in scored && KeyOf(r) == k;
    var q :| 0 <= q < |scored| && scored[q] == r;
    CleanAndScoreSpec(rows[q]);
  }

  /** A row's training input (`model_df[features]`) is the query frame built from a group,
      a tier number and a home flag exactly when the row holds the group's nine counter
      averages under the feature names, that tier number and that flag. */
  lemma {:induction false} VectorMatchesQuery(out: Row, g: GroupRow, tier: real, home: real)
    requires |g.avgs| == |AggCols|
    ensures Values(out, Features) == QueryVector(g, tier, home) <==>
      (forall j :: 0 <= j < |StatCols| ==> NumberAt(out, Features[j]) == g.avgs[j]) &&
      NumberAt(out, TierNumCol) == Some(tier) && NumberAt(out, IsHomeCol) == Some(home)
  {
    FeaturesFollowCounters();
    var v, x := Values(out, Features), QueryVector(g, tier, home);
    if v == x {
      assert v[|StatCols|] == x[|StatCols|] && v[|StatCols| + 1] == x[|StatCols| + 1];
    }
    if (forall j :: 0 <= j < |StatCols| ==> NumberAt(out, Features[j]) == g.avgs[j]) &&
       NumberAt(out, TierNumCol) == Some(tier) && NumberAt(out, IsHomeCol) == Some(home) {
      forall j | 0 <= j < |x| ensures v[j] == x[j] {
      }
    }
  }

  /** Two query frames are equal exactly when their groups have the same nine counter
      averages and the tier numbers and home flags agree: the score's average is not
      sent to the model. */
  lemma {:induction false} QueryVectorsEqual(g: GroupRow, g': GroupRow, t: real, t': real, h: real, h': real)
    requires |g.avgs| == |AggCols| && |g'.avgs| == |AggCols|
    ensures QueryVector(g, t, h) == QueryVector(g', t', h') <==>
      g.avgs[..|StatCols|] == g'.avgs[..|StatCols|] && t == t' && h == h'
  {
    var x, y := QueryVector(g, t, h), QueryVector(g', t', h');
    if x == y {
      assert x[..|StatCols|] == g.avgs[..|StatCols|];
      assert y[..|StatCols|] == g'.avgs[..|StatCols|];
      assert x[|StatCols|] == y[|StatCols|] && x[|StatCols| + 1] == y[|StatCols| + 1];
    }
  }

  /** The first nine features of a pipeline row are its group's nine counter averages. */
  lemma {:induction false} FeatureAveragesOfRow(rows: seq<Row>, i: nat)
    requires i < |rows|
    ensures forall j :: 0 <= j < |StatCols| ==>
      NumberAt(Featurize(rows)[i], Features[j]) == GroupAverages(ScoredRows(rows), KeyOf(rows[i]))[j]
  {
    FeaturesFollowCounters();
    forall j | 0 <= j < |StatCols|
      ensures NumberAt(Featurize(rows)[i], Features[j]) == GroupAverages(ScoredRows(rows), KeyOf(rows[i]))[j]
    {
      AverageOfRow(rows, i, j);
    }
  }

  /** A row whose opponent is in the tier table has a tier number. */
  lemma {:induction false} KnownTier(r: Row)
    requires KnownOpponent(r)
    ensures TierNumber(r).Some?
  {
  }

  /** The training vector of a row whose opponent has a tier is the query vector
      built from its own group's averages, that tier's number and its home flag. */
  lemma {:induction false} TrainingVectorIsQueryVector(rows: seq<Row>, i: nat)
    requires i < |rows| && KnownOpponent(rows[i])
    ensures TierNumber(rows[i]).Some?
    ensures Values(Featurize(rows)[i], Features) ==
      QueryVector(GroupRow(KeyOf(rows[i]), GroupAverages(ScoredRows(rows), KeyOf(rows[i]))),
                  TierNumber(rows[i]).value, TrainingIsHome(rows[i]))
  {
    KnownTier(rows[i]);
    var out := Featurize(rows)[i];
    var g := GroupRow(KeyOf(rows[i]), GroupAverages(ScoredRows(rows), KeyOf(rows[i])));
    FeatureAveragesOfRow(rows, i);
    TierOfRow(rows, i);
    HomeOfRow(rows, i);
    FeaturesFollowCounters();
    VectorMatchesQuery(out, g, TierNumber(rows[i]).value, TrainingIsHome(rows[i]));
  }

  /** When a player has one position in the data, the season table has a row for the
      player, and every row of the table for that player is that one group's means. */
  lemma {:induction false} OnlyGroupOfPlayer(rows: seq<Row>, i: nat)
    requires i < |rows|
    requires forall q :: 0 <= q < |rows| && rows[q].player == rows[i].player ==> rows[q].position == rows[i].position
    ensures exists g :: g in SeasonTable(rows) && g.key.player == rows[i].player
    ensures forall n :: 0 <= n < |SeasonTable(rows)| && SeasonTable(rows)[n].key.player == rows[i].player ==>
      SeasonTable(rows)[n] == GroupRow(KeyOf(rows[i]), GroupAverages(ScoredRows(rows), KeyOf(rows[i])))
  {
    var scored := ScoredRows(rows);
    var table := SeasonTable(rows);
    CleanAndScoreSpec(rows[i]);
    SeasonAveragesAt(scored);
    var ks := GroupKeys(scored);
    assert KeyOf(rows[i]) in ks by {
      assert scored[i] in scored;
    }
    var m :| 0 <= m < |ks| && ks[m] == KeyOf(rows[i]);
    assert table[m] in table;
    forall n | 0 <= n < |table| && table[n].key.player == rows[i].player
      ensures table[n] == GroupRow(KeyOf(rows[i]), GroupAverages(scored, KeyOf(rows[i])))
    {
      TableKeyFromRow(rows, n);
    }
  }

  /** For a player with one position and a known opponent, the prediction is the
      model's value on that group's means, the opponent's tier number and the venue's
      home flag. */
  lemma {:induction false} PredictionUsesGroup(rows: seq<Row>, i: nat, model: seq<Option<real>> -> real, opponent: string, venue: string)
    requires i < |rows|
    requires forall q :: 0 <= q < |rows| && rows[q].player == rows[i].player ==> rows[q].position == rows[i].position
    requires opponent in TeamToTier
    ensures PredictFantasyPoints(SeasonTable(rows), model, rows[i].player, opponent, venue)
         == Predicted(rows[i].player, opponent, venue,
                      model(QueryVector(GroupRow(KeyOf(rows[i]), GroupAverages(ScoredRows(rows), KeyOf(rows[i]))),
                                        TierMap[TeamToTier[opponent]], QueryIsHome(venue))))
  {
    var table := SeasonTable(rows);
    var player := rows[i].player;
    OnlyGroupOfPlayer(rows, i);
    TeamCodesUpperCase(opponent);
    var o := PredictFantasyPoints(table, model, player, opponent, venue);
    assert o.Predicted?;
  }

  /** The prediction for a training row's own player, opponent and venue feeds the
      model exactly that row's training vector, when the player has one position and
      the venue text is "home" or does not lower-case to "home". */
  lemma {:induction false} PredictionReproducesTrainingRow(rows: seq<Row>, i: nat, model: seq<Option<real>> -> real, opponent: string, venue: string)
    requires i < |rows|
    requires forall q :: 0 <= q < |rows| && rows[q].player == rows[i].player ==> rows[q].position == rows[i].position
    requires Get(rows[i], OpponentCol) == Some(Text(opponent)) && opponent in TeamToTier
    requires Get(rows[i], VenueCol) == Some(Text(venue))
    requires venue == "home" || Lower(venue) != "home"
    ensures PredictFantasyPoints(SeasonTable(rows), model, rows[i].player, opponent, venue)
         == Predicted(rows[i].player, opponent, venue, model(Values(Featurize(rows)[i], Features)))
  {
    OpponentTierNumber(rows[i], opponent);
    VenueFlagsAgree(rows[i], venue);
    PredictionUsesGroup(rows, i, model, opponent, venue);
    TrainingVectorIsQueryVector(rows, i);
  }

  /** The first season-table row of a player is a group of that player whose position
      is not above the position of any of the player's rows. */
  lemma {:induction false} FirstGroupOfPlayer(rows: seq<Row>, i: nat, q: nat)
    requires i < |rows| && q < |rows| && rows[q].player == rows[i].player
    ensures FirstIndex(SeasonTable(rows), PlayerIs(rows[i].player)).Some?
    ensures var n := FirstIndex(SeasonTable(rows), PlayerIs(rows[i].player)).value;
      var key := SeasonTable(rows)[n].key;
      key.player == rows[i].player && !StrLess(rows[q].position, key.position) &&
      SeasonTable(rows)[n] == GroupRow(key, GroupAverages(ScoredRows(rows), key))
  {
    var scored := ScoredRows(rows);
    var table := SeasonTable(rows);
    CleanAndScoreSpec(rows[i]);
    CleanAndScoreSpec(rows[q]);
    assert scored[i] in scored && scored[q] in scored;
    var g :| g in table && g.key == KeyOf(scored[i]);
    var m :| 0 <= m < |table| && table[m] == g;
    assert PlayerIs(rows[i].player)(table[m]);
    var n := FirstIndex(table, PlayerIs(rows[i].player)).value;
    assert table[n] in table;
    PredictionUsesLeastPosition(scored, n, scored[q]);
  }

  /** A player with two positions: the prediction for a training row of the later
      position is the model's value on the season means of a group with an earlier
      position, so whenever the two groups' counter means differ the model is not fed
      the row's own training vector. */
  lemma {:induction false} TwoPositionsDisagree(rows: seq<Row>, i: nat, q: nat, model: seq<Option<real>> -> real,
                                                opponent: string, venue: string)
    requires i < |rows| && q < |rows| && rows[q].player == rows[i].player
    requires StrLess(rows[q].position, rows[i].position)
    requires opponent in TeamToTier && KnownOpponent(rows[i])
    ensures FirstIndex(SeasonTable(rows), PlayerIs(rows[i].player)).Some?
    ensures var n := FirstIndex(SeasonTable(rows), PlayerIs(rows[i].player)).value;
      var key := SeasonTable(rows)[n].key;
      var x := QueryVector(GroupRow(key, GroupAverages(ScoredRows(rows), key)), TierMap[TeamToTier[opponent]], QueryIsHome(venue));
      key.player == rows[i].player && StrLess(key.position, rows[i].position) &&
      PredictFantasyPoints(SeasonTable(rows), model, rows[i].player, opponent, venue) ==
        Predicted(rows[i].player, opponent, venue, model(x)) &&
      (GroupAverages(ScoredRows(rows), key)[..|StatCols|] != GroupAverages(ScoredRows(rows), KeyOf(rows[i]))[..|StatCols|] ==>
        x != Values(Featurize(rows)[i], Features))
  {
    var scored := ScoredRows(rows);
    var table := SeasonTable(rows);
    FirstGroupOfPlayer(rows, i, q);
    var n := FirstIndex(table, PlayerIs(rows[i].player)).value;
    var key := table[n].key;
    StrLessBelow(key.position, rows[q].position, rows[i].position);
    PredictionOfFirstGroup(table, model, rows[i].player, opponent, venue);
    TrainingVectorIsQueryVector(rows, i);
    QueryVectorsEqual(GroupRow(key, GroupAverages(scored, key)), GroupRow(KeyOf(rows[i]), GroupAverages(scored, KeyOf(rows[i]))),
                      TierMap[TeamToTier[opponent]], TierNumber(rows[i]).value, QueryIsHome(venue), TrainingIsHome(rows[i]));
  }

  /** A string not above `b` is below everything above `b`. */
  lemma {:induction false} StrLessBelow(a: string, b: string, c: string)
    requires !StrLess(b, a) && StrLess(b, c)
    ensures StrLess(a, c)
  {
    if a != b {
      StrLessTotal(a, b);
      StrLessTransitive(a, b, c);
    }
  }

  /** With a known opponent, the prediction for a player in the table is the model's value
      on the query frame of the player's first table row. */
  lemma {:induction false} PredictionOfFirstGroup(table: seq<GroupRow>, model: seq<Option<real>> -> real,
                                                  player: string, opponent: string, venue: string)
    requires WellFormedTable(table) && FirstIndex(table, PlayerIs(player)).Some? && opponent in TeamToTier
    ensures var n := FirstIndex(table, PlayerIs(player)).value;
      PredictFantasyPoints(table, model, player, opponent, venue) ==
        Predicted(player, opponent, venue, model(QueryVector(table[n], TierMap[TeamToTier[opponent]], QueryIsHome(venue))))
  {
    TeamCodesUpperCase(opponent);
    assert table[FirstIndex(table, PlayerIs(player)).value] in table;
  }

  /** A row against a team of the tier table gets that team's tier number. */
  lemma {:induction false} OpponentTierNumber(r: Row, opponent: string)
    requires Get(r, OpponentCol) == Some(Text(opponent)) && opponent in TeamToTier
    ensures KnownOpponent(r) && TierNumber(r) == Some(TierMap[TeamToTier[opponent]])
  {
  }

  /** The training and the prediction home flags agree on a venue text unless it is a
      case variant of "home" other than "home" itself. */
  lemma {:induction false} VenueFlagsAgree(r: Row, venue: string)
    requires Get(r, VenueCol) == Some(Text(venue))
    requires venue == "home" || Lower(venue) != "home"
    ensures QueryIsHome(venue) == TrainingIsHome(r)
  {
  }

  /** The training side reads the venue case-sensitively and the prediction side does
      not: a row whose venue reads "Home" is trained as away but queried as home. */
  lemma {:induction false} VenueCaseDisagreement(r: Row)
    requires Get(r, VenueCol) == Some(Text("Home"))
    ensures TrainingIsHome(r) == 0.0 && QueryIsHome("Home") == 1.0
  {
    assert Lower("Home") == "home";
  }
}
