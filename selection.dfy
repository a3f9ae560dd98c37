/** The special arena's opponent selector (`SpecialArena.select_strategy`):
    min-max normalisation of each dimension, inversion of the Ranking
    dimension, a weighted sum per opponent, a stable descending sort on the
    score and a Max / Min / Middle pick. Floats are modelled as reals. */
module Selection {
  import opened Wrappers

  /** What OCR reads for one opponent card: power, commander level and
      synchro level. */
  datatype Reading = Reading(power: int, commanderLevel: int, synchroLevel: int)

  /** One entry of `opponents_data`: the slot id and the four dimensions. */
  datatype Opponent = Opponent(id: int, power: int, commanderLevel: int, synchroLevel: int, ranking: int)

  /** An opponent with the score `select_strategy` writes into it. */
  datatype Scored = Scored(opponent: Opponent, score: real)

  /** The four dimensions in the order the score sums them. */
  const Dimensions: seq<string> := ["Power", "CommanderLevel", "SynchroLevel", "Ranking"]

  /** `opponents_data`: the three cards top to bottom, with ids 1..3 and the
      Ranking dimension equal to the id. */
  function OpponentsData(first: Reading, second: Reading, third: Reading): (r: seq<Opponent>)
    ensures |r| == 3
    ensures forall i :: 0 <= i < 3 ==> r[i].id == i + 1 && r[i].ranking == i + 1
    ensures r[0].power == first.power && r[1].power == second.power && r[2].power == third.power
    ensures r[0].commanderLevel == first.commanderLevel && r[1].commanderLevel == second.commanderLevel
    ensures r[2].commanderLevel == third.commanderLevel
    ensures r[0].synchroLevel == first.synchroLevel && r[1].synchroLevel == second.synchroLevel
    ensures r[2].synchroLevel == third.synchroLevel
  {
    [Slot(1, first), Slot(2, second), Slot(3, third)]
  }

  function Slot(id: int, reading: Reading): Opponent
  {
    Opponent(id, reading.power, reading.commanderLevel, reading.synchroLevel, id)
  }

  /** The slot ids strictly increase along the list, as `opponents_data`
      produces them; stability of the sort is stated against this order. */
  predicate IdsIncrease(opponents: seq<Opponent>)
  {
    forall i, j :: 0 <= i < j < |opponents| ==> opponents[i].id < opponents[j].id
  }

  lemma OpponentsDataOrdered(first: Reading, second: Reading, third: Reading)
    ensures IdsIncrease(OpponentsData(first, second, third))
  {
  }

  // ---------------------------------------------------------------------
  // Normalisation

  /** `min(values)`. */
  function Min(values: seq<int>): (m: int)
    requires |values| > 0
    ensures m in values
    ensures forall i :: 0 <= i < |values| ==> m <= values[i]
  {
    if |values| == 1 then values[0]
    else
      var rest := Min(values[1..]);
      assert forall i :: 1 <= i < |values| ==> values[i] == values[1..][i - 1];
      if values[0] <= rest then values[0] else rest
  }

  /** `max(values)`. */
  function Max(values: seq<int>): (m: int)
    requires |values| > 0
    ensures m in values
    ensures forall i :: 0 <= i < |values| ==> values[i] <= m
  {
    if |values| == 1 then values[0]
    else
      var rest := Max(values[1..]);
      assert forall i :: 1 <= i < |values| ==> values[i] == values[1..][i - 1];
      if values[0] >= rest then values[0] else rest
  }

  /** `_normalize`: 0.5 everywhere when all values are equal, otherwise
      `(v - min) / (max - min)` for each value, in the same order. */
  function Normalize(values: seq<int>): (r: seq<real>)
    requires |values| > 0
    ensures |r| == |values|
    ensures forall i :: 0 <= i < |r| ==> 0.0 <= r[i] <= 1.0
    ensures Max(values) == Min(values) ==> forall i :: 0 <= i < |r| ==> r[i] == 0.5
  {
    var lo := Min(values);
    var hi := Max(values);
    if hi == lo then seq(|values|, _ => 0.5)
    else
      seq(|values|, i requires 0 <= i < |values| => Scale(values[i], lo, hi))
  }

  /** Unless all values are equal, the minimum maps to 0 and the maximum to 1,
      and nothing else does. */
  lemma NormalizeExtremes(values: seq<int>, i: nat)
    requires i < |values| && Max(values) != Min(values)
    ensures values[i] == Min(values) <==> Normalize(values)[i] == 0.0
    ensures values[i] == Max(values) <==> Normalize(values)[i] == 1.0
  {
    assert Normalize(values)[i] == Scale(values[i], Min(values), Max(values));
  }

  /** `_normalize` keeps the order of the values, and strict order is kept strictly. */
  lemma NormalizeMonotone(values: seq<int>, i: nat, j: nat)
    requires i < |values| && j < |values|
    ensures values[i] <= values[j] ==> Normalize(values)[i] <= Normalize(values)[j]
    ensures values[i] < values[j] ==> Normalize(values)[i] < Normalize(values)[j]
  {
    var lo := Min(values);
    var hi := Max(values);
    if hi != lo {
      ScaleMonotone(values[i], values[j], lo, hi);
    }
  }

  /** `(v - lo) / (hi - lo)` for one value between `lo` and `hi`. */
  function Scale(v: int, lo: int, hi: int): (r: real)
    requires lo <= v <= hi && lo < hi
    ensures 0.0 <= r <= 1.0
    ensures r == 0.0 <==> v == lo
    ensures r == 1.0 <==> v == hi
  {
    (v - lo) as real / (hi - lo) as real
  }

  /** Scaling keeps the order of the values, strictly. */
  lemma ScaleMonotone(v: int, w: int, lo: int, hi: int)
    requires lo <= v <= hi && lo <= w <= hi && lo < hi
    ensures v <= w ==> Scale(v, lo, hi) <= Scale(w, lo, hi)
    ensures v < w ==> Scale(v, lo, hi) < Scale(w, lo, hi)
  {
    var d := (hi - lo) as real;
    assert Scale(w, lo, hi) - Scale(v, lo, hi) == (w - v) as real / d;
  }

  /** No output of `_normalize` is 0.5 everywhere unless the inputs are all equal:
      the fallback fires exactly on constant input. */
  lemma NormalizeConstant(values: seq<int>)
    requires |values| > 0
    ensures (forall i :: 0 <= i < |values| ==> Normalize(values)[i] == 0.5)
            <==> (forall i :: 0 <= i < |values| ==> values[i] == values[0])
  {
    var lo := Min(values);
    var hi := Max(values);
    if hi != lo {
      var k :| 0 <= k < |values| && values[k] == lo;
      assert Normalize(values)[k] == 0.0;
      var m :| 0 <= m < |values| && values[m] == hi;
      assert values[k] != values[m];
    }
  }

  /** The four normalised dimensions, one entry per opponent. */
  datatype Normalized = Normalized(power: seq<real>, commanderLevel: seq<real>,
                                   synchroLevel: seq<real>, ranking: seq<real>)

  /** The `normalized` dictionary: each dimension through `_normalize`, then
      the Ranking dimension replaced by `1 - value`, so that slot 1 is
      the most attractive by rank. */
  function NormalizeAll(opponents: seq<Opponent>): (n: Normalized)
    requires |opponents| > 0
    ensures |n.power| == |n.commanderLevel| == |n.synchroLevel| == |n.ranking| == |opponents|
    ensures forall i :: 0 <= i < |opponents| ==> 0.0 <= n.ranking[i] <= 1.0
  {
    var powers := seq(|opponents|, i requires 0 <= i < |opponents| => opponents[i].power);
    var commanders := seq(|opponents|, i requires 0 <= i < |opponents| => opponents[i].commanderLevel);
    var synchros := seq(|opponents|, i requires 0 <= i < |opponents| => opponents[i].synchroLevel);
    var ranks := seq(|opponents|, i requires 0 <= i < |opponents| => opponents[i].ranking);
    Normalized(Normalize(powers), Normalize(commanders), Normalize(synchros), Inverted(Normalize(ranks)))
  }

  /** `1 - value` for each normalised value. */
  function Inverted(r: seq<real>): (s: seq<real>)
    requires forall i :: 0 <= i < |r| ==> 0.0 <= r[i] <= 1.0
    ensures |s| == |r|
    ensures forall i :: 0 <= i < |r| ==> s[i] == 1.0 - r[i] && 0.0 <= s[i] <= 1.0
  {
    seq(|r|, i requires 0 <= i < |r| => 1.0 - r[i])
  }

  /** A better (smaller) rank gives a larger Ranking term after the inversion. */
  lemma RankingInverted(opponents: seq<Opponent>, i: nat, j: nat)
    requires i < |opponents| && j < |opponents|
    requires opponents[i].ranking < opponents[j].ranking
    ensures NormalizeAll(opponents).ranking[i] > NormalizeAll(opponents).ranking[j]
  {
    var ranks := seq(|opponents|, k requires 0 <= k < |opponents| => opponents[k].ranking);
    NormalizeMonotone(ranks, i, j);
  }

  /** For the three slots the Ranking dimension weighs 1, 0.5 and 0. */
  lemma RankingOfThreeSlots(first: Reading, second: Reading, third: Reading)
    ensures NormalizeAll(OpponentsData(first, second, third)).ranking == [1.0, 0.5, 0.0]
  {
    var opponents := OpponentsData(first, second, third);
    var ranks := seq(|opponents|, i requires 0 <= i < |opponents| => opponents[i].ranking);
    assert ranks == [1, 2, 3];
    assert Min(ranks) == 1 && Max(ranks) == 3;
    assert Normalize(ranks) == [0.0, 0.5, 1.0];
  }

  // ---------------------------------------------------------------------
  // Scores

  /** The first of the four dimension names that the weights object lacks;
      `weights[dim]` raises KeyError on it. */
  function MissingWeight(weights: map<string, real>): (r: Option<string>)
    ensures r.None? <==> forall d :: d in Dimensions ==> d in weights
    ensures r.Some? ==> r.value in Dimensions && r.value !in weights
    ensures r.Some? ==> forall k :: 0 <= k < |Dimensions| && Dimensions[k] == r.value ==>
                          forall j :: 0 <= j < k ==> Dimensions[j] in weights
  {
    if "Power" !in weights then Some("Power")
    else if "CommanderLevel" !in weights then Some("CommanderLevel")
    else if "SynchroLevel" !in weights then Some("SynchroLevel")
    else if "Ranking" !in weights then Some("Ranking")
    else None
  }

  predicate HasAllWeights(weights: map<string, real>)
  {
    "Power" in weights && "CommanderLevel" in weights && "SynchroLevel" in weights && "Ranking" in weights
  }

  predicate Shaped(n: Normalized, count: nat)
  {
    |n.power| == count && |n.commanderLevel| == count && |n.synchroLevel| == count && |n.ranking| == count
  }

  /** The score of opponent `i`: the sum over Power, CommanderLevel,
      SynchroLevel and Ranking of normalised value times weight. */
  function WeightedScore(n: Normalized, weights: map<string, real>, i: nat): real
    requires HasAllWeights(weights)
    requires i < |n.power| && i < |n.commanderLevel| && i < |n.synchroLevel| && i < |n.ranking|
  {
    n.power[i] * weights["Power"] + n.commanderLevel[i] * weights["CommanderLevel"]
    + n.synchroLevel[i] * weights["SynchroLevel"] + n.ranking[i] * weights["Ranking"]
  }

  /** With non-negative weights, an opponent at least as good as another in
      every normalised dimension scores at least as high. */
  lemma ScoreDominance(n: Normalized, weights: map<string, real>, i: nat, j: nat)
    requires HasAllWeights(weights)
    requires forall d :: d in Dimensions ==> weights[d] >= 0.0
    requires i < |n.power| && i < |n.commanderLevel| && i < |n.synchroLevel| && i < |n.ranking|
    requires j < |n.power| && j < |n.commanderLevel| && j < |n.synchroLevel| && j < |n.ranking|
    requires n.power[i] >= n.power[j] && n.commanderLevel[i] >= n.commanderLevel[j]
    requires n.synchroLevel[i] >= n.synchroLevel[j] && n.ranking[i] >= n.ranking[j]
    ensures WeightedScore(n, weights, i) >= WeightedScore(n, weights, j)
  {
    assert "Power" in Dimensions && "CommanderLevel" in Dimensions;
    assert "SynchroLevel" in Dimensions && "Ranking" in Dimensions;
    MulMonotone(n.power[i], n.power[j], weights["Power"]);
    MulMonotone(n.commanderLevel[i], n.commanderLevel[j], weights["CommanderLevel"]);
    MulMonotone(n.synchroLevel[i], n.synchroLevel[j], weights["SynchroLevel"]);
    MulMonotone(n.ranking[i], n.ranking[j], weights["Ranking"]);
  }

  lemma MulMonotone(a: real, b: real, w: real)
    requires a >= b && w >= 0.0
    ensures a * w >= b * w
  {
    assert a * w - b * w == (a - b) * w;
  }

  /** The scoring loop of `select_strategy`: it writes each opponent's score in
      list order, failing with the missing key when a weight is absent. */
  method ScoreOpponents(opponents: seq<Opponent>, n: Normalized, weights: map<string, real>)
    returns (r: Result<seq<Scored>, string>)
    requires Shaped(n, |opponents|)
    ensures r.Err? <==> |opponents| > 0 && MissingWeight(weights).Some?
    ensures r.Err? ==> r.error == MissingWeight(weights).value
    ensures r.Ok? ==> |r.value| == |opponents|
    ensures r.Ok? ==> forall i :: 0 <= i < |opponents| ==>
                        r.value[i].opponent == opponents[i]
                        && HasAllWeights(weights) && r.value[i].score == WeightedScore(n, weights, i)
  {
    var scored: seq<Scored> := [];
    var i := 0;
    while i < |opponents|
      invariant 0 <= i <= |opponents|
      invariant i > 0 ==> HasAllWeights(weights)
      invariant |scored| == i
      invariant forall k :: 0 <= k < i ==>
                  scored[k].opponent == opponents[k] && scored[k].score == WeightedScore(n, weights, k)
    {
      var missing := MissingWeight(weights);
      if missing.Some? {
        return Err(missing.value);
      }
      scored := scored + [Scored(opponents[i], WeightedScore(n, weights, i))];
      i := i + 1;
    }
    return Ok(scored);
  }

  /** The scores as a list, as a function of the inputs (the specification of
      `ScoreOpponents`). */
  function Scores(opponents: seq<Opponent>, n: Normalized, weights: map<string, real>): (r: seq<Scored>)
    requires Shaped(n, |opponents|) && HasAllWeights(weights)
    ensures |r| == |opponents|
    ensures forall i :: 0 <= i < |r| ==> r[i].opponent == opponents[i] && r[i].score == WeightedScore(n, weights, i)
  {
    seq(|opponents|, i requires 0 <= i < |opponents| => Scored(opponents[i], WeightedScore(n, weights, i)))
  }

  // ---------------------------------------------------------------------
  // Stable descending sort

  /** `sorted(..., key=score, reverse=True)` is stable: the result is in
      descending score, and equal scores keep their original (slot) order. */
  predicate Ordered(s: seq<Scored>)
  {
    forall i, j :: 0 <= i < j < |s| ==>
      s[i].score > s[j].score || (s[i].score == s[j].score && s[i].opponent.id < s[j].opponent.id)
  }

  predicate ScoredIdsIncrease(s: seq<Scored>)
  {
    forall i, j :: 0 <= i < j < |s| ==> s[i].opponent.id < s[j].opponent.id
  }

  /** Puts `x` in front of the first element whose score is not above its own. */
  function Insert(x: Scored, s: seq<Scored>): (r: seq<Scored>)
    ensures multiset(r) == multiset(s) + multiset{x}
    ensures |r| == |s| + 1
    ensures forall y :: y in r ==> y == x || y in s
  {
    if s == [] || s[0].score <= x.score then [x] + s
    else
      var rest := Insert(x, s[1..]);
      assert s == [s[0]] + s[1..];
      [s[0]] + rest
  }

  /** The head of an ordered list comes before every element of its tail. */
  predicate Precedes(a: Scored, b: Scored)
  {
    a.score > b.score || (a.score == b.score && a.opponent.id < b.opponent.id)
  }

  lemma {:induction false} InsertOrdered(x: Scored, s: seq<Scored>)
    requires Ordered(s)
    requires forall k :: 0 <= k < |s| ==> x.opponent.id < s[k].opponent.id
    ensures Ordered(Insert(x, s))
    decreases |s|
  {
    if s == [] || s[0].score <= x.score {
      assert Insert(x, s) == [x] + s;
    } else {
      var tail := s[1..];
      var rest := Insert(x, tail);
      InsertOrdered(x, tail);
      assert Insert(x, s) == [s[0]] + rest;
      assert forall y :: y in tail ==> Precedes(s[0], y);
      assert Precedes(s[0], x);
      assert forall k :: 0 <= k < |rest| ==> Precedes(s[0], rest[k]);
    }
  }

  /** `sorted(scored, key=score, reverse=True)`, as an insertion sort from the back. */
  function SortDescending(s: seq<Scored>): (r: seq<Scored>)
    ensures multiset(r) == multiset(s)
    ensures |r| == |s|
  {
    if s == [] then []
    else
      assert s == [s[0]] + s[1..];
      Insert(s[0], SortDescending(s[1..]))
  }

  /** The sort is descending and stable, and a permutation of its input. */
  lemma {:induction false} SortDescendingOrdered(s: seq<Scored>)
    requires ScoredIdsIncrease(s)
    ensures Ordered(SortDescending(s))
    ensures multiset(SortDescending(s)) == multiset(s)
  {
    if s != [] {
      var rest := SortDescending(s[1..]);
      SortDescendingOrdered(s[1..]);
      forall k | 0 <= k < |rest|
        ensures s[0].opponent.id < rest[k].opponent.id
      {
        assert rest[k] in multiset(s[1..]);
        var m :| 0 <= m < |s[1..]| && s[1..][m] == rest[k];
        assert s[1 + m] == rest[k];
      }
      InsertOrdered(s[0], rest);
    }
  }

  // ---------------------------------------------------------------------
  // Strategy pick

  /** The strategy branch: Max takes the first, Min the last and Middle the
      `len // 2`-th entry of the sorted list; any other strategy gives None. */
  function Pick(strategy: string, sorted: seq<Scored>): (r: Option<Scored>)
    requires |sorted| > 0
    ensures r.Some? <==> strategy in {"Max", "Min", "Middle"}
    ensures r.Some? ==> r.value in sorted
    ensures strategy == "Max" ==> r == Some(sorted[0])
    ensures strategy == "Min" ==> r == Some(sorted[|sorted| - 1])
    ensures strategy == "Middle" ==> r == Some(sorted[|sorted| / 2])
  {
    if strategy == "Max" then Some(sorted[0])
    else if strategy == "Min" then Some(sorted[|sorted| - 1])
    else if strategy == "Middle" then Some(sorted[|sorted| / 2])
    else None
  }

  /** On an ordered list Max picks a highest score, the lowest slot among ties. */
  lemma PickMax(sorted: seq<Scored>)
    requires |sorted| > 0 && Ordered(sorted)
    ensures forall k :: 0 <= k < |sorted| ==>
              sorted[k].score <= Pick("Max", sorted).value.score
    ensures forall k :: 0 <= k < |sorted| && sorted[k].score == Pick("Max", sorted).value.score ==>
              Pick("Max", sorted).value.opponent.id <= sorted[k].opponent.id
  {
  }

  /** On an ordered list Min picks a lowest score, the highest slot among ties. */
  lemma PickMin(sorted: seq<Scored>)
    requires |sorted| > 0 && Ordered(sorted)
    ensures forall k :: 0 <= k < |sorted| ==>
              Pick("Min", sorted).value.score <= sorted[k].score
    ensures forall k :: 0 <= k < |sorted| && sorted[k].score == Pick("Min", sorted).value.score ==>
              sorted[k].opponent.id <= Pick("Min", sorted).value.opponent.id
  {
  }

  // ---------------------------------------------------------------------
  // The whole selection

  /** What `select_strategy` returns for the given opponents, weights and
      strategy: KeyError on a missing weight, else the picked opponent or
      None for an unknown strategy. */
  function Selected(opponents: seq<Opponent>, weights: map<string, real>, strategy: string)
    : (r: Result<Option<Opponent>, string>)
    requires |opponents| > 0
    ensures r.Err? <==> MissingWeight(weights).Some?
    ensures r.Ok? ==> (r.value.Some? <==> strategy in {"Max", "Min", "Middle"})
    ensures r.Ok? && r.value.Some? ==> r.value.value in opponents
  {
    match MissingWeight(weights)
    case Some(key) => Err(key)
    case None =>
      var sorted := SortDescending(Scores(opponents, NormalizeAll(opponents), weights));
      match Pick(strategy, sorted)
      case None => Ok(None)
      case Some(x) => Ok(Some(PickedOpponent(opponents, NormalizeAll(opponents), weights, sorted, x)))
  }

  function PickedOpponent(opponents: seq<Opponent>, n: Normalized, weights: map<string, real>,
                          sorted: seq<Scored>, x: Scored): (o: Opponent)
    requires Shaped(n, |opponents|) && HasAllWeights(weights)
    requires sorted == SortDescending(Scores(opponents, n, weights)) && x in sorted
    ensures o == x.opponent && o in opponents
  {
    assert x in multiset(Scores(opponents, n, weights));
    x.opponent
  }

  /** The selected opponent is one of the three slots, so its id is 1..3. */
  lemma SelectedSlot(first: Reading, second: Reading, third: Reading,
                     weights: map<string, real>, strategy: string)
    ensures Selected(OpponentsData(first, second, third), weights, strategy).Ok? &&
            Selected(OpponentsData(first, second, third), weights, strategy).value.Some? ==>
            1 <= Selected(OpponentsData(first, second, third), weights, strategy).value.value.id <= 3
  {
  }

  /** After the sort, the first entry has a highest score and the lowest
      slot among those, the last a lowest score and the highest slot among
      those. */
  lemma SortExtremes(s: seq<Scored>)
    requires |s| > 0 && ScoredIdsIncrease(s)
    ensures SortDescending(s)[0] in s && SortDescending(s)[|s| - 1] in s
    ensures forall k :: 0 <= k < |s| ==>
              SortDescending(s)[|s| - 1].score <= s[k].score <= SortDescending(s)[0].score
    ensures forall k :: 0 <= k < |s| && s[k].score == SortDescending(s)[0].score ==>
              SortDescending(s)[0].opponent.id <= s[k].opponent.id
    ensures forall k :: 0 <= k < |s| && s[k].score == SortDescending(s)[|s| - 1].score ==>
              s[k].opponent.id <= SortDescending(s)[|s| - 1].opponent.id
  {
    var sorted := SortDescending(s);
    SortDescendingOrdered(s);
    assert sorted[0] in multiset(s);
    assert sorted[|s| - 1] in multiset(s);
    forall k | 0 <= k < |s|
      ensures sorted[|s| - 1].score <= s[k].score <= sorted[0].score
      ensures s[k].score == sorted[0].score ==> sorted[0].opponent.id <= s[k].opponent.id
      ensures s[k].score == sorted[|s| - 1].score ==> s[k].opponent.id <= sorted[|s| - 1].opponent.id
    {
      assert s[k] in multiset(sorted);
      var j :| 0 <= j < |sorted| && sorted[j] == s[k];
      assert j == 0 || Precedes(sorted[0], sorted[j]);
      assert j == |s| - 1 || Precedes(sorted[j], sorted[|s| - 1]);
    }
  }

  /** Max selects the first and Min the last opponent of the sorted scores
      (see `SortExtremes`), whatever the readings. */
  lemma SelectedExtremes(opponents: seq<Opponent>, weights: map<string, real>)
    requires |opponents| > 0 && IdsIncrease(opponents) && HasAllWeights(weights)
    ensures ScoredIdsIncrease(Scores(opponents, NormalizeAll(opponents), weights))
    ensures Selected(opponents, weights, "Max")
            == Ok(Some(SortDescending(Scores(opponents, NormalizeAll(opponents), weights))[0].opponent))
    ensures Selected(opponents, weights, "Min")
            == Ok(Some(SortDescending(Scores(opponents, NormalizeAll(opponents), weights))[|opponents| - 1].opponent))
  {
    var n := NormalizeAll(opponents);
    var scored := Scores(opponents, n, weights);
    assert MissingWeight(weights).None?;
    var sorted := SortDescending(scored);
    assert Pick("Max", sorted) == Some(sorted[0]);
    assert Pick("Min", sorted) == Some(sorted[|sorted| - 1]);
  }

  /** The selection method, following `select_strategy` step by step. */
  method SelectStrategy(opponents: seq<Opponent>, weights: map<string, real>, strategy: string)
    returns (r: Result<Option<Opponent>, string>)
    requires |opponents| > 0
    ensures r == Selected(opponents, weights, strategy)
  {
    var n := NormalizeAll(opponents);
    var scored := ScoreOpponents(opponents, n, weights);
    if scored.Err? {
      return Err(scored.error);
    }
    assert scored.value == Scores(opponents, n, weights);
    var sorted := SortDescending(scored.value);
    var pick := Pick(strategy, sorted);
    if pick.None? {
      return Ok(None);
    }
    return Ok(Some(pick.value.opponent));
  }
}
