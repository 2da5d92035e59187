/**
 The final ranking: points first, then the tie-break keys in their order, then the player id.
 */
module Ranking {
  import opened Wrappers
  import opened Sorting
  import opened StringOrder
  import opened TieBreak
  import opened TieBreakKeys

  function ValueOf(key: Key, p: Player, ctx: Context, unrated: Option<int>): Option<real> {
    match key
    case Buchholz => Some(Sum(Contributions(p.games, ctx)) as real)
    case BuchholzCut1 => Some(Cut(Contributions(p.games, ctx), 1, 0) as real)
    case MedianBuchholz => Some(Cut(Contributions(p.games, ctx), 1, 1) as real)
    case SonnebornBerger => Some(SonnebornBergerOf(p.games, ctx) as real)
    case DirectEncounter =>
      (match DirectEncounterOf(ctx, p)
       case None => None
       case Some(score) => Some(score as real))
    case Cumulative => Some(CumulativeOf(p.games) as real)
    case Aro => Some(AroOf(p.games, ctx, unrated))
    case Koya => Some(KoyaOf(p.games, ctx) as real)
    case Wins => Some(CountGames(p.games, Won) as real)
    case BlackGames => Some(CountGames(p.games, PlayedBlack) as real)
  }

  method ComputeValue(key: Key, p: Player, ctx: Context, unrated: Option<int>) returns (v: real)
    requires key != DirectEncounter
    ensures ValueOf(key, p, ctx, unrated) == Some(v)
  {
    match key
    case Buchholz =>
      var c := BuchholzContributions(p.games, ctx);
      var total := SumLoop(c);
      v := total as real;
    case BuchholzCut1 =>
      var c := BuchholzContributions(p.games, ctx);
      var total := BuchholzCut(c, 1, 0);
      v := total as real;
    case MedianBuchholz =>
      var c := BuchholzContributions(p.games, ctx);
      var total := BuchholzCut(c, 1, 1);
      v := total as real;
    case SonnebornBerger =>
      var total := SonnebornBergerLoop(p.games, ctx);
      v := total as real;
    case Cumulative =>
      var total := CumulativeLoop(p.games);
      v := total as real;
    case Aro => v := AroLoop(p.games, ctx, unrated);
    case Koya =>
      var total := KoyaLoop(p.games, ctx);
      v := total as real;
    case Wins =>
      var count := CountLoop(p.games, Won);
      v := count as real;
    case BlackGames =>
      var count := CountLoop(p.games, PlayedBlack);
      v := count as real;
  }

  ghost predicate Tabulates(
    table: map<string, Option<real>>, key: Key, players: seq<Player>, ctx: Context, unrated: Option<int>) {
    forall p :: p in players ==> p.playerId in table && table[p.playerId] == ValueOf(key, p, ctx, unrated)
  }

  /** One key for all players. */
  method ComputeInternal(key: Key, players: seq<Player>, ctx: Context, unrated: Option<int>)
    returns (table: map<string, Option<real>>)
    requires DistinctIds(players) && ctx == ContextOf(players)
    ensures Tabulates(table, key, players, ctx, unrated)
  {
    table := map[];
    var encounters: map<string, Option<int>> := map[];
    if key == DirectEncounter { encounters := DirectEncounters(players); }
    for i := 0 to |players|
      invariant forall k :: 0 <= k < i ==>
          players[k].playerId in table && table[players[k].playerId] == ValueOf(key, players[k], ctx, unrated)
    {
      var p := players[i];
      assert p in players;
      var value: Option<real>;
      if key == DirectEncounter {
        var score := encounters[p.playerId];
        value := if score.None? then None else Some(score.value as real);
      } else {
        var v := ComputeValue(key, p, ctx, unrated);
        value := Some(v);
      }
      table := table[p.playerId := value];
    }
  }

  // ---------------------------------------------------------------------------------------
  //  The comparator, for any table of values
  // ---------------------------------------------------------------------------------------

  datatype Ordering = Less | Equal | Greater

  function Flip(o: Ordering): Ordering {
    match o
    case Less => Greater
    case Equal => Equal
    case Greater => Less
  }

  /** A higher value ranks first. */
  function CompareDescending(x: real, y: real): Ordering { if x > y then Less else if x < y then Greater else Equal }

  function CompareId(a: string, b: string): Ordering {
    if Before(a, b) then Less else if Before(b, a) then Greater else Equal
  }

  type Values = (Key, Player) -> Option<real>

  /** Key by key; a key without a value for one of the two is passed over. */
  function CompareKeys(values: Values, keys: seq<Key>, a: Player, b: Player): Ordering {
    if keys == [] then CompareId(a.playerId, b.playerId)
    else
      var va, vb := values(keys[0], a), values(keys[0], b);
      if va.None? || vb.None? || va.value == vb.value then CompareKeys(values, keys[1..], a, b)
      else CompareDescending(va.value, vb.value)
  }

  function Compare(values: Values, keys: seq<Key>, a: Player, b: Player): Ordering {
    if a.points2 != b.points2 then CompareDescending(a.points2 as real, b.points2 as real)
    else CompareKeys(values, keys, a, b)
  }

  /** Skipping keys that do not apply can go round in a circle. */
  lemma SkippingCanCycle(a: Player, b: Player, c: Player)
    requires a != b && b != c && a != c
    ensures var values: Values := (key, p) =>
              if key == DirectEncounter then (if p == a then Some(3.0) else if p == c then Some(2.0) else None)
              else (if p == a then Some(1.0) else if p == b then Some(2.0) else Some(3.0));
            var keys := [DirectEncounter, Buchholz];
            && CompareKeys(values, keys, a, c) == Less
            && CompareKeys(values, keys, c, b) == Less
            && CompareKeys(values, keys, b, a) == Less
  {
    var values: Values := (key, p) =>
      if key == DirectEncounter then (if p == a then Some(3.0) else if p == c then Some(2.0) else None)
      else (if p == a then Some(1.0) else if p == b then Some(2.0) else Some(3.0));
    var keys := [DirectEncounter, Buchholz];
    assert keys[1..] == [Buchholz] && keys[1..][0] == Buchholz;
    assert CompareKeys(values, keys[1..], c, b) == CompareDescending(3.0, 2.0);
    assert CompareKeys(values, keys[1..], b, a) == CompareDescending(2.0, 1.0);
  }

  /** On equal points a key applies to both players or to neither. */
  ghost predicate AppliesToAllOrNone(values: Values, keys: seq<Key>, a: Player, b: Player) {
    a.points2 == b.points2 ==> forall i :: 0 <= i < |keys| ==> (values(keys[i], a).Some? <==> values(keys[i], b).Some?)
  }

  lemma IdsCompare(a: string, b: string)
    ensures CompareId(a, b) == Flip(CompareId(b, a))
    ensures CompareId(a, b) == Equal <==> a == b
  {
    BeforeIrreflexive(a);
    BeforeTotal(a, b);
    if Before(a, b) && Before(b, a) { BeforeTransitive(a, b, a); }
  }

  lemma {:induction false} KeysAntisymmetric(values: Values, keys: seq<Key>, a: Player, b: Player)
    ensures CompareKeys(values, keys, a, b) == Flip(CompareKeys(values, keys, b, a))
    ensures CompareKeys(values, keys, a, b) == Equal ==> a.playerId == b.playerId
  {
    if keys == [] {
      IdsCompare(a.playerId, b.playerId);
    } else {
      KeysAntisymmetric(values, keys[1..], a, b);
    }
  }

  lemma {:induction false} KeysTransitive(values: Values, keys: seq<Key>, a: Player, b: Player, c: Player)
    requires a.points2 == b.points2 == c.points2
    requires AppliesToAllOrNone(values, keys, a, b) && AppliesToAllOrNone(values, keys, b, c)
    requires CompareKeys(values, keys, a, b) != Greater && CompareKeys(values, keys, b, c) != Greater
    ensures CompareKeys(values, keys, a, c) != Greater
    ensures CompareKeys(values, keys, a, b) == Less || CompareKeys(values, keys, b, c) == Less ==>
            CompareKeys(values, keys, a, c) == Less
  {
    if keys == [] {
      IdsTransitive(a.playerId, b.playerId, c.playerId);
    } else {
      assert values(keys[0], a).Some? <==> values(keys[0], b).Some?;
      assert values(keys[0], b).Some? <==> values(keys[0], c).Some?;
      var va, vb, vc := values(keys[0], a), values(keys[0], b), values(keys[0], c);
      TailApplies(values, keys, a, b);
      TailApplies(values, keys, b, c);
      if va.None? || (va == vb && vb == vc) {
        KeysTransitive(values, keys[1..], a, b, c);
      }
    }
  }

  lemma TailApplies(values: Values, keys: seq<Key>, a: Player, b: Player)
    requires keys != [] && AppliesToAllOrNone(values, keys, a, b)
    ensures AppliesToAllOrNone(values, keys[1..], a, b)
  {
    if a.points2 == b.points2 {
      forall i | 0 <= i < |keys[1..]| ensures values(keys[1..][i], a).Some? <==> values(keys[1..][i], b).Some? {
        assert keys[1..][i] == keys[i + 1];
      }
    }
  }

  lemma IdsTransitive(a: string, b: string, c: string)
    requires CompareId(a, b) != Greater && CompareId(b, c) != Greater
    ensures CompareId(a, c) != Greater
    ensures CompareId(a, b) == Less || CompareId(b, c) == Less ==> CompareId(a, c) == Less
  {
    IdsCompare(a, b);
    IdsCompare(b, c);
    IdsCompare(a, c);
    if Before(a, b) && Before(b, c) { BeforeTransitive(a, b, c); }
  }

  // ---------------------------------------------------------------------------------------
  //  The comparator of the platform's tables is a strict total order
  // ---------------------------------------------------------------------------------------

  function ValuesOf(ctx: Context, unrated: Option<int>): Values { (key, p) => ValueOf(key, p, ctx, unrated) }

  function Order(ctx: Context, unrated: Option<int>, keys: seq<Key>): (Player, Player) -> bool {
    (a, b) => Compare(ValuesOf(ctx, unrated), keys, a, b) != Greater
  }

  /** Direct Encounter is the one key that can be missing, and it is so for a whole points group. */
  lemma DirectEncounterAllOrNone(ctx: Context, unrated: Option<int>, keys: seq<Key>, a: Player, b: Player)
    ensures AppliesToAllOrNone(ValuesOf(ctx, unrated), keys, a, b)
  {
    if a.points2 == b.points2 {
      forall i | 0 <= i < |keys|
        ensures ValuesOf(ctx, unrated)(keys[i], a).Some? <==> ValuesOf(ctx, unrated)(keys[i], b).Some?
      {
        var key := keys[i];
        assert key == DirectEncounter || (ValueOf(key, a, ctx, unrated).Some? && ValueOf(key, b, ctx, unrated).Some?);
      }
    }
  }

  lemma CompareTransitive(ctx: Context, unrated: Option<int>, keys: seq<Key>, a: Player, b: Player, c: Player)
    requires Order(ctx, unrated, keys)(a, b) && Order(ctx, unrated, keys)(b, c)
    ensures Order(ctx, unrated, keys)(a, c)
  {
    DirectEncounterAllOrNone(ctx, unrated, keys, a, b);
    DirectEncounterAllOrNone(ctx, unrated, keys, b, c);
    if a.points2 == b.points2 == c.points2 {
      KeysTransitive(ValuesOf(ctx, unrated), keys, a, b, c);
    }
  }

  /** Any two players compare, oppositely seen from the other side, and as equal only with the same id. */
  lemma CompareTotal(ctx: Context, unrated: Option<int>, keys: seq<Key>, a: Player, b: Player)
    ensures var values := ValuesOf(ctx, unrated);
            Compare(values, keys, a, b) == Flip(Compare(values, keys, b, a))
            && (Compare(values, keys, a, b) == Equal ==> a.playerId == b.playerId)
  {
    KeysAntisymmetric(ValuesOf(ctx, unrated), keys, a, b);
  }

  lemma OrderIsTotal(ctx: Context, unrated: Option<int>, keys: seq<Key>, players: seq<Player>)
    requires DistinctIds(players)
    ensures TotalPreorderOn(Order(ctx, unrated, keys), players)
    ensures AntisymmetricOn(Order(ctx, unrated, keys), players)
  {
    var le := Order(ctx, unrated, keys);
    forall a, b ensures le(a, b) || le(b, a) { CompareTotal(ctx, unrated, keys, a, b); }
    forall a, b, c | le(a, b) && le(b, c) ensures le(a, c) { CompareTransitive(ctx, unrated, keys, a, b, c); }
    forall a, b | a in players && b in players && le(a, b) && le(b, a) ensures a == b {
      CompareTotal(ctx, unrated, keys, a, b);
      SameIdSamePlayer(players, a, b);
    }
  }

  // ---------------------------------------------------------------------------------------
  //  The ranking
  // ---------------------------------------------------------------------------------------

  /** Each key once, where it first appears. */
  function Deduped(keys: seq<Key>): seq<Key> {
    if keys == [] then []
    else
      var front := Deduped(keys[..|keys| - 1]);
      if keys[|keys| - 1] in front then front else front + [keys[|keys| - 1]]
  }

  method Dedupe(keys: seq<Key>) returns (out: seq<Key>)
    ensures out == Deduped(keys)
  {
    var seen: set<Key> := {};
    out := [];
    for i := 0 to |keys|
      invariant out == Deduped(keys[..i]) && seen == set k | k in out
    {
      assert keys[..i + 1][..i] == keys[..i];
      if keys[i] !in seen {
        seen := seen + {keys[i]};
        out := out + [keys[i]];
      }
    }
    assert keys[..|keys|] == keys;
  }

  function Ids(players: seq<Player>): seq<string> {
    seq(|players|, i requires 0 <= i < |players| => players[i].playerId)
  }

  function Ranked(players: seq<Player>, keys: seq<Key>, unrated: Option<int>): seq<Player> {
    Sort(Order(ContextOf(players), unrated, Deduped(keys)), players)
  }

  method Rank(players: seq<Player>, order: seq<Key>, unrated: Option<int>) returns (r: Result<seq<string>, DataError>)
    ensures r.Ok? <==> DistinctIds(players) && GamesKnown(players)
    ensures r.Ok? ==> r.value == Ids(Ranked(players, order, unrated))
    ensures r.Err? ==> ReportsFirst(players, r.error)
  {
    var ctx := BuildContext(players);
    if ctx.Err? { return Err(ctx.error); }
    var keys := Dedupe(order);
    var values: map<Key, map<string, Option<real>>> := map[];
    for i := 0 to |keys|
      invariant forall k :: 0 <= k < i ==>
          keys[k] in values && Tabulates(values[keys[k]], keys[k], players, ctx.value, unrated)
    {
      var table := ComputeInternal(keys[i], players, ctx.value, unrated);
      values := values[keys[i] := table];
    }
    TabledOrder(values, keys, players, ctx.value, unrated);
    SortAgrees(ByTables(values, keys), Order(ctx.value, unrated, keys), players);
    return Ok(Ids(Sort(ByTables(values, keys), players)));
  }

  function Looked(values: map<Key, map<string, Option<real>>>): Values {
    (key: Key, p: Player) => if key in values && p.playerId in values[key] then values[key][p.playerId] else None
  }

  /** The comparator of the source: it looks every value up. */
  function ByTables(values: map<Key, map<string, Option<real>>>, keys: seq<Key>): (Player, Player) -> bool {
    (a, b) => Compare(Looked(values), keys, a, b) != Greater
  }

  lemma {:induction false} SameValuesSameOrder(v: Values, w: Values, keys: seq<Key>, a: Player, b: Player)
    requires forall k :: 0 <= k < |keys| ==> v(keys[k], a) == w(keys[k], a) && v(keys[k], b) == w(keys[k], b)
    ensures CompareKeys(v, keys, a, b) == CompareKeys(w, keys, a, b)
  {
    if keys != [] { SameValuesSameOrder(v, w, keys[1..], a, b); }
  }

  lemma TabledOrder(
    values: map<Key, map<string, Option<real>>>, keys: seq<Key>, players: seq<Player>, ctx: Context,
    unrated: Option<int>)
    requires forall k :: 0 <= k < |keys| ==>
            keys[k] in values && Tabulates(values[keys[k]], keys[k], players, ctx, unrated)
    ensures forall a, b :: a in players && b in players ==>
            ByTables(values, keys)(a, b) == Order(ctx, unrated, keys)(a, b)
  {
    forall a, b | a in players && b in players
      ensures ByTables(values, keys)(a, b) == Order(ctx, unrated, keys)(a, b)
    {
      SameValuesSameOrder(Looked(values), ValuesOf(ctx, unrated), keys, a, b);
    }
  }

  /** The ranking lists every player once, by points from the top, and pairwise by the comparator. */
  lemma RankedIsSorted(players: seq<Player>, keys: seq<Key>, unrated: Option<int>)
    requires DistinctIds(players)
    ensures multiset(Ranked(players, keys, unrated)) == multiset(players)
    ensures Sorted(Order(ContextOf(players), unrated, Deduped(keys)), Ranked(players, keys, unrated))
    ensures var r := Ranked(players, keys, unrated); forall i, j :: 0 <= i < j < |r| ==> r[i].points2 >= r[j].points2
  {
    var ctx := ContextOf(players);
    OrderIsTotal(ctx, unrated, Deduped(keys), players);
    SortSorted(Order(ctx, unrated, Deduped(keys)), players);
    var r := Ranked(players, keys, unrated);
    forall i, j | 0 <= i < j < |r| ensures r[i].points2 >= r[j].points2 {
      assert Order(ctx, unrated, Deduped(keys))(r[i], r[j]);
    }
  }

  // ---------------------------------------------------------------------------------------
  //  The order of the input does not matter
  // ---------------------------------------------------------------------------------------

  lemma {:induction false} RoundsAreLargest(players: seq<Player>)
    ensures forall p :: p in players ==> |p.games| <= Rounds(players)
    ensures Rounds(players) == 0 || exists p :: p in players && |p.games| == Rounds(players)
  {
    if players != [] {
      var front, last := players[..|players| - 1], players[|players| - 1];
      RoundsAreLargest(front);
      assert forall p :: p in players <==> p in front || p == last;
    }
  }

  lemma DistinctTransfers(a: seq<Player>, b: seq<Player>)
    requires multiset(a) == multiset(b) && DistinctIds(a)
    ensures DistinctIds(b)
  {
    SameElements(a, b);
    OnceEach(a);
    forall i, j | 0 <= i < j < |b| ensures b[i].playerId != b[j].playerId {
      if b[i].playerId == b[j].playerId {
        assert b[i] in a && b[j] in a;
        SameIdSamePlayer(a, b[i], b[j]);
        TwiceIn(b, i, j);
      }
    }
  }

  lemma IdsOf(a: seq<Player>, b: seq<Player>, id: string)
    requires (forall p :: p in a <==> p in b) && DistinctIds(a) && DistinctIds(b) && id in ById(a)
    ensures id in ById(b) && ById(b)[id] == ById(a)[id]
  {
    ByIdHolds(a);
    ByIdHolds(b);
    var i :| 0 <= i < |a| && a[i].playerId == id;
    assert a[i] in b;
    var j :| 0 <= j < |b| && b[j] == a[i];
  }

  lemma RoundsForgetOrder(a: seq<Player>, b: seq<Player>)
    requires forall p :: p in a <==> p in b
    ensures Rounds(a) == Rounds(b)
  {
    RoundsAreLargest(a);
    RoundsAreLargest(b);
  }

  lemma ContextForgetsOrder(a: seq<Player>, b: seq<Player>)
    requires multiset(a) == multiset(b) && DistinctIds(a)
    ensures ContextOf(a) == ContextOf(b)
  {
    SameElements(a, b);
    DistinctTransfers(a, b);
    RoundsForgetOrder(a, b);
    forall id | id in ById(a) ensures id in ById(b) && ById(b)[id] == ById(a)[id] { IdsOf(a, b, id); }
    forall id | id in ById(b) ensures id in ById(a) { IdsOf(b, a, id); }
    assert ById(a) == ById(b);
  }

  /** The ranking is the same for every order in which the players are given. */
  lemma RankingForgetsOrder(a: seq<Player>, b: seq<Player>, keys: seq<Key>, unrated: Option<int>)
    requires multiset(a) == multiset(b) && DistinctIds(a)
    ensures Ranked(a, keys, unrated) == Ranked(b, keys, unrated)
  {
    ContextForgetsOrder(a, b);
    OrderIsTotal(ContextOf(a), unrated, Deduped(keys), a);
    SortForgetsOrder(Order(ContextOf(a), unrated, Deduped(keys)), a, b);
  }

  // ---------------------------------------------------------------------------------------
  //  What the cut keys mean
  // ---------------------------------------------------------------------------------------

  lemma {:induction false} SumConcat(a: seq<int>, b: seq<int>)
    ensures Sum(a + b) == Sum(a) + Sum(b)
  {
    if b == [] {
      assert a + b == a;
    } else {
      SumConcat(a, b[..|b| - 1]);
      assert (a + b)[..|a + b| - 1] == a + b[..|b| - 1];
    }
  }

  lemma {:induction false} SumForgetsOrder(a: seq<int>, b: seq<int>)
    requires multiset(a) == multiset(b)
    ensures Sum(a) == Sum(b)
    decreases |a|
  {
    SameElements(a, b);
    if a != [] {
      var x := a[0];
      assert x in b;
      var i :| 0 <= i < |b| && b[i] == x;
      assert a == [x] + a[1..];
      assert b == b[..i] + ([x] + b[i + 1..]);
      CancelElement(x, multiset(a[1..]), multiset(b[..i] + b[i + 1..]));
      SumForgetsOrder(a[1..], b[..i] + b[i + 1..]);
      SumConcat([x], a[1..]);
      SumConcat(b[..i], [x] + b[i + 1..]);
      SumConcat([x], b[i + 1..]);
      SumConcat(b[..i], b[i + 1..]);
    }
  }

  ghost predicate IsMin(x: int, c: seq<int>) { x in c && forall y :: y in c ==> x <= y }

  ghost predicate IsMax(x: int, c: seq<int>) { x in c && forall y :: y in c ==> y <= x }

  lemma SumEnds(s: seq<int>)
    requires |s| >= 1
    ensures Sum(s) == s[0] + Sum(s[1..])
    ensures |s| >= 2 ==> Sum(s[1..]) == Sum(s[1..|s| - 1]) + s[|s| - 1]
  {
    assert s == [s[0]] + s[1..];
    SumConcat([s[0]], s[1..]);
    assert [s[0]][..0] == [];
    if |s| >= 2 { assert s[1..][..|s| - 2] == s[1..|s| - 1]; }
  }

  /** The extremes of a sorted list stand at its ends. */
  lemma SortedEnds(s: seq<int>, low: int, high: int)
    requires Sorted(IntOrder(), s) && IsMin(low, s) && IsMax(high, s)
    ensures |s| >= 1 && s[0] == low && s[|s| - 1] == high
  {
    var i :| 0 <= i < |s| && s[i] == low;
    var j :| 0 <= j < |s| && s[j] == high;
    assert s[0] in s && s[|s| - 1] in s;
    if i > 0 { assert IntOrder()(s[0], s[i]); }
    if j < |s| - 1 { assert IntOrder()(s[j], s[|s| - 1]); }
  }

  lemma InnerSums(s: seq<int>, low: int, high: int)
    requires Sorted(IntOrder(), s) && IsMin(low, s) && IsMax(high, s)
    ensures |s| >= 2 ==> Sum(s[1..|s| - 0]) == Sum(s) - low
    ensures |s| >= 3 ==> Sum(s[1..|s| - 1]) == Sum(s) - low - high
  {
    SortedEnds(s, low, high);
    SumEnds(s);
    assert s[1..|s| - 0] == s[1..];
  }

  lemma ExtremesTransfer(c: seq<int>, s: seq<int>, low: int, high: int)
    requires multiset(c) == multiset(s) && IsMin(low, c) && IsMax(high, c)
    ensures IsMin(low, s) && IsMax(high, s) && |s| == |c| && Sum(s) == Sum(c)
  {
    SameElements(c, s);
    SumForgetsOrder(c, s);
  }

  /** Cut-1 is the sum without its smallest contribution, the median the sum without both extremes. */
  lemma CutsDropExtremes(c: seq<int>, low: int, high: int)
    requires IsMin(low, c) && IsMax(high, c)
    ensures Cut(c, 1, 0) == if |c| >= 2 then Sum(c) - low else 0
    ensures Cut(c, 1, 1) == if |c| >= 3 then Sum(c) - low - high else 0
  {
    SortSorted(IntOrder(), c);
    CutUnfolds(c, 1, 0, Sort(IntOrder(), c));
    CutUnfolds(c, 1, 1, Sort(IntOrder(), c));
    ExtremesOff(c, Sort(IntOrder(), c), low, high, Cut(c, 1, 0), Cut(c, 1, 1));
  }

  lemma CutUnfolds(c: seq<int>, low: nat, high: nat, s: seq<int>)
    requires s == Sort(IntOrder(), c)
    ensures Cut(c, low, high) == if |s| <= low + high then 0 else Sum(s[low..|s| - high])
  {
  }

  lemma ExtremesOff(c: seq<int>, s: seq<int>, low: int, high: int, cut1: int, median: int)
    requires multiset(c) == multiset(s) && Sorted(IntOrder(), s) && IsMin(low, c) && IsMax(high, c)
    requires cut1 == if |s| <= 1 then 0 else Sum(s[1..|s| - 0])
    requires median == if |s| <= 2 then 0 else Sum(s[1..|s| - 1])
    ensures cut1 == if |c| >= 2 then Sum(c) - low else 0
    ensures median == if |c| >= 3 then Sum(c) - low - high else 0
  {
    ExtremesTransfer(c, s, low, high);
    InnerSums(s, low, high);
  }

  /** The progressive score weighs round i of n by the number of rounds from it on. */
  function Weighted(games: seq<Game>, n: int): int {
    if games == [] then 0 else Weighted(games[..|games| - 1], n) + (n - (|games| - 1)) * games[|games| - 1].result2
  }

  lemma {:induction false} WeightedStep(games: seq<Game>, n: int)
    ensures Weighted(games, n + 1) == Weighted(games, n) + Scored(games)
  {
    if games != [] {
      WeightedStep(games[..|games| - 1], n);
      var k, r := n - (|games| - 1), games[|games| - 1].result2;
      assert (k + 1) * r == k * r + r;
    }
  }

  lemma {:induction false} CumulativeIsWeighted(games: seq<Game>)
    ensures CumulativeOf(games) == Weighted(games, |games|)
  {
    if games != [] {
      var front := games[..|games| - 1];
      CumulativeIsWeighted(front);
      WeightedStep(front, |front|);
    }
  }
}
