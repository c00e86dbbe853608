/**
 The intent router: four rankings of the visible operations are fused into one, and an operation is
 selected only when it wins outright.  Similarities are real numbers, token overlaps and exact matches
 are given.
 */
module Router {
  import opened Wrappers
  import opened Ranking
  import opened Sorting

  datatype Operation = Operation(
    id: string,
    exact: bool,                    // the request names the operation
    originalOverlap: nat,
    viewOverlap: nat,
    originalSimilarity: real,
    viewSimilarity: real)

  datatype Requirement = Required | Optional | NotNeeded
  datatype IntentView = IntentView(requirement: Requirement, unresolved: seq<string>, missing: seq<string>)

  /** The four rankings of one request. */
  datatype Rankings = Rankings(
    originalLexical: map<nat, nat>,
    originalDense: map<nat, nat>,
    viewLexical: map<nat, nat>,
    viewDense: map<nat, nat>)

  datatype Decision =
    | NoTool
    | AskFor(fields: seq<string>)
    | NothingMatches
    | Ambiguous(candidates: seq<nat>)
    | Select(index: nat, candidates: seq<nat>)

  // ---------------------------------------------------------------- fusing the ranks of an operation

  /** `_rrf` */
  function Rrf(rank: Option<nat>, weight: real): real {
    match rank
    case None => 0.0
    case Some(r) => weight / (60 + r) as real
  }

  function Least(a: Option<nat>, b: Option<nat>): Option<nat> {
    if a.None? then b
    else if b.None? then a
    else if a.value <= b.value then a else b
  }

  /** The best rank that the model's view of the request gives an operation. */
  function IntentRank(rankings: Rankings, i: nat): Option<nat> {
    Least(Lookup(rankings.viewLexical, i), Lookup(rankings.viewDense, i))
  }

  function Score(rankings: Rankings, i: nat): real {
    Rrf(Lookup(rankings.originalLexical, i), 1.0) + Rrf(Lookup(rankings.originalDense, i), 1.0) + Rrf(IntentRank(rankings, i), 2.0)
  }

  predicate Matches(operations: seq<Operation>, rankings: Rankings, i: nat) {
    i < |operations| &&
    (operations[i].exact || i in rankings.originalLexical || i in rankings.originalDense || IntentRank(rankings, i).Some?)
  }

  datatype Key = Key(miss: nat, intent: nat, loss: real, id: string)

  const NO_RANK: nat := 1_000_000

  function KeyOf(operations: seq<Operation>, rankings: Rankings, i: nat): Key
    requires i < |operations|
  {
    Key(if operations[i].exact then 0 else 1,
        if IntentRank(rankings, i).Some? && IntentRank(rankings, i).value != 0 then IntentRank(rankings, i).value else NO_RANK,
        -Score(rankings, i), operations[i].id)
  }

  /** The first three components of the sort key, which decide. */
  predicate Beats(a: Key, b: Key) {
    a.miss < b.miss || (a.miss == b.miss && (a.intent < b.intent || (a.intent == b.intent && a.loss < b.loss)))
  }

  predicate Ties(a: Key, b: Key) { a.miss == b.miss && a.intent == b.intent && a.loss == b.loss }

  predicate StringLeq(a: string, b: string) {
    a == [] || (b != [] && (a[0] < b[0] || (a[0] == b[0] && StringLeq(a[1..], b[1..]))))
  }

  lemma {:induction false} StringsCompare(a: string, b: string)
    ensures StringLeq(a, b) || StringLeq(b, a)
  {
    if a != [] && b != [] {
      StringsCompare(a[1..], b[1..]);
    }
  }

  lemma {:induction false} StringsChain(a: string, b: string, c: string)
    requires StringLeq(a, b) && StringLeq(b, c)
    ensures StringLeq(a, c)
  {
    if a != [] && a[0] == b[0] == c[0] {
      StringsChain(a[1..], b[1..], c[1..]);
    }
  }

  /** Strings are compared by the first character in which they differ; a prefix comes first. */
  lemma {:induction false} StringLeqIff(a: string, b: string, k: nat)
    requires k <= |a| && k <= |b| && a[..k] == b[..k]
    requires k == |a| || k == |b| || a[k] != b[k]
    ensures StringLeq(a, b) <==> k == |a| || (k < |b| && a[k] < b[k])
  {
    if k > 0 {
      assert a[0] == a[..k][0] == b[..k][0] == b[0];
      assert a[1..][..k - 1] == a[..k][1..] == b[..k][1..] == b[1..][..k - 1];
      StringLeqIff(a[1..], b[1..], k - 1);
    }
  }

  /** What is sorted: an operation under its key. */
  datatype Entry = Entry(key: Key, index: nat)

  function EntryLeq(a: Entry, b: Entry): bool {
    Beats(a.key, b.key) || (Ties(a.key, b.key) && StringLeq(a.key.id, b.key.id))
  }

  lemma EntryLeqIsTotal()
    ensures TotalOrder(EntryLeq)
  {
    forall a, b ensures EntryLeq(a, b) || EntryLeq(b, a) {
      StringsCompare(a.key.id, b.key.id);
    }
    forall a, b, c | EntryLeq(a, b) && EntryLeq(b, c) ensures EntryLeq(a, c) {
      if StringLeq(a.key.id, b.key.id) && StringLeq(b.key.id, c.key.id) {
        StringsChain(a.key.id, b.key.id, c.key.id);
      }
    }
  }

  // ---------------------------------------------------------------- what a decision means

  function OriginalOverlaps(operations: seq<Operation>): seq<real> {
    seq(|operations|, i requires 0 <= i < |operations| => operations[i].originalOverlap as real)
  }

  function ViewOverlaps(operations: seq<Operation>): seq<real> {
    seq(|operations|, i requires 0 <= i < |operations| => operations[i].viewOverlap as real)
  }

  function OriginalSimilarities(operations: seq<Operation>): seq<real> {
    seq(|operations|, i requires 0 <= i < |operations| => operations[i].originalSimilarity)
  }

  function ViewSimilarities(operations: seq<Operation>): seq<real> {
    seq(|operations|, i requires 0 <= i < |operations| => operations[i].viewSimilarity)
  }

  ghost predicate AreRankings(operations: seq<Operation>, minimum: real, rankings: Rankings) {
    && IsRanking(OriginalOverlaps(operations), 1.0, rankings.originalLexical)
    && IsRanking(ViewOverlaps(operations), 1.0, rankings.viewLexical)
    && IsRanking(OriginalSimilarities(operations), minimum, rankings.originalDense)
    && IsRanking(ViewSimilarities(operations), minimum, rankings.viewDense)
  }

  /** `i` beats every other operation that matches. */
  ghost predicate Wins(operations: seq<Operation>, rankings: Rankings, i: nat) {
    && Matches(operations, rankings, i)
    && forall j | j != i && Matches(operations, rankings, j) :: Beats(KeyOf(operations, rankings, i), KeyOf(operations, rankings, j))
  }

  /** `i` sorts before `j`. */
  predicate Precedes(operations: seq<Operation>, rankings: Rankings, i: nat, j: nat) {
    && i < |operations| && j < |operations|
    && EntryLeq(Entry(KeyOf(operations, rankings, i), i), Entry(KeyOf(operations, rankings, j), j))
  }

  /** The best operations, three at most: nothing that matches and was left out beats any of them. */
  ghost predicate Best(operations: seq<Operation>, rankings: Rankings, candidates: seq<nat>) {
    && candidates != [] && |candidates| <= 3 && NoRepeats(candidates)
    && (forall c | c in candidates :: Matches(operations, rankings, c))
    && (forall a, b | 0 <= a < b < |candidates| ::
          Precedes(operations, rankings, candidates[a], candidates[b]))
    && (forall j | Matches(operations, rankings, j) && j !in candidates ::
          |candidates| == 3 && forall c | c in candidates :: !Beats(KeyOf(operations, rankings, j), KeyOf(operations, rankings, c)))
  }

  ghost predicate Decides(operations: seq<Operation>, rankings: Rankings, decision: Decision) {
    match decision
    case NothingMatches => forall i :: !Matches(operations, rankings, i)
    case Select(index, candidates) => Wins(operations, rankings, index) && Best(operations, rankings, candidates) && candidates[0] == index
    case Ambiguous(candidates) => (forall i :: !Wins(operations, rankings, i)) && Best(operations, rankings, candidates)
    case _ => false
  }

  // ---------------------------------------------------------------- dominance

  /** `a` is at least as good a rank as `b`; no rank at all is the worst. */
  predicate AsGood(a: Option<nat>, b: Option<nat>) {
    b.None? || (a.Some? && a.value <= b.value)
  }

  lemma QuotientsOrder(weight: real, x: real, y: real)
    requires weight > 0.0 && 0.0 < x <= y
    ensures weight / x >= weight / y >= 0.0
  {
    var p, q := weight / x, weight / y;
    assert p * x == weight && q * y == weight;
    Products(p, q, x, y);
  }

  lemma Products(p: real, q: real, x: real, y: real)
    requires p * x == q * y && p * x > 0.0 && 0.0 < x <= y
    ensures p >= q > 0.0
  {
    assert q <= 0.0 ==> q * y <= 0.0;
    assert p < q ==> p * x < q * x <= q * y;
  }

  lemma RrfIsMonotone(a: Option<nat>, b: Option<nat>, weight: real)
    requires AsGood(a, b) && weight > 0.0
    ensures Rrf(a, weight) >= Rrf(b, weight) >= 0.0
  {
    if b.Some? {
      QuotientsOrder(weight, (60 + a.value) as real, (60 + b.value) as real);
    } else if a.Some? {
      QuotientsOrder(weight, (60 + a.value) as real, (60 + a.value) as real);
    }
  }

  /** `j` is at least as good as `i` in every respect the router looks at. */
  predicate Dominates(operations: seq<Operation>, rankings: Rankings, j: nat, i: nat)
    requires i < |operations| && j < |operations|
  {
    && (operations[i].exact ==> operations[j].exact)
    && AsGood(Lookup(rankings.originalLexical, j), Lookup(rankings.originalLexical, i))
    && AsGood(Lookup(rankings.originalDense, j), Lookup(rankings.originalDense, i))
    && AsGood(Lookup(rankings.viewLexical, j), Lookup(rankings.viewLexical, i))
    && AsGood(Lookup(rankings.viewDense, j), Lookup(rankings.viewDense, i))
  }

  predicate RanksBelow(rankings: Rankings, bound: nat) {
    && (forall i | i in rankings.viewLexical :: 1 <= rankings.viewLexical[i] <= bound)
    && (forall i | i in rankings.viewDense :: 1 <= rankings.viewDense[i] <= bound)
  }

  /** An operation is never selected if another one is at least as good everywhere. */
  lemma DominatedNeverWins(operations: seq<Operation>, rankings: Rankings, i: nat, j: nat)
    requires i < |operations| && j < |operations| && i != j && RanksBelow(rankings, NO_RANK)
    requires Dominates(operations, rankings, j, i)
    ensures !Wins(operations, rankings, i)
  {
    RrfIsMonotone(Lookup(rankings.originalLexical, j), Lookup(rankings.originalLexical, i), 1.0);
    RrfIsMonotone(Lookup(rankings.originalDense, j), Lookup(rankings.originalDense, i), 1.0);
    RrfIsMonotone(IntentRank(rankings, j), IntentRank(rankings, i), 2.0);
    assert Matches(operations, rankings, i) ==> Matches(operations, rankings, j);
    assert !Beats(KeyOf(operations, rankings, i), KeyOf(operations, rankings, j));
  }

  lemma {:induction false} ListedCount(scores: seq<real>, minimum: real, n: nat)
    requires n <= |scores|
    ensures |Listed(scores, minimum, n)| <= n
  {
    if n > 0 {
      ListedCount(scores, minimum, n - 1);
      assert Listed(scores, minimum, n) == Listed(scores, minimum, n - 1) + (if scores[n - 1] >= minimum then {n - 1} else {});
    } else {
      assert Listed(scores, minimum, 0) == {};
    }
  }

  lemma RanksAreSmall(operations: seq<Operation>, minimum: real, rankings: Rankings)
    requires AreRankings(operations, minimum, rankings)
    ensures RanksBelow(rankings, |operations|)
  {
    ListedCount(ViewOverlaps(operations), 1.0, |operations|);
    ListedCount(ViewSimilarities(operations), minimum, |operations|);
    assert |rankings.viewLexical| == |rankings.viewLexical.Keys|;
    assert |rankings.viewDense| == |rankings.viewDense.Keys|;
  }

  /** Whatever is selected is dominated by nothing; a million operations are enough for any request. */
  lemma SelectedIsUndominated(operations: seq<Operation>, minimum: real, rankings: Rankings, decision: Decision, j: nat)
    requires AreRankings(operations, minimum, rankings) && |operations| <= NO_RANK
    requires decision.Select? && Decides(operations, rankings, decision)
    requires j < |operations| && j != decision.index
    ensures !Dominates(operations, rankings, j, decision.index)
  {
    RanksAreSmall(operations, minimum, rankings);
    if Dominates(operations, rankings, j, decision.index) {
      DominatedNeverWins(operations, rankings, decision.index, j);
    }
  }

  // ---------------------------------------------------------------- the decision, read off operations and ranks

  /** The request names the operation, or some ranking lists it. */
  predicate Found(operations: seq<Operation>, rankings: Rankings, i: nat) {
    i < |operations| &&
    (|| operations[i].exact || i in rankings.originalLexical || i in rankings.originalDense
     || i in rankings.viewLexical || i in rankings.viewDense)
  }

  predicate Viewed(rankings: Rankings, i: nat) { i in rankings.viewLexical || i in rankings.viewDense }

  function BestView(rankings: Rankings, i: nat): nat
    requires Viewed(rankings, i)
  {
    if i !in rankings.viewLexical then rankings.viewDense[i]
    else if i !in rankings.viewDense then rankings.viewLexical[i]
    else if rankings.viewLexical[i] <= rankings.viewDense[i] then rankings.viewLexical[i] else rankings.viewDense[i]
  }

  /** One over sixty plus the rank for each ranking of the request, and twice that for the better rank of the view. */
  function Fused(rankings: Rankings, i: nat): real {
    (if i in rankings.originalLexical then 1.0 / (60 + rankings.originalLexical[i]) as real else 0.0)
    + (if i in rankings.originalDense then 1.0 / (60 + rankings.originalDense[i]) as real else 0.0)
    + (if Viewed(rankings, i) then 2.0 / (60 + BestView(rankings, i)) as real else 0.0)
  }

  /** An operation the request names goes first, then the better rank in the view, then the higher fused score. */
  predicate Outranks(operations: seq<Operation>, rankings: Rankings, i: nat, j: nat)
    requires i < |operations| && j < |operations|
  {
    if operations[i].exact != operations[j].exact then operations[i].exact
    else if Viewed(rankings, i) != Viewed(rankings, j) then Viewed(rankings, i)
    else if Viewed(rankings, i) && BestView(rankings, i) != BestView(rankings, j) then BestView(rankings, i) < BestView(rankings, j)
    else Fused(rankings, i) > Fused(rankings, j)
  }

  /** `i` is listed before `j`: it outranks `j`, or neither outranks the other and the ids decide. */
  predicate Leads(operations: seq<Operation>, rankings: Rankings, i: nat, j: nat) {
    && i < |operations| && j < |operations|
    && (|| Outranks(operations, rankings, i, j)
        || (!Outranks(operations, rankings, j, i) && StringLeq(operations[i].id, operations[j].id)))
  }

  predicate BestFirst(operations: seq<Operation>, rankings: Rankings, candidates: seq<nat>) {
    forall a, b | 0 <= a < b < |candidates| :: Leads(operations, rankings, candidates[a], candidates[b])
  }

  /** Selected is what outranks everything else that was found; it is ambiguous when nothing does. */
  ghost predicate Chosen(operations: seq<Operation>, rankings: Rankings, decision: Decision) {
    match decision
    case NothingMatches => forall i :: !Found(operations, rankings, i)
    case Select(index, candidates) =>
      && BestFirst(operations, rankings, candidates) && candidates != [] && candidates[0] == index
      && Found(operations, rankings, index) && forall j | j != index && Found(operations, rankings, j) :: Outranks(operations, rankings, index, j)
    case Ambiguous(candidates) =>
      BestFirst(operations, rankings, candidates) &&
      forall i | Found(operations, rankings, i) :: exists j :: j != i && Found(operations, rankings, j) && !Outranks(operations, rankings, i, j)
    case _ => false
  }

  /** The greater value goes first, and the earlier operation among equals. */
  predicate Earlier(x: real, y: real, i: nat, j: nat) { x > y || (x == y && i < j) }

  lemma RankedByScore(scores: seq<real>, minimum: real, ranks: map<nat, nat>, i: nat, j: nat)
    requires IsRanking(scores, minimum, ranks) && i < |scores| && j < |scores|
    ensures i in ranks <==> scores[i] >= minimum
    ensures i in ranks && j in ranks ==> (ranks[i] < ranks[j] <==> Earlier(scores[i], scores[j], i, j))
  {}

  /** What is ranked by its words: the operations that share a word with the request, or with the model's view of it. */
  lemma WordsRank(operations: seq<Operation>, minimum: real, rankings: Rankings, i: nat, j: nat)
    requires AreRankings(operations, minimum, rankings) && i < |operations| && j < |operations|
    ensures i in rankings.originalLexical <==> operations[i].originalOverlap >= 1
    ensures i in rankings.viewLexical <==> operations[i].viewOverlap >= 1
    ensures i in rankings.originalLexical && j in rankings.originalLexical ==>
              (rankings.originalLexical[i] < rankings.originalLexical[j] <==>
               Earlier(operations[i].originalOverlap as real, operations[j].originalOverlap as real, i, j))
    ensures i in rankings.viewLexical && j in rankings.viewLexical ==>
              (rankings.viewLexical[i] < rankings.viewLexical[j] <==>
               Earlier(operations[i].viewOverlap as real, operations[j].viewOverlap as real, i, j))
  {
    RankedByScore(OriginalOverlaps(operations), 1.0, rankings.originalLexical, i, j);
    RankedByScore(ViewOverlaps(operations), 1.0, rankings.viewLexical, i, j);
  }

  /** And by similarity: those that reach the minimum. */
  lemma SimilaritiesRank(operations: seq<Operation>, minimum: real, rankings: Rankings, i: nat, j: nat)
    requires AreRankings(operations, minimum, rankings) && i < |operations| && j < |operations|
    ensures i in rankings.originalDense <==> operations[i].originalSimilarity >= minimum
    ensures i in rankings.viewDense <==> operations[i].viewSimilarity >= minimum
    ensures i in rankings.originalDense && j in rankings.originalDense ==>
              (rankings.originalDense[i] < rankings.originalDense[j] <==>
               Earlier(operations[i].originalSimilarity, operations[j].originalSimilarity, i, j))
    ensures i in rankings.viewDense && j in rankings.viewDense ==>
              (rankings.viewDense[i] < rankings.viewDense[j] <==>
               Earlier(operations[i].viewSimilarity, operations[j].viewSimilarity, i, j))
  {
    RankedByScore(OriginalSimilarities(operations), minimum, rankings.originalDense, i, j);
    RankedByScore(ViewSimilarities(operations), minimum, rankings.viewDense, i, j);
  }

  lemma ScoreIsFused(rankings: Rankings, i: nat)
    ensures Score(rankings, i) == Fused(rankings, i)
    ensures IntentRank(rankings, i) == if Viewed(rankings, i) then Some(BestView(rankings, i)) else None
  {}

  lemma BeatingIsOutranking(operations: seq<Operation>, rankings: Rankings, i: nat, j: nat)
    requires i < |operations| && j < |operations| && RanksBelow(rankings, NO_RANK - 1)
    ensures Beats(KeyOf(operations, rankings, i), KeyOf(operations, rankings, j)) <==> Outranks(operations, rankings, i, j)
  {
    ScoreIsFused(rankings, i);
    ScoreIsFused(rankings, j);
  }

  lemma FoundMatches(operations: seq<Operation>, rankings: Rankings, i: nat)
    ensures Found(operations, rankings, i) <==> Matches(operations, rankings, i)
  {}

  lemma WinningIsOutranking(operations: seq<Operation>, rankings: Rankings, i: nat)
    requires i < |operations| && RanksBelow(rankings, NO_RANK - 1)
    ensures Wins(operations, rankings, i) <==>
            Found(operations, rankings, i) && forall j | j != i && Found(operations, rankings, j) :: Outranks(operations, rankings, i, j)
  {
    FoundMatches(operations, rankings, i);
    forall j: nat | j < |operations|
      ensures Found(operations, rankings, j) <==> Matches(operations, rankings, j)
      ensures Beats(KeyOf(operations, rankings, i), KeyOf(operations, rankings, j)) <==> Outranks(operations, rankings, i, j)
    {
      FoundMatches(operations, rankings, j);
      BeatingIsOutranking(operations, rankings, i, j);
    }
  }

  lemma BestIsBestFirst(operations: seq<Operation>, rankings: Rankings, candidates: seq<nat>)
    requires Best(operations, rankings, candidates) && RanksBelow(rankings, NO_RANK - 1)
    ensures BestFirst(operations, rankings, candidates)
  {
    forall a, b | 0 <= a < b < |candidates|
      ensures Leads(operations, rankings, candidates[a], candidates[b])
    {
      assert Precedes(operations, rankings, candidates[a], candidates[b]);
      BeatingIsOutranking(operations, rankings, candidates[a], candidates[b]);
      BeatingIsOutranking(operations, rankings, candidates[b], candidates[a]);
    }
  }

  lemma DecisionIsChosen(operations: seq<Operation>, minimum: real, rankings: Rankings, decision: Decision)
    requires AreRankings(operations, minimum, rankings) && Decides(operations, rankings, decision) && |operations| < NO_RANK
    ensures Chosen(operations, rankings, decision)
  {
    RanksAreSmall(operations, minimum, rankings);
    match decision {
      case NothingMatches =>
        forall i ensures !Found(operations, rankings, i) {
          FoundMatches(operations, rankings, i);
        }
      case Select(index, candidates) =>
        BestIsBestFirst(operations, rankings, candidates);
        WinningIsOutranking(operations, rankings, index);
      case Ambiguous(candidates) =>
        BestIsBestFirst(operations, rankings, candidates);
        forall i | Found(operations, rankings, i)
          ensures exists j :: j != i && Found(operations, rankings, j) && !Outranks(operations, rankings, i, j)
        {
          WinningIsOutranking(operations, rankings, i);
        }
    }
  }

  /**
   What that comes to: a selected operation is one the request names if there is any; among those as exact it has
   the least rank in the view; and among those of the same rank it has the greatest fused score.
   */
  lemma SelectedIsBest(operations: seq<Operation>, rankings: Rankings, decision: Decision, j: nat)
    requires Chosen(operations, rankings, decision) && decision.Select? && j != decision.index && Found(operations, rankings, j)
    ensures decision.index < |operations|
    ensures operations[j].exact ==> operations[decision.index].exact
    ensures operations[j].exact == operations[decision.index].exact && Viewed(rankings, j) ==>
              Viewed(rankings, decision.index) && BestView(rankings, decision.index) <= BestView(rankings, j)
    ensures && operations[j].exact == operations[decision.index].exact
            && (if Viewed(rankings, j) then BestView(rankings, j) == BestView(rankings, decision.index) else !Viewed(rankings, decision.index))
            ==> Fused(rankings, decision.index) > Fused(rankings, j)
  {}

  // ---------------------------------------------------------------- the router

  /** The sort entries of the first `n` operations. */
  function Entries(operations: seq<Operation>, rankings: Rankings, n: nat): seq<Entry>
    requires n <= |operations|
  {
    if n == 0 then []
    else if Matches(operations, rankings, n - 1)
    then Entries(operations, rankings, n - 1) + [Entry(KeyOf(operations, rankings, n - 1), n - 1)]
    else Entries(operations, rankings, n - 1)
  }

  lemma {:induction false} EntriesAreMatches(operations: seq<Operation>, rankings: Rankings, n: nat)
    requires n <= |operations|
    ensures forall x :: x in Entries(operations, rankings, n) <==>
              x.index < n && Matches(operations, rankings, x.index) && x.key == KeyOf(operations, rankings, x.index)
    ensures NoRepeats(Entries(operations, rankings, n))
  {
    if n > 0 {
      EntriesAreMatches(operations, rankings, n - 1);
    }
  }

  function IndicesOf(entries: seq<Entry>): seq<nat> {
    seq(|entries|, k requires 0 <= k < |entries| => entries[k].index)
  }

  /** What the decision is read off: the entries, each once, in order. */
  ghost predicate IsSorted(operations: seq<Operation>, rankings: Rankings, sorted: seq<Entry>) {
    && Ordered(sorted, EntryLeq) && NoRepeats(sorted)
    && forall x :: x in sorted <==>
         x.index < |operations| && Matches(operations, rankings, x.index) && x.key == KeyOf(operations, rankings, x.index)
  }

  lemma SortedEntries(operations: seq<Operation>, rankings: Rankings)
    ensures IsSorted(operations, rankings, Sort(Entries(operations, rankings, |operations|), EntryLeq))
  {
    var entries := Entries(operations, rankings, |operations|);
    EntriesAreMatches(operations, rankings, |operations|);
    SortPermutes(entries, EntryLeq);
    EntryLeqIsTotal();
    SortOrders(entries, EntryLeq);
  }

  lemma PlaceOf(operations: seq<Operation>, rankings: Rankings, sorted: seq<Entry>, j: nat) returns (k: nat)
    requires IsSorted(operations, rankings, sorted) && Matches(operations, rankings, j)
    ensures k < |sorted| && sorted[k] == Entry(KeyOf(operations, rankings, j), j)
  {
    assert Entry(KeyOf(operations, rankings, j), j) in sorted;
    k :| 0 <= k < |sorted| && sorted[k] == Entry(KeyOf(operations, rankings, j), j);
  }

  lemma BestThree(operations: seq<Operation>, rankings: Rankings, sorted: seq<Entry>, n: nat)
    requires IsSorted(operations, rankings, sorted) && sorted != []
    requires n == if |sorted| < 3 then |sorted| else 3
    ensures Best(operations, rankings, IndicesOf(sorted[..n]))
  {
    var candidates := IndicesOf(sorted[..n]);
    forall c | 0 <= c < n ensures Matches(operations, rankings, candidates[c]) && sorted[c].key == KeyOf(operations, rankings, candidates[c]) {
      assert sorted[c] in sorted;
    }
    forall a, b | 0 <= a < b < n ensures candidates[a] != candidates[b] {
      assert sorted[a] != sorted[b];
    }
    forall a, b | 0 <= a < b < n
      ensures Precedes(operations, rankings, candidates[a], candidates[b])
    {
      assert EntryLeq(sorted[a], sorted[b]);
    }
    forall j | Matches(operations, rankings, j) && j !in candidates
      ensures n == 3
      ensures forall c | c in candidates :: !Beats(KeyOf(operations, rankings, j), KeyOf(operations, rankings, c))
    {
      var k := PlaceOf(operations, rankings, sorted, j);
      forall c | 0 <= c < n ensures sorted[c].index != j {
        assert candidates[c] in candidates;
      }
      forall c | 0 <= c < n ensures !Beats(KeyOf(operations, rankings, j), KeyOf(operations, rankings, candidates[c])) {
        assert EntryLeq(sorted[c], sorted[k]);
      }
    }
  }

  lemma FirstWinsUnlessTied(operations: seq<Operation>, rankings: Rankings, sorted: seq<Entry>)
    requires IsSorted(operations, rankings, sorted) && sorted != []
    ensures |sorted| > 1 && Ties(sorted[0].key, sorted[1].key) ==> forall i :: !Wins(operations, rankings, i)
    ensures !(|sorted| > 1 && Ties(sorted[0].key, sorted[1].key)) ==> Wins(operations, rankings, sorted[0].index)
  {
    assert sorted[0] in sorted;
    if |sorted| > 1 && Ties(sorted[0].key, sorted[1].key) {
      assert sorted[1] in sorted && sorted[0] != sorted[1] && EntryLeq(sorted[0], sorted[1]);
      forall i ensures !Wins(operations, rankings, i) {
        if Matches(operations, rankings, i) {
          var k := PlaceOf(operations, rankings, sorted, i);
          var other := if k == 0 then 1 else 0;
          assert k > 0 ==> EntryLeq(sorted[0], sorted[k]);
          assert sorted[other].index != i && Matches(operations, rankings, sorted[other].index);
        }
      }
    } else {
      forall j | j != sorted[0].index && Matches(operations, rankings, j)
        ensures Beats(KeyOf(operations, rankings, sorted[0].index), KeyOf(operations, rankings, j))
      {
        var k := PlaceOf(operations, rankings, sorted, j);
        assert EntryLeq(sorted[0], sorted[1]);
        assert k > 1 ==> EntryLeq(sorted[1], sorted[k]);
      }
    }
  }

  /** `IntentRouter.route` */
  method Route(view: IntentView, operations: seq<Operation>, minimum: real) returns (decision: Decision, ghost rankings: Rankings)
    ensures decision == NoTool <==> view.requirement == NotNeeded
    ensures decision.AskFor? <==> view.requirement != NotNeeded && view.unresolved + view.missing != []
    ensures decision.AskFor? ==>
              var fields := view.unresolved + view.missing;
              decision.fields == if |fields| > 8 then fields[..8] else fields
    ensures decision != NoTool && !decision.AskFor? ==>
              AreRankings(operations, minimum, rankings) && Decides(operations, rankings, decision)
    ensures decision != NoTool && !decision.AskFor? && |operations| < NO_RANK ==> Chosen(operations, rankings, decision)
  {
    rankings := Rankings(map[], map[], map[], map[]);
    if view.requirement == NotNeeded {
      return NoTool, rankings;
    }
    if view.unresolved != [] || view.missing != [] {
      var fields := view.unresolved + view.missing;
      return AskFor(if |fields| > 8 then fields[..8] else fields), rankings;
    }
    var originalDense := Rank(OriginalSimilarities(operations), minimum);
    var viewDense := Rank(ViewSimilarities(operations), minimum);
    var originalLexical := Rank(OriginalOverlaps(operations), 1.0);
    var viewLexical := Rank(ViewOverlaps(operations), 1.0);
    var ranks := Rankings(originalLexical, originalDense, viewLexical, viewDense);
    var ranked: seq<Entry> := [];
    for index := 0 to |operations|
      invariant ranked == Entries(operations, ranks, index)
    {
      if !Matches(operations, ranks, index) {
        continue;
      }
      ranked := ranked + [Entry(KeyOf(operations, ranks, index), index)];
    }
    ranked := Sort(ranked, EntryLeq);
    SortedEntries(operations, ranks);
    decision := Decide(operations, ranks, ranked);
    rankings := ranks;
    if |operations| < NO_RANK {
      DecisionIsChosen(operations, minimum, rankings, decision);
    }
  }

  method Decide(operations: seq<Operation>, rankings: Rankings, ranked: seq<Entry>) returns (decision: Decision)
    requires IsSorted(operations, rankings, ranked)
    ensures !decision.NoTool? && !decision.AskFor? && Decides(operations, rankings, decision)
  {
    if |ranked| == 0 {
      forall i ensures !Matches(operations, rankings, i) {
        if Matches(operations, rankings, i) {
          var k := PlaceOf(operations, rankings, ranked, i);
        }
      }
      return NothingMatches;
    }
    var candidates := IndicesOf(if |ranked| < 3 then ranked else ranked[..3]);
    assert |ranked| < 3 ==> ranked[..|ranked|] == ranked;
    BestThree(operations, rankings, ranked, if |ranked| < 3 then |ranked| else 3);
    FirstWinsUnlessTied(operations, rankings, ranked);
    if |ranked| > 1 && Ties(ranked[0].key, ranked[1].key) {
      return Ambiguous(candidates);
    }
    return Select(candidates[0], candidates);
  }
}
