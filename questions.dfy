/**
 * The onboarding question catalog and the adaptive question sequencer
 * (lib/questions.ts). The 47-entry `QUESTION_POOL` is a parameter `pool`;
 * only a question's id, type, category, tags and weight affect behaviour.
 * `Math.random` becomes explicit draws: a draw `d` picks index `d % n`
 * from a list of length `n`.
 */
module Questions {
  import opened Wrappers
  import opened Seqs
  import opened Strings

  datatype QuestionType = MultipleChoice | Slider | Text | ImageSelection

  datatype Question = Question(id: string, qtype: QuestionType, category: string, tags: seq<string>, weight: int)

  /** A stored answer: the text of a chosen option, or a slider's number. */
  datatype Answer = Choice(text: string) | Scale(value: real)

  /** A routing rule's target: categories to draw from, and how many questions to take. */
  datatype Route = Route(categories: seq<string>, maxCount: nat)

  const CORE_QUESTIONS: seq<string> := ["social-energy", "decision-making", "music-discovery", "creativity-level"]

  /** `getRoutedQuestions` keeps at most this many routed picks. */
  const MAX_ROUTED: nat := 5

  /** The variety fill only draws questions at least this heavy. */
  const VARIETY_MIN_WEIGHT: int := 3

  function CoreSet(): set<string>
  {
    Elems(CORE_QUESTIONS)
  }

  lemma CoreDistinct()
    ensures NoDups(CORE_QUESTIONS) && |CORE_QUESTIONS| == 4
  {
    assert CORE_QUESTIONS[0][0] == 's' && CORE_QUESTIONS[1][0] == 'd';
    assert CORE_QUESTIONS[2][0] == 'm' && CORE_QUESTIONS[3][0] == 'c';
  }

  function Ids(qs: seq<Question>): (r: seq<string>)
    ensures |r| == |qs| && forall i :: 0 <= i < |qs| ==> r[i] == qs[i].id
    ensures forall id :: id in r <==> exists q :: q in qs && q.id == id
    ensures NoDups(r) <==> UniqueIds(qs)
  {
    var r := seq(|qs|, i requires 0 <= i < |qs| => qs[i].id);
    assert forall q :: q in qs ==> q.id in r by {
      forall q | q in qs ensures q.id in r {
        var i :| 0 <= i < |qs| && qs[i] == q;
        assert r[i] == q.id;
      }
    }
    r
  }

  predicate UniqueIds(qs: seq<Question>)
  {
    forall i, j :: 0 <= i < j < |qs| ==> qs[i].id != qs[j].id
  }

  predicate HasQuestion(pool: seq<Question>, id: string)
  {
    exists q :: q in pool && q.id == id
  }

  predicate IsTextQuestion(pool: seq<Question>, id: string)
  {
    exists q :: q in pool && q.id == id && q.qtype == Text
  }

  /**
   * What the shipped pool satisfies: ids are unique, and every core id is
   * a pool question that is not free text.
   */
  predicate ValidPool(pool: seq<Question>)
  {
    && UniqueIds(pool)
    && forall c :: c in CORE_QUESTIONS ==> exists q :: q in pool && q.id == c && q.qtype != Text
  }

  /**
   * The form stores the chosen option's text for a multiple-choice question
   * and a number for a slider; routing calls `includes` on the first kind
   * and compares the second with numbers.
   */
  predicate WellTypedAnswers(answers: map<string, Answer>)
  {
    && ("social-energy" in answers ==> answers["social-energy"].Choice?)
    && ("decision-making" in answers ==> answers["decision-making"].Scale?)
    && ("music-discovery" in answers ==> answers["music-discovery"].Choice?)
    && ("creativity-level" in answers ==> answers["creativity-level"].Scale?)
  }

  lemma {:induction false} SubseqElems<T>(a: seq<T>, b: seq<T>)
    requires IsSubseq(a, b)
    ensures forall x :: x in a ==> x in b
    decreases |b|
  {
    if a != [] {
      if a[0] == b[0] && IsSubseq(a[1..], b[1..]) {
        SubseqElems(a[1..], b[1..]);
        assert forall x :: x in a ==> x == a[0] || x in a[1..];
      } else {
        SubseqElems(a, b[1..]);
      }
    }
  }

  lemma {:induction false} SubseqKeepsUniqueIds(a: seq<Question>, b: seq<Question>)
    requires IsSubseq(a, b) && UniqueIds(b)
    ensures UniqueIds(a)
    decreases |b|
  {
    if a != [] {
      if a[0] == b[0] && IsSubseq(a[1..], b[1..]) {
        SubseqKeepsUniqueIds(a[1..], b[1..]);
        SubseqElems(a[1..], b[1..]);
        forall j | 1 <= j < |a| ensures a[0].id != a[j].id {
          assert a[j] in a[1..];
          var m :| 0 <= m < |b[1..]| && b[1..][m] == a[j];
          assert b[m + 1] == a[j];
        }
      } else {
        SubseqKeepsUniqueIds(a, b[1..]);
      }
    }
  }

  // ---------------------------------------------------------------------
  // Catalog queries
  // ---------------------------------------------------------------------

  function IndexOfId(pool: seq<Question>, id: string): (i: nat)
    ensures i <= |pool|
    ensures i < |pool| ==> pool[i].id == id
    ensures forall k :: 0 <= k < i ==> pool[k].id != id
  {
    if pool == [] then 0
    else if pool[0].id == id then 0
    else 1 + IndexOfId(pool[1..], id)
  }

  /** `getQuestionById`: `find` returns the first question with that id, or `undefined`. */
  function QuestionById(pool: seq<Question>, id: string): (r: Option<Question>)
    ensures r.None? <==> !HasQuestion(pool, id)
    ensures r.Some? ==> r.value in pool && r.value.id == id
    ensures r.Some? ==> exists i :: 0 <= i < |pool| && pool[i] == r.value && forall k :: 0 <= k < i ==> pool[k].id != id
    ensures UniqueIds(pool) ==> forall q :: q in pool && q.id == id ==> r == Some(q)
  {
    var i := IndexOfId(pool, id);
    if i < |pool| then Some(pool[i]) else None
  }

  /** `getQuestionsByCategory`. */
  function QuestionsByCategory(pool: seq<Question>, category: string): (r: seq<Question>)
    ensures forall q :: q in r <==> q in pool && q.category == category
    ensures IsSubseq(r, pool)
  {
    Filter(pool, (q: Question) => q.category == category)
  }

  lemma QuestionsByCategoryAppend(a: seq<Question>, x: Question, category: string)
    ensures |QuestionsByCategory(a + [x], category)| == |QuestionsByCategory(a, category)| + (if x.category == category then 1 else 0)
  {
    FilterAppend(a, [x], (q: Question) => q.category == category);
  }

  predicate HasAnyTag(q: Question, tags: seq<string>)
  {
    exists t :: t in tags && t in q.tags
  }

  /** `getQuestionsWithTags`: the questions sharing at least one tag with `tags`. */
  function QuestionsWithTags(pool: seq<Question>, tags: seq<string>): (r: seq<Question>)
    ensures forall q :: q in r <==> q in pool && HasAnyTag(q, tags)
    ensures IsSubseq(r, pool)
  {
    Filter(pool, (q: Question) => HasAnyTag(q, tags))
  }

  /** `getQuestionsByType`. */
  function QuestionsByType(pool: seq<Question>, qtype: QuestionType): (r: seq<Question>)
    ensures forall q :: q in r <==> q in pool && q.qtype == qtype
    ensures IsSubseq(r, pool)
  {
    Filter(pool, (q: Question) => q.qtype == qtype)
  }

  /** `getFreeResponseQuestions`: the `text` questions. */
  function FreeResponseQuestions(pool: seq<Question>): (r: seq<Question>)
    ensures forall q :: q in r <==> q in pool && q.qtype == Text
    ensures IsSubseq(r, pool)
  {
    QuestionsByType(pool, Text)
  }

  function Categories(pool: seq<Question>): set<string>
  {
    set q | q in pool :: q.category
  }

  /** The categories among the first `n` questions. */
  function CategoriesUpTo(pool: seq<Question>, n: nat): set<string>
    requires n <= |pool|
  {
    if n == 0 then {} else CategoriesUpTo(pool, n - 1) + {pool[n - 1].category}
  }

  /** How many of the first `n` questions are in `category`. */
  function CountUpTo(pool: seq<Question>, category: string, n: nat): nat
    requires n <= |pool|
  {
    if n == 0 then 0 else CountUpTo(pool, category, n - 1) + (if pool[n - 1].category == category then 1 else 0)
  }

  lemma {:induction false} UnseenCategoryUncounted(pool: seq<Question>, category: string, n: nat)
    requires n <= |pool| && category !in CategoriesUpTo(pool, n)
    ensures CountUpTo(pool, category, n) == 0
  {
    if n > 0 {
      UnseenCategoryUncounted(pool, category, n - 1);
    }
  }

  lemma {:induction false} CategoriesUpToAll(pool: seq<Question>, n: nat)
    requires n <= |pool|
    ensures CategoriesUpTo(pool, n) == Categories(pool[..n])
  {
    if n > 0 {
      CategoriesUpToAll(pool, n - 1);
      assert pool[..n] == pool[..n - 1] + [pool[n - 1]];
      assert forall q :: q in pool[..n] <==> q in pool[..n - 1] || q == pool[n - 1];
    }
  }

  lemma {:induction false} CountUpToAll(pool: seq<Question>, category: string, n: nat)
    requires n <= |pool|
    ensures CountUpTo(pool, category, n) == |QuestionsByCategory(pool[..n], category)|
  {
    if n > 0 {
      CountUpToAll(pool, category, n - 1);
      TakeLast(pool, n);
      QuestionsByCategoryAppend(pool[..n - 1], pool[n - 1], category);
    }
  }

  /** `getCategoryDistribution`: how many questions each category has. */
  method CategoryDistribution(pool: seq<Question>) returns (distribution: map<string, nat>)
    ensures distribution.Keys == Categories(pool)
    ensures forall c :: c in distribution ==> distribution[c] == |QuestionsByCategory(pool, c)|
  {
    distribution := map[];
    for i := 0 to |pool|
      invariant distribution.Keys == CategoriesUpTo(pool, i)
      invariant forall c :: c in distribution ==> distribution[c] == CountUpTo(pool, c, i)
    {
      var c := pool[i].category;
      if c !in distribution {
        UnseenCategoryUncounted(pool, c, i);
      }
      distribution := distribution[c := (if c in distribution then distribution[c] else 0) + 1];
    }
    assert pool[..|pool|] == pool;
    CategoriesUpToAll(pool, |pool|);
    forall c | c in distribution ensures distribution[c] == |QuestionsByCategory(pool, c)| {
      CountUpToAll(pool, c, |pool|);
    }
  }

  // ---------------------------------------------------------------------
  // Sorting by weight, heaviest first
  // ---------------------------------------------------------------------

  predicate SortedByWeight(qs: seq<Question>)
  {
    forall i, j :: 0 <= i < j < |qs| ==> qs[i].weight >= qs[j].weight
  }

  /** Inserts `q` before the first element that is not heavier, which keeps equal weights in input order. */
  function InsertByWeight(q: Question, qs: seq<Question>): (r: seq<Question>)
    requires SortedByWeight(qs)
    ensures SortedByWeight(r)
    ensures |r| == |qs| + 1 && (r[0] == q || (qs != [] && r[0] == qs[0]))
  {
    if qs == [] || q.weight >= qs[0].weight then [q] + qs
    else
      var rest := InsertByWeight(q, qs[1..]);
      ConsSorted(qs[0], rest);
      [qs[0]] + rest
  }

  /** Inserting adds `q` and loses nothing. */
  lemma {:induction false} InsertByWeightPermutes(q: Question, qs: seq<Question>)
    requires SortedByWeight(qs)
    ensures multiset(InsertByWeight(q, qs)) == multiset(qs) + multiset{q}
  {
    if qs != [] && q.weight < qs[0].weight {
      InsertByWeightPermutes(q, qs[1..]);
      assert qs == [qs[0]] + qs[1..];
    }
  }

  /** A question no lighter than the head of a heaviest-first list can go in front of it. */
  lemma ConsSorted(head: Question, qs: seq<Question>)
    requires SortedByWeight(qs) && (qs == [] || qs[0].weight <= head.weight)
    ensures SortedByWeight([head] + qs)
  {
  }

  /**
   * `sort((a, b) => b.weight - a.weight)`: heaviest first; the sort is
   * stable, as `Array.prototype.sort` is required to be.
   */
  function SortByWeight(qs: seq<Question>): (r: seq<Question>)
    ensures SortedByWeight(r)
    ensures multiset(r) == multiset(qs) && |r| == |qs|
  {
    if qs == [] then []
    else
      assert qs == [qs[0]] + qs[1..];
      InsertByWeightPermutes(qs[0], SortByWeight(qs[1..]));
      InsertByWeight(qs[0], SortByWeight(qs[1..]))
  }

  /** The questions of `s` that weigh exactly `w`, in their order in `s`. */
  function OfWeight(s: seq<Question>, w: int): seq<Question>
  {
    if s == [] then []
    else if s[0].weight == w then [s[0]] + OfWeight(s[1..], w)
    else OfWeight(s[1..], w)
  }

  lemma {:induction false} OfWeightAppend(a: seq<Question>, b: seq<Question>, w: int)
    ensures OfWeight(a + b, w) == OfWeight(a, w) + OfWeight(b, w)
  {
    if a == [] {
      assert a + b == b;
    } else {
      assert (a + b)[0] == a[0] && (a + b)[1..] == a[1..] + b;
      OfWeightAppend(a[1..], b, w);
    }
  }

  /** Cutting a list keeps, for each weight, a prefix of that weight's questions. */
  lemma OfWeightPrefix(s: seq<Question>, n: nat, w: int)
    requires n <= |s|
    ensures OfWeight(s[..n], w) <= OfWeight(s, w)
  {
    assert s == s[..n] + s[n..];
    OfWeightAppend(s[..n], s[n..], w);
  }

  /** Inserting puts `q` ahead of every question of its own weight already in the list. */
  lemma {:induction false} InsertByWeightStable(q: Question, qs: seq<Question>, w: int)
    requires SortedByWeight(qs)
    ensures OfWeight(InsertByWeight(q, qs), w) == (if q.weight == w then [q] else []) + OfWeight(qs, w)
  {
    if qs == [] || q.weight >= qs[0].weight {
      OfWeightAppend([q], qs, w);
    } else {
      var rest := InsertByWeight(q, qs[1..]);
      assert InsertByWeight(q, qs) == [qs[0]] + rest;
      InsertByWeightStable(q, qs[1..], w);
      OfWeightAppend([qs[0]], rest, w);
      assert qs == [qs[0]] + qs[1..];
      OfWeightAppend([qs[0]], qs[1..], w);
    }
  }

  /** The sort is stable: the questions of any one weight come out in the order they went in. */
  lemma {:induction false} SortByWeightStable(qs: seq<Question>, w: int)
    ensures OfWeight(SortByWeight(qs), w) == OfWeight(qs, w)
  {
    if qs != [] {
      SortByWeightStable(qs[1..], w);
      InsertByWeightStable(qs[0], SortByWeight(qs[1..]), w);
      assert qs == [qs[0]] + qs[1..];
      OfWeightAppend([qs[0]], qs[1..], w);
    }
  }

  /** In a heaviest-first list, every element of a prefix weighs at least as much as anything after it. */
  lemma PrefixDominates(s: seq<Question>, n: nat)
    requires SortedByWeight(s) && n <= |s|
    ensures forall q, p :: q in s && q !in s[..n] && p in s[..n] ==> p.weight >= q.weight
  {
    forall q, p | q in s && q !in s[..n] && p in s[..n] ensures p.weight >= q.weight {
      var j :| 0 <= j < |s| && s[j] == q;
      var i :| 0 <= i < n && s[..n][i] == p;
      assert forall k :: 0 <= k < n ==> s[k] in s[..n];
    }
  }

  /**
   * `getHighestWeightQuestions`: sorts the pool itself in place (later
   * readers see the new order) and returns the first `count` questions.
   */
  method HighestWeightQuestions(pool: array<Question>, count: int) returns (top: seq<Question>)
    modifies pool
    ensures pool[..] == SortByWeight(old(pool[..]))
    ensures top == SliceTo(pool[..], count)
  {
    var sorted := SortByWeight(pool[..]);
    for i := 0 to pool.Length
      invariant forall k :: 0 <= k < i ==> pool[k] == sorted[k]
    {
      pool[i] := sorted[i];
    }
    assert pool[..] == sorted;
    top := SliceTo(pool[..], count);
  }

  /**
   * What `getHighestWeightQuestions` returns: the pool reordered heaviest
   * first, cut to `count`; nothing left out is heavier than anything returned.
   */
  lemma {:induction false} HighestWeightQuestionsAreHeaviest(pool: seq<Question>, count: nat)
    ensures var top := SliceTo(SortByWeight(pool), count);
      && |top| == Min(count, |pool|)
      && (forall p :: p in top ==> p in pool)
      && (forall q, p :: q in pool && q !in top && p in top ==> p.weight >= q.weight)
  {
    var sorted := SortByWeight(pool);
    var top := SliceTo(sorted, count);
    PrefixDominates(sorted, |top|);
    forall p | p in top ensures p in pool {
      assert p in sorted;
      assert p in multiset(sorted);
    }
    forall q | q in pool ensures q in sorted {
      assert q in multiset(pool);
    }
  }

  // ---------------------------------------------------------------------
  // Selection helpers of the sequencer
  // ---------------------------------------------------------------------

  predicate Eligible(q: Question, categories: seq<string>, used: set<string>)
  {
    q.category in categories && q.id !in used
  }

  function EligibleQuestions(categories: seq<string>, available: seq<Question>, used: set<string>): (r: seq<Question>)
    ensures forall q :: q in r <==> q in available && Eligible(q, categories, used)
  {
    Filter(available, (q: Question) => Eligible(q, categories, used))
  }

  /**
   * The questions behind `getQuestionsFromCategories`: the unused questions
   * of the given categories, heaviest first, cut to `maxCount`.
   */
  function CategoryPicks(categories: seq<string>, available: seq<Question>, used: set<string>, maxCount: int): (r: seq<Question>)
    ensures 0 <= maxCount ==> |r| == Min(maxCount, |EligibleQuestions(categories, available, used)|)
    ensures forall q :: q in r ==> q in available && Eligible(q, categories, used)
    ensures SortedByWeight(r)
    ensures forall q, p :: q in available && Eligible(q, categories, used) && q !in r && p in r ==> p.weight >= q.weight
  {
    var eligible := EligibleQuestions(categories, available, used);
    var sorted := SortByWeight(eligible);
    var r := SliceTo(sorted, maxCount);
    PrefixDominates(sorted, |r|);
    assert forall q :: q in r ==> q in sorted;
    assert forall q :: q in sorted <==> q in eligible by {
      forall q ensures q in sorted <==> q in eligible {
        assert q in sorted <==> q in multiset(sorted);
        assert q in eligible <==> q in multiset(eligible);
      }
    }
    r
  }

  /**
   * Among eligible questions of equal weight the earlier ones in `available`
   * are taken first: the picks of each weight are a prefix of the eligible
   * questions of that weight, in `available` order.
   */
  lemma CategoryPicksPreferEarlier(categories: seq<string>, available: seq<Question>, used: set<string>, maxCount: int, w: int)
    ensures OfWeight(CategoryPicks(categories, available, used, maxCount), w) <= OfWeight(EligibleQuestions(categories, available, used), w)
  {
    var eligible := EligibleQuestions(categories, available, used);
    var sorted := SortByWeight(eligible);
    var r := CategoryPicks(categories, available, used, maxCount);
    assert r == sorted[..|r|];
    OfWeightPrefix(sorted, |r|, w);
    SortByWeightStable(eligible, w);
  }

  /** `getQuestionsFromCategories`: ids of at most `maxCount` unused questions of the given categories. */
  function QuestionsFromCategories(categories: seq<string>, available: seq<Question>, used: set<string>, maxCount: int): (r: seq<string>)
    ensures r == Ids(CategoryPicks(categories, available, used, maxCount))
    ensures 0 <= maxCount ==> |r| <= maxCount
    ensures forall id :: id in r ==> id !in used && exists q :: q in available && q.id == id && q.category in categories
    ensures 0 < maxCount && (exists q :: q in available && Eligible(q, categories, used)) ==> r != []
  {
    var picks := CategoryPicks(categories, available, used, maxCount);
    if 0 < maxCount && (exists q :: q in available && Eligible(q, categories, used)) then
      var q :| q in available && Eligible(q, categories, used);
      assert q in EligibleQuestions(categories, available, used);
      Ids(picks)
    else
      Ids(picks)
  }

  /** `s` without its element at index `i`. */
  function Without(s: seq<Question>, i: nat): (r: seq<Question>)
    requires i < |s|
    ensures |r| == |s| - 1
    ensures multiset(r) + multiset{s[i]} == multiset(s)
    ensures UniqueIds(s) ==> UniqueIds(r) && forall x :: x in r ==> x.id != s[i].id
  {
    var r := s[..i] + s[i + 1..];
    assert s == s[..i] + [s[i]] + s[i + 1..];
    assert forall k :: 0 <= k < |r| ==> r[k] == (if k < i then s[k] else s[k + 1]);
    r
  }

  lemma ConsUniqueIds(x: Question, rest: seq<Question>)
    requires UniqueIds(rest) && forall y :: y in multiset(rest) ==> y.id != x.id
    ensures UniqueIds([x] + rest)
  {
    forall k | 0 <= k < |rest| ensures rest[k].id != x.id {
      assert rest[k] in multiset(rest);
    }
  }

  /**
   * `sort(() => Math.random() - 0.5)`: some order of `s`, chosen by the
   * draws (each draw picks the next element among those left).
   */
  function RandomOrder(s: seq<Question>, draws: seq<nat>): (r: seq<Question>)
    ensures multiset(r) == multiset(s) && |r| == |s|
    decreases |s|
  {
    if s == [] then []
    else
      var i := (if draws == [] then 0 else draws[0]) % |s|;
      [s[i]] + RandomOrder(Without(s, i), if draws == [] then [] else draws[1..])
  }

  /** Reordering keeps ids unique. */
  lemma {:induction false} RandomOrderKeepsUniqueIds(s: seq<Question>, draws: seq<nat>)
    requires UniqueIds(s)
    ensures UniqueIds(RandomOrder(s, draws))
    decreases |s|
  {
    if s != [] {
      var i := (if draws == [] then 0 else draws[0]) % |s|;
      var tail := if draws == [] then [] else draws[1..];
      RandomOrderKeepsUniqueIds(Without(s, i), tail);
      ConsUniqueIds(s[i], RandomOrder(Without(s, i), tail));
    }
  }

  function HighWeightUnused(available: seq<Question>, used: set<string>): (r: seq<Question>)
    ensures forall q :: q in r <==> q in available && q.weight >= VARIETY_MIN_WEIGHT && q.id !in used
    ensures IsSubseq(r, available)
  {
    Filter(available, (q: Question) => q.weight >= VARIETY_MIN_WEIGHT && q.id !in used)
  }

  /** A prefix of a reordering of `s` holds only elements of `s`. */
  lemma ReorderedPrefixFrom(s: seq<Question>, draws: seq<nat>, count: int)
    ensures forall q :: q in SliceTo(RandomOrder(s, draws), count) ==> q in s
  {
    var shuffled := RandomOrder(s, draws);
    forall q | q in SliceTo(shuffled, count) ensures q in s {
      assert q in multiset(shuffled);
    }
  }

  /** The questions `getVarietyQuestions` takes have unique ids when the pool has them. */
  lemma VarietyPicksUnique(available: seq<Question>, count: int, used: set<string>, draws: seq<nat>)
    ensures UniqueIds(available) ==> UniqueIds(SliceTo(RandomOrder(HighWeightUnused(available, used), draws), count))
  {
    if UniqueIds(available) {
      var candidates := HighWeightUnused(available, used);
      SubseqKeepsUniqueIds(candidates, available);
      RandomOrderKeepsUniqueIds(candidates, draws);
    }
  }

  /** `getVarietyQuestions`: `count` unused questions of weight at least 3, in random order. */
  function VarietyQuestions(available: seq<Question>, count: int, used: set<string>, draws: seq<nat>): (r: seq<string>)
    ensures 0 <= count ==> |r| == Min(count, |HighWeightUnused(available, used)|)
    ensures forall id :: id in r ==> id !in used && exists q :: q in available && q.id == id && q.weight >= VARIETY_MIN_WEIGHT
    ensures UniqueIds(available) ==> NoDups(r)
  {
    var picked := SliceTo(RandomOrder(HighWeightUnused(available, used), draws), count);
    ReorderedPrefixFrom(HighWeightUnused(available, used), draws, count);
    VarietyPicksUnique(available, count, used, draws);
    Ids(picked)
  }

  // ---------------------------------------------------------------------
  // Routing rules of getRoutedQuestions
  // ---------------------------------------------------------------------

  /** A social answer mentioning "party" or "friends" routes to outgoing categories, any other to inward ones. */
  function SocialEnergyRoute(answers: map<string, Answer>): (r: Option<Route>)
    requires WellTypedAnswers(answers)
    ensures r.Some? <==> "social-energy" in answers && answers["social-energy"].text != ""
    ensures r.Some? ==> r.value.maxCount == 2
    ensures r.Some? ==> var choice := answers["social-energy"].text;
      ("social" in r.value.categories <==> Contains(choice, "party") || Contains(choice, "friends"))
    ensures r.Some? ==> var choice := answers["social-energy"].text;
      r.value.categories ==
        if Contains(choice, "party") || Contains(choice, "friends") then ["social", "communication", "celebration"]
        else ["emotional", "energy", "routine"]
  {
    if "social-energy" in answers && answers["social-energy"].text != "" then
      var choice := answers["social-energy"].text;
      if Contains(choice, "party") || Contains(choice, "friends") then
        Some(Route(["social", "communication", "celebration"], 2))
      else
        Some(Route(["emotional", "energy", "routine"], 2))
    else
      None
  }

  /**
   * The decision-making slider has three bands: below 30 (deliberate),
   * above 70 (spontaneous), and 30 to 70 inclusive, which takes one question only.
   */
  function DecisionMakingRoute(answers: map<string, Answer>): (r: Option<Route>)
    requires WellTypedAnswers(answers)
    ensures r.Some? <==> "decision-making" in answers
    ensures r.Some? ==> var v := answers["decision-making"].value;
      && ("planning" in r.value.categories <==> v < 30.0)
      && ("spontaneity" in r.value.categories <==> v > 70.0)
      && ("decisions" in r.value.categories <==> 30.0 <= v <= 70.0)
      && (r.value.maxCount == 1 <==> 30.0 <= v <= 70.0)
      && 1 <= r.value.maxCount
    ensures r.Some? ==> var v := answers["decision-making"].value;
      && (v < 30.0 ==> r.value.categories == ["planning", "perfectionism", "attention", "feedback"] && r.value.maxCount == 2)
      && (v > 70.0 ==> r.value.categories == ["adaptability", "humor", "spontaneity"] && r.value.maxCount == 2)
      && (30.0 <= v <= 70.0 ==> r.value.categories == ["decisions", "goals"] && r.value.maxCount == 1)
  {
    if "decision-making" in answers then
      var v := answers["decision-making"].value;
      if v < 30.0 then
        Some(Route(["planning", "perfectionism", "attention", "feedback"], 2))
      else if v > 70.0 then
        Some(Route(["adaptability", "humor", "spontaneity"], 2))
      else
        Some(Route(["decisions", "goals"], 1))
    else
      None
  }

  /** A discovery answer mentioning "recommendations" or "social" takes two music/information questions, any other one music question. */
  function MusicDiscoveryRoute(answers: map<string, Answer>): (r: Option<Route>)
    requires WellTypedAnswers(answers)
    ensures r.Some? <==> "music-discovery" in answers && answers["music-discovery"].text != ""
    ensures r.Some? ==> "music" in r.value.categories && 1 <= r.value.maxCount
    ensures r.Some? ==> var choice := answers["music-discovery"].text;
      (r.value.maxCount == 2 <==> Contains(choice, "recommendations") || Contains(choice, "social"))
    ensures r.Some? ==> var choice := answers["music-discovery"].text;
      if Contains(choice, "recommendations") || Contains(choice, "social") then
        r.value.categories == ["music", "information"] && r.value.maxCount == 2
      else
        r.value.categories == ["music"] && r.value.maxCount == 1
  {
    if "music-discovery" in answers && answers["music-discovery"].text != "" then
      var choice := answers["music-discovery"].text;
      if Contains(choice, "recommendations") || Contains(choice, "social") then
        Some(Route(["music", "information"], 2))
      else
        Some(Route(["music"], 1))
    else
      None
  }

  /** A creativity slider above 60 routes to playful categories, otherwise to routine ones; one question either way. */
  function CreativityLevelRoute(answers: map<string, Answer>): (r: Option<Route>)
    requires WellTypedAnswers(answers)
    ensures r.Some? <==> "creativity-level" in answers
    ensures r.Some? ==> r.value.maxCount == 1
    ensures r.Some? ==> ("humor" in r.value.categories <==> answers["creativity-level"].value > 60.0)
    ensures r.Some? ==>
      r.value.categories ==
        if answers["creativity-level"].value > 60.0 then ["humor", "learning", "technology"] else ["routine", "time"]
  {
    if "creativity-level" in answers then
      if answers["creativity-level"].value > 60.0 then
        Some(Route(["humor", "learning", "technology"], 1))
      else
        Some(Route(["routine", "time"], 1))
    else
      None
  }

  function RouteCategories(route: Option<Route>): set<string>
  {
    if route.Some? then Elems(route.value.categories) else {}
  }

  /** Every category some answered core question routes to. */
  function RoutedCategories(answers: map<string, Answer>): set<string>
    requires WellTypedAnswers(answers)
  {
    RouteCategories(SocialEnergyRoute(answers)) + RouteCategories(DecisionMakingRoute(answers))
      + RouteCategories(MusicDiscoveryRoute(answers)) + RouteCategories(CreativityLevelRoute(answers))
  }

  function RoutePicks(route: Option<Route>, available: seq<Question>, used: set<string>): (r: seq<string>)
    ensures forall id :: id in r ==> id !in used && exists q :: q in available && q.id == id && q.category in RouteCategories(route)
    ensures route.Some? && 0 < route.value.maxCount && (exists q :: q in available && q.id !in used && q.category in RouteCategories(route)) ==> r != []
    ensures route.None? ==> r == []
    ensures route.Some? ==> r == QuestionsFromCategories(route.value.categories, available, used, route.value.maxCount)
  {
    if route.Some? then
      var r := QuestionsFromCategories(route.value.categories, available, used, route.value.maxCount);
      if 0 < route.value.maxCount && (exists q :: q in available && q.id !in used && q.category in RouteCategories(route)) then
        var q :| q in available && q.id !in used && q.category in RouteCategories(route);
        assert Eligible(q, route.value.categories, used);
        r
      else
        r
    else
      []
  }

  /** The four rules' picks, concatenated in rule order. */
  function AllRoutePicks(answers: map<string, Answer>, available: seq<Question>, used: set<string>): (picks: seq<string>)
    requires WellTypedAnswers(answers)
    ensures forall id :: id in picks ==> id !in used && exists q :: q in available && q.id == id && q.category in RoutedCategories(answers)
  {
    RoutePicks(SocialEnergyRoute(answers), available, used) + RoutePicks(DecisionMakingRoute(answers), available, used)
      + RoutePicks(MusicDiscoveryRoute(answers), available, used) + RoutePicks(CreativityLevelRoute(answers), available, used)
  }

  /** Some rule picks a question whenever an unused question sits in a routed category. */
  lemma AllRoutePicksNonEmpty(answers: map<string, Answer>, available: seq<Question>, used: set<string>, q: Question)
    requires WellTypedAnswers(answers)
    requires q in available && q.id !in used && q.category in RoutedCategories(answers)
    ensures AllRoutePicks(answers, available, used) != []
  {
    var social := SocialEnergyRoute(answers);
    var decision := DecisionMakingRoute(answers);
    var music := MusicDiscoveryRoute(answers);
    var creativity := CreativityLevelRoute(answers);
    if q.category in RouteCategories(social) {
      assert RoutePicks(social, available, used) != [];
    } else if q.category in RouteCategories(decision) {
      assert RoutePicks(decision, available, used) != [];
    } else if q.category in RouteCategories(music) {
      assert RoutePicks(music, available, used) != [];
    } else {
      assert RoutePicks(creativity, available, used) != [];
    }
  }

  /**
   * `getRoutedQuestions`: the picks of the four rules in order, duplicates
   * dropped (first occurrence kept), at most five.
   */
  function RoutedQuestions(answers: map<string, Answer>, available: seq<Question>, used: set<string>): (r: seq<string>)
    requires WellTypedAnswers(answers)
    ensures |r| <= MAX_ROUTED && NoDups(r)
    ensures forall id :: id in r ==> id !in used && exists q :: q in available && q.id == id && q.category in RoutedCategories(answers)
    ensures (exists q :: q in available && q.id !in used && q.category in RoutedCategories(answers)) ==> r != []
  {
    var picks := AllRoutePicks(answers, available, used);
    var unique := Dedup(picks);
    var r := SliceTo(unique, MAX_ROUTED);
    assert forall id :: id in r ==> id in unique;
    assert forall k :: 0 <= k < |r| ==> r[k] == unique[k];
    assert (exists q :: q in available && q.id !in used && q.category in RoutedCategories(answers)) ==> r != [] by {
      if exists q :: q in available && q.id !in used && q.category in RoutedCategories(answers) {
        var q :| q in available && q.id !in used && q.category in RoutedCategories(answers);
        AllRoutePicksNonEmpty(answers, available, used, q);
        assert picks[0] in unique;
      }
    }
    r
  }

  /**
   * The routed list is the first five distinct ids of the four rules'
   * picks, taken in rule order: social energy, decision making, music
   * discovery, creativity level.
   */
  lemma RoutedQuestionsInRuleOrder(answers: map<string, Answer>, available: seq<Question>, used: set<string>)
    requires WellTypedAnswers(answers)
    ensures var picks := RoutePicks(SocialEnergyRoute(answers), available, used) + RoutePicks(DecisionMakingRoute(answers), available, used)
                         + RoutePicks(MusicDiscoveryRoute(answers), available, used) + RoutePicks(CreativityLevelRoute(answers), available, used);
      var r := RoutedQuestions(answers, available, used);
      r <= Dedup(picks) && |r| == Min(MAX_ROUTED, |Dedup(picks)|)
  {
  }

  // ---------------------------------------------------------------------
  // getNextQuestions
  // ---------------------------------------------------------------------

  /** The ids of the free-text questions, in pool order. */
  function FreeResponseIds(pool: seq<Question>): (r: seq<string>)
    ensures forall id :: id in r <==> IsTextQuestion(pool, id)
  {
    var r := Ids(FreeResponseQuestions(pool));
    assert forall id :: id in r ==> IsTextQuestion(pool, id) by {
      forall id | id in r ensures IsTextQuestion(pool, id) {
        var q :| q in FreeResponseQuestions(pool) && q.id == id;
      }
    }
    assert forall id :: IsTextQuestion(pool, id) ==> id in r by {
      forall id | IsTextQuestion(pool, id) ensures id in r {
        var q :| q in pool && q.id == id && q.qtype == Text;
        assert q in FreeResponseQuestions(pool);
      }
    }
    r
  }

  /** The pool minus used questions and minus every question whose id is a free-text id. */
  function AvailableQuestions(pool: seq<Question>, used: set<string>): (r: seq<Question>)
    ensures forall q :: q in r <==> q in pool && q.id !in used && q.id !in FreeResponseIds(pool)
    ensures forall q :: q in r ==> q.qtype != Text
    ensures IsSubseq(r, pool)
  {
    Filter(pool, (q: Question) => q.id !in used && q.id !in FreeResponseIds(pool))
  }

  /** The routed picks `getNextQuestions` places right after the core questions. */
  function CoreRouting(pool: seq<Question>, answers: map<string, Answer>): seq<string>
    requires WellTypedAnswers(answers)
  {
    RoutedQuestions(answers, AvailableQuestions(pool, CoreSet()), CoreSet())
  }

  lemma TextIdsAreNotCore(pool: seq<Question>)
    requires ValidPool(pool)
    ensures forall id :: id in FreeResponseIds(pool) ==> id !in CORE_QUESTIONS
  {
    forall id | id in FreeResponseIds(pool) ensures id !in CORE_QUESTIONS {
      var t :| t in pool && t.id == id && t.qtype == Text;
      var i :| 0 <= i < |pool| && pool[i] == t;
      forall c | c in pool && c.qtype != Text ensures c.id != id {
        var j :| 0 <= j < |pool| && pool[j] == c;
        assert i != j;
      }
    }
  }

  lemma {:induction false} AllIdsUsed(pool: seq<Question>, selected: seq<string>)
    requires UniqueIds(pool) && NoDups(selected)
    requires forall q :: q in pool ==> q.id in selected
    ensures |pool| <= |selected|
  {
    var ids := Ids(pool);
    assert NoDups(ids);
    DistinctCard(ids);
    DistinctCard(selected);
    SubsetCard(Elems(ids), Elems(selected));
  }

  /** The list `getNextQuestions` builds, at every step: distinct pool ids, no more than `total`, and `used` is its id set. */
  predicate Building(pool: seq<Question>, selected: seq<string>, used: set<string>, total: int)
  {
    && NoDups(selected) && used == Elems(selected) && |selected| <= total
    && forall id :: id in selected ==> HasQuestion(pool, id)
  }

  /** The questions of `qs` whose ids are not in `used`. */
  function UnusedOf(qs: seq<Question>, used: set<string>): (r: seq<Question>)
    ensures forall q :: q in r <==> q in qs && q.id !in used
    ensures IsSubseq(r, qs)
  {
    Filter(qs, (q: Question) => q.id !in used)
  }

  /** The ids of `ids` that are not in `used`. */
  function UnusedIds(ids: seq<string>, used: set<string>): (r: seq<string>)
    ensures forall id :: id in r <==> id in ids && id !in used
  {
    Filter(ids, (id: string) => id !in used)
  }

  /** The routed step: each pick is appended while a slot is left and it is unused. */
  method AppendRouted(pool: seq<Question>, routed: seq<string>, selected: seq<string>, used: set<string>, total: int)
    returns (next: seq<string>, nextUsed: set<string>)
    requires Building(pool, selected, used, total)
    requires NoDups(routed) && forall id :: id in routed ==> id !in used && HasQuestion(pool, id)
    ensures Building(pool, next, nextUsed, total)
    ensures next == selected + routed[..Min(|routed|, total - |selected|)]
  {
    next, nextUsed := selected, used;
    for k := 0 to |routed|
      invariant next == selected + routed[..Min(k, total - |selected|)]
      invariant Building(pool, next, nextUsed, total)
    {
      assert routed[k] !in routed[..k];
      if |next| < total && routed[k] !in nextUsed {
        assert routed[..k + 1] == routed[..k] + [routed[k]];
        next := next + [routed[k]];
        nextUsed := nextUsed + {routed[k]};
      }
    }
  }

  /** Appending distinct unused pool ids keeps the list well formed. */
  lemma AppendDistinct(pool: seq<Question>, selected: seq<string>, used: set<string>, extra: seq<string>, total: int)
    requires Building(pool, selected, used, total - |extra|)
    requires NoDups(extra) && forall id :: id in extra ==> id !in used && HasQuestion(pool, id)
    ensures Building(pool, selected + extra, used + Elems(extra), total)
  {
    var next := selected + extra;
    forall i, j | 0 <= i < j < |next| ensures next[i] != next[j] {
      if i >= |selected| {
        assert next[i] == extra[i - |selected|] && next[j] == extra[j - |selected|];
      } else if j >= |selected| {
        assert next[i] in used && next[j] == extra[j - |selected|];
      }
    }
    assert forall id :: id in next ==> id in selected || id in extra;
  }

  /** Appends the ids of `extra` in order while the list is shorter than `total`. */
  method PushWhileRoom(selected: seq<string>, used: set<string>, extra: seq<string>, total: int)
    returns (next: seq<string>, nextUsed: set<string>)
    ensures var n := Min(|extra|, Max(0, total - |selected|));
      next == selected + extra[..n] && nextUsed == used + Elems(extra[..n])
  {
    next, nextUsed := selected, used;
    for k := 0 to |extra|
      invariant next == selected + extra[..Min(k, Max(0, total - |selected|))]
      invariant nextUsed == used + Elems(extra[..Min(k, Max(0, total - |selected|))])
    {
      if |next| < total {
        assert extra[..k + 1] == extra[..k] + [extra[k]];
        next := next + [extra[k]];
        nextUsed := nextUsed + {extra[k]};
      }
    }
  }

  /** The variety step: random heavy unused questions, leaving one slot free. */
  method AppendVariety(pool: seq<Question>, available: seq<Question>, selected: seq<string>, used: set<string>,
                       total: int, draws: seq<nat>)
    returns (next: seq<string>, nextUsed: set<string>)
    requires Building(pool, selected, used, total) && total - |selected| > 1
    requires UniqueIds(available) && forall q :: q in available ==> q in pool && !IsTextQuestion(pool, q.id)
    ensures Building(pool, next, nextUsed, total) && |next| < total
    ensures next == selected + VarietyQuestions(UnusedOf(available, used), total - |selected| - 1, used, draws)
    ensures selected <= next
    ensures NoFreeText(pool, selected) ==> NoFreeText(pool, next)
  {
    var unused := UnusedOf(available, used);
    SubseqKeepsUniqueIds(unused, available);
    var variety := VarietyQuestions(unused, total - |selected| - 1, used, draws);
    next, nextUsed := PushWhileRoom(selected, used, variety, total);
    assert variety[..|variety|] == variety;
    assert forall id :: id in variety ==> HasQuestion(pool, id) && !IsTextQuestion(pool, id) by {
      forall id | id in variety ensures HasQuestion(pool, id) && !IsTextQuestion(pool, id) {
        var q :| q in unused && q.id == id && q.weight >= VARIETY_MIN_WEIGHT;
      }
    }
    AppendDistinct(pool, selected, used, variety, total);
  }

  /** The free-text step: one random unused text question, if any is left. */
  method AppendFreeText(pool: seq<Question>, selected: seq<string>, used: set<string>, total: int, draw: nat)
    returns (next: seq<string>, nextUsed: set<string>)
    requires Building(pool, selected, used, total) && |selected| < total
    ensures Building(pool, next, nextUsed, total)
    ensures next == selected + TextSegment(pool, selected, total, draw)
    ensures (exists q :: q in pool && q.qtype == Text && q.id !in used) ==> exists id :: id in next && IsTextQuestion(pool, id)
  {
    var freeResponseIds := FreeResponseIds(pool);
    var availableFreeResponse := UnusedIds(freeResponseIds, used);
    if |availableFreeResponse| > 0 {
      var pick := availableFreeResponse[draw % |availableFreeResponse|];
      assert pick in availableFreeResponse;
      assert IsTextQuestion(pool, pick);
      assert HasQuestion(pool, pick);
      AppendDistinct(pool, selected, used, [pick], total);
      assert Elems([pick]) == {pick};
      next, nextUsed := selected + [pick], used + {pick};
      assert pick in next;
    } else {
      next, nextUsed := selected, used;
      forall q | q in pool && q.qtype == Text ensures q.id in used {
        assert IsTextQuestion(pool, q.id);
        assert q.id in freeResponseIds;
      }
    }
  }

  /** Marking an id used that no question of `t` carries leaves the unused ones as they were. */
  lemma {:induction false} UnusedOfSkips(t: seq<Question>, used: set<string>, x: string)
    requires forall q :: q in t ==> q.id != x
    ensures UnusedOf(t, used + {x}) == UnusedOf(t, used)
  {
    if t != [] {
      UnusedOfSkips(t[1..], used, x);
    }
  }

  /** With unique ids, marking the first unused question used removes exactly that question. */
  lemma {:induction false} UnusedOfAfterFirst(s: seq<Question>, used: set<string>)
    requires UniqueIds(s) && UnusedOf(s, used) != []
    ensures UnusedOf(s, used + {UnusedOf(s, used)[0].id}) == UnusedOf(s, used)[1..]
  {
    assert UniqueIds(s[1..]) by {
      forall i, j | 0 <= i < j < |s[1..]| ensures s[1..][i].id != s[1..][j].id {
        assert s[1..][i] == s[i + 1] && s[1..][j] == s[j + 1];
      }
    }
    if s[0].id in used {
      UnusedOfAfterFirst(s[1..], used);
    } else {
      forall q | q in s[1..] ensures q.id != s[0].id {
        var j :| 0 <= j < |s[1..]| && s[1..][j] == q;
        assert s[j + 1] == q;
      }
      UnusedOfSkips(s[1..], used, s[0].id);
    }
  }

  /** One step of the fill: the next unused question is the next one of `fill`. */
  lemma FillStep(pool: seq<Question>, fill: seq<Question>, k: nat, used: set<string>)
    requires UniqueIds(pool) && k < |fill| && UnusedOf(pool, used) == fill[k..]
    ensures UnusedOf(pool, used)[0] == fill[k]
    ensures UnusedOf(pool, used + {fill[k].id}) == fill[k + 1..]
  {
    UnusedOfAfterFirst(pool, used);
    assert fill[k..][1..] == fill[k + 1..];
  }

  /** Appending an unused pool question keeps the list well formed while there is room. */
  lemma BuildingPush(pool: seq<Question>, selected: seq<string>, used: set<string>, total: int, q: Question)
    requires Building(pool, selected, used, total) && |selected| < total
    requires q in pool && q.id !in used
    ensures Building(pool, selected + [q.id], used + {q.id}, total)
  {
  }

  /** Appending the next id of `ids` keeps `next` running along `ids` after `selected`. */
  lemma RunsAlong(selected: seq<string>, next: seq<string>, ids: seq<string>, k: nat)
    requires k < |ids| && |next| == |selected| + k
    requires forall i :: 0 <= i < k ==> next[|selected| + i] == ids[i]
    ensures forall i :: 0 <= i < k + 1 ==> (next + [ids[k]])[|selected| + i] == ids[i]
  {
  }

  /** A list that starts with `selected` and continues with the first `k` of `ids` is exactly that. */
  lemma ExtendedBy(selected: seq<string>, next: seq<string>, ids: seq<string>, k: nat)
    requires k <= |ids| && |next| == |selected| + k && selected <= next
    requires forall i :: 0 <= i < k ==> next[|selected| + i] == ids[i]
    ensures next == selected + ids[..k]
  {
    forall i | 0 <= i < |next| ensures next[i] == (selected + ids[..k])[i] {
      if i >= |selected| {
        assert next[|selected| + (i - |selected|)] == ids[i - |selected|];
      }
    }
  }

  /**
   * The last step: the ids of the unused pool questions, in pool order,
   * until the list is full or the pool runs out.
   */
  method FillFromPool(pool: seq<Question>, selected: seq<string>, used: set<string>, total: int)
    returns (next: seq<string>, nextUsed: set<string>)
    requires Building(pool, selected, used, total) && UniqueIds(pool)
    ensures Building(pool, next, nextUsed, total)
    ensures next == selected + FillSegment(pool, selected, total)
    ensures |next| == total || |pool| <= |next|
  {
    ghost var fill := UnusedOf(pool, used);
    ghost var ids := Ids(fill);
    ghost var k := 0;
    next, nextUsed := selected, used;
    while |next| < total
      invariant Building(pool, next, nextUsed, total)
      invariant k <= |fill| && |next| == |selected| + k && selected <= next
      invariant forall i :: 0 <= i < k ==> next[|selected| + i] == ids[i]
      invariant UnusedOf(pool, nextUsed) == fill[k..]
      decreases total - |next|
    {
      var remaining := UnusedOf(pool, nextUsed);
      if remaining == [] {
        AllIdsUsed(pool, next);
        assert k == |fill| by {
          assert |fill[k..]| == 0;
        }
        break;
      }
      var id := remaining[0].id;
      FillStep(pool, fill, k, nextUsed);
      BuildingPush(pool, next, nextUsed, total, remaining[0]);
      RunsAlong(selected, next, ids, k);
      next := next + [id];
      nextUsed := nextUsed + {id};
      k := k + 1;
    }
    ExtendedBy(selected, next, ids, k);
    assert Min(|ids|, Max(0, total - |selected|)) == k;
  }

  /** A text question is still unused while every chosen id is a core id or not a free-text id. */
  lemma TextQuestionUnused(pool: seq<Question>, selected: seq<string>, q: Question)
    requires ValidPool(pool) && q in pool && q.qtype == Text
    requires NoFreeText(pool, selected)
    ensures q.id !in selected
  {
    TextIdsAreNotCore(pool);
    assert IsTextQuestion(pool, q.id);
  }

  lemma PrefixTrans(a: seq<string>, b: seq<string>, c: seq<string>)
    requires a <= b <= c
    ensures a <= c
  {
  }

  lemma PrefixKeeps(a: seq<string>, b: seq<string>, x: string)
    requires a <= b && x in a
    ensures x in b
  {
    assert a == b[..|a|];
  }

  /** No chosen id is a free-text question, apart from the core ones (which are not free text either). */
  predicate NoFreeText(pool: seq<Question>, selected: seq<string>)
  {
    forall id :: id in selected ==> id in CORE_QUESTIONS || !IsTextQuestion(pool, id)
  }

  /** The core questions, then as many routed picks as fit. */
  function CoreAndRouted(pool: seq<Question>, answers: map<string, Answer>, total: int): seq<string>
    requires WellTypedAnswers(answers) && |CORE_QUESTIONS| < total
  {
    var routed := CoreRouting(pool, answers);
    CORE_QUESTIONS + routed[..Min(|routed|, total - |CORE_QUESTIONS|)]
  }

  /** The variety segment after `selected`: empty unless more than one slot is left. */
  function VarietySegment(pool: seq<Question>, selected: seq<string>, total: int, draws: seq<nat>): seq<string>
  {
    if total - |selected| > 1 then
      VarietyQuestions(UnusedOf(AvailableQuestions(pool, CoreSet()), Elems(selected)), total - |selected| - 1, Elems(selected), draws)
    else []
  }

  /** The free-text segment after `selected`: one unused free-text id picked by `draw`, if a slot and such an id are left. */
  function TextSegment(pool: seq<Question>, selected: seq<string>, total: int, draw: nat): seq<string>
  {
    var candidates := UnusedIds(FreeResponseIds(pool), Elems(selected));
    if |selected| < total && candidates != [] then [candidates[draw % |candidates|]] else []
  }

  /** The fill segment after `selected`: unused pool ids in pool order, as many as fit. */
  function FillSegment(pool: seq<Question>, selected: seq<string>, total: int): seq<string>
  {
    var fill := Ids(UnusedOf(pool, Elems(selected)));
    fill[..Min(|fill|, Max(0, total - |selected|))]
  }

  /**
   * The core questions followed by the routed picks, and the questions
   * left for the later steps: unused and not free text.
   */
  method CoreThenRouted(pool: seq<Question>, answers: map<string, Answer>, totalQuestions: int)
    returns (selected: seq<string>, used: set<string>, available: seq<Question>)
    requires ValidPool(pool)
    requires WellTypedAnswers(answers)
    requires |CORE_QUESTIONS| < totalQuestions
    ensures Building(pool, selected, used, totalQuestions) && NoFreeText(pool, selected)
    ensures var routed := CoreRouting(pool, answers);
      selected == CORE_QUESTIONS + routed[..Min(|routed|, totalQuestions - |CORE_QUESTIONS|)]
    ensures available == AvailableQuestions(pool, CoreSet())
    ensures UniqueIds(available) && forall q :: q in available ==> q in pool && !IsTextQuestion(pool, q.id)
  {
    CorePrefixInPool(pool, |CORE_QUESTIONS|);
    assert CORE_QUESTIONS[..|CORE_QUESTIONS|] == CORE_QUESTIONS;
    selected := CORE_QUESTIONS;
    used := CoreSet();
    available := AvailableQuestions(pool, used);
    SubseqKeepsUniqueIds(available, pool);
    SubseqElems(available, pool);
    var routed := RoutedQuestions(answers, available, used);
    assert forall id :: id in routed ==> HasQuestion(pool, id) && !IsTextQuestion(pool, id) by {
      forall id | id in routed ensures HasQuestion(pool, id) && !IsTextQuestion(pool, id) {
        var q :| q in available && q.id == id && q.category in RoutedCategories(answers);
      }
    }
    selected, used := AppendRouted(pool, routed, selected, used, totalQuestions);
  }

  /**
   * The first half of the block of `getNextQuestions` that runs once the
   * four core questions are in and slots remain: the routed picks, then
   * the variety fill.
   */
  method RouteAndVary(pool: seq<Question>, answers: map<string, Answer>, totalQuestions: int, varietyDraws: seq<nat>)
    returns (selected: seq<string>, used: set<string>)
    requires ValidPool(pool)
    requires WellTypedAnswers(answers)
    requires |CORE_QUESTIONS| < totalQuestions
    ensures Building(pool, selected, used, totalQuestions) && NoFreeText(pool, selected)
    ensures var routed := CoreAndRouted(pool, answers, totalQuestions);
      selected == routed + VarietySegment(pool, routed, totalQuestions, varietyDraws)
    ensures |CORE_QUESTIONS| + |CoreRouting(pool, answers)| < totalQuestions ==> |selected| < totalQuestions
  {
    var available;
    selected, used, available := CoreThenRouted(pool, answers, totalQuestions);
    selected, used := VarietyIfRoom(pool, available, selected, used, totalQuestions, varietyDraws);
  }

  /** The variety step runs only while more than one slot is left. */
  method VarietyIfRoom(pool: seq<Question>, available: seq<Question>, selected: seq<string>, used: set<string>,
                       totalQuestions: int, varietyDraws: seq<nat>)
    returns (next: seq<string>, nextUsed: set<string>)
    requires Building(pool, selected, used, totalQuestions)
    requires available == AvailableQuestions(pool, CoreSet())
    requires UniqueIds(available) && forall q :: q in available ==> q in pool && !IsTextQuestion(pool, q.id)
    ensures Building(pool, next, nextUsed, totalQuestions)
    ensures next == selected + VarietySegment(pool, selected, totalQuestions, varietyDraws)
    ensures NoFreeText(pool, selected) ==> NoFreeText(pool, next)
    ensures |selected| < totalQuestions ==> |next| < totalQuestions
  {
    next, nextUsed := selected, used;
    var remainingSlots := totalQuestions - |selected|;
    if remainingSlots > 1 {
      next, nextUsed := AppendVariety(pool, available, selected, used, totalQuestions, varietyDraws);
    }
  }

  /**
   * The second half of that block: one random unused free-text question
   * if a slot is left, then unused pool questions in pool order.
   */
  method TextThenFill(pool: seq<Question>, selected: seq<string>, used: set<string>, totalQuestions: int, textDraw: nat)
    returns (next: seq<string>, nextUsed: set<string>)
    requires ValidPool(pool)
    requires Building(pool, selected, used, totalQuestions)
    ensures Building(pool, next, nextUsed, totalQuestions) && selected <= next
    ensures var withText := selected + TextSegment(pool, selected, totalQuestions, textDraw);
      next == withText + FillSegment(pool, withText, totalQuestions)
    ensures NoFreeText(pool, selected) && |selected| < totalQuestions && (exists q :: q in pool && q.qtype == Text)
      ==> exists id :: id in next && IsTextQuestion(pool, id)
    ensures |next| == totalQuestions || |pool| <= |next|
  {
    next, nextUsed := selected, used;
    ghost var textId: Option<string> := None;
    if |next| < totalQuestions {
      if NoFreeText(pool, selected) && exists q :: q in pool && q.qtype == Text {
        var q :| q in pool && q.qtype == Text;
        TextQuestionUnused(pool, selected, q);
      }
      next, nextUsed := AppendFreeText(pool, next, nextUsed, totalQuestions, textDraw);
      if exists id :: id in next && IsTextQuestion(pool, id) {
        var id :| id in next && IsTextQuestion(pool, id);
        textId := Some(id);
      }
    }
    ghost var beforeFill := next;
    assert beforeFill == selected + TextSegment(pool, selected, totalQuestions, textDraw);
    next, nextUsed := FillFromPool(pool, next, nextUsed, totalQuestions);
    if textId.Some? {
      PrefixKeeps(beforeFill, next, textId.value);
    }
    PrefixTrans(selected, beforeFill, next);
  }

  /**
   * The block of `getNextQuestions` that runs once the four core questions
   * are in and slots remain.
   */
  method FillAfterCore(pool: seq<Question>, answers: map<string, Answer>, totalQuestions: int,
                       varietyDraws: seq<nat>, textDraw: nat)
    returns (selected: seq<string>)
    requires ValidPool(pool)
    requires WellTypedAnswers(answers)
    requires |CORE_QUESTIONS| < totalQuestions
    ensures Building(pool, selected, Elems(selected), totalQuestions)
    ensures var routed := CoreAndRouted(pool, answers, totalQuestions);
      var variety := routed + VarietySegment(pool, routed, totalQuestions, varietyDraws);
      var text := variety + TextSegment(pool, variety, totalQuestions, textDraw);
      selected == text + FillSegment(pool, text, totalQuestions)
    ensures CoreAndRouted(pool, answers, totalQuestions) <= selected
    ensures |CORE_QUESTIONS| + |CoreRouting(pool, answers)| < totalQuestions && (exists q :: q in pool && q.qtype == Text)
      ==> exists id :: id in selected && IsTextQuestion(pool, id)
    ensures |selected| == totalQuestions || |pool| <= |selected|
  {
    var used;
    selected, used := RouteAndVary(pool, answers, totalQuestions, varietyDraws);
    ghost var afterVariety := selected;
    selected, used := TextThenFill(pool, selected, used, totalQuestions, textDraw);
    PrefixTrans(CoreAndRouted(pool, answers, totalQuestions), afterVariety, selected);
  }

  /** The loop of `getNextQuestions` that pushes core questions while there is room. */
  method TakeCore(totalQuestions: int) returns (selected: seq<string>)
    ensures selected == CORE_QUESTIONS[..Min(|CORE_QUESTIONS|, Max(0, totalQuestions))]
  {
    var used: set<string> := {};
    selected := [];
    for i := 0 to |CORE_QUESTIONS|
      invariant selected == CORE_QUESTIONS[..Min(i, Max(0, totalQuestions))]
      invariant used == Elems(selected)
    {
      if |selected| < totalQuestions {
        selected := selected + [CORE_QUESTIONS[i]];
        used := used + {CORE_QUESTIONS[i]};
      }
    }
  }

  /** Any run of core questions from the start is duplicate-free and in a valid pool. */
  lemma CorePrefixInPool(pool: seq<Question>, n: nat)
    requires ValidPool(pool) && n <= |CORE_QUESTIONS|
    ensures NoDups(CORE_QUESTIONS[..n])
    ensures forall id :: id in CORE_QUESTIONS[..n] ==> HasQuestion(pool, id)
  {
    CoreDistinct();
    forall id | id in CORE_QUESTIONS[..n] ensures HasQuestion(pool, id) {
      assert id in CORE_QUESTIONS;
      var q :| q in pool && q.id == id && q.qtype != Text;
    }
  }

  /**
   * `getNextQuestions`: the four core questions, then up to five routed
   * picks, then a random variety fill leaving one slot, then one random
   * free-text question, then pool order; cut to `totalQuestions`.
   */
  method NextQuestions(pool: seq<Question>, answers: map<string, Answer>, totalQuestions: int,
                       varietyDraws: seq<nat>, textDraw: nat)
    returns (selected: seq<string>)
    requires ValidPool(pool)
    requires WellTypedAnswers(answers)
    ensures totalQuestions <= 0 ==> selected == []
    ensures |selected| <= Max(0, totalQuestions)
    ensures NoDups(selected)
    ensures forall id :: id in selected ==> HasQuestion(pool, id)
    ensures CORE_QUESTIONS[..Min(Max(0, totalQuestions), |CORE_QUESTIONS|)] <= selected
    ensures |CORE_QUESTIONS| < totalQuestions ==> CoreAndRouted(pool, answers, totalQuestions) <= selected
    // once the core is in and slots remain: core, routed, variety, free text, pool fill
    ensures |CORE_QUESTIONS| < totalQuestions ==>
      var routed := CoreAndRouted(pool, answers, totalQuestions);
      var variety := routed + VarietySegment(pool, routed, totalQuestions, varietyDraws);
      var text := variety + TextSegment(pool, variety, totalQuestions, textDraw);
      selected == text + FillSegment(pool, text, totalQuestions)
    ensures |CORE_QUESTIONS| + |CoreRouting(pool, answers)| < totalQuestions && (exists q :: q in pool && q.qtype == Text)
      ==> exists id :: id in selected && IsTextQuestion(pool, id)
    ensures 0 <= totalQuestions <= |pool| ==> |selected| == totalQuestions
  {
    selected := TakeCore(totalQuestions);
    if |selected| < totalQuestions {
      assert |CORE_QUESTIONS| < totalQuestions;
      selected := FillAfterCore(pool, answers, totalQuestions, varietyDraws, textDraw);
    } else {
      assert totalQuestions <= |CORE_QUESTIONS|;
      CorePrefixInPool(pool, |selected|);
    }
    SliceToShort(selected, totalQuestions);
    selected := SliceTo(selected, totalQuestions);
  }
}
