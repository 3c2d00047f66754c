/** Wellness recommendations: a fixed base list, filtered by the hour of the day,
    ordered by priority (stable, high first), cut to three; completion removes by
    id and a custom entry is put in front. */
module Recommendations {
  import opened Text

  datatype RecType = Breathing | Exercise | Mindfulness | Break

  datatype Priority = High | Medium | Low

  datatype Recommendation = Recommendation(
    id: string,
    title: string,
    description: string,
    kind: RecType,
    priority: Priority)

  /** `{ high: 3, medium: 2, low: 1 }` */
  function Rank(p: Priority): (n: int)
    ensures 1 <= n <= 3
  {
    match p
    case High => 3
    case Medium => 2
    case Low => 1
  }

  const R1 := Recommendation("1", "Respiração Profunda",
    "Seu nível de estresse está elevado. Tente 5 minutos de respiração profunda.", Breathing, High)
  const R2 := Recommendation("2", "Pausa Ativa",
    "Que tal fazer uma caminhada de 10 minutos para relaxar?", Exercise, Medium)
  const R3 := Recommendation("3", "Meditação Guiada",
    "Uma sessão de mindfulness pode ajudar a reduzir a ansiedade.", Mindfulness, Medium)
  const R4 := Recommendation("4", "Hidratação",
    "Beba um copo d'água. A hidratação é importante para o bem-estar.", Break, Low)
  const R5 := Recommendation("5", "Alongamento",
    "Faça alguns alongamentos para aliviar a tensão muscular.", Exercise, Medium)

  /** `baseRecommendations` */
  function BaseRecommendations(): (r: seq<Recommendation>)
    ensures |r| == 5
  {
    [R1, R2, R3, R4, R5]
  }

  function Ids(xs: seq<Recommendation>): (ids: seq<string>)
    ensures |ids| == |xs|
  {
    seq(|xs|, i requires 0 <= i < |xs| => xs[i].id)
  }

  // ---------------------------------------------------------------------------
  // filtering by hour

  /** The kinds that survive at a given hour: mornings keep exercise and breathing,
      evenings (after 18h) mindfulness and breaks, and the afternoon everything. */
  function AllowedKinds(hour: int): set<RecType> {
    if hour < 12 then {Exercise, Breathing}
    else if hour > 18 then {Mindfulness, Break}
    else {Breathing, Exercise, Mindfulness, Break}
  }

  /** `filter(r => allowed.has(r.type))` */
  function KeepKinds(xs: seq<Recommendation>, allowed: set<RecType>): (r: seq<Recommendation>)
    ensures |r| <= |xs|
  {
    if xs == [] then []
    else if xs[0].kind in allowed then [xs[0]] + KeepKinds(xs[1..], allowed)
    else KeepKinds(xs[1..], allowed)
  }

  /** The filter keeps exactly the entries of an allowed kind, and nothing new. */
  lemma {:induction false} KeepKindsMembers(xs: seq<Recommendation>, allowed: set<RecType>)
    ensures forall x :: x in KeepKinds(xs, allowed) <==> x in xs && x.kind in allowed
    ensures multiset(KeepKinds(xs, allowed)) <= multiset(xs)
    decreases |xs|
  {
    if xs != [] {
      KeepKindsMembers(xs[1..], allowed);
      assert xs == [xs[0]] + xs[1..];
    }
  }

  /** The hour filter as the hook writes it: two guarded filters. */
  function HourFilter(hour: int, xs: seq<Recommendation>): (r: seq<Recommendation>)
    ensures 12 <= hour <= 18 ==> r == xs
  {
    if hour < 12 then KeepKinds(xs, {Exercise, Breathing})
    else if hour > 18 then KeepKinds(xs, {Mindfulness, Break})
    else xs
  }

  /** Mornings keep only exercise and breathing, evenings only mindfulness and
      breaks, afternoons everything; every entry of an allowed kind survives. */
  lemma HourFilterMembers(hour: int, xs: seq<Recommendation>)
    ensures forall x :: x in HourFilter(hour, xs) <==> x in xs && x.kind in AllowedKinds(hour)
    ensures multiset(HourFilter(hour, xs)) <= multiset(xs)
  {
    if hour < 12 {
      KeepKindsMembers(xs, {Exercise, Breathing});
    } else if hour > 18 {
      KeepKindsMembers(xs, {Mindfulness, Break});
    } else {
      EveryKindAllowed(hour);
    }
  }

  lemma EveryKindAllowed(hour: int)
    requires 12 <= hour <= 18
    ensures forall k: RecType :: k in AllowedKinds(hour)
  {
    forall k: RecType ensures k in AllowedKinds(hour) {
      match k
      case Breathing =>
      case Exercise =>
      case Mindfulness =>
      case Break =>
    }
  }

  // ---------------------------------------------------------------------------
  // the stable sort by priority

  function WithPriority(xs: seq<Recommendation>, p: Priority): (r: seq<Recommendation>)
    ensures |r| <= |xs|
  {
    if xs == [] then []
    else if xs[0].priority == p then [xs[0]] + WithPriority(xs[1..], p)
    else WithPriority(xs[1..], p)
  }

  lemma {:induction false} WithPriorityMembers(xs: seq<Recommendation>, p: Priority)
    ensures forall x :: x in WithPriority(xs, p) <==> x in xs && x.priority == p
    decreases |xs|
  {
    if xs != [] {
      WithPriorityMembers(xs[1..], p);
    }
  }

  /** What the stable sort with the `priorityOrder` comparator yields: the high
      entries, then the medium ones, then the low ones, each group in its original
      order. `PrioritySortIsStableSort` proves this is the sorted, stable permutation. */
  function SortByPriority(xs: seq<Recommendation>): seq<Recommendation> {
    WithPriority(xs, High) + WithPriority(xs, Medium) + WithPriority(xs, Low)
  }

  predicate SortedByPriority(xs: seq<Recommendation>) {
    forall i, j :: 0 <= i < j < |xs| ==> Rank(xs[i].priority) >= Rank(xs[j].priority)
  }

  lemma {:induction false} WithPriorityAppend(a: seq<Recommendation>, b: seq<Recommendation>, p: Priority)
    ensures WithPriority(a + b, p) == WithPriority(a, p) + WithPriority(b, p)
    decreases |a|
  {
    if a == [] {
      assert a + b == b;
    } else {
      assert (a + b)[0] == a[0];
      assert (a + b)[1..] == a[1..] + b;
      WithPriorityAppend(a[1..], b, p);
    }
  }

  lemma {:induction false} WithPriorityOfGroup(xs: seq<Recommendation>, p: Priority, q: Priority)
    ensures WithPriority(WithPriority(xs, q), p) == if p == q then WithPriority(xs, p) else []
    decreases |xs|
  {
    if xs != [] {
      WithPriorityOfGroup(xs[1..], p, q);
    }
  }

  lemma {:induction false} PartitionMultiset(xs: seq<Recommendation>)
    ensures multiset(WithPriority(xs, High)) + multiset(WithPriority(xs, Medium))
            + multiset(WithPriority(xs, Low)) == multiset(xs)
    decreases |xs|
  {
    if xs != [] {
      PartitionMultiset(xs[1..]);
      assert xs == [xs[0]] + xs[1..];
    }
  }

  /** The three facts that pin down a stable sort: the result is ordered by
      non-increasing priority, it is a permutation of the input, and entries of
      equal priority keep their relative order. */
  lemma PrioritySortIsStableSort(xs: seq<Recommendation>)
    ensures SortedByPriority(SortByPriority(xs))
    ensures multiset(SortByPriority(xs)) == multiset(xs)
    ensures forall p :: WithPriority(SortByPriority(xs), p) == WithPriority(xs, p)
  {
    var h, m, l := WithPriority(xs, High), WithPriority(xs, Medium), WithPriority(xs, Low);
    var r := h + m + l;
    WithPriorityMembers(xs, High);
    WithPriorityMembers(xs, Medium);
    WithPriorityMembers(xs, Low);
    forall i, j | 0 <= i < j < |r| ensures Rank(r[i].priority) >= Rank(r[j].priority) {
      if i < |h| {
        assert r[i] == h[i];
      } else if i < |h| + |m| {
        assert r[i] == m[i - |h|];
        assert j >= |h|;
        if j < |h| + |m| { assert r[j] == m[j - |h|]; } else { assert r[j] == l[j - |h| - |m|]; }
      } else {
        assert r[i] == l[i - |h| - |m|] && r[j] == l[j - |h| - |m|];
      }
    }
    PartitionMultiset(xs);
    forall p ensures WithPriority(r, p) == WithPriority(xs, p) {
      WithPriorityAppend(h + m, l, p);
      WithPriorityAppend(h, m, p);
      WithPriorityOfGroup(xs, p, High);
      WithPriorityOfGroup(xs, p, Medium);
      WithPriorityOfGroup(xs, p, Low);
      match p
      case High => assert WithPriority(r, p) == h + [] + [];
      case Medium => assert WithPriority(r, p) == [] + m + [];
      case Low => assert WithPriority(r, p) == [] + [] + l;
    }
  }

  // ---------------------------------------------------------------------------
  // generatePersonalizedRecommendations

  function Take3(xs: seq<Recommendation>): (r: seq<Recommendation>)
    ensures |r| <= 3 && |r| <= |xs| && r == xs[..|r|]
    ensures |xs| >= 3 ==> |r| == 3
    ensures |xs| < 3 ==> r == xs
  {
    if |xs| <= 3 then xs else xs[..3]
  }

  /** Filter by hour, sort by priority, keep three. */
  function Select(hour: int, xs: seq<Recommendation>): seq<Recommendation> {
    Take3(SortByPriority(HourFilter(hour, xs)))
  }

  /** The recommendations chosen at `hour` (the hour is a parameter). */
  function Personalized(hour: int): seq<Recommendation> {
    Select(hour, BaseRecommendations())
  }

  /** At most three entries, all from the given list and allowed at that hour,
      ordered by priority. */
  lemma SelectShape(hour: int, xs: seq<Recommendation>)
    ensures var r := Select(hour, xs);
      |r| <= 3
      && multiset(r) <= multiset(xs)
      && (forall x :: x in r ==> x.kind in AllowedKinds(hour))
      && SortedByPriority(r)
  {
    var f := HourFilter(hour, xs);
    var s := SortByPriority(f);
    var r := Take3(s);
    HourFilterMembers(hour, xs);
    PrioritySortIsStableSort(f);
    PrefixOfSorted(s, |r|);
    forall x | x in r ensures x.kind in AllowedKinds(hour) {
      assert x in multiset(r);
      assert x in multiset(f);
    }
  }

  lemma PrefixOfSorted(s: seq<Recommendation>, k: nat)
    requires k <= |s|
    ensures multiset(s[..k]) <= multiset(s)
    ensures SortedByPriority(s) ==> SortedByPriority(s[..k])
  {
    assert s == s[..k] + s[k..];
  }

  /** `Select` on the base list. */
  lemma PersonalizedShape(hour: int)
    ensures var r := Personalized(hour);
      |r| <= 3
      && multiset(r) <= multiset(BaseRecommendations())
      && (forall x :: x in r ==> x.kind in AllowedKinds(hour))
      && SortedByPriority(r)
  {
    SelectShape(hour, BaseRecommendations());
  }

  /** A five-entry list shaped like the base list: kinds and priorities in the
      same positions. */
  predicate ShapedLikeBase(xs: seq<Recommendation>) {
    |xs| == 5
    && xs[0].kind == Breathing && xs[0].priority == High
    && xs[1].kind == Exercise && xs[1].priority == Medium
    && xs[2].kind == Mindfulness && xs[2].priority == Medium
    && xs[3].kind == Break && xs[3].priority == Low
    && xs[4].kind == Exercise && xs[4].priority == Medium
  }

  /** On any list of that shape the selection depends only on the hour band. */
  lemma SelectOnBaseShape(hour: int, xs: seq<Recommendation>)
    requires ShapedLikeBase(xs)
    ensures hour < 12 ==> Select(hour, xs) == [xs[0], xs[1], xs[4]]
    ensures hour > 18 ==> Select(hour, xs) == [xs[2], xs[3]]
    ensures 12 <= hour <= 18 ==> Select(hour, xs) == [xs[0], xs[1], xs[2]]
  {
    var a, b, c, d, e := xs[0], xs[1], xs[2], xs[3], xs[4];
    assert xs == [a, b, c, d, e];
    if hour < 12 {
      var k := {Exercise, Breathing};
      assert KeepKinds([e], k) == [e];
      assert KeepKinds([d, e], k) == [e];
      assert KeepKinds([c, d, e], k) == [e];
      assert KeepKinds([b, c, d, e], k) == [b, e];
      assert KeepKinds([a, b, c, d, e], k) == [a, b, e];
      var f := [a, b, e];
      assert WithPriority(f, High) == [a] by {
        assert WithPriority([e], High) == [] && WithPriority([b, e], High) == [];
      }
      assert WithPriority(f, Medium) == [b, e] by {
        assert WithPriority([e], Medium) == [e] && WithPriority([b, e], Medium) == [b, e];
      }
      assert WithPriority(f, Low) == [] by {
        assert WithPriority([e], Low) == [] && WithPriority([b, e], Low) == [];
      }
    } else if hour > 18 {
      var k := {Mindfulness, Break};
      assert KeepKinds([e], k) == [];
      assert KeepKinds([d, e], k) == [d];
      assert KeepKinds([c, d, e], k) == [c, d];
      assert KeepKinds([b, c, d, e], k) == [c, d];
      assert KeepKinds([a, b, c, d, e], k) == [c, d];
      var f := [c, d];
      assert WithPriority(f, High) == [] by { assert WithPriority([d], High) == []; }
      assert WithPriority(f, Medium) == [c] by { assert WithPriority([d], Medium) == []; }
      assert WithPriority(f, Low) == [d] by { assert WithPriority([d], Low) == [d]; }
    } else {
      assert WithPriority(xs, High) == [a] by {
        assert WithPriority([e], High) == [] && WithPriority([d, e], High) == [];
        assert WithPriority([c, d, e], High) == [] && WithPriority([b, c, d, e], High) == [];
      }
      assert WithPriority(xs, Medium) == [b, c, e] by {
        assert WithPriority([e], Medium) == [e] && WithPriority([d, e], Medium) == [e];
        assert WithPriority([c, d, e], Medium) == [c, e] && WithPriority([b, c, d, e], Medium) == [b, c, e];
      }
      assert WithPriority(xs, Low) == [d] by {
        assert WithPriority([e], Low) == [] && WithPriority([d, e], Low) == [d];
        assert WithPriority([c, d, e], Low) == [d] && WithPriority([b, c, d, e], Low) == [d];
      }
      assert SortByPriority(xs) == [a, b, c, e, d];
    }
  }

  /** The concrete selections: mornings give ids 1, 2, 5; evenings 3, 4; afternoons 1, 2, 3. */
  lemma PersonalizedIds(hour: int)
    ensures hour < 12 ==> Ids(Personalized(hour)) == ["1", "2", "5"]
    ensures hour > 18 ==> Ids(Personalized(hour)) == ["3", "4"]
    ensures 12 <= hour <= 18 ==> Ids(Personalized(hour)) == ["1", "2", "3"]
  {
    var xs := BaseRecommendations();
    BaseFacts();
    SelectOnBaseShape(hour, xs);
  }

  lemma BaseFacts()
    ensures ShapedLikeBase(BaseRecommendations())
    ensures Ids(BaseRecommendations()) == ["1", "2", "3", "4", "5"]
  {
  }

  // ---------------------------------------------------------------------------
  // completion and custom entries

  /** `prev.filter(rec => rec.id !== id)` */
  function RemoveId(xs: seq<Recommendation>, id: string): (r: seq<Recommendation>)
    ensures |r| <= |xs|
  {
    if xs == [] then []
    else if xs[0].id == id then RemoveId(xs[1..], id)
    else [xs[0]] + RemoveId(xs[1..], id)
  }

  /** Every entry with that id goes, every other entry stays. */
  lemma {:induction false} RemoveIdMembers(xs: seq<Recommendation>, id: string)
    ensures forall x :: x in RemoveId(xs, id) <==> x in xs && x.id != id
    decreases |xs|
  {
    if xs != [] {
      RemoveIdMembers(xs[1..], id);
    }
  }

  /** Removal works piecewise, so the entries that stay keep their order. */
  lemma {:induction false} RemoveIdAppend(a: seq<Recommendation>, b: seq<Recommendation>, id: string)
    ensures RemoveId(a + b, id) == RemoveId(a, id) + RemoveId(b, id)
    decreases |a|
  {
    if a == [] {
      assert a + b == b;
    } else {
      assert (a + b)[0] == a[0];
      assert (a + b)[1..] == a[1..] + b;
      RemoveIdAppend(a[1..], b, id);
    }
  }

  /** A list without the id is left as it is, and removing twice is removing once. */
  lemma {:induction false} RemoveIdIdempotent(xs: seq<Recommendation>, id: string)
    ensures (forall x :: x in xs ==> x.id != id) ==> RemoveId(xs, id) == xs
    ensures RemoveId(RemoveId(xs, id), id) == RemoveId(xs, id)
    decreases |xs|
  {
    if xs != [] {
      RemoveIdIdempotent(xs[1..], id);
      assert xs == [xs[0]] + xs[1..];
    }
  }

  /** The entry `addCustomRecommendation` creates (the clock is a parameter). */
  function CustomRecommendation(title: string, description: string, kind: RecType, now: nat): (r: Recommendation)
    ensures r.id == "custom_" + NatToString(now)
    ensures r.title == title && r.description == description && r.kind == kind && r.priority == Medium
  {
    Recommendation("custom_" + NatToString(now), title, description, kind, Medium)
  }

  // ---------------------------------------------------------------------------
  // colours and icons

  /** The type names as the source spells them. */
  function TypeName(k: RecType): string {
    match k
    case Breathing => "breathing"
    case Exercise => "exercise"
    case Mindfulness => "mindfulness"
    case Break => "break"
  }

  /** `getRecommendationColor`: one colour per type, '#F5F5F5' for anything else. */
  function RecommendationColor(t: string): (c: string)
    ensures c in {"#E3F2FD", "#E8F5E8", "#F3E5F5", "#FFF3E0", "#F5F5F5"}
    ensures t !in {"breathing", "exercise", "mindfulness", "break"} ==> c == "#F5F5F5"
  {
    if t == "breathing" then "#E3F2FD"
    else if t == "exercise" then "#E8F5E8"
    else if t == "mindfulness" then "#F3E5F5"
    else if t == "break" then "#FFF3E0"
    else "#F5F5F5"
  }

  /** `getRecommendationIcon`: one icon per type, '💡' for anything else. */
  function RecommendationIcon(t: string): (icon: string)
    ensures icon in {"🫁", "🏃", "🧘", "☕", "💡"}
    ensures t !in {"breathing", "exercise", "mindfulness", "break"} ==> icon == "💡"
  {
    if t == "breathing" then "🫁"
    else if t == "exercise" then "🏃"
    else if t == "mindfulness" then "🧘"
    else if t == "break" then "☕"
    else "💡"
  }

  /** Every type has its own colour and icon, different from the fallbacks. */
  lemma TypesDistinguished(a: RecType, b: RecType)
    ensures RecommendationColor(TypeName(a)) != "#F5F5F5" && RecommendationIcon(TypeName(a)) != "💡"
    ensures a != b ==> RecommendationColor(TypeName(a)) != RecommendationColor(TypeName(b))
    ensures a != b ==> RecommendationIcon(TypeName(a)) != RecommendationIcon(TypeName(b))
  {
  }

  /** The body of the timer callback: `selectedRecommendations` is reassigned by
      the hour filter, then sorted and cut. */
  method SelectRecommendations(hour: int, base: seq<Recommendation>) returns (chosen: seq<Recommendation>)
    ensures chosen == Select(hour, base)
    ensures |chosen| <= 3 && forall x :: x in chosen ==> x in base && x.kind in AllowedKinds(hour)
  {
    var selected := base;
    if hour < 12 {
      selected := KeepKinds(selected, {Exercise, Breathing});
    } else if hour > 18 {
      selected := KeepKinds(selected, {Mindfulness, Break});
    }
    chosen := Take3(SortByPriority(selected));
    assert selected == HourFilter(hour, base);
    SelectShape(hour, base);
    forall x | x in chosen ensures x in base {
      assert x in multiset(chosen);
    }
  }

  // ---------------------------------------------------------------------------
  // the hook's state

  class RecommendationsHook {
    var recommendations: seq<Recommendation>
    var isLoading: bool

    constructor ()
      ensures recommendations == [] && !isLoading
    {
      recommendations := [];
      isLoading := false;
    }

    /** `generatePersonalizedRecommendations` with the hour passed in; the one-second
        delay is not modelled. */
    method Generate(hour: int)
      modifies this
      ensures recommendations == Personalized(hour) && !isLoading
    {
      isLoading := true;
      recommendations := SelectRecommendations(hour, BaseRecommendations());
      isLoading := false;
    }

    /** `completeRecommendation` */
    method Complete(id: string)
      modifies this`recommendations
      ensures recommendations == RemoveId(old(recommendations), id)
    {
      recommendations := RemoveId(recommendations, id);
    }

    /** `addCustomRecommendation` with the clock passed in. */
    method AddCustom(title: string, description: string, kind: RecType, now: nat)
      modifies this`recommendations
      ensures recommendations == [CustomRecommendation(title, description, kind, now)] + old(recommendations)
    {
      recommendations := [CustomRecommendation(title, description, kind, now)] + recommendations;
    }
  }
}
