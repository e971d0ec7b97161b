/** Stable sorting by score and greedy class-aware non-maximum suppression. */
module Suppression {
  import opened Sequences
  import opened Geometry

  datatype Detection = Detection(box: BoundingBox, classId: int, score: real)

  datatype Outcome<+T> = Ok(value: T) | InvalidArgument

  function HasScore(v: real): Detection -> bool {
    (d: Detection) => d.score == v
  }

  function AtLeast(v: real): Detection -> bool {
    (d: Detection) => d.score >= v
  }

  function HasClass(c: int): Detection -> bool {
    (d: Detection) => d.classId == c
  }

  // ----- stable sort, strongest first

  ghost predicate Descending(s: seq<Detection>) {
    forall i, j :: 0 <= i < j < |s| ==> s[i].score >= s[j].score
  }

  /** `out` lists the elements of `s` by falling score and keeps the order of every group of ties. */
  ghost predicate IsStableSort(s: seq<Detection>, out: seq<Detection>) {
    && Descending(out)
    && forall v :: Filter(out, HasScore(v)) == Filter(s, HasScore(v))
  }

  function Insert(s: seq<Detection>, d: Detection): seq<Detection> {
    if s == [] || Last(s).score >= d.score then s + [d]
    else Insert(Front(s), d) + [Last(s)]
  }

  function StableSort(s: seq<Detection>): seq<Detection> {
    if s == [] then [] else Insert(StableSort(Front(s)), Last(s))
  }

  lemma {:induction false} InsertMembers(s: seq<Detection>, d: Detection)
    ensures forall x :: x in Insert(s, d) <==> x in s || x == d
  {
    if s != [] && Last(s).score < d.score {
      InsertMembers(Front(s), d);
      assert s == Front(s) + [Last(s)];
    }
  }

  lemma {:induction false} InsertDescending(s: seq<Detection>, d: Detection)
    requires Descending(s)
    ensures Descending(Insert(s, d))
  {
    if s != [] && Last(s).score < d.score {
      InsertDescending(Front(s), d);
      InsertMembers(Front(s), d);
      var r := Insert(Front(s), d);
      forall i | 0 <= i < |r| ensures r[i].score >= Last(s).score {
        assert r[i] in r;
      }
    }
  }

  lemma {:induction false} InsertKeepsTies(s: seq<Detection>, d: Detection, v: real)
    ensures Filter(Insert(s, d), HasScore(v)) == Filter(s + [d], HasScore(v))
  {
    var p := HasScore(v);
    if s != [] && Last(s).score < d.score {
      var f, x := Front(s), Last(s);
      InsertKeepsTies(f, d, v);
      FilterSnoc(Insert(f, d), x, p);
      FilterSnoc(f, d, p);
      FilterSnoc(f, x, p);
      FilterSnoc(s, d, p);
      assert s == f + [x];
    }
  }

  lemma {:induction false} StableSortIsStable(s: seq<Detection>)
    ensures IsStableSort(s, StableSort(s))
  {
    if s != [] {
      var f, x := Front(s), Last(s);
      StableSortIsStable(f);
      InsertDescending(StableSort(f), x);
      forall v ensures Filter(StableSort(s), HasScore(v)) == Filter(s, HasScore(v)) {
        InsertKeepsTies(StableSort(f), x, v);
        FilterSnoc(StableSort(f), x, HasScore(v));
      }
    }
  }

  lemma LastHasLeastScore(a: seq<Detection>, b: seq<Detection>)
    requires a != [] && b != [] && Descending(a) && Descending(b)
    requires forall v :: Filter(a, HasScore(v)) == Filter(b, HasScore(v))
    ensures Last(a).score >= Last(b).score
  {
    var v := Last(a).score;
    FilterMembers(a, HasScore(v));
    FilterMembers(b, HasScore(v));
    assert Last(a) in Filter(b, HasScore(v));
  }

  lemma FilterFront(s: seq<Detection>, p: Detection -> bool)
    requires s != []
    ensures Filter(Front(s), p) == if p(Last(s)) then Filter(s, p)[..|Filter(s, p)| - 1] else Filter(s, p)
  {
  }

  lemma LastIsTied(s: seq<Detection>)
    requires s != []
    ensures Filter(s, HasScore(Last(s).score)) != []
  {
  }

  /** A descending list is determined by its groups of ties. */
  lemma {:induction false} DescendingUnique(a: seq<Detection>, b: seq<Detection>)
    requires Descending(a) && Descending(b)
    requires forall v :: Filter(a, HasScore(v)) == Filter(b, HasScore(v))
    ensures a == b
    decreases |a|
  {
    if a == [] || b == [] {
      if a != [] {
        LastIsTied(a);
      }
      if b != [] {
        LastIsTied(b);
      }
    } else {
      LastHasLeastScore(a, b);
      LastHasLeastScore(b, a);
      var w := HasScore(Last(a).score);
      assert Last(a) == Last(Filter(a, w)) == Last(Filter(b, w)) == Last(b);
      forall v ensures Filter(Front(a), HasScore(v)) == Filter(Front(b), HasScore(v)) {
        FilterFront(a, HasScore(v));
        FilterFront(b, HasScore(v));
      }
      DescendingUnique(Front(a), Front(b));
      assert a == Front(a) + [Last(a)] && b == Front(b) + [Last(b)];
    }
  }

  /** The stable sort by score is the only list with the two properties that define it. */
  lemma StableSortUnique(s: seq<Detection>, out: seq<Detection>)
    ensures IsStableSort(s, out) <==> out == StableSort(s)
  {
    StableSortIsStable(s);
    if IsStableSort(s, out) {
      DescendingUnique(out, StableSort(s));
    }
  }

  lemma {:induction false} FilterDescending(s: seq<Detection>, p: Detection -> bool)
    requires Descending(s)
    ensures Descending(Filter(s, p))
  {
    if s != [] {
      FilterDescending(Front(s), p);
      FilterMembers(Front(s), p);
      var r := Filter(Front(s), p);
      forall i | 0 <= i < |r| ensures r[i].score >= Last(s).score {
        assert r[i] in r && r[i] in Front(s);
      }
    }
  }

  /** Stable sorting commutes with every filter. */
  lemma SortCommutesWithFilter(s: seq<Detection>, p: Detection -> bool)
    ensures StableSort(Filter(s, p)) == Filter(StableSort(s), p)
  {
    StableSortIsStable(s);
    FilterDescending(StableSort(s), p);
    forall v ensures Filter(Filter(StableSort(s), p), HasScore(v)) == Filter(Filter(s, p), HasScore(v)) {
      FilterCommutes(StableSort(s), p, HasScore(v));
      FilterCommutes(s, p, HasScore(v));
    }
    StableSortUnique(Filter(s, p), Filter(StableSort(s), p));
  }

  lemma SortOfDescending(s: seq<Detection>)
    requires Descending(s)
    ensures StableSort(s) == s
  {
    StableSortUnique(s, s);
  }

  // ----- greedy suppression

  predicate Suppresses(accepted: Detection, candidate: Detection, threshold: real) {
    && candidate.classId == accepted.classId
    && IntersectionOverUnion(candidate.box, accepted.box) > threshold
  }

  predicate Suppressed(kept: seq<Detection>, candidate: Detection, threshold: real) {
    exists i :: 0 <= i < |kept| && Suppresses(kept[i], candidate, threshold)
  }

  function Greedy(sorted: seq<Detection>, threshold: real): seq<Detection> {
    if sorted == [] then []
    else
      var kept := Greedy(Front(sorted), threshold);
      if Suppressed(kept, Last(sorted), threshold) then kept else kept + [Last(sorted)]
  }

  function Nms(detections: seq<Detection>, threshold: real): seq<Detection> {
    Greedy(StableSort(detections), threshold)
  }

  predicate ValidThreshold(t: real) {
    0.0 <= t <= 1.0
  }

  method ApplyNms(detections: seq<Detection>, overlapThreshold: real) returns (r: Outcome<seq<Detection>>)
    ensures r == if 0.0 <= overlapThreshold <= 1.0 then Ok(Nms(detections, overlapThreshold)) else InvalidArgument
    ensures r.Ok? ==> Descending(r.value) && forall d :: d in r.value ==> d in detections
    ensures r.Ok? ==> forall i, j :: 0 <= i < j < |r.value| && r.value[i].classId == r.value[j].classId ==>
                        IntersectionOverUnion(r.value[j].box, r.value[i].box) <= overlapThreshold
    ensures r.Ok? ==> forall d :: d in detections && d !in r.value ==>
                        exists i :: 0 <= i < |r.value| && r.value[i].classId == d.classId
                                    && r.value[i].score >= d.score
                                    && IntersectionOverUnion(d.box, r.value[i].box) > overlapThreshold
  {
    hide IntersectionOverUnion;
    if overlapThreshold < 0.0 || overlapThreshold > 1.0 {
      return InvalidArgument;
    }
    var sorted := StableSort(detections);
    var kept: seq<Detection> := [];
    for i := 0 to |sorted|
      invariant kept == Greedy(sorted[..i], overlapThreshold)
    {
      var candidate := sorted[i];
      var shouldSuppress := false;
      var k := 0;
      while k < |kept| && !shouldSuppress
        invariant 0 <= k <= |kept|
        invariant shouldSuppress <==> exists j :: 0 <= j < k && Suppresses(kept[j], candidate, overlapThreshold)
      {
        shouldSuppress := Suppresses(kept[k], candidate, overlapThreshold);
        k := k + 1;
      }
      assert Front(sorted[..i + 1]) == sorted[..i];
      if !shouldSuppress {
        kept := kept + [candidate];
      }
    }
    assert sorted[..|sorted|] == sorted;
    NmsSeparatesAndCovers(detections, overlapThreshold);
    r := Ok(kept);
  }

  // ----- the greedy result is the unique kernel

  /** The elements of `s` at the positions marked in `mask`. */
  ghost function Select(s: seq<Detection>, mask: seq<bool>): seq<Detection>
    requires |mask| == |s|
  {
    if s == [] then []
    else if Last(mask) then Select(Front(s), Front(mask)) + [Last(s)]
    else Select(Front(s), Front(mask))
  }

  /** No marked box overlaps another marked box of its class above the threshold ... */
  ghost predicate Independent(s: seq<Detection>, mask: seq<bool>, t: real)
    requires |mask| == |s|
  {
    forall i, j :: 0 <= i < j < |s| && mask[i] && mask[j] && s[i].classId == s[j].classId ==>
      IntersectionOverUnion(s[j].box, s[i].box) <= t
  }

  /** ... and every unmarked box overlaps an earlier marked box of its class above the threshold. */
  ghost predicate Dominating(s: seq<Detection>, mask: seq<bool>, t: real)
    requires |mask| == |s|
  {
    forall j :: 0 <= j < |s| && !mask[j] ==>
      exists i :: 0 <= i < j && mask[i] && s[i].classId == s[j].classId
                  && IntersectionOverUnion(s[j].box, s[i].box) > t
  }

  ghost predicate Kernel(s: seq<Detection>, mask: seq<bool>, t: real) {
    |mask| == |s| && Independent(s, mask, t) && Dominating(s, mask, t)
  }

  /** The positions the greedy loop keeps. */
  ghost function GreedyMask(s: seq<Detection>, t: real): (mask: seq<bool>)
    ensures |mask| == |s|
  {
    if s == [] then []
    else GreedyMask(Front(s), t) + [!Suppressed(Greedy(Front(s), t), Last(s), t)]
  }

  lemma {:induction false} SelectMembers(s: seq<Detection>, mask: seq<bool>)
    requires |mask| == |s|
    ensures forall d :: d in Select(s, mask) <==> exists i :: 0 <= i < |s| && mask[i] && s[i] == d
  {
    if s != [] {
      SelectMembers(Front(s), Front(mask));
      assert forall i :: 0 <= i < |s| - 1 ==> s[i] == Front(s)[i] && mask[i] == Front(mask)[i];
    }
  }

  lemma {:induction false} GreedySelects(s: seq<Detection>, t: real)
    ensures Greedy(s, t) == Select(s, GreedyMask(s, t))
  {
    if s != [] {
      GreedySelects(Front(s), t);
    }
  }

  lemma SuppressedByMarked(s: seq<Detection>, mask: seq<bool>, d: Detection, t: real)
    requires |mask| == |s|
    ensures Suppressed(Select(s, mask), d, t)
            <==> exists i :: 0 <= i < |s| && mask[i] && Suppresses(s[i], d, t)
  {
    SelectMembers(s, mask);
    var kept := Select(s, mask);
    if i :| 0 <= i < |s| && mask[i] && Suppresses(s[i], d, t) {
      assert s[i] in kept;
      var k :| 0 <= k < |kept| && kept[k] == s[i];
    }
    if k :| 0 <= k < |kept| && Suppresses(kept[k], d, t) {
      assert kept[k] in kept;
    }
  }

  lemma KernelSnoc(s: seq<Detection>, mask: seq<bool>, d: Detection, keep: bool, t: real)
    requires Kernel(s, mask, t)
    requires keep <==> !exists i :: 0 <= i < |s| && mask[i] && Suppresses(s[i], d, t)
    ensures Kernel(s + [d], mask + [keep], t)
  {
    hide IntersectionOverUnion;
    var s', mask' := s + [d], mask + [keep];
    if !keep {
      var i :| 0 <= i < |s| && mask[i] && Suppresses(s[i], d, t);
      assert mask'[i] && s'[i] == s[i];
    }
    forall j | 0 <= j < |s| && !mask'[j]
      ensures exists i :: 0 <= i < j && mask'[i] && s'[i].classId == s'[j].classId
                          && IntersectionOverUnion(s'[j].box, s'[i].box) > t
    {
      assert !mask[j];
      var i :| 0 <= i < j && mask[i] && s[i].classId == s[j].classId
               && IntersectionOverUnion(s[j].box, s[i].box) > t;
      assert mask'[i] && s'[i] == s[i] && s'[j] == s[j];
    }
    forall i | 0 <= i < |s| && mask'[i] && keep && s[i].classId == d.classId
      ensures IntersectionOverUnion(d.box, s[i].box) <= t
    {
      assert !Suppresses(s[i], d, t);
    }
  }

  lemma {:induction false} GreedyMaskIsKernel(s: seq<Detection>, t: real)
    ensures Kernel(s, GreedyMask(s, t), t)
  {
    if s != [] {
      hide Kernel, Suppresses;
      var f, m := Front(s), GreedyMask(Front(s), t);
      GreedyMaskIsKernel(f, t);
      GreedySelects(f, t);
      SuppressedByMarked(f, m, Last(s), t);
      KernelSnoc(f, m, Last(s), Last(GreedyMask(s, t)), t);
      assert s == f + [Last(s)];
    }
  }

  lemma {:induction false} KernelsAgree(s: seq<Detection>, m: seq<bool>, n: seq<bool>, t: real, k: nat)
    requires Kernel(s, m, t) && Kernel(s, n, t) && k <= |s|
    ensures forall i :: 0 <= i < k ==> m[i] == n[i]
  {
    if k > 0 {
      hide Suppresses;
      KernelsAgree(s, m, n, t, k - 1);
    }
  }

  /** Greedy suppression selects the one and only kernel of its input. */
  lemma GreedyIsUniqueKernel(s: seq<Detection>, t: real, mask: seq<bool>)
    ensures Kernel(s, mask, t) <==> mask == GreedyMask(s, t)
    ensures Kernel(s, mask, t) ==> Select(s, mask) == Greedy(s, t)
  {
    GreedyMaskIsKernel(s, t);
    GreedySelects(s, t);
    if Kernel(s, mask, t) {
      KernelsAgree(s, mask, GreedyMask(s, t), t, |s|);
      assert mask == GreedyMask(s, t);
    }
  }

  /** Any stable sort and any kernel of it give the result: nothing else about the algorithm matters. */
  lemma NmsCharacterised(detections: seq<Detection>, t: real, sorted: seq<Detection>, mask: seq<bool>)
    ensures IsStableSort(detections, sorted) && Kernel(sorted, mask, t)
            ==> Select(sorted, mask) == Nms(detections, t)
    ensures exists o, m :: IsStableSort(detections, o) && Kernel(o, m, t)
  {
    hide Kernel;
    StableSortUnique(detections, sorted);
    GreedyIsUniqueKernel(sorted, t, mask);
    var o := StableSort(detections);
    StableSortIsStable(detections);
    GreedyMaskIsKernel(o, t);
    assert IsStableSort(detections, o) && Kernel(o, GreedyMask(o, t), t);
  }

  // ----- what a caller can rely on

  lemma StableSortMembers(s: seq<Detection>)
    ensures forall x :: x in StableSort(s) <==> x in s
  {
    StableSortIsStable(s);
    forall x ensures x in StableSort(s) <==> x in s {
      FilterMembers(s, HasScore(x.score));
      FilterMembers(StableSort(s), HasScore(x.score));
    }
  }

  /** Two boxes of a class overlap by at most the threshold. */
  ghost predicate Separate(kept: seq<Detection>, t: real) {
    forall i, j :: 0 <= i < j < |kept| && kept[i].classId == kept[j].classId ==>
      IntersectionOverUnion(kept[j].box, kept[i].box) <= t
  }

  lemma SeparateSnoc(kept: seq<Detection>, d: Detection, t: real)
    requires Separate(kept, t) && !Suppressed(kept, d, t)
    ensures Separate(kept + [d], t)
  {
    hide IntersectionOverUnion;
    forall i | 0 <= i < |kept| && kept[i].classId == d.classId
      ensures IntersectionOverUnion(d.box, kept[i].box) <= t
    {
      assert !Suppresses(kept[i], d, t);
    }
  }

  lemma {:induction false} GreedySeparates(s: seq<Detection>, t: real)
    ensures Separate(Greedy(s, t), t)
  {
    if s != [] {
      hide Suppressed, Separate;
      GreedySeparates(Front(s), t);
      if !Suppressed(Greedy(Front(s), t), Last(s), t) {
        SeparateSnoc(Greedy(Front(s), t), Last(s), t);
      }
    } else {
      assert Greedy(s, t) == [];
    }
  }

  lemma {:induction false} GreedyCovers(s: seq<Detection>, t: real, d: Detection)
    requires Descending(s) && d in s
    ensures var kept := Greedy(s, t);
            d in kept || exists i :: 0 <= i < |kept| && kept[i].classId == d.classId && kept[i].score >= d.score
                                     && IntersectionOverUnion(d.box, kept[i].box) > t
  {
    hide IntersectionOverUnion;
    var f, x := Front(s), Last(s);
    var kept := Greedy(f, t);
    assert s == f + [x];
    GreedyMembers(f, t);
    if d in f {
      GreedyCovers(f, t, d);
      if i :| 0 <= i < |kept| && kept[i].classId == d.classId && kept[i].score >= d.score
              && IntersectionOverUnion(d.box, kept[i].box) > t {
        assert Greedy(s, t)[i] == kept[i];
      }
    } else if Suppressed(kept, x, t) {
      var i :| 0 <= i < |kept| && Suppresses(kept[i], x, t);
      assert kept[i] in f;
    }
  }

  /**
   The kept boxes are candidates by falling score; two of a class overlap by at most the threshold; and whatever was
   dropped overlaps a kept box of its class, at least as strong, by more than the threshold.
   */
  lemma NmsSeparatesAndCovers(detections: seq<Detection>, t: real)
    ensures var kept := Nms(detections, t);
            && Descending(kept)
            && (forall d :: d in kept ==> d in detections)
            && (forall i, j :: 0 <= i < j < |kept| && kept[i].classId == kept[j].classId ==>
                  IntersectionOverUnion(kept[j].box, kept[i].box) <= t)
            && (forall d :: d in detections && d !in kept ==>
                  exists i :: 0 <= i < |kept| && kept[i].classId == d.classId && kept[i].score >= d.score
                              && IntersectionOverUnion(d.box, kept[i].box) > t)
  {
    hide IntersectionOverUnion;
    var sorted := StableSort(detections);
    StableSortIsStable(detections);
    StableSortMembers(detections);
    GreedyMembers(sorted, t);
    GreedyDescending(sorted, t);
    GreedySeparates(sorted, t);
    forall d | d in detections && d !in Nms(detections, t)
      ensures var kept := Nms(detections, t);
              exists i :: 0 <= i < |kept| && kept[i].classId == d.classId && kept[i].score >= d.score
                          && IntersectionOverUnion(d.box, kept[i].box) > t
    {
      GreedyCovers(sorted, t, d);
    }
  }

  // ----- algebra of the result

  lemma {:induction false} GreedyMembers(s: seq<Detection>, t: real)
    ensures forall d :: d in Greedy(s, t) ==> d in s
  {
    if s != [] {
      GreedyMembers(Front(s), t);
      assert s == Front(s) + [Last(s)];
    }
  }

  lemma {:induction false} GreedyDescending(s: seq<Detection>, t: real)
    requires Descending(s)
    ensures Descending(Greedy(s, t))
  {
    if s != [] {
      GreedyDescending(Front(s), t);
      GreedyMembers(Front(s), t);
      var r := Greedy(Front(s), t);
      forall i | 0 <= i < |r| ensures r[i].score >= Last(s).score {
        assert r[i] in r && r[i] in Front(s);
      }
    }
  }

  lemma {:induction false} GreedyIdempotent(s: seq<Detection>, t: real)
    ensures Greedy(Greedy(s, t), t) == Greedy(s, t)
  {
    if s != [] {
      GreedyIdempotent(Front(s), t);
      var kept := Greedy(Front(s), t);
      if !Suppressed(kept, Last(s), t) {
        assert Front(kept + [Last(s)]) == kept;
      }
    }
  }

  /** Suppressing twice changes nothing. */
  lemma NmsIdempotent(s: seq<Detection>, t: real)
    ensures Nms(Nms(s, t), t) == Nms(s, t)
  {
    StableSortIsStable(s);
    GreedyDescending(StableSort(s), t);
    SortOfDescending(Nms(s, t));
    GreedyIdempotent(StableSort(s), t);
  }

  lemma SuppressedWithinClass(kept: seq<Detection>, d: Detection, t: real)
    ensures Suppressed(kept, d, t) <==> Suppressed(Filter(kept, HasClass(d.classId)), d, t)
  {
    var same := Filter(kept, HasClass(d.classId));
    FilterMembers(kept, HasClass(d.classId));
    if i :| 0 <= i < |kept| && Suppresses(kept[i], d, t) {
      assert kept[i] in same;
      var k :| 0 <= k < |same| && same[k] == kept[i];
    }
    if k :| 0 <= k < |same| && Suppresses(same[k], d, t) {
      assert same[k] in kept;
      var i :| 0 <= i < |kept| && kept[i] == same[k];
    }
  }

  lemma GreedySnoc(s: seq<Detection>, d: Detection, t: real)
    ensures Greedy(s + [d], t)
            == if Suppressed(Greedy(s, t), d, t) then Greedy(s, t) else Greedy(s, t) + [d]
  {
    assert Front(s + [d]) == s;
  }

  lemma {:induction false} GreedyPerClass(s: seq<Detection>, t: real, c: int)
    ensures Filter(Greedy(s, t), HasClass(c)) == Greedy(Filter(s, HasClass(c)), t)
  {
    if s != [] {
      hide Suppressed, Greedy;
      var f, x, p := Front(s), Last(s), HasClass(c);
      assert s == f + [x];
      GreedyPerClass(f, t, c);
      GreedySnoc(f, x, t);
      FilterSnoc(f, x, p);
      FilterSnoc(Greedy(f, t), x, p);
      if p(x) {
        SuppressedWithinClass(Greedy(f, t), x, t);
        GreedySnoc(Filter(f, p), x, t);
      }
    } else {
      assert Greedy([], t) == [];
    }
  }

  /** Each class is treated as if the other classes were absent. */
  lemma NmsPerClass(s: seq<Detection>, t: real, c: int)
    ensures Filter(Nms(s, t), HasClass(c)) == Nms(Filter(s, HasClass(c)), t)
  {
    SortCommutesWithFilter(s, HasClass(c));
    GreedyPerClass(StableSort(s), t, c);
  }

  /** Only the relative order of equal scores can influence the result. */
  lemma NmsDependsOnTieOrderOnly(a: seq<Detection>, b: seq<Detection>, t: real)
    requires forall v :: Filter(a, HasScore(v)) == Filter(b, HasScore(v))
    ensures Nms(a, t) == Nms(b, t)
  {
    StableSortIsStable(a);
    StableSortUnique(b, StableSort(a));
  }

  ghost predicate DistinctScores(s: seq<Detection>) {
    forall i, j :: 0 <= i < j < |s| ==> s[i].score != s[j].score
  }

  lemma {:induction false} TiesOfDistinct(s: seq<Detection>, v: real)
    requires DistinctScores(s)
    ensures |Filter(s, HasScore(v))| <= 1
  {
    if s != [] {
      TiesOfDistinct(Front(s), v);
      FilterMembers(Front(s), HasScore(v));
      if Filter(Front(s), HasScore(v)) != [] {
        var d := Filter(Front(s), HasScore(v))[0];
        assert d in Front(s);
      }
    }
  }

  lemma {:induction false} FilterMultiset(s: seq<Detection>, p: Detection -> bool)
    ensures forall d :: multiset(Filter(s, p))[d] == if p(d) then multiset(s)[d] else 0
  {
    if s != [] {
      FilterMultiset(Front(s), p);
      assert s == Front(s) + [Last(s)];
    }
  }

  lemma ShortPermutation(x: seq<Detection>, y: seq<Detection>)
    requires |x| <= 1 && multiset(x) == multiset(y)
    ensures x == y
  {
    assert |x| == |multiset(x)| == |multiset(y)| == |y|;
    if x != [] {
      assert x == [x[0]] && y == [y[0]] && y[0] in multiset(x);
    }
  }

  lemma TiesOfPermutation(a: seq<Detection>, b: seq<Detection>, v: real)
    requires multiset(a) == multiset(b) && DistinctScores(a)
    ensures Filter(a, HasScore(v)) == Filter(b, HasScore(v))
  {
    TiesOfDistinct(a, v);
    FilterMultiset(a, HasScore(v));
    FilterMultiset(b, HasScore(v));
    ShortPermutation(Filter(a, HasScore(v)), Filter(b, HasScore(v)));
  }

  /** With pairwise distinct scores the order of the candidates is irrelevant. */
  lemma NmsPermutationInvariant(a: seq<Detection>, b: seq<Detection>, t: real)
    requires multiset(a) == multiset(b) && DistinctScores(a)
    ensures Nms(a, t) == Nms(b, t)
  {
    forall v ensures Filter(a, HasScore(v)) == Filter(b, HasScore(v)) {
      TiesOfPermutation(a, b, v);
    }
    NmsDependsOnTieOrderOnly(a, b, t);
  }

  lemma {:induction false} GreedyAtLeast(s: seq<Detection>, t: real, v: real)
    requires Descending(s)
    ensures Filter(Greedy(s, t), AtLeast(v)) == Greedy(Filter(s, AtLeast(v)), t)
  {
    if s != [] {
      hide Suppressed, Greedy;
      var f, x, p := Front(s), Last(s), AtLeast(v);
      assert s == f + [x];
      if p(x) {
        GreedyMembers(s, t);
        FilterAll(s, p);
        FilterAll(Greedy(s, t), p);
      } else {
        GreedyAtLeast(f, t, v);
        GreedySnoc(f, x, t);
        FilterSnoc(f, x, p);
        FilterSnoc(Greedy(f, t), x, p);
      }
    } else {
      assert Greedy([], t) == [];
    }
  }

  /** Discarding weak candidates before or after suppression gives the same result. */
  lemma NmsCommutesWithScoreThreshold(s: seq<Detection>, t: real, v: real)
    ensures Filter(Nms(s, t), AtLeast(v)) == Nms(Filter(s, AtLeast(v)), t)
  {
    SortCommutesWithFilter(s, AtLeast(v));
    StableSortIsStable(s);
    GreedyAtLeast(StableSort(s), t, v);
  }

  // ----- change of image scale

  function ScaleDetection(k: real): Detection -> Detection {
    (d: Detection) => d.(box := d.box.Scale(k))
  }

  lemma StableSortScales(s: seq<Detection>, k: real)
    ensures StableSort(Map(s, ScaleDetection(k))) == Map(StableSort(s), ScaleDetection(k))
  {
    var f := ScaleDetection(k);
    StableSortIsStable(s);
    forall v ensures Filter(Map(StableSort(s), f), HasScore(v)) == Filter(Map(s, f), HasScore(v)) {
      FilterMap(StableSort(s), f, HasScore(v));
      FilterMap(s, f, HasScore(v));
    }
    StableSortUnique(Map(s, f), Map(StableSort(s), f));
  }

  lemma {:induction false} GreedyScales(s: seq<Detection>, t: real, k: real)
    requires k > 0.0
    ensures Greedy(Map(s, ScaleDetection(k)), t) == Map(Greedy(s, t), ScaleDetection(k))
  {
    if s != [] {
      var f := ScaleDetection(k);
      GreedyScales(Front(s), t, k);
      assert Front(Map(s, f)) == Map(Front(s), f);
      var kept := Greedy(Front(s), t);
      forall i | 0 <= i < |kept|
        ensures Suppresses(Map(kept, f)[i], f(Last(s)), t) == Suppresses(kept[i], Last(s), t)
      {
        IouScaleInvariant(Last(s).box, kept[i].box, k);
      }
    }
  }

  lemma NmsScales(s: seq<Detection>, t: real, k: real)
    requires k > 0.0
    ensures Nms(Map(s, ScaleDetection(k)), t) == Map(Nms(s, t), ScaleDetection(k))
  {
    StableSortScales(s, k);
    GreedyScales(StableSort(s), t, k);
  }
}
