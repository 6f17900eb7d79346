// Choosing the one gap to claim from a gaps.list reply.
module GapSelection {
  import opened Json
  import opened Text

  /** What the caller looks for; `dump` is the lower-cased JSON text of a gap with sorted keys. */
  datatype Query = Query(repoName: string, storyId: string, capabilityId: string, dump: Json -> string)

  /** The five tests behind a gap's score, the heaviest first. */
  datatype Profile = Profile(story: bool, capability: bool, repo: bool, sdk: bool, status: bool)

  datatype Selection = NoMatch | Chosen(gapId: string) | NoneClaimable | Tied

  function GapIdOf(gap: Json): string {
    FirstString([Get(gap, "gap_id"), Get(gap, "id")])
  }

  /** Every object, at any depth, whose id is canonical; parents come before their children. */
  function GapObjects(value: Json): seq<Json>
    decreases value, 1
  {
    match value
    case Obj(fields) =>
      (if StartsWith(GapIdOf(value), "gap_") then [value] else []) + GapsOfMembers(value, fields)
    case Arr(items) => GapsOfItems(value, items)
    case _ => []
  }

  function GapsOfMembers(value: Json, fields: seq<(string, Json)>): seq<Json>
    requires value.Obj? && forall i :: 0 <= i < |fields| ==> fields[i] in value.fields
    decreases value, 0, |fields|
  {
    if fields == [] then []
    else assert fields[0] in value.fields; GapObjects(fields[0].1) + GapsOfMembers(value, fields[1..])
  }

  function GapsOfItems(value: Json, items: seq<Json>): seq<Json>
    requires value.Arr? && forall i :: 0 <= i < |items| ==> items[i] in value.items
    decreases value, 0, |items|
  {
    if items == [] then []
    else GapObjects(items[0]) + GapsOfItems(value, items[1..])
  }

  predicate IsTrueLike(value: Json) {
    match value
    case Bool(b) => b
    case Str(s) => Lower(Trim(s)) in ["1", "true", "yes", "y"]
    case _ => false
  }

  predicate IsFalseLike(value: Json) {
    match value
    case Bool(b) => !b
    case Str(s) => Lower(Trim(s)) in ["0", "false", "no", "n"]
    case _ => false
  }

  predicate HasBlockedReasons(gap: Json) {
    match Get(gap, "blocked_reasons")
    case Arr(items) => exists i :: 0 <= i < |items| && Truthy(items[i])
    case Obj(fields) => fields != []
    case Str(s) => Trim(s) != ""
    case _ => false
  }

  /** `str(gap.get("status") or gap.get("state") or "").lower()`; a value that is not a string never
      reads like one of the status words, so it counts as "". */
  function StatusOf(gap: Json): string {
    var status := Get(gap, "status");
    Lower(AsText(if Truthy(status) then status else Get(gap, "state")))
  }

  predicate IsClaimable(gap: Json) {
    && !IsTrueLike(Get(gap, "blocked"))
    && !HasBlockedReasons(gap)
    && (|| IsTrueLike(Get(gap, "claimable"))
        || (&& !IsFalseLike(Get(gap, "claimable"))
            && StatusOf(gap) !in ["archived", "blocked", "cancelled", "canceled", "closed", "done", "rejected",
                                  "resolved", "stale"]
            && StatusOf(gap) in ["open", "claimable", "actionable"]))
  }

  function ProfileOf(q: Query, gap: Json): Profile {
    var text := q.dump(gap);
    Profile(
      q.storyId != "" && Contains(text, Lower(q.storyId)),
      q.capabilityId != "" && Contains(text, Lower(q.capabilityId)),
      Contains(text, Lower(q.repoName)),
      Contains(text, "sdk-v1"),
      StatusOf(gap) in ["open", "claimable", "actionable", "claimed"])
  }

  function Weigh(p: Profile): nat {
    (if p.story then 100 else 0) + (if p.capability then 40 else 0) + (if p.repo then 20 else 0)
    + (if p.sdk then 10 else 0) + (if p.status then 5 else 0)
  }

  function Score(q: Query, gap: Json): nat {
    Weigh(ProfileOf(q, gap))
  }

  /** Stable insertion, higher scores first. */
  function InsertRanked(q: Query, gap: Json, ranked: seq<Json>): seq<Json> {
    if ranked == [] || Score(q, ranked[0]) <= Score(q, gap) then [gap] + ranked
    else [ranked[0]] + InsertRanked(q, gap, ranked[1..])
  }

  /** `sorted(gaps, key=score, reverse=True)`: equal scores keep their order. */
  function Rank(q: Query, gaps: seq<Json>): seq<Json> {
    if gaps == [] then [] else InsertRanked(q, gaps[0], Rank(q, gaps[1..]))
  }

  function Filter(keep: Json -> bool, gaps: seq<Json>): seq<Json> {
    if gaps == [] then []
    else (if keep(gaps[0]) then [gaps[0]] else []) + Filter(keep, gaps[1..])
  }

  /** Gaps that match at all, best first. */
  function Matching(q: Query, gaps: seq<Json>): seq<Json> {
    Filter(gap => Score(q, gap) > 0, Rank(q, gaps))
  }

  /** The matching gaps that can be claimed, best first. */
  function Candidates(q: Query, gaps: seq<Json>): seq<Json> {
    Filter(IsClaimable, Matching(q, gaps))
  }

  /** The candidates that share the best score. */
  function TopCandidates(q: Query, gaps: seq<Json>): seq<Json>
    requires Candidates(q, gaps) != []
  {
    var best := Candidates(q, gaps)[0];
    Filter(gap => Score(q, gap) == Score(q, best), Candidates(q, gaps))
  }

  function SelectFrom(q: Query, gaps: seq<Json>): Selection {
    if Matching(q, gaps) == [] then NoMatch
    else if Candidates(q, gaps) == [] then NoneClaimable
    else if |TopCandidates(q, gaps)| > 1 then Tied
    else Chosen(GapIdOf(Candidates(q, gaps)[0]))
  }

  function SelectGap(q: Query, data: Json): Selection {
    SelectFrom(q, GapObjects(data))
  }

  // ---- What the selection means ----

  /** Lexicographic order on profiles, the story first. */
  predicate LexLess(p: Profile, r: Profile) {
    if p.story != r.story then r.story
    else if p.capability != r.capability then r.capability
    else if p.repo != r.repo then r.repo
    else if p.sdk != r.sdk then r.sdk
    else !p.status && r.status
  }

  /** The weights are superdecreasing: adding them up compares profiles lexicographically. */
  lemma WeightsAreLexicographic(p: Profile, r: Profile)
    ensures Weigh(p) < Weigh(r) <==> LexLess(p, r)
    ensures Weigh(p) == Weigh(r) <==> p == r
  {
  }

  /** A gap that may be chosen: something about it matches and it can be claimed. */
  predicate Eligible(q: Query, gap: Json) {
    ProfileOf(q, gap) != Profile(false, false, false, false, false) && IsClaimable(gap)
  }

  /** Position i holds an eligible gap whose profile no eligible gap exceeds. */
  ghost predicate IsTop(q: Query, gaps: seq<Json>, i: nat) {
    && i < |gaps| && Eligible(q, gaps[i])
    && forall j {:trigger gaps[j]} :: 0 <= j < |gaps| && Eligible(q, gaps[j]) ==>
         !LexLess(ProfileOf(q, gaps[i]), ProfileOf(q, gaps[j]))
  }

  ghost predicate TwoAtTop(q: Query, gaps: seq<Json>) {
    exists i: nat, j: nat :: i < j && IsTop(q, gaps, i) && IsTop(q, gaps, j)
  }

  ghost predicate OneAtTop(q: Query, gaps: seq<Json>) {
    exists i: nat :: IsTop(q, gaps, i) && forall j: nat :: IsTop(q, gaps, j) ==> j == i
  }

  lemma {:induction false} FilterCounts(keep: Json -> bool, gaps: seq<Json>, gap: Json)
    ensures multiset(Filter(keep, gaps))[gap] == if keep(gap) then multiset(gaps)[gap] else 0
  {
    if gaps != [] {
      FilterCounts(keep, gaps[1..], gap);
      assert gaps == [gaps[0]] + gaps[1..];
    }
  }

  /** Scores never rise along the sequence. */
  ghost predicate Falling(q: Query, gaps: seq<Json>) {
    gaps != [] ==> (forall gap :: gap in gaps ==> Score(q, gap) <= Score(q, gaps[0])) && Falling(q, gaps[1..])
  }

  lemma {:induction false} InsertAdds(q: Query, gap: Json, ranked: seq<Json>)
    ensures multiset(InsertRanked(q, gap, ranked)) == multiset(ranked) + multiset{gap}
  {
    hide Score;
    if ranked != [] && !(Score(q, ranked[0]) <= Score(q, gap)) {
      InsertAdds(q, gap, ranked[1..]);
      assert ranked == [ranked[0]] + ranked[1..];
    }
  }

  lemma {:induction false} InsertMembers(q: Query, gap: Json, ranked: seq<Json>)
    ensures forall x :: x in InsertRanked(q, gap, ranked) <==> x == gap || x in ranked
  {
    hide Score;
    if ranked != [] && !(Score(q, ranked[0]) <= Score(q, gap)) {
      InsertMembers(q, gap, ranked[1..]);
      assert ranked == [ranked[0]] + ranked[1..];
    }
  }

  lemma {:induction false} InsertKeepsRanking(q: Query, gap: Json, ranked: seq<Json>)
    requires Falling(q, ranked)
    ensures Falling(q, InsertRanked(q, gap, ranked))
  {
    hide Score;
    var r := InsertRanked(q, gap, ranked);
    InsertMembers(q, gap, ranked);
    if ranked == [] || Score(q, ranked[0]) <= Score(q, gap) {
      assert r[1..] == ranked;
    } else {
      InsertKeepsRanking(q, gap, ranked[1..]);
      assert r[1..] == InsertRanked(q, gap, ranked[1..]);
    }
  }

  /** Ranking reorders the gaps by falling score and neither adds nor drops one. */
  lemma {:induction false} RankSorts(q: Query, gaps: seq<Json>)
    ensures multiset(Rank(q, gaps)) == multiset(gaps)
    ensures Falling(q, Rank(q, gaps))
  {
    if gaps != [] {
      hide Falling, Score, InsertRanked;
      RankSorts(q, gaps[1..]);
      InsertAdds(q, gaps[0], Rank(q, gaps[1..]));
      InsertKeepsRanking(q, gaps[0], Rank(q, gaps[1..]));
      assert gaps == [gaps[0]] + gaps[1..];
    }
  }

  lemma {:induction false} FilterKeepsRanking(q: Query, keep: Json -> bool, ranked: seq<Json>)
    requires Falling(q, ranked)
    ensures Falling(q, Filter(keep, ranked))
    ensures forall x :: x in Filter(keep, ranked) ==> x in ranked
  {
    hide Score;
    if ranked != [] {
      var rest := Filter(keep, ranked[1..]);
      FilterKeepsRanking(q, keep, ranked[1..]);
      if keep(ranked[0]) {
        assert Filter(keep, ranked)[1..] == rest;
      } else {
        assert Filter(keep, ranked) == rest;
      }
    }
  }

  lemma CandidatesAreEligible(q: Query, gaps: seq<Json>)
    ensures Falling(q, Candidates(q, gaps))
    ensures forall gap :: multiset(Candidates(q, gaps))[gap] == if Eligible(q, gap) then multiset(gaps)[gap] else 0
  {
    var matching := Matching(q, gaps);
    RankSorts(q, gaps);
    FilterKeepsRanking(q, gap => Score(q, gap) > 0, Rank(q, gaps));
    FilterKeepsRanking(q, IsClaimable, matching);
    forall gap
      ensures multiset(Candidates(q, gaps))[gap] == if Eligible(q, gap) then multiset(gaps)[gap] else 0
    {
      FilterCounts(gap => Score(q, gap) > 0, Rank(q, gaps), gap);
      FilterCounts(IsClaimable, matching, gap);
      WeightsAreLexicographic(Profile(false, false, false, false, false), ProfileOf(q, gap));
    }
  }

  lemma TwoPlaces<T>(s: seq<T>, i: nat, j: nat)
    requires i < j < |s| && s[i] == s[j]
    ensures multiset(s)[s[i]] >= 2
  {
    assert s == s[..j] + s[j..];
    assert s[i] in s[..j] && s[j] in s[j..];
  }

  lemma CountedTwice<T>(s: seq<T>, x: T)
    requires multiset(s)[x] >= 2
    ensures exists i: nat, j: nat :: i < j < |s| && s[i] == x && s[j] == x
  {
    assert x in s;
    var i: nat :| i < |s| && s[i] == x;
    var before, after := s[..i], s[i + 1..];
    assert s == before + [x] + after;
    assert multiset(s) == multiset(before) + multiset{x} + multiset(after);
    if x in after {
      var j: nat :| j < |after| && after[j] == x;
      assert s[i + 1 + j] == x;
    } else {
      assert x in before;
      var j: nat :| j < i && before[j] == x;
      assert s[j] == x;
    }
  }

  /** A position is at the top exactly when its gap is among the top candidates, counted alike. */
  lemma TopCandidatesAreTop(q: Query, gaps: seq<Json>)
    requires Candidates(q, gaps) != []
    ensures Candidates(q, gaps)[0] in TopCandidates(q, gaps)
    ensures forall i: nat :: i < |gaps| ==> (IsTop(q, gaps, i) <==> gaps[i] in TopCandidates(q, gaps))
    ensures forall gap :: gap in TopCandidates(q, gaps) ==>
              gap in gaps && multiset(TopCandidates(q, gaps))[gap] == multiset(gaps)[gap]
  {
    var cand := Candidates(q, gaps);
    var best := cand[0];
    var top := TopCandidates(q, gaps);
    CandidatesAreEligible(q, gaps);
    hide Score, Candidates, Eligible;
    forall gap
      ensures multiset(top)[gap] == if Score(q, gap) == Score(q, best) then multiset(cand)[gap] else 0
    {
      FilterCounts(gap => Score(q, gap) == Score(q, best), cand, gap);
    }
    forall gap
      ensures gap in cand <==> gap in gaps && Eligible(q, gap)
      ensures gap in top <==> gap in cand && Score(q, gap) == Score(q, best)
    {
      assert gap in cand <==> multiset(cand)[gap] > 0;
      assert gap in gaps <==> multiset(gaps)[gap] > 0;
      assert gap in top <==> multiset(top)[gap] > 0;
    }
    var k: nat :| k < |gaps| && gaps[k] == best;
    forall i: nat | i < |gaps| ensures IsTop(q, gaps, i) <==> gaps[i] in top {
      TopMeansBestScore(q, gaps, k, i);
    }
  }

  /** Being at the top is having the best score among the eligible gaps. */
  lemma TopMeansBestScore(q: Query, gaps: seq<Json>, k: nat, i: nat)
    requires k < |gaps| && i < |gaps| && Eligible(q, gaps[k])
    requires forall gap :: gap in gaps && Eligible(q, gap) ==> Score(q, gap) <= Score(q, gaps[k])
    ensures IsTop(q, gaps, i) <==> Eligible(q, gaps[i]) && Score(q, gaps[i]) == Score(q, gaps[k])
  {
    forall a, b
      ensures LexLess(ProfileOf(q, a), ProfileOf(q, b)) <==> Score(q, a) < Score(q, b)
    {
      WeightsAreLexicographic(ProfileOf(q, a), ProfileOf(q, b));
    }
    hide ProfileOf, Weigh, LexLess, Eligible, Score;
    if Eligible(q, gaps[i]) && Score(q, gaps[i]) == Score(q, gaps[k]) {
      assert IsTop(q, gaps, i);
    }
  }

  /** The outcome in terms of the gaps alone. A chosen id belongs to the one eligible gap whose profile is
      lexicographically above every other; two eligible gaps at the top always mean an error. */
  lemma SelectionIsUniqueTop(q: Query, gaps: seq<Json>)
    ensures var s := SelectFrom(q, gaps);
            && (s.NoMatch? <==> forall gap :: gap in gaps ==> Score(q, gap) == 0)
            && (s.NoneClaimable? <==>
                (exists gap :: gap in gaps && Score(q, gap) > 0) && forall gap :: gap in gaps ==> !Eligible(q, gap))
            && (s.Tied? <==> TwoAtTop(q, gaps))
            && (s.Chosen? <==> OneAtTop(q, gaps))
            && (s.Chosen? ==> forall i: nat :: IsTop(q, gaps, i) ==> s.gapId == GapIdOf(gaps[i]))
  {
    hide Candidates, Matching, TopCandidates, IsTop, TwoAtTop, OneAtTop, Eligible, Score;
    MatchingIsNonEmpty(q, gaps);
    CandidatesOrNoTop(q, gaps);
    if Candidates(q, gaps) != [] {
      assert Candidates(q, gaps)[0] in Candidates(q, gaps);
      TopIsUniqueOrTied(q, gaps);
    }
  }

  lemma CandidatesOrNoTop(q: Query, gaps: seq<Json>)
    ensures Candidates(q, gaps) == [] ==>
              !TwoAtTop(q, gaps) && !OneAtTop(q, gaps) && forall i: nat :: !IsTop(q, gaps, i)
    ensures Candidates(q, gaps) == [] <==> forall gap :: gap in gaps ==> !Eligible(q, gap)
    ensures forall gap :: Eligible(q, gap) ==> Score(q, gap) > 0
  {
    CandidatesAreEligible(q, gaps);
    hide Candidates;
    forall gap ensures Eligible(q, gap) ==> Score(q, gap) > 0 {
      WeightsAreLexicographic(Profile(false, false, false, false, false), ProfileOf(q, gap));
    }
    hide Eligible, Score;
    forall gap ensures gap in Candidates(q, gaps) <==> gap in gaps && Eligible(q, gap) {
      assert gap in Candidates(q, gaps) <==> multiset(Candidates(q, gaps))[gap] > 0;
      assert gap in gaps <==> multiset(gaps)[gap] > 0;
    }
    if Candidates(q, gaps) != [] {
      assert Candidates(q, gaps)[0] in Candidates(q, gaps);
    }
  }

  lemma MatchingIsNonEmpty(q: Query, gaps: seq<Json>)
    ensures Matching(q, gaps) == [] <==> forall gap :: gap in gaps ==> Score(q, gap) == 0
  {
    var matching := Matching(q, gaps);
    RankSorts(q, gaps);
    hide Score, Rank;
    forall gap ensures gap in matching <==> gap in gaps && Score(q, gap) > 0 {
      FilterCounts(gap => Score(q, gap) > 0, Rank(q, gaps), gap);
      assert gap in matching <==> multiset(matching)[gap] > 0;
      assert gap in gaps <==> multiset(gaps)[gap] > 0;
    }
    if matching != [] {
      assert matching[0] in matching;
    }
  }

  lemma TopIsUniqueOrTied(q: Query, gaps: seq<Json>)
    requires Candidates(q, gaps) != []
    ensures var top := TopCandidates(q, gaps);
            && (|top| > 1 <==> TwoAtTop(q, gaps)) && (|top| <= 1 <==> OneAtTop(q, gaps))
            && (|top| <= 1 ==> forall i: nat :: IsTop(q, gaps, i) ==> gaps[i] == Candidates(q, gaps)[0])
  {
    var best := Candidates(q, gaps)[0];
    var top := TopCandidates(q, gaps);
    TopCandidatesAreTop(q, gaps);
    assert forall i: nat :: IsTop(q, gaps, i) ==> i < |gaps|;
    hide TopCandidates, Candidates, IsTop;
    var k: nat :| k < |gaps| && gaps[k] == best;
    if |top| > 1 {
      TwoAtTheTop(gaps, top);
    } else {
      assert top == [best];
      forall j: nat | IsTop(q, gaps, j) ensures j == k {
        if j < k { TwoPlaces(gaps, j, k); } else if k < j { TwoPlaces(gaps, k, j); }
      }
    }
  }

  /** Two entries of a part that counts like the whole have two places in the whole. */
  lemma TwoAtTheTop<T>(s: seq<T>, part: seq<T>)
    requires |part| > 1
    requires forall x :: x in part ==> x in s && multiset(part)[x] == multiset(s)[x]
    ensures exists i: nat, j: nat :: i < j < |s| && s[i] in part && s[j] in part
  {
    assert part[0] in part && part[1] in part;
    if part[0] == part[1] {
      TwoPlaces(part, 0, 1);
      CountedTwice(s, part[0]);
    } else {
      var i: nat :| i < |s| && s[i] == part[0];
      var j: nat :| j < |s| && s[j] == part[1];
      assert if i < j then s[i] in part && s[j] in part else s[j] in part && s[i] in part;
    }
  }

  lemma SameCandidates(q: Query, gaps: seq<Json>, shuffled: seq<Json>)
    requires multiset(gaps) == multiset(shuffled)
    ensures multiset(Candidates(q, gaps)) == multiset(Candidates(q, shuffled))
    ensures Candidates(q, gaps) == [] <==> Candidates(q, shuffled) == []
    ensures Candidates(q, gaps) != [] ==> Score(q, Candidates(q, gaps)[0]) == Score(q, Candidates(q, shuffled)[0])
  {
    CandidatesAreEligible(q, gaps);
    CandidatesAreEligible(q, shuffled);
    hide Score, Candidates, Eligible;
    var a, b := Candidates(q, gaps), Candidates(q, shuffled);
    assert multiset(a) == multiset(b);
    assert |a| == |multiset(a)| == |multiset(b)| == |b|;
    if a != [] {
      assert a[0] in multiset(b) && b[0] in multiset(a);
    }
  }

  /** Permuting the gaps changes neither the returned id nor the fact of raising. */
  lemma SelectionIgnoresOrder(q: Query, gaps: seq<Json>, shuffled: seq<Json>)
    requires multiset(gaps) == multiset(shuffled)
    ensures SelectFrom(q, gaps) == SelectFrom(q, shuffled)
  {
    hide Score, Candidates, Matching, Eligible;
    forall gap ensures gap in gaps <==> gap in shuffled {
      assert gap in gaps <==> gap in multiset(gaps);
      assert gap in shuffled <==> gap in multiset(shuffled);
    }
    MatchingIsNonEmpty(q, gaps);
    MatchingIsNonEmpty(q, shuffled);
    SameCandidates(q, gaps, shuffled);
    if Candidates(q, gaps) != [] {
      SameTop(q, gaps, shuffled);
    }
  }

  lemma SameTop(q: Query, gaps: seq<Json>, shuffled: seq<Json>)
    requires multiset(gaps) == multiset(shuffled)
    requires Candidates(q, gaps) != [] && Candidates(q, shuffled) != []
    ensures |TopCandidates(q, gaps)| == |TopCandidates(q, shuffled)|
    ensures |TopCandidates(q, gaps)| <= 1 ==> Candidates(q, gaps)[0] == Candidates(q, shuffled)[0]
  {
    SameCandidates(q, gaps, shuffled);
    var a, b := Candidates(q, gaps), Candidates(q, shuffled);
    var top, top' := TopCandidates(q, gaps), TopCandidates(q, shuffled);
    hide Score, Candidates;
    forall gap ensures multiset(top)[gap] == multiset(top')[gap] {
      FilterCounts(gap => Score(q, gap) == Score(q, a[0]), a, gap);
      FilterCounts(gap => Score(q, gap) == Score(q, b[0]), b, gap);
    }
    assert multiset(top) == multiset(top');
    assert |top| == |multiset(top)| == |multiset(top')| == |top'|;
    if |top| <= 1 {
      TopCandidatesAreTop(q, gaps);
      TopCandidatesAreTop(q, shuffled);
      assert top == [a[0]] && top' == [b[0]];
      assert a[0] in multiset(top');
    }
  }

  lemma {:induction false} GapObjectsAreCanonical(value: Json)
    ensures forall gap :: gap in GapObjects(value) ==> StartsWith(GapIdOf(gap), "gap_")
    decreases value, 1
  {
    match value
    case Obj(fields) => MemberGapsAreCanonical(value, fields);
    case Arr(items) => ItemGapsAreCanonical(value, items);
    case _ =>
  }

  lemma {:induction false} MemberGapsAreCanonical(value: Json, fields: seq<(string, Json)>)
    requires value.Obj? && forall i :: 0 <= i < |fields| ==> fields[i] in value.fields
    ensures forall gap :: gap in GapsOfMembers(value, fields) ==> StartsWith(GapIdOf(gap), "gap_")
    decreases value, 0, |fields|
  {
    if fields != [] {
      assert fields[0] in value.fields;
      GapObjectsAreCanonical(fields[0].1);
      MemberGapsAreCanonical(value, fields[1..]);
    }
  }

  lemma {:induction false} ItemGapsAreCanonical(value: Json, items: seq<Json>)
    requires value.Arr? && forall i :: 0 <= i < |items| ==> items[i] in value.items
    ensures forall gap :: gap in GapsOfItems(value, items) ==> StartsWith(GapIdOf(gap), "gap_")
    decreases value, 0, |items|
  {
    if items != [] {
      GapObjectsAreCanonical(items[0]);
      ItemGapsAreCanonical(value, items[1..]);
    }
  }

  /** A selected id is canonical, whatever the reply looks like. */
  lemma ChosenIdIsCanonical(q: Query, data: Json)
    ensures SelectGap(q, data).Chosen? ==> StartsWith(SelectGap(q, data).gapId, "gap_")
  {
    var gaps := GapObjects(data);
    GapObjectsAreCanonical(data);
    SelectionIsUniqueTop(q, gaps);
    hide SelectFrom, Score, Eligible, StartsWith;
    if SelectFrom(q, gaps).Chosen? {
      var i: nat :| IsTop(q, gaps, i);
      assert gaps[i] in gaps;
    }
  }
}
