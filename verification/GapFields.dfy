// The choice of a gap in terms of the fields of the gaps: what keeps one out, what ranks one above another, and where
// gaps are found.
module GapFields {
  import opened Json
  import opened Text
  import opened GapSelection

  // ---- What keeps a gap from being claimed ----

  /** A flag, or a text that stands for one. */
  predicate Reads(value: Json, flag: bool, words: seq<string>) {
    value == Bool(flag) || (value.Str? && Lower(Trim(value.s)) in words)
  }

  predicate IsBlocked(gap: Json) {
    Reads(Get(gap, "blocked"), true, ["1", "true", "yes", "y"])
  }

  /** A list with something in it that Python does not find false, a non-empty object, or a text that is not blank. */
  predicate NamesReasons(gap: Json) {
    var reasons := Get(gap, "blocked_reasons");
    || (reasons.Arr?
        && exists item :: item in reasons.items && item !in [Null, Bool(false), Num(0), Str(""), Arr([]), Obj([])])
    || (reasons.Obj? && |reasons.fields| > 0)
    || (reasons.Str? && exists i :: 0 <= i < |reasons.s| && !IsSpace(reasons.s[i]))
  }

  /** The word of its status, or of its state where there is no status. */
  function Word(gap: Json): string {
    var status := Get(gap, "status");
    var absent := status in [Null, Bool(false), Num(0), Str(""), Arr([]), Obj([])];
    Lower(AsText(if absent then Get(gap, "state") else status))
  }

  /** It says so itself, or it says nothing and its status does. */
  predicate IsOffered(gap: Json) {
    var claimable := Get(gap, "claimable");
    || Reads(claimable, true, ["1", "true", "yes", "y"])
    || (!Reads(claimable, false, ["0", "false", "no", "n"]) && Word(gap) in ["open", "claimable", "actionable"])
  }

  predicate IsFree(gap: Json) {
    !IsBlocked(gap) && !NamesReasons(gap) && IsOffered(gap)
  }

  lemma ReasonsAreRead(gap: Json)
    ensures HasBlockedReasons(gap) <==> NamesReasons(gap)
  {
    hide Get, IsSpace, Trim;
    var reasons := Get(gap, "blocked_reasons");
    if reasons.Str? {
      BlankIsTrimmedAway(reasons.s);
    } else if reasons.Arr? {
      hide Truthy;
      forall item | item in reasons.items
        ensures Truthy(item) <==> item !in [Null, Bool(false), Num(0), Str(""), Arr([]), Obj([])]
      {
        TruthyUnlessEmpty(item);
      }
    }
  }

  lemma WordIsRead(gap: Json)
    ensures StatusOf(gap) == Word(gap)
  {
    hide Get, Lower;
    TruthyUnlessEmpty(Get(gap, "status"));
  }

  lemma OfferedIsNotClosed(word: string)
    requires word in ["open", "claimable", "actionable"]
    ensures word !in ["archived", "blocked", "cancelled", "canceled", "closed", "done", "rejected", "resolved", "stale"]
  {
  }

  lemma FreeIsClaimable(gap: Json)
    ensures IsClaimable(gap) <==> IsFree(gap)
  {
    ReasonsAreRead(gap);
    WordIsRead(gap);
    hide Get, Lower, Trim, HasBlockedReasons, NamesReasons, StatusOf, Word;
    if Word(gap) in ["open", "claimable", "actionable"] {
      OfferedIsNotClosed(Word(gap));
    }
  }

  // ---- What ranks one gap above another ----

  /** The five tests, the heaviest first: story, capability, repository, SDK, status. */
  ghost function Tests(q: Query, gap: Json): (tests: seq<bool>)
    ensures |tests| == 5
  {
    var text := q.dump(gap);
    [q.storyId != "" && Mentions(text, Lower(q.storyId)),
     q.capabilityId != "" && Mentions(text, Lower(q.capabilityId)),
     Mentions(text, Lower(q.repoName)),
     Mentions(text, "sdk-v1"),
     Word(gap) in ["open", "claimable", "actionable", "claimed"]]
  }

  /** It passes the first test that the two decide differently. */
  predicate Beats(a: seq<bool>, b: seq<bool>)
    requires |a| == |b| == 5
  {
    exists k :: 0 <= k < 5 && a[k] && !b[k] && forall i :: 0 <= i < k ==> a[i] == b[i]
  }

  function AsTests(p: Profile): seq<bool> {
    [p.story, p.capability, p.repo, p.sdk, p.status]
  }

  lemma TestsAreTheProfile(q: Query, gap: Json)
    ensures Tests(q, gap) == AsTests(ProfileOf(q, gap))
  {
    hide Lower, Contains, Mentions, StatusOf, Word;
    var text := q.dump(gap);
    MentionsIsContains(text, Lower(q.storyId));
    MentionsIsContains(text, Lower(q.capabilityId));
    MentionsIsContains(text, Lower(q.repoName));
    MentionsIsContains(text, "sdk-v1");
    WordIsRead(gap);
  }

  lemma LexLessBeats(p: Profile, r: Profile)
    requires LexLess(p, r)
    ensures Beats(AsTests(r), AsTests(p))
  {
    var k := if p.story != r.story then 0 else if p.capability != r.capability then 1 else if p.repo != r.repo then 2
             else if p.sdk != r.sdk then 3 else 4;
    FirstDifference(AsTests(r), AsTests(p), k);
  }

  lemma FirstDifference(a: seq<bool>, b: seq<bool>, k: nat)
    requires |a| == |b| == 5 && k < 5 && a[k] && !b[k] && a[..k] == b[..k]
    ensures Beats(a, b)
  {
    assert forall i :: 0 <= i < k ==> a[..k][i] == b[..k][i];
  }

  /** Two different profiles are always ordered, in one way only. */
  lemma LexIsStrict(p: Profile, r: Profile)
    ensures LexLess(p, r) || LexLess(r, p) <==> p != r
    ensures LexLess(p, r) ==> !LexLess(r, p)
  {
  }

  lemma BeatingIsDecided(a: seq<bool>, b: seq<bool>)
    requires |a| == |b| == 5 && Beats(a, b)
    ensures a != b && !Beats(b, a)
  {
  }

  lemma BeatsIsLexicographic(p: Profile, r: Profile)
    ensures Beats(AsTests(r), AsTests(p)) <==> LexLess(p, r)
  {
    LexIsStrict(p, r);
    if Beats(AsTests(r), AsTests(p)) {
      BeatingIsDecided(AsTests(r), AsTests(p));
      if LexLess(r, p) {
        LexLessBeats(r, p);
      }
    }
    if LexLess(p, r) {
      LexLessBeats(p, r);
    }
  }

  ghost predicate PassesSome(q: Query, gap: Json) {
    exists k :: 0 <= k < 5 && Tests(q, gap)[k]
  }

  lemma FreeIsEligible(q: Query, gap: Json)
    ensures PassesSome(q, gap) <==> Score(q, gap) > 0
    ensures Eligible(q, gap) <==> IsFree(gap) && PassesSome(q, gap)
  {
    TestsAreTheProfile(q, gap);
    FreeIsClaimable(gap);
    hide ProfileOf, Tests, IsFree, IsClaimable;
    var p := ProfileOf(q, gap);
    assert Tests(q, gap) == AsTests(p);
    if PassesSome(q, gap) {
    } else {
      assert !AsTests(p)[0] && !AsTests(p)[1] && !AsTests(p)[2] && !AsTests(p)[3] && !AsTests(p)[4];
    }
    if Score(q, gap) > 0 {
      assert AsTests(p)[0] || AsTests(p)[1] || AsTests(p)[2] || AsTests(p)[3] || AsTests(p)[4];
    }
  }

  // ---- The one that is chosen ----

  /** A free gap that passes a test, and that beats every other free gap. */
  ghost predicate IsBest(q: Query, gaps: seq<Json>, i: nat) {
    && i < |gaps| && IsFree(gaps[i]) && PassesSome(q, gaps[i])
    && forall j {:trigger gaps[j]} :: 0 <= j < |gaps| && j != i && IsFree(gaps[j]) && PassesSome(q, gaps[j]) ==>
         Beats(Tests(q, gaps[i]), Tests(q, gaps[j]))
  }

  lemma EligibleAndBeaten(q: Query, a: Json, b: Json)
    ensures Eligible(q, a) <==> IsFree(a) && PassesSome(q, a)
    ensures Beats(Tests(q, a), Tests(q, b)) <==> LexLess(ProfileOf(q, b), ProfileOf(q, a))
    ensures LexLess(ProfileOf(q, a), ProfileOf(q, b)) || LexLess(ProfileOf(q, b), ProfileOf(q, a))
            <==> ProfileOf(q, a) != ProfileOf(q, b)
    ensures LexLess(ProfileOf(q, a), ProfileOf(q, b)) ==> !LexLess(ProfileOf(q, b), ProfileOf(q, a))
  {
    hide IsFree, PassesSome, Tests, ProfileOf, LexLess, Beats, Eligible, AsTests;
    FreeIsEligible(q, a);
    TestsAreTheProfile(q, a);
    TestsAreTheProfile(q, b);
    BeatsIsLexicographic(ProfileOf(q, b), ProfileOf(q, a));
    LexIsStrict(ProfileOf(q, a), ProfileOf(q, b));
  }

  /** The same position by its profile. */
  lemma BestIsOnlyTop(q: Query, gaps: seq<Json>, i: nat)
    ensures IsBest(q, gaps, i) <==> IsTop(q, gaps, i) && forall j: nat :: IsTop(q, gaps, j) ==> j == i
  {
    if i < |gaps| {
      forall j: nat | j < |gaps|
        ensures Eligible(q, gaps[j]) <==> IsFree(gaps[j]) && PassesSome(q, gaps[j])
        ensures Beats(Tests(q, gaps[i]), Tests(q, gaps[j])) <==> LexLess(ProfileOf(q, gaps[j]), ProfileOf(q, gaps[i]))
        ensures LexLess(ProfileOf(q, gaps[i]), ProfileOf(q, gaps[j]))
                || LexLess(ProfileOf(q, gaps[j]), ProfileOf(q, gaps[i]))
                <==> ProfileOf(q, gaps[i]) != ProfileOf(q, gaps[j])
        ensures LexLess(ProfileOf(q, gaps[i]), ProfileOf(q, gaps[j])) ==>
                  !LexLess(ProfileOf(q, gaps[j]), ProfileOf(q, gaps[i]))
      {
        EligibleAndBeaten(q, gaps[i], gaps[j]);
        EligibleAndBeaten(q, gaps[j], gaps[i]);
      }
      hide IsFree, PassesSome, Tests, ProfileOf, LexLess, Beats, Eligible;
      if IsTop(q, gaps, i) && forall j: nat :: IsTop(q, gaps, j) ==> j == i {
        forall j: nat | j < |gaps| && j != i && Eligible(q, gaps[j])
          ensures LexLess(ProfileOf(q, gaps[j]), ProfileOf(q, gaps[i]))
        {
          assert ProfileOf(q, gaps[j]) == ProfileOf(q, gaps[i]) ==> IsTop(q, gaps, j);
        }
      }
    }
  }

  /**
   * The choice in terms of the fields. It fails to match exactly if no gap passes a test, and finds none to claim
   * exactly if none of those that pass one is free; it chooses exactly if one free gap beats every other, and then it
   * chooses that one, by its gap_id, or its id where there is none.
   */
  lemma SelectionReadsTheFields(q: Query, data: Json)
    ensures var gaps, s := GapObjects(data), SelectGap(q, data);
      && (s.NoMatch? <==> forall gap :: gap in gaps ==> !PassesSome(q, gap))
      && (s.NoneClaimable? <==> (exists gap :: gap in gaps && PassesSome(q, gap))
                                && forall gap :: gap in gaps && PassesSome(q, gap) ==> !IsFree(gap))
      && (s.Chosen? <==> exists i: nat :: IsBest(q, gaps, i))
      && forall i: nat :: IsBest(q, gaps, i) ==>
           s.Chosen? && IsFirstText(gaps[i], [["gap_id"], ["id"]], s.gapId)
  {
    var gaps := GapObjects(data);
    SelectionIsUniqueTop(q, gaps);
    hide IsBest, IsTop, Eligible, Score, PassesSome, IsFree, SelectFrom, IsFirstText, GapIdOf, GapObjects;
    forall gap
      ensures PassesSome(q, gap) <==> Score(q, gap) > 0
      ensures Eligible(q, gap) <==> IsFree(gap) && PassesSome(q, gap)
    {
      FreeIsEligible(q, gap);
    }
    BestIsChosen(q, gaps);
  }

  lemma BestIsChosen(q: Query, gaps: seq<Json>)
    ensures var s := SelectFrom(q, gaps);
      && (s.Chosen? <==> exists i: nat :: IsBest(q, gaps, i))
      && forall i: nat :: IsBest(q, gaps, i) ==>
           s.Chosen? && IsFirstText(gaps[i], [["gap_id"], ["id"]], s.gapId)
  {
    SelectionIsUniqueTop(q, gaps);
    hide IsBest, IsTop, Eligible, Score, SelectFrom, IsFirstText, GapIdOf;
    forall i: nat ensures IsBest(q, gaps, i) <==> IsTop(q, gaps, i) && forall j: nat :: IsTop(q, gaps, j) ==> j == i {
      BestIsOnlyTop(q, gaps, i);
    }
    forall i: nat | IsBest(q, gaps, i) ensures i < |gaps| {
      BestIsAt(q, gaps, i);
    }
    forall i: nat | i < |gaps| ensures IsFirstText(gaps[i], [["gap_id"], ["id"]], GapIdOf(gaps[i])) {
      IdIsFirstFound(gaps[i]);
    }
  }

  lemma BestIsAt(q: Query, gaps: seq<Json>, i: nat)
    requires IsBest(q, gaps, i)
    ensures i < |gaps|
  {
  }

  lemma IdIsFirstFound(gap: Json)
    ensures IsFirstText(gap, [["gap_id"], ["id"]], GapIdOf(gap))
  {
    hide Get, At, IsFirstText, FirstString;
    AtOne(gap, "gap_id");
    AtOne(gap, "id");
    TextIsFirst(gap, [["gap_id"], ["id"]], [Get(gap, "gap_id"), Get(gap, "id")]);
  }

  // ---- Where gaps are found ----

  /** A value is inside itself, and inside whatever has it inside one of its members or items. */
  ghost predicate IsInside(part: Json, value: Json)
    decreases value
  {
    || part == value
    || (value.Obj? && exists m :: m in value.fields && IsInside(part, m.1))
    || (value.Arr? && exists item :: item in value.items && IsInside(part, item))
  }

  /** The gaps of a reply are the objects with a canonical id, wherever in it they are. */
  lemma {:induction false} GapsAreFoundAnywhere(value: Json, gap: Json)
    ensures gap in GapObjects(value)
            <==> gap.Obj? && StartsWith(GapIdOf(gap), "gap_") && IsInside(gap, value)
    decreases value, 1
  {
    match value
    case Obj(fields) => MembersHoldGaps(value, fields, gap);
    case Arr(items) => ItemsHoldGaps(value, items, gap);
    case _ =>
  }

  lemma {:induction false} MembersHoldGaps(value: Json, fields: seq<(string, Json)>, gap: Json)
    requires value.Obj? && forall i :: 0 <= i < |fields| ==> fields[i] in value.fields
    ensures gap in GapsOfMembers(value, fields)
            <==> gap.Obj? && StartsWith(GapIdOf(gap), "gap_") && exists m :: m in fields && IsInside(gap, m.1)
    decreases value, 0, |fields|
  {
    hide GapIdOf, IsInside;
    if fields != [] {
      assert fields[0] in value.fields;
      GapsAreFoundAnywhere(fields[0].1, gap);
      MembersHoldGaps(value, fields[1..], gap);
      assert forall m :: m in fields <==> m == fields[0] || m in fields[1..];
    }
  }

  lemma {:induction false} ItemsHoldGaps(value: Json, items: seq<Json>, gap: Json)
    requires value.Arr? && forall i :: 0 <= i < |items| ==> items[i] in value.items
    ensures gap in GapsOfItems(value, items)
            <==> gap.Obj? && StartsWith(GapIdOf(gap), "gap_") && exists item :: item in items && IsInside(gap, item)
    decreases value, 0, |items|
  {
    hide GapIdOf, IsInside;
    if items != [] {
      GapsAreFoundAnywhere(items[0], gap);
      ItemsHoldGaps(value, items[1..], gap);
      assert forall item :: item in items <==> item == items[0] || item in items[1..];
    }
  }
}
