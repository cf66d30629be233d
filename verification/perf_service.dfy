/** The performance service: objectives and their key results (OKRs) with the
    progress roll-up, the sync of a key result from a linked project, and the
    submission and scoring of review sessions. The stores of objectives and
    review sessions are a class whose sequences the operations update in place;
    the roll-up and the score are pure folds. */
module PerfService {
  import opened Wrappers
  import opened Seqs

  datatype MetricType = Number | Percentage

  datatype KeyResult = KeyResult(
    id: string,
    objectiveId: string,
    title: string,
    metricType: MetricType,
    startVal: real,
    targetVal: real,
    currentVal: real,
    linkedProjectId: Option<string>)
  {
    /** A missing or empty project link counts as no link. */
    predicate IsLinked(): (linked: bool)
      ensures linked ==> linkedProjectId.Some?
      ensures linkedProjectId == Some("") ==> !linked
    {
      linkedProjectId.Some? && linkedProjectId.value != ""
    }
  }

  datatype Objective = Objective(
    id: string,
    userId: string,
    cycleId: string,
    title: string,
    weight: real,
    progress: real,
    keyResults: seq<KeyResult>)

  /** A project of the project tracker, read for its completion percentage. */
  datatype Project = Project(id: string, progress: real)

  datatype ReviewType = SelfReview | ManagerReview | PeerReview

  datatype ReviewStatus = Pending | Submitted

  datatype ReviewAnswer = ReviewAnswer(questionId: string, rating: int, comment: string)

  datatype ReviewSession = ReviewSession(
    id: string,
    cycleId: string,
    targetUserId: string,
    reviewerUserId: string,
    kind: ReviewType,
    status: ReviewStatus,
    answers: seq<ReviewAnswer>,
    score: Option<real>)

  /** "Link not found" and "Project not found". */
  datatype PerfError = LinkNotFound | ProjectNotFound

  datatype SyncReply = SyncReply(updated: bool, newVal: real)

  /** Where a key result sits: the index of its objective and its index there. */
  datatype KrLocation = KrLocation(objective: nat, keyResult: nat)

  function HasObjectiveId(id: string): Objective -> bool { (o: Objective) => o.id == id }

  function HasKrId(id: string): KeyResult -> bool { (k: KeyResult) => k.id == id }

  function ContainsKr(krId: string): Objective -> bool {
    (o: Objective) => FirstIndex(o.keyResults, HasKrId(krId)).Some?
  }

  function HasProjectId(id: string): Project -> bool { (p: Project) => p.id == id }

  function HasSessionId(id: string): ReviewSession -> bool { (s: ReviewSession) => s.id == id }

  function OwnedIn(userId: string, cycleId: string): Objective -> bool {
    (o: Objective) => o.userId == userId && o.cycleId == cycleId
  }

  function ReviewedIn(reviewerId: string, cycleId: string): ReviewSession -> bool {
    (s: ReviewSession) => s.reviewerUserId == reviewerId && s.cycleId == cycleId
  }

  // ---------------------------------------------------------------------
  // Rounding

  function Abs(x: real): real { if x < 0.0 then -x else x }

  /** `Math.round`: the nearest integer, halves rounded up. */
  function Round(x: real): (n: int)
    ensures x - 0.5 < n as real <= x + 0.5
  {
    (x + 0.5).Floor
  }

  /** `parseFloat(x.toFixed(1))`: the nearest tenth, halves rounded away from zero. */
  function RoundTenths(x: real): (r: real)
    ensures x - 0.05 <= r <= x + 0.05
    ensures (r * 10.0).Floor as real == r * 10.0
  {
    if x < 0.0 then
      var t := TenthsHalfUp(-x);
      TenthsClose(x, -t);
      (-t) as real / 10.0
    else
      var t := TenthsHalfUp(x);
      TenthsClose(x, t);
      t as real / 10.0
  }

  /** A whole number of tenths within half a tenth of `x * 10` is within 0.05 of `x`. */
  lemma TenthsClose(x: real, m: int)
    requires x * 10.0 - 0.5 <= m as real <= x * 10.0 + 0.5
    ensures x - 0.05 <= m as real / 10.0 <= x + 0.05
    ensures (m as real / 10.0) * 10.0 == m as real
    ensures ((m as real / 10.0) * 10.0).Floor == m
  {
  }

  /** The number of tenths nearest to a non-negative value, halves rounded up. */
  function TenthsHalfUp(y: real): (n: int)
    requires y >= 0.0
    ensures y * 10.0 - 0.5 < n as real <= y * 10.0 + 0.5
  {
    (y * 10.0 + 0.5).Floor
  }

  // ---------------------------------------------------------------------
  // Progress roll-up

  /** Completion of one key result in percent: the distance moved from the
      start over the distance from start to target, capped at 100; 0 when the
      target equals the start. */
  function KrPercent(kr: KeyResult): (p: int)
    ensures 0 <= p <= 100
    ensures kr.targetVal == kr.startVal ==> p == 0
    ensures kr.targetVal != kr.startVal && kr.currentVal == kr.targetVal ==> p == 100
  {
    var range := Abs(kr.targetVal - kr.startVal);
    var done := Abs(kr.currentVal - kr.startVal);
    if range == 0.0 then 0
    else
      assert done == range ==> done / range == 1.0;
      var rounded := Round(done / range * 100.0);
      if rounded < 100 then rounded else 100
  }

  /** The `reduce` over the key results: the sum of their percents. */
  function SumPercents(krs: seq<KeyResult>): (total: int)
    ensures 0 <= total <= 100 * |krs|
  {
    if krs == [] then 0 else SumPercents(krs[..|krs| - 1]) + KrPercent(krs[|krs| - 1])
  }

  /** Objective progress from a non-empty list of key results: the rounded mean percent. */
  function RollUp(krs: seq<KeyResult>): (progress: int)
    requires |krs| > 0
    ensures 0 <= progress <= 100
  {
    var n := |krs| as real;
    var total := SumPercents(krs) as real;
    assert total / n <= 100.0 by {
      assert total <= 100.0 * n;
    }
    Round(total / n)
  }

  /** The objective as saved: progress recomputed from the key results when
      there are any, left as it was when there are none. */
  function Recalculated(o: Objective): (r: Objective)
    ensures r == o.(progress := r.progress)
    ensures |o.keyResults| == 0 ==> r == o
    ensures |o.keyResults| > 0 ==> 0.0 <= r.progress <= 100.0 && r.progress == RollUp(o.keyResults) as real
  {
    if |o.keyResults| > 0 then o.(progress := RollUp(o.keyResults) as real) else o
  }

  /** Recomputing progress a second time changes nothing. */
  lemma RecalculatedIdempotent(o: Objective)
    ensures Recalculated(Recalculated(o)) == Recalculated(o)
  {
  }

  /** A decreasing metric counts like the mirrored increasing one. */
  lemma KrPercentMirror(kr: KeyResult)
    ensures KrPercent(kr.(startVal := -kr.startVal, targetVal := -kr.targetVal, currentVal := -kr.currentVal))
         == KrPercent(kr)
  {
    var m := kr.(startVal := -kr.startVal, targetVal := -kr.targetVal, currentVal := -kr.currentVal);
    assert Abs(m.targetVal - m.startVal) == Abs(kr.targetVal - kr.startVal);
    assert Abs(m.currentVal - m.startVal) == Abs(kr.currentVal - kr.startVal);
  }

  /** Moving away from the target also counts as progress: only the distance
      from the start is measured. */
  lemma RegressionCountsAsProgress(kr: KeyResult)
    requires kr.startVal == 0.0 && kr.targetVal == 100.0 && kr.currentVal == -50.0
    ensures KrPercent(kr) == 50
  {
    assert 50.0 / 100.0 * 100.0 == 50.0;
  }

  /** When every key result stands at the same percent, so does the objective. */
  lemma {:induction false} RollUpOfUniform(krs: seq<KeyResult>, p: int)
    requires |krs| > 0
    requires forall i :: 0 <= i < |krs| ==> KrPercent(krs[i]) == p
    ensures RollUp(krs) == p
  {
    SumOfUniform(krs, p);
    var n := |krs| as real;
    assert (p * |krs|) as real / n == p as real;
  }

  lemma {:induction false} SumOfUniform(krs: seq<KeyResult>, p: int)
    requires forall i :: 0 <= i < |krs| ==> KrPercent(krs[i]) == p
    ensures SumPercents(krs) == p * |krs|
  {
    if krs != [] {
      SumOfUniform(krs[..|krs| - 1], p);
    }
  }

  // ---------------------------------------------------------------------
  // Upsert

  /** `saveObjective`'s write: replace the first objective with the same id, or append. */
  function Upsert(s: seq<Objective>, o: Objective): (r: seq<Objective>)
    ensures |s| <= |r| <= |s| + 1
    ensures |r| == |s| + 1 <==> FirstIndex(s, HasObjectiveId(o.id)).None?
    ensures |r| == |s| + 1 ==> r[|s|] == o
    ensures forall k :: 0 <= k < |s| && r[k] != s[k] ==> r[k] == o && s[k].id == o.id
    ensures forall k, l :: 0 <= k < l < |s| && r[k] != s[k] ==> r[l] == s[l]
  {
    match FirstIndex(s, HasObjectiveId(o.id))
    case Some(i) => s[i := o]
    case None => s + [o]
  }

  /** After an upsert, looking the id up finds the saved objective. */
  lemma LookupAfterUpsert(s: seq<Objective>, o: Objective)
    ensures var i := FirstIndex(Upsert(s, o), HasObjectiveId(o.id));
      i.Some? && Upsert(s, o)[i.value] == o
  {
    var r := Upsert(s, o);
    var f := FirstIndex(s, HasObjectiveId(o.id));
    var i := if f.Some? then f.value else |s|;
    assert HasObjectiveId(o.id)(r[i]);
    forall j | 0 <= j < i
      ensures !HasObjectiveId(o.id)(r[j])
    {
      assert r[j] == s[j];
    }
    assert FirstIndex(r, HasObjectiveId(o.id)) == Some(i) by {
      FirstIndexAt(r, HasObjectiveId(o.id), i);
    }
  }

  /** Upserting the same objective twice is the same as once. */
  lemma UpsertIdempotent(s: seq<Objective>, o: Objective)
    ensures Upsert(Upsert(s, o), o) == Upsert(s, o)
  {
    LookupAfterUpsert(s, o);
  }

  /** Locating a key result: the first objective, in store order, holding the
      id, and the first key result with that id in it. */
  function LocateKr(s: seq<Objective>, krId: string): (loc: Option<KrLocation>)
    ensures loc.Some? ==> && loc.value.objective < |s|
                          && loc.value.keyResult < |s[loc.value.objective].keyResults|
                          && s[loc.value.objective].keyResults[loc.value.keyResult].id == krId
    ensures loc.Some? ==> forall j :: 0 <= j < loc.value.objective ==>
                            forall k :: 0 <= k < |s[j].keyResults| ==> s[j].keyResults[k].id != krId
    ensures loc.Some? ==> forall k :: 0 <= k < loc.value.keyResult ==> s[loc.value.objective].keyResults[k].id != krId
    ensures loc.None? <==> forall j, k :: 0 <= j < |s| && 0 <= k < |s[j].keyResults| ==> s[j].keyResults[k].id != krId
  {
    match FirstIndex(s, ContainsKr(krId))
    case None =>
      assert forall j, k :: 0 <= j < |s| && 0 <= k < |s[j].keyResults| ==> s[j].keyResults[k].id != krId by {
        forall j, k | 0 <= j < |s| && 0 <= k < |s[j].keyResults|
          ensures s[j].keyResults[k].id != krId
        {
          assert !ContainsKr(krId)(s[j]);
          assert !HasKrId(krId)(s[j].keyResults[k]);
        }
      }
      None
    case Some(j) =>
      var k := FirstIndex(s[j].keyResults, HasKrId(krId));
      assert forall m :: 0 <= m < j ==> forall k :: 0 <= k < |s[m].keyResults| ==> s[m].keyResults[k].id != krId by {
        forall m, k | 0 <= m < j && 0 <= k < |s[m].keyResults|
          ensures s[m].keyResults[k].id != krId
        {
          assert !ContainsKr(krId)(s[m]);
          assert !HasKrId(krId)(s[m].keyResults[k]);
        }
      }
      Some(KrLocation(j, k.value))
  }

  // ---------------------------------------------------------------------
  // Review scoring

  /** The `reduce` over the ratings, starting from 0. */
  function SumRatings(answers: seq<ReviewAnswer>): (total: int)
    ensures (forall i :: 0 <= i < |answers| ==> answers[i].rating >= 0) ==> total >= 0
  {
    if answers == [] then 0 else SumRatings(answers[..|answers| - 1]) + answers[|answers| - 1].rating
  }

  /** The score of a submitted review: the mean rating to one decimal. */
  function Score(answers: seq<ReviewAnswer>): (score: real)
    requires |answers| > 0
    ensures SumRatings(answers) as real / |answers| as real - 0.05 <= score
    ensures score <= SumRatings(answers) as real / |answers| as real + 0.05
    ensures (score * 10.0).Floor as real == score * 10.0
  {
    RoundTenths(SumRatings(answers) as real / |answers| as real)
  }

  lemma {:induction false} SumRatingsBounds(answers: seq<ReviewAnswer>, lo: int, hi: int)
    requires forall i :: 0 <= i < |answers| ==> lo <= answers[i].rating <= hi
    ensures lo * |answers| <= SumRatings(answers) <= hi * |answers|
  {
    if answers != [] {
      var k := |answers| - 1;
      SumRatingsBounds(answers[..k], lo, hi);
      assert lo * |answers| == lo * k + lo && hi * |answers| == hi * k + hi;
    }
  }

  /** Ratings on the 1 to 5 scale give a score on that scale. */
  lemma ScoreOnRatingScale(answers: seq<ReviewAnswer>)
    requires |answers| > 0
    requires forall i :: 0 <= i < |answers| ==> 1 <= answers[i].rating <= 5
    ensures 1.0 <= Score(answers) <= 5.0
  {
    SumRatingsBounds(answers, 1, 5);
    var n := |answers| as real;
    var mean := SumRatings(answers) as real / n;
    MeanBetween(SumRatings(answers) as real, n, 1.0, 5.0);
    assert 10.5 <= mean * 10.0 + 0.5 <= 50.5;
  }

  /** A sum of `n` values between `lo` and `hi` has its mean between them. */
  lemma MeanBetween(sum: real, n: real, lo: real, hi: real)
    requires n > 0.0 && lo * n <= sum <= hi * n
    ensures lo <= sum / n <= hi
  {
  }

  // ---------------------------------------------------------------------
  // The stores

  class PerfStore {
    var objectives: seq<Objective>
    var sessions: seq<ReviewSession>

    constructor (initialObjectives: seq<Objective>, initialSessions: seq<ReviewSession>)
      ensures objectives == initialObjectives && sessions == initialSessions
    {
      objectives := initialObjectives;
      sessions := initialSessions;
    }

    /** The objectives of a user in a cycle, in store order. */
    method GetObjectives(userId: string, cycleId: string) returns (r: seq<Objective>)
      ensures r == Filter(objectives, OwnedIn(userId, cycleId))
      ensures forall o :: o in r <==> o in objectives && o.userId == userId && o.cycleId == cycleId
    {
      r := Filter(objectives, OwnedIn(userId, cycleId));
    }

    /** The review sessions a reviewer holds in a cycle, in store order. */
    method GetReviewSessions(reviewerId: string, cycleId: string) returns (r: seq<ReviewSession>)
      ensures r == Filter(sessions, ReviewedIn(reviewerId, cycleId))
      ensures forall s :: s in r <==> s in sessions && s.reviewerUserId == reviewerId && s.cycleId == cycleId
    {
      r := Filter(sessions, ReviewedIn(reviewerId, cycleId));
    }

    /** Save an objective: its progress is recomputed from its key results,
        then it replaces the stored objective with the same id or is appended. */
    method SaveObjective(obj: Objective) returns (saved: Objective)
      modifies this
      ensures saved == Recalculated(obj)
      ensures objectives == Upsert(old(objectives), saved)
      ensures sessions == old(sessions)
    {
      var existingIdx := FirstIndex(objectives, HasObjectiveId(obj.id));
      saved := Recalculated(obj);
      if existingIdx.Some? {
        objectives := objectives[existingIdx.value := saved];
      } else {
        objectives := objectives + [saved];
      }
    }

    /** The search of the sync: objectives in store order, stopping at the
        first one that holds a key result with the id. */
    method LocateKeyResult(krId: string) returns (loc: Option<KrLocation>)
      ensures loc == LocateKr(objectives, krId)
      ensures loc.Some? ==> objectives[loc.value.objective].keyResults[loc.value.keyResult].id == krId
      ensures loc.None? ==> forall j, k :: 0 <= j < |objectives| && 0 <= k < |objectives[j].keyResults| ==>
                              objectives[j].keyResults[k].id != krId
    {
      loc := None;
      var j := 0;
      while j < |objectives|
        invariant 0 <= j <= |objectives|
        invariant forall m :: 0 <= m < j ==> forall k :: 0 <= k < |objectives[m].keyResults| ==> objectives[m].keyResults[k].id != krId
      {
        var k := FirstIndex(objectives[j].keyResults, HasKrId(krId));
        if k.Some? {
          loc := Some(KrLocation(j, k.value));
          break;
        }
        j := j + 1;
      }
    }

    /** The write of the sync: the key result at (`jo`, `ko`) takes `newVal`
        in place, and its objective is saved, which recomputes the progress of
        that same object and writes it to the first slot with its id. */
    method StoreSyncedValue(jo: nat, ko: nat, newVal: real) returns (saved: Objective)
      requires jo < |objectives| && ko < |objectives[jo].keyResults|
      modifies this
      ensures var obj := old(objectives)[jo];
        saved == Recalculated(obj.(keyResults := obj.keyResults[ko := obj.keyResults[ko].(currentVal := newVal)]))
      ensures var first := FirstIndex(old(objectives), HasObjectiveId(old(objectives)[jo].id));
        && first.Some? && first.value <= jo
        && objectives == old(objectives)[jo := saved][first.value := saved]
      ensures sessions == old(sessions)
    {
      var targetObj := objectives[jo];
      var updated := targetObj.(keyResults := targetObj.keyResults[ko := targetObj.keyResults[ko].(currentVal := newVal)]);
      ghost var s0 := objectives;
      ghost var first := FirstIndex(s0, HasObjectiveId(targetObj.id));
      assert first.Some? && first.value <= jo by {
        assert HasObjectiveId(targetObj.id)(s0[jo]);
      }
      objectives := objectives[jo := updated];
      assert FirstIndex(objectives, HasObjectiveId(updated.id)) == first by {
        assert HasObjectiveId(updated.id)(objectives[jo]);
        FirstIndexAt(objectives, HasObjectiveId(updated.id), first.value);
      }
      ghost var s1 := objectives;
      saved := SaveObjective(updated);
      assert objectives == s1[first.value := saved];
      // saveObjective recomputed the progress of the very object held at `jo`.
      objectives := objectives[jo := saved];
    }

    /** Sync a key result from its linked project. The first objective in
        store order that holds the key result is used; the key result must be
        linked and the project must exist. The key result takes the project's
        progress, and the objective is saved again, which recomputes its
        progress. The objective is updated in place and then written to the
        first slot with its id (the same slot when ids are unique). */
    method SyncKeyResultProgress(krId: string, projects: seq<Project>) returns (r: Result<SyncReply, PerfError>)
      modifies this
      ensures sessions == old(sessions)
      ensures r.Failure? ==> objectives == old(objectives)
      ensures match LocateKr(old(objectives), krId)
        case None => r == Failure(LinkNotFound)
        case Some(loc) =>
          var obj := old(objectives)[loc.objective];
          var kr := obj.keyResults[loc.keyResult];
          if !kr.IsLinked() then r == Failure(LinkNotFound)
          else match FirstIndex(projects, HasProjectId(kr.linkedProjectId.value))
            case None => r == Failure(ProjectNotFound)
            case Some(p) =>
              var saved := Recalculated(obj.(keyResults := obj.keyResults[loc.keyResult := kr.(currentVal := projects[p].progress)]));
              var first := FirstIndex(old(objectives), HasObjectiveId(obj.id));
              && r == Success(SyncReply(true, projects[p].progress))
              && first.Some? && first.value <= loc.objective
              && objectives == old(objectives)[loc.objective := saved][first.value := saved]
    {
      var loc := LocateKeyResult(krId);
      if loc.None? {
        return Failure(LinkNotFound);
      }
      var jo, ko := loc.value.objective, loc.value.keyResult;
      var targetObj := objectives[jo];
      var targetKr := targetObj.keyResults[ko];
      if !targetKr.IsLinked() {
        return Failure(LinkNotFound);
      }
      var project := FirstIndex(projects, HasProjectId(targetKr.linkedProjectId.value));
      if project.None? {
        return Failure(ProjectNotFound);
      }
      var newVal := projects[project.value].progress;
      var saved := StoreSyncedValue(jo, ko, newVal);
      r := Success(SyncReply(true, newVal));
    }

    /** Submit a review. An unknown session id is a silent no-op; otherwise
        the answers are stored as given, the session becomes SUBMITTED and
        its score the mean rating to one decimal, whatever its earlier status. */
    method SubmitReview(sessionId: string, answers: seq<ReviewAnswer>)
      requires FirstIndex(sessions, HasSessionId(sessionId)).Some? ==> |answers| > 0
      modifies this
      ensures objectives == old(objectives)
      ensures match FirstIndex(old(sessions), HasSessionId(sessionId))
        case None => sessions == old(sessions)
        case Some(i) =>
          sessions == old(sessions)[i := old(sessions)[i].(answers := answers, status := Submitted, score := Some(Score(answers)))]
    {
      var found := FirstIndex(sessions, HasSessionId(sessionId));
      if found.Some? {
        var i := found.value;
        sessions := sessions[i := sessions[i].(answers := answers, status := Submitted, score := Some(Score(answers)))];
      }
    }
  }

  // ---------------------------------------------------------------------
  // The seeded objectives

  /** kr-3-1: start 250, target 100, current 150 is 100 of 150, so 67%. */
  lemma ApiLatencyKeyResult()
    ensures KrPercent(KeyResult("kr-3-1", "obj-3", "API latency", Number, 250.0, 100.0, 150.0, None)) == 67
  {
    assert 100.0 / 150.0 * 100.0 == 200.0 / 3.0;
  }

  /** A key result from 0 to 100 standing at 30 is 30% done. */
  lemma LinearKeyResult()
    ensures KrPercent(KeyResult("kr-1-1", "obj-1", "HRM rollout", Percentage, 0.0, 100.0, 30.0, Some("proj-001"))) == 30
  {
    assert 30.0 / 100.0 * 100.0 == 30.0;
  }

  /** obj-3 (key results at 67% and 45%) saves with progress 56. */
  lemma SeedObjectiveRollUp()
    ensures var o := Objective("obj-3", "uuid-002", "cycle-2025-q1", "Stability", 50.0, 70.0, [
              KeyResult("kr-3-1", "obj-3", "API latency", Number, 250.0, 100.0, 150.0, None),
              KeyResult("kr-3-2", "obj-3", "Site rebuild", Percentage, 0.0, 100.0, 45.0, Some("proj-001"))]);
      Recalculated(o).progress == 56.0
  {
    var k1 := KeyResult("kr-3-1", "obj-3", "API latency", Number, 250.0, 100.0, 150.0, None);
    var k2 := KeyResult("kr-3-2", "obj-3", "Site rebuild", Percentage, 0.0, 100.0, 45.0, Some("proj-001"));
    ApiLatencyKeyResult();
    assert KrPercent(k2) == 45 by {
      assert 45.0 / 100.0 * 100.0 == 45.0;
    }
    assert [k1, k2][..1] == [k1];
    assert SumPercents([k1, k2]) == 112;
  }

  /** Ratings 4, 5 and 3 score 4.0. */
  lemma ExampleScore()
    ensures Score([ReviewAnswer("q1", 4, ""), ReviewAnswer("q2", 5, ""), ReviewAnswer("q3", 3, "")]) == 4.0
  {
    var a := [ReviewAnswer("q1", 4, ""), ReviewAnswer("q2", 5, ""), ReviewAnswer("q3", 3, "")];
    assert a[..2][..1] == a[..1] && a[..1][..0] == [];
    assert SumRatings(a[..1]) == 4;
    assert SumRatings(a[..2]) == 9;
    assert SumRatings(a) == 12;
  }
}
