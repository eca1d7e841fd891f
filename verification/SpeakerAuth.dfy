/**
 The voice lock: enrolment from a few templates, and the decision whether an utterance is the enrolled
 speaker's. The arithmetic is over the reals; audio and the embedding model are not part of this model.
 */
module SpeakerAuth {
  import opened Options
  import opened Cosine

  const MAX_TEMPLATES: nat := 5
  const MAX_DIMENSIONS: nat := 4096
  const MAX_WINDOWS: nat := 4

  /** A list element as it arrives: a finite number, or anything else. */
  datatype Sample = Number(r: real) | NotNumber

  type Embedding = seq<Sample>

  /** The stored enrolment, as far as it parses. */
  datatype VoiceFile = VoiceFile(templates: Option<seq<Embedding>>, embedding: Option<Embedding>)

  datatype Enrollment = Enrollment(templates: seq<Vector>, centroid: Option<Vector>, version: nat)

  datatype Reason = Ok | NotEnrolled | EmptyEmbedding | InvalidEmbedding | DimensionMismatch | BelowThreshold | OkWindow

  datatype VerifyResult = VerifyResult(ok: bool, score: real, threshold: real, reason: Reason)

  datatype MeanResult = Centroid(mean: Vector) | NoEmbeddings | NotFinite | Inconsistent | TooMany

  predicate IsValid(e: Embedding) {
    0 < |e| <= MAX_DIMENSIONS && forall s | s in e :: s.Number?
  }

  function Values(e: Embedding): (v: Vector)
    requires IsValid(e)
    ensures |v| == |e| && forall i | 0 <= i < |e| :: v[i] == e[i].r
  {
    seq(|e|, i requires 0 <= i < |e| => e[i].r)
  }

  function Samples(v: Vector): (e: Embedding)
    ensures |e| == |v| && forall i | 0 <= i < |v| :: e[i] == Number(v[i])
  {
    seq(|v|, i requires 0 <= i < |v| => Number(v[i]))
  }

  /** Usable together: at least one, all valid, all of one dimension. */
  predicate AreUniform(vectors: seq<Embedding>) {
    && vectors != []
    && (forall e | e in vectors :: IsValid(e))
    && (forall e | e in vectors :: |e| == |vectors[0]|)
  }

  function AllValues(vectors: seq<Embedding>): (r: seq<Vector>)
    requires forall e | e in vectors :: IsValid(e)
    ensures |r| == |vectors| && forall k | 0 <= k < |vectors| :: r[k] == Values(vectors[k])
  {
    seq(|vectors|, k requires 0 <= k < |vectors| => Values(vectors[k]))
  }

  // ---------- The centroid ----------

  /** The sum of coordinate i over the first n vectors. */
  function Column(vectors: seq<Vector>, i: nat, n: nat): real
    requires n <= |vectors| && forall v | v in vectors :: i < |v|
  {
    if n == 0 then 0.0 else Column(vectors, i, n - 1) + vectors[n - 1][i]
  }

  /** Each coordinate of the centroid, once for every vector, makes up that coordinate's sum. */
  predicate IsMean(vectors: seq<Vector>, mean: Vector) {
    && vectors != [] && |mean| == |vectors[0]|
    && (forall v | v in vectors :: |v| == |mean|)
    && (forall i | 0 <= i < |mean| :: Times(mean[i], |vectors| as real) == Column(vectors, i, |vectors|))
  }

  method AddTo(out: array<real>, e: Embedding)
    requires IsValid(e) && |e| == out.Length
    modifies out
    ensures forall i | 0 <= i < out.Length :: out[i] == old(out[i]) + Values(e)[i]
  {
    for i := 0 to out.Length
      invariant forall j | 0 <= j < i :: out[j] == old(out[j]) + e[j].r
      invariant forall j | i <= j < out.Length :: out[j] == old(out[j])
    {
      out[i] := out[i] + e[i].r;
    }
  }

  method DivideBy(out: array<real>, n: real)
    requires n != 0.0
    modifies out
    ensures forall i | 0 <= i < out.Length :: Times(out[i], n) == old(out[i])
  {
    for i := 0 to out.Length
      invariant forall j | 0 <= j < i :: Times(out[j], n) == old(out[j])
      invariant forall j | i <= j < out.Length :: out[j] == old(out[j])
    {
      out[i] := out[i] / n;
    }
  }

  method Mean(vectors: seq<Embedding>) returns (r: MeanResult)
    ensures r.Centroid? <==> AreUniform(vectors)
    ensures r.Centroid? ==> IsMean(AllValues(vectors), r.mean)
    ensures r.NoEmbeddings? <==> vectors == []
    ensures r.NotFinite? <==> exists e :: e in vectors && !IsValid(e)
    ensures !r.TooMany?
  {
    hide IsValid, Times;
    if vectors == [] {
      return NoEmbeddings;
    }
    if exists e :: e in vectors && !IsValid(e) {
      return NotFinite;
    }
    if exists e :: e in vectors && |e| != |vectors[0]| {
      return Inconsistent;
    }
    ghost var all := AllValues(vectors);
    var out := new real[|vectors[0]|](_ => 0.0);
    for k := 0 to |vectors|
      invariant forall i | 0 <= i < out.Length :: out[i] == Column(all, i, k)
    {
      ghost var before := out[..];
      AddTo(out, vectors[k]);
      forall i | 0 <= i < out.Length ensures out[i] == Column(all, i, k + 1) {
        assert out[i] == before[i] + all[k][i];
      }
    }
    var n := |vectors| as real;
    DivideBy(out, n);
    assert forall v | v in all :: |v| == out.Length;
    return Centroid(out[..]);
  }

  /** There is only one mean. */
  lemma {:induction false} MeanIsDetermined(vectors: seq<Vector>, a: Vector, b: Vector)
    requires IsMean(vectors, a) && IsMean(vectors, b)
    ensures a == b
  {
    forall i | 0 <= i < |a| ensures a[i] == b[i] {
      Divides(a[i], b[i], |vectors| as real);
    }
  }

  lemma Divides(x: real, y: real, n: real)
    requires n != 0.0 && Times(x, n) == Times(y, n)
    ensures x == y
  {
    assert x == x * n / n;
    assert y == y * n / n;
  }

  lemma {:induction false} MeanOfOne(v: Vector)
    ensures IsMean([v], v)
  {
    forall i | 0 <= i < |v| ensures Column([v], i, 1) == v[i] {
      assert Column([v], i, 1) == Column([v], i, 0) + [v][0][i];
    }
  }

  // ---------- The decision ----------

  function Candidates(state: Enrollment): seq<Vector> {
    state.templates + if state.centroid.Some? && state.centroid.value != [] then [state.centroid.value] else []
  }

  /** The inner product of the two exceeds that part of the product of their lengths. */
  ghost predicate PointsAlike(root: real -> real, threshold: real, c: Vector, v: Vector)
    requires |c| == |v|
  {
    Dot(c, v, |v|) > Times(threshold, Times(Root(root, Dot(c, c, |c|)), Root(root, Dot(v, v, |v|))))
  }

  /** A template or the centroid. */
  ghost predicate IsEnrolledVector(state: Enrollment, c: Vector) {
    c in state.templates || state.centroid == Some(c)
  }

  /** Some enrolled vector of the same dimension points closer than the threshold to where this one does. */
  ghost predicate IsRecognised(root: real -> real, threshold: real, state: Enrollment, e: Embedding) {
    && state.templates != [] && IsValid(e)
    && exists c :: IsEnrolledVector(state, c) && |c| == |e| && PointsAlike(root, threshold, c, Values(e))
  }

  lemma AlikeExactlyWhenSimilar(root: real -> real, threshold: real, c: Vector, v: Vector)
    requires IsRoot(root) && threshold >= 0.0 && |c| == |v|
    ensures PointsAlike(root, threshold, c, v) <==> Similarity(root, c, v) > threshold
  {
    hide IsRoot, Similarity, Times;
    ExceedsWithoutDividing(root, c, v, threshold);
  }

  lemma CandidatesAreEnrolled(state: Enrollment, c: Vector)
    requires c != []
    ensures c in Candidates(state) <==> IsEnrolledVector(state, c)
  {
  }

  function BestScore(root: real -> real, candidates: seq<Vector>, v: Vector): Option<real> {
    if candidates == [] then None
    else
      var best := BestScore(root, candidates[..|candidates| - 1], v);
      var last := candidates[|candidates| - 1];
      if |last| != |v| then best
      else
        var score := Similarity(root, last, v);
        if best.Some? && best.value >= score then best else Some(score)
  }

  function Verdict(root: real -> real, threshold: real, state: Enrollment, e: Embedding): VerifyResult {
    if state.templates == [] then VerifyResult(false, 0.0, threshold, NotEnrolled)
    else if e == [] then VerifyResult(false, 0.0, threshold, EmptyEmbedding)
    else if !IsValid(e) then VerifyResult(false, 0.0, threshold, InvalidEmbedding)
    else
      var best := BestScore(root, Candidates(state), Values(e));
      if best.None? then VerifyResult(false, 0.0, threshold, DimensionMismatch)
      else if best.value > threshold then VerifyResult(true, best.value, threshold, Ok)
      else VerifyResult(false, best.value, threshold, BelowThreshold)
  }

  /** The best score is one of the scores and no smaller than any; there is none exactly when no dimension fits. */
  lemma {:induction false} BestScoreIsBest(root: real -> real, candidates: seq<Vector>, v: Vector)
    ensures var best := BestScore(root, candidates, v);
      && (best.Some? <==> exists c :: c in candidates && |c| == |v|)
      && (best.Some? ==> exists c :: c in candidates && |c| == |v| && Similarity(root, c, v) == best.value)
      && (forall c | c in candidates && |c| == |v| :: best.Some? && Similarity(root, c, v) <= best.value)
  {
    hide Similarity;
    if candidates != [] {
      var front, last := candidates[..|candidates| - 1], candidates[|candidates| - 1];
      BestScoreIsBest(root, front, v);
      assert candidates == front + [last];
      assert last in candidates;
    }
  }

  /** A vector is accepted exactly when some enrolled vector of its dimension points closely enough its way. */
  lemma {:induction false} AcceptedExactlyWhenRecognised(
    root: real -> real, threshold: real, state: Enrollment, e: Embedding)
    requires IsRoot(root) && threshold >= 0.0
    ensures Verdict(root, threshold, state, e).ok <==> IsRecognised(root, threshold, state, e)
  {
    hide Similarity, BestScore, IsRoot, PointsAlike, Candidates;
    if state.templates != [] && IsValid(e) {
      BestScoreIsBest(root, Candidates(state), Values(e));
      forall c | |c| == |e|
        ensures c in Candidates(state) <==> IsEnrolledVector(state, c)
        ensures PointsAlike(root, threshold, c, Values(e)) <==> Similarity(root, c, Values(e)) > threshold
      {
        CandidatesAreEnrolled(state, c);
        AlikeExactlyWhenSimilar(root, threshold, c, Values(e));
      }
    }
  }

  /** Some enrolled vector has the dimension of this one. */
  ghost predicate HasDimension(state: Enrollment, e: Embedding) {
    exists c :: IsEnrolledVector(state, c) && |c| == |e|
  }

  /**
   Every verdict gives its reason, and the score it is read from: the cosine of an enrolled vector that no
   other exceeds, or zero where there was nothing to compare.
   */
  lemma {:induction false} VerdictIsExplained(root: real -> real, threshold: real, state: Enrollment, e: Embedding)
    ensures var verdict := Verdict(root, threshold, state, e);
      && verdict.threshold == threshold
      && (verdict.reason.NotEnrolled? <==> state.templates == [])
      && (verdict.reason.EmptyEmbedding? <==> state.templates != [] && e == [])
      && (verdict.reason.InvalidEmbedding? <==> state.templates != [] && e != [] && !IsValid(e))
      && (verdict.reason.DimensionMismatch? <==> state.templates != [] && IsValid(e) && !HasDimension(state, e))
      && (verdict.reason.Ok? <==> verdict.ok)
      && (verdict.reason.Ok? || verdict.reason.BelowThreshold? <==>
            state.templates != [] && IsValid(e) && HasDimension(state, e))
      && (if state.templates != [] && IsValid(e) && HasDimension(state, e)
          then IsBestCosine(root, state, Values(e), verdict.score) && (verdict.ok <==> verdict.score > threshold)
          else verdict.score == 0.0)
  {
    hide Similarity, BestScore, Candidates;
    if state.templates != [] && IsValid(e) {
      BestScoreIsBest(root, Candidates(state), Values(e));
      forall c | |c| == |e| ensures c in Candidates(state) <==> IsEnrolledVector(state, c) {
        CandidatesAreEnrolled(state, c);
      }
    }
  }

  /** The similarity of some enrolled vector of this dimension, and of none a smaller one. */
  ghost predicate IsBestCosine(root: real -> real, state: Enrollment, v: Vector, score: real) {
    && (exists c :: IsEnrolledVector(state, c) && |c| == |v| && Similarity(root, c, v) == score)
    && (forall c | IsEnrolledVector(state, c) && |c| == |v| :: Similarity(root, c, v) <= score)
  }

  /** Every score lies between minus one and one. */
  lemma {:induction false} ScoresAreCosines(root: real -> real, threshold: real, state: Enrollment, e: Embedding)
    requires IsRoot(root)
    ensures -1.0 <= Verdict(root, threshold, state, e).score <= 1.0
  {
    hide Similarity, BestScore;
    if state.templates != [] && IsValid(e) {
      var best := BestScore(root, Candidates(state), Values(e));
      BestScoreIsBest(root, Candidates(state), Values(e));
      if best.Some? {
        var c :| c in Candidates(state) && |c| == |Values(e)| && Similarity(root, c, Values(e)) == best.value;
        SimilarityIsBounded(root, c, Values(e));
      }
    }
  }

  /** Speaking louder or softer changes nothing. */
  lemma {:induction false} LoudnessDoesNotMatter(
    root: real -> real, threshold: real, state: Enrollment, e: Embedding, louder: Embedding, k: real)
    requires IsRoot(root) && k > 0.0 && IsValid(e) && louder == Samples(Scaled(k, Values(e)))
    ensures IsRecognised(root, threshold, state, louder) <==> IsRecognised(root, threshold, state, e)
  {
    hide PointsAlike, IsRoot;
    assert Values(louder) == Scaled(k, Values(e));
    forall c: Vector | |c| == |e|
      ensures PointsAlike(root, threshold, c, Values(louder)) <==> PointsAlike(root, threshold, c, Values(e))
    {
      LouderPointsTheSame(root, threshold, k, c, Values(e));
    }
  }

  lemma LouderPointsTheSame(root: real -> real, threshold: real, k: real, c: Vector, v: Vector)
    requires IsRoot(root) && k > 0.0 && |c| == |v|
    ensures PointsAlike(root, threshold, c, Scaled(k, v)) <==> PointsAlike(root, threshold, c, v)
  {
    hide IsRoot, Times;
    DotIsSymmetric(c, v, |v|);
    DotIsSymmetric(c, Scaled(k, v), |v|);
    DotOfScaled(k, v, c, |v|);
    DotWithItself(v, |v|);
    RootOfScaled(root, k, Dot(v, v, |v|));
    ScaledComparison(k, Dot(c, v, |v|), threshold, Root(root, Dot(c, c, |c|)), Root(root, Dot(v, v, |v|)));
  }

  lemma ScaledComparison(k: real, d: real, t: real, x: real, y: real)
    requires k > 0.0
    ensures Times(k, d) > Times(t, Times(x, Times(k, y))) <==> d > Times(t, Times(x, y))
  {
    var bound := t * (x * y);
    assert t * (x * (k * y)) == k * bound;
    if d > bound {
      assert k * (d - bound) > 0.0;
    } else {
      assert k * (bound - d) >= 0.0;
    }
  }

  /** An enrolled template that is not silent is accepted. */
  lemma {:induction false} OwnTemplateIsAccepted(root: real -> real, threshold: real, state: Enrollment, e: Embedding)
    requires IsRoot(root) && threshold < 1.0 && IsValid(e) && Values(e) in state.templates
    requires exists i :: 0 <= i < |e| && e[i].r != 0.0
    ensures Verdict(root, threshold, state, e).ok
  {
    hide Similarity, IsRoot, BestScore;
    var v := Values(e);
    LengthlessIsZero(v, |v|);
    SimilarityWithItself(root, 1.0, v);
    SimilarityIgnoresScale(root, 1.0, v, v);
    assert v in Candidates(state);
    BestScoreIsBest(root, Candidates(state), v);
  }

  /** With a positive threshold, acceptance can be read off the score: every refusal without a score scores zero. */
  lemma AcceptedByScore(root: real -> real, threshold: real, state: Enrollment, e: Embedding)
    requires threshold > 0.0
    ensures Verdict(root, threshold, state, e).ok <==> Verdict(root, threshold, state, e).score > threshold
  {
    hide BestScore;
  }

  function Windows(embeddings: seq<Embedding>): (windows: seq<Embedding>)
    ensures |windows| == (if |embeddings| < 4 then |embeddings| else 4) && windows <= embeddings
  {
    if |embeddings| <= MAX_WINDOWS then embeddings else embeddings[..MAX_WINDOWS]
  }

  /** One of the windows would be accepted on its own. */
  ghost predicate SomeIsRecognised(root: real -> real, threshold: real, state: Enrollment, windows: seq<Embedding>) {
    exists k :: 0 <= k < |windows| && IsRecognised(root, threshold, state, windows[k])
  }

  /** None of the first n windows scores higher than this one. */
  ghost predicate IsBestUpTo(
    root: real -> real, threshold: real, state: Enrollment, windows: seq<Embedding>, n: nat, best: nat)
    requires best < n <= |windows|
  {
    forall k | 0 <= k < n ::
      Verdict(root, threshold, state, windows[k]).score <= Verdict(root, threshold, state, windows[best]).score
  }

  lemma BestGrows(root: real -> real, threshold: real, state: Enrollment, windows: seq<Embedding>, n: nat, best: nat)
    requires best < n < |windows| && IsBestUpTo(root, threshold, state, windows, n, best)
    ensures var next := Verdict(root, threshold, state, windows[n]).score;
      IsBestUpTo(root, threshold, state, windows, n + 1,
                 if next > Verdict(root, threshold, state, windows[best]).score then n else best)
  {
    hide Verdict;
  }

  /** The result is the verdict on a window that scores highest, relabelled when it accepts. */
  ghost predicate IsBestVerdict(
    root: real -> real, threshold: real, state: Enrollment, windows: seq<Embedding>, result: VerifyResult)
  {
    exists k :: 0 <= k < |windows| && IsBestUpTo(root, threshold, state, windows, |windows|, k)
      && result == Relabelled(Verdict(root, threshold, state, windows[k]))
  }

  function Relabelled(result: VerifyResult): VerifyResult {
    if result.ok then result.(reason := OkWindow) else result
  }

  /** So the best window decides for all of them: it is accepted exactly when some window is. */
  lemma {:induction false} BestWindowDecides(
    root: real -> real, threshold: real, state: Enrollment, windows: seq<Embedding>, best: nat)
    requires IsRoot(root) && threshold > 0.0 && best < |windows|
             && IsBestUpTo(root, threshold, state, windows, |windows|, best)
    ensures Verdict(root, threshold, state, windows[best]).ok <==> SomeIsRecognised(root, threshold, state, windows)
    ensures IsBestVerdict(
              root, threshold, state, windows, Relabelled(Verdict(root, threshold, state, windows[best])))
  {
    hide Verdict, IsRecognised, IsRoot;
    forall k | 0 <= k < |windows|
      ensures Verdict(root, threshold, state, windows[k]).ok <==> IsRecognised(root, threshold, state, windows[k])
      ensures Verdict(root, threshold, state, windows[k]).ok <==>
              Verdict(root, threshold, state, windows[k]).score > threshold
    {
      AcceptedExactlyWhenRecognised(root, threshold, state, windows[k]);
      AcceptedByScore(root, threshold, state, windows[k]);
    }
  }

  // ---------- Enrolment and its file ----------

  /** What a stored file enrols, if anything: templates first, a lone embedding of the older form second. */
  ghost predicate IsLoaded(file: Option<VoiceFile>, state: Enrollment) {
    if file.None? then state == Nobody()
    else if IsTemplateFile(file.value) then
      && state.templates == AllValues(file.value.templates.value)
      && state.centroid.Some? && IsMean(state.templates, state.centroid.value) && state.version == 2
    else if file.value.embedding.Some? && IsValid(file.value.embedding.value) then
      var legacy := Values(file.value.embedding.value);
      state == Enrollment([legacy], Some(legacy), 1)
    else state == Nobody()
  }

  function Nobody(): Enrollment {
    Enrollment([], None, 0)
  }

  predicate IsTemplateFile(file: VoiceFile) {
    file.templates.Some? && |file.templates.value| <= MAX_TEMPLATES && AreUniform(file.templates.value)
  }

  /** An enrolment: nobody, or some templates and their centroid. */
  ghost predicate IsEnrollment(state: Enrollment) {
    if state.templates == [] then state == Nobody()
    else state.centroid.Some? && IsMean(state.templates, state.centroid.value)
  }

  function AllSamples(vectors: seq<Vector>): (r: seq<Embedding>)
    ensures |r| == |vectors| && forall k | 0 <= k < |vectors| :: r[k] == Samples(vectors[k])
  {
    seq(|vectors|, k requires 0 <= k < |vectors| => Samples(vectors[k]))
  }

  /** What is written for some templates reads back as those templates. */
  lemma SavedTemplates(embeddings: seq<Embedding>)
    requires forall e | e in embeddings :: IsValid(e)
    ensures AllSamples(AllValues(embeddings)) == embeddings
  {
    forall k | 0 <= k < |embeddings| ensures AllSamples(AllValues(embeddings))[k] == embeddings[k] {
      var e := embeddings[k];
      assert e in embeddings && IsValid(e);
      assert forall i | 0 <= i < |e| :: e[i] in e;
      assert Samples(Values(e)) == e;
    }
  }

  /** A file enrols one state. */
  lemma LoadingIsDetermined(file: Option<VoiceFile>, a: Enrollment, b: Enrollment)
    requires IsLoaded(file, a) && IsLoaded(file, b)
    ensures a == b
  {
    if file.Some? && IsTemplateFile(file.value) {
      MeanIsDetermined(a.templates, a.centroid.value, b.centroid.value);
    }
  }

  class VoiceStore {
    var file: Option<VoiceFile>

    constructor (file: Option<VoiceFile>)
      ensures this.file == file
    {
      this.file := file;
    }
  }

  class SpeakerAuth {
    const root: real -> real
    const threshold: real
    const store: VoiceStore
    var enrolledEmbedding: Option<Vector>
    var enrolledEmbeddings: seq<Vector>
    var enrollmentVersion: nat

    ghost function State(): Enrollment
      reads this
    {
      Enrollment(enrolledEmbeddings, enrolledEmbedding, enrollmentVersion)
    }

    ghost predicate Valid()
      reads this
    {
      IsRoot(root) && 0.0 < threshold < 1.0 && IsEnrollment(State())
    }

    /** Enrolled already, or enrolled from the file. */
    twostate predicate IsCurrent()
      reads this, store
    {
      if old(enrolledEmbeddings) != [] then State() == old(State()) else IsLoaded(store.file, State())
    }

    constructor (root: real -> real, threshold: real, store: VoiceStore)
      requires IsRoot(root) && 0.0 < threshold < 1.0
      ensures Valid() && State() == Nobody()
      ensures this.root == root && this.threshold == threshold && this.store == store
    {
      this.root, this.threshold, this.store := root, threshold, store;
      enrolledEmbedding, enrolledEmbeddings, enrollmentVersion := None, [], 0;
    }

    method Load()
      requires Valid() && enrolledEmbeddings == []
      modifies this
      ensures Valid() && IsLoaded(store.file, State())
    {
      if store.file.None? {
        return;
      }
      var data := store.file.value;
      if data.templates.Some? && 0 < |data.templates.value| <= MAX_TEMPLATES {
        if AreUniform(data.templates.value) {
          var centroid := Mean(data.templates.value);
          enrolledEmbeddings := AllValues(data.templates.value);
          enrolledEmbedding := Some(centroid.mean);
          enrollmentVersion := 2;
          return;
        }
      }
      if data.embedding.Some? && IsValid(data.embedding.value) {
        var legacy := Values(data.embedding.value);
        enrolledEmbedding := Some(legacy);
        enrolledEmbeddings := [legacy];
        enrollmentVersion := 1;
        MeanOfOne(legacy);
      }
    }

    method IsEnrolled() returns (enrolled: bool)
      requires Valid()
      modifies this
      ensures Valid() && IsCurrent() && enrolled == (enrolledEmbeddings != [])
    {
      if enrolledEmbeddings != [] {
        return true;
      }
      Load();
      return enrolledEmbeddings != [];
    }

    /** Enrols exactly the given templates and writes them to the file, or changes nothing. */
    method EnrollFromEmbeddings(embeddings: seq<Embedding>) returns (r: MeanResult)
      requires Valid()
      modifies this, store
      ensures Valid()
      ensures r.Centroid? <==> AreUniform(embeddings) && |embeddings| <= MAX_TEMPLATES
      ensures r.Centroid? ==> State() == Enrollment(AllValues(embeddings), Some(r.mean), 2)
      ensures r.Centroid? ==> IsLoaded(store.file, State())
      ensures !r.Centroid? ==> State() == old(State()) && store.file == old(store.file)
    {
      if |embeddings| > MAX_TEMPLATES {
        return TooMany;
      }
      r := Mean(embeddings);
      if !r.Centroid? {
        return;
      }
      enrolledEmbeddings := AllValues(embeddings);
      enrolledEmbedding := Some(r.mean);
      enrollmentVersion := 2;
      store.file := Some(VoiceFile(Some(AllSamples(enrolledEmbeddings)), Some(Samples(r.mean))));
      SavedTemplates(embeddings);
    }

    method VerifyEmbedding(embedding: Embedding) returns (result: VerifyResult)
      requires Valid()
      modifies this
      ensures Valid() && IsCurrent()
      ensures result == Verdict(root, threshold, State(), embedding)
      ensures result.ok <==> IsRecognised(root, threshold, State(), embedding)
    {
      hide IsRecognised, IsRoot, BestScore, IsLoaded, IsEnrollment;
      var enrolled := IsEnrolled();
      AcceptedExactlyWhenRecognised(root, threshold, State(), embedding);
      if !enrolled {
        return VerifyResult(false, 0.0, threshold, NotEnrolled);
      }
      if embedding == [] {
        return VerifyResult(false, 0.0, threshold, EmptyEmbedding);
      }
      if !IsValid(embedding) {
        return VerifyResult(false, 0.0, threshold, InvalidEmbedding);
      }
      var candidates := enrolledEmbeddings;
      if enrolledEmbedding.Some? && enrolledEmbedding.value != [] {
        candidates := candidates + [enrolledEmbedding.value];
      }
      assert candidates == Candidates(State());
      var best := Best(candidates, Values(embedding));
      if best.None? {
        return VerifyResult(false, 0.0, threshold, DimensionMismatch);
      }
      var accepted := best.value > threshold;
      return VerifyResult(accepted, best.value, threshold, if accepted then Ok else BelowThreshold);
    }

    method Best(candidates: seq<Vector>, v: Vector) returns (best: Option<real>)
      ensures best == BestScore(root, candidates, v)
    {
      best := None;
      for k := 0 to |candidates|
        invariant best == BestScore(root, candidates[..k], v)
      {
        assert candidates[..k + 1][..k] == candidates[..k];
        if |candidates[k]| == |v| {
          var score := CosineSimilarity(root, candidates[k], v);
          if best.None? || best.value < score {
            best := Some(score);
          }
        }
      }
      assert candidates[..|candidates|] == candidates;
    }

    /** Accepts exactly when one of the first four windows would be accepted on its own. */
    method VerifyEmbeddings(embeddings: seq<Embedding>) returns (result: VerifyResult)
      requires Valid()
      modifies this
      ensures Valid()
      ensures if embeddings == [] then State() == old(State()) else IsCurrent()
      ensures result.ok <==> SomeIsRecognised(root, threshold, State(), Windows(embeddings))
      ensures embeddings != [] ==> IsBestVerdict(root, threshold, State(), Windows(embeddings), result)
      ensures embeddings == [] ==> result == VerifyResult(false, 0.0, threshold, EmptyEmbedding)
    {
      if embeddings == [] {
        return VerifyResult(false, 0.0, threshold, EmptyEmbedding);
      }
      hide Verdict, SomeIsRecognised, IsBestVerdict, IsBestUpTo, IsLoaded, IsEnrollment, Windows, IsRoot;
      var windows := Windows(embeddings);
      var best := VerifyEmbedding(windows[0]);
      ghost var chosen := 0;
      for k := 1 to |windows|
        invariant Valid() && IsCurrent()
        invariant 0 <= chosen < k && best == Verdict(root, threshold, State(), windows[chosen])
        invariant IsBestUpTo(root, threshold, State(), windows, k, chosen)
      {
        var next := VerifyAgain(windows[k]);
        BestGrows(root, threshold, State(), windows, k, chosen);
        if next.score > best.score {
          best, chosen := next, k;
        }
      }
      BestWindowDecides(root, threshold, State(), windows, chosen);
      result := VerifyResult(best.ok, best.score, best.threshold, if best.ok then OkWindow else best.reason);
    }

    /** A verification that finds the file as it was read before finds the same enrolment. */
    method VerifyAgain(embedding: Embedding) returns (result: VerifyResult)
      requires Valid() && (enrolledEmbeddings == [] ==> IsLoaded(store.file, State()))
      modifies this
      ensures Valid() && State() == old(State())
      ensures result == Verdict(root, threshold, State(), embedding)
    {
      hide Verdict, IsLoaded, IsEnrollment, IsRoot;
      ghost var before := State();
      result := VerifyEmbedding(embedding);
      if before.templates == [] {
        LoadingIsDetermined(store.file, before, State());
      }
    }
  }
}
