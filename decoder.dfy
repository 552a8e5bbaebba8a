/** The output decoder of the detection loop (process_output in
    main/main.cpp): shape dispatch, first-maximum scan over the int8 scores,
    confidence mapping, label-table check and the detection decision. */
module OutputDecoder {
  import opened Argmax

  /** The output tensor's dimensions (batch, channels, height, width). */
  datatype Dims = Dims(n: int, c: int, h: int, w: int)

  /** What one decode reports. */
  datatype Outcome =
      /** Any shape other than (1, c, 1, 1): only the dimensions are reported. */
    | Unrecognized(n: int, c: int, h: int, w: int)
      /** The scan's winning id does not index the label table (-1 included). */
    | InvalidClass(badId: int)
      /** A labelled classification; `detected` is the "motherboard detected" report. */
    | Classified(classId: nat, name: string, score: int8, confidence: real, detected: bool)

  /** The label table `class_names`. */
  const ClassNames: seq<string> := ["motherboard", "background"]

  /** The class whose confident selection is reported as a detection. */
  const MotherboardClass: nat := 0

  /** DETECTION_THRESHOLD. */
  const DetectionThreshold: real := 0.5

  /** The classification layout: a single vector of `c` scores. */
  predicate IsClassification(d: Dims)
  {
    d.n == 1 && d.h == 1 && d.w == 1
  }

  /** How many scores the classification scan visits: `c`, or none when the
      channel count is not positive. */
  function ScoreCount(d: Dims): nat
  {
    if d.c < 0 then 0 else d.c
  }

  /** The tensor holds every score the classification scan reads. */
  predicate ScoresPresent(d: Dims, len: int)
  {
    IsClassification(d) ==> ScoreCount(d) <= len
  }

  /** The confidence (s + 128) / 255 of a raw score, computed exactly. */
  function Confidence(s: int8): (r: real)
    ensures 0.0 <= r <= 1.0
    ensures s > NoScore ==> 0.0 < r
    ensures r == 1.0 <==> s == 127
    ensures r > DetectionThreshold <==> s >= 0
  {
    (s as int + 128) as real / 255.0
  }

  /** The branches after the scan: label-table check, then detection rule. */
  function Judge(score: int8, classId: int): (o: Outcome)
    ensures o.Classified? <==> 0 <= classId < |ClassNames|
    ensures o.InvalidClass? <==> !(0 <= classId < |ClassNames|)
    ensures o.InvalidClass? ==> o.badId == classId
    ensures o.Classified? ==>
      (o.classId == classId && o.score == score
       && o.name == ClassNames[classId]
       && o.confidence == Confidence(score)
       && (o.detected <==> classId == MotherboardClass && score >= 0))
  {
    if 0 <= classId < |ClassNames| then
      Classified(classId, ClassNames[classId], score, Confidence(score),
                 classId == MotherboardClass && Confidence(score) > DetectionThreshold)
    else
      InvalidClass(classId)
  }

  /** The whole decode, as a function of the output tensor's dims and data. */
  function Decode(d: Dims, data: seq<int8>): (o: Outcome)
    requires ScoresPresent(d, |data|)
    ensures o.Unrecognized? <==> !IsClassification(d)
    ensures o.Unrecognized? ==> o == Unrecognized(d.n, d.c, d.h, d.w)
  {
    if IsClassification(d) then
      var (score, classId) := Scan(data[..ScoreCount(d)]);
      Judge(score, classId)
    else
      Unrecognized(d.n, d.c, d.h, d.w)
  }

  /** process_output: reads the first `c` scores of the tensor, without a
      `modifies` clause so it cannot change the tensor. */
  method ProcessOutput(dims: Dims, data: array<int8>) returns (o: Outcome)
    requires ScoresPresent(dims, data.Length)
    ensures o == Decode(dims, data[..])
  {
    if dims.n == 1 && dims.h == 1 && dims.w == 1 {
      var numClasses := dims.c;
      var maxScore: int8 := NoScore;
      var maxClassId := NoClass;
      var i := 0;
      while i < numClasses
        invariant 0 <= i <= ScoreCount(dims)
        invariant (maxScore, maxClassId) == Scan(data[..i])
      {
        var score := data[i];
        assert data[..i + 1][..i] == data[..i];
        if score > maxScore {
          maxScore := score;
          maxClassId := i;
        }
        i := i + 1;
      }
      assert data[..][..ScoreCount(dims)] == data[..i];
      var confidence := (maxScore as int + 128) as real / 255.0;
      if 0 <= maxClassId && maxClassId < |ClassNames| {
        var detected := maxClassId == MotherboardClass && confidence > DetectionThreshold;
        o := Classified(maxClassId, ClassNames[maxClassId], maxScore, confidence, detected);
      } else {
        o := InvalidClass(maxClassId);
      }
    } else {
      o := Unrecognized(dims.n, dims.c, dims.h, dims.w);
    }
  }

  /** The decoder reads only the first `c` scores: two tensors of the same
      shape whose first `c` entries agree decode alike. */
  lemma DecodeReadsOnlyScores(d: Dims, a: seq<int8>, b: seq<int8>)
    requires ScoresPresent(d, |a|) && ScoresPresent(d, |b|)
    requires IsClassification(d) ==> a[..ScoreCount(d)] == b[..ScoreCount(d)]
    ensures Decode(d, a) == Decode(d, b)
  {
  }

  /** The sentinel case: with no scores, or only -128 scores, a
      classification-shaped tensor decodes to the invalid id -1, never to a
      classification. */
  lemma SentinelIsInvalid(d: Dims, data: seq<int8>)
    requires ScoresPresent(d, |data|) && IsClassification(d)
    requires forall j :: 0 <= j < ScoreCount(d) ==> data[j] == NoScore
    ensures Decode(d, data) == InvalidClass(NoClass)
  {
    var s := data[..ScoreCount(d)];
    assert AllSentinel(s);
    SentinelIff(s);
  }

  /** A classification reports the first maximum of the first `c` scores,
      that maximum beats -128, and the id indexes the 2-entry label table. */
  lemma ClassifiedIsFirstMax(d: Dims, data: seq<int8>)
    requires ScoresPresent(d, |data|)
    requires Decode(d, data).Classified?
    ensures var o := Decode(d, data);
      IsClassification(d) &&
      o.classId < |ClassNames| && o.classId < ScoreCount(d) &&
      IsFirstMax(data[..ScoreCount(d)], o.classId) &&
      data[o.classId] == o.score && o.score > NoScore &&
      0.0 < o.confidence <= 1.0
  {
    var s := data[..ScoreCount(d)];
    ScanOutcome(s);
  }

  /** Label-table check, both directions: a classification-shaped tensor
      decodes to a classification with id `k` exactly when `k` is the first
      maximum, beats -128 and is below 2; otherwise the id is invalid. */
  lemma ClassifiedIff(d: Dims, data: seq<int8>, k: int)
    requires ScoresPresent(d, |data|) && IsClassification(d)
    ensures var s := data[..ScoreCount(d)];
      (Decode(d, data).Classified? && Decode(d, data).classId == k)
        <==> (IsFirstMax(s, k) && s[k] > NoScore && k < |ClassNames|)
    ensures Decode(d, data).InvalidClass? || Decode(d, data).Classified?
  {
    if 0 <= k {
      ScanSelectsFirstMax(data[..ScoreCount(d)], k);
    }
  }

  /** An id of 2 or more can win the scan (when there are more than two
      classes) and then goes to the invalid path. */
  lemma ThirdClassIsInvalid(d: Dims, data: seq<int8>, k: int)
    requires ScoresPresent(d, |data|) && IsClassification(d)
    requires k >= |ClassNames| && IsFirstMax(data[..ScoreCount(d)], k) && data[k] > NoScore
    ensures Decode(d, data) == InvalidClass(k)
  {
    ScanSelectsFirstMax(data[..ScoreCount(d)], k);
  }

  /** Detection rule: "motherboard detected" is reported exactly when the
      decode is a classification of class 0 with a non-negative raw score,
      i.e. confidence above 0.5; every other valid id or score is a negative
      report, not an error. */
  lemma DetectionRule(d: Dims, data: seq<int8>)
    requires ScoresPresent(d, |data|)
    ensures var o := Decode(d, data);
      (o.Classified? && o.detected) <==>
      (IsClassification(d) && 0 < ScoreCount(d)
       && IsFirstMax(data[..ScoreCount(d)], MotherboardClass)
       && data[MotherboardClass] >= 0)
  {
    if IsClassification(d) {
      var s := data[..ScoreCount(d)];
      ScanSelectsFirstMax(s, MotherboardClass);
      ScanOutcome(s);
      if 0 < ScoreCount(d) {
        assert s[MotherboardClass] == data[MotherboardClass];
      }
    }
  }

  /** Ties go to the lower index: two equal top scores in classes 0 and 1
      select class 0. */
  lemma TieGoesToLowerIndex(d: Dims, data: seq<int8>)
    requires ScoresPresent(d, |data|) && IsClassification(d) && d.c >= 2
    requires data[0] == data[1] > NoScore
    requires forall j :: 0 <= j < d.c ==> data[j] <= data[0]
    ensures Decode(d, data).Classified? && Decode(d, data).classId == 0
  {
    var s := data[..ScoreCount(d)];
    assert IsFirstMax(s, 0);
    ScanSelectsFirstMax(s, 0);
  }

  /** Scores [10, 90, -128, -128]: class 1 ("background") wins with raw 90,
      which is a negative report because only class 0 is the motherboard. */
  lemma FourClassExample()
    ensures Decode(Dims(1, 4, 1, 1), [10, 90, -128, -128])
      == Classified(1, "background", 90, 218.0 / 255.0, false)
  {
    var s: seq<int8> := [10, 90, -128, -128];
    assert s[..4] == s;
    assert Scan(s[..1]) == (10, 0);
    assert Scan(s[..2]) == (90, 1);
    assert s[..3][..2] == s[..2] && s[..2][..1] == s[..1];
    assert Scan(s[..3]) == (90, 1);
  }
}
