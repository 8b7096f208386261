/** The value types every layer shares: products, vision candidates, load-cell
    segments, judgements and sensor profiles. Floats are modelled as `real`. */
module Types {

  // Product ids are opaque keys: only compared (and sorted for display).
  type ProductId = int

  datatype Option<+T> = None | Some(value: T)

  datatype ActiveProduct = ActiveProduct(
    productId: ProductId,
    classId: int,
    unitWeight: real,
    unitPrice: int,
    stockQty: int)

  // `confidence`, `voteCount` and `voteRatio` are the fields a judgement reads.
  datatype VisionCandidate = VisionCandidate(
    classId: int,
    confidence: real,
    voteCount: int,
    voteRatio: real)

  datatype WeightSegment = WeightSegment(startTs: real, endTs: real, deltaGrams: real)

  datatype ProductCount = ProductCount(product: ActiveProduct, count: nat)

  datatype JudgmentStatus = Complete | Partial | NoDetection | Suppressed | Error

  /** A reason string is a `+`-joined list of codes; `refit` and `near_gate` are
      the two substrings the settlement looks for. */
  datatype Reason =
    | VisionOnly
    | NoVisionCandidates
    | FreezerSingle
    | FreezerSingleArbitrated
    | FreezerSegmentCombo
    | FreezerNearGate
    | FreezerNearGateLowConf
    | FreezerCombo
    | FreezerUniqueRefit
    | FreezerRefitArbitrated
    | SegmentWeightMatching
    | StageCountCombo
    | LoadcellIdentitySuppressed
    | NoCandidatesForcedFinal
    | WeightOnlyAmbiguous
    | WeightOnly
    | BelowMinWeightChange
    | SameWeightCollisionGuard
    | StrictMatch
    | SameProductCount
    | RelaxedCombination
    | RelaxedPartial
    | VisionIdentityWeightValidated
    | VisionFirstIdentityPartial
    | RelaxedLoadcellOnly
    | DetectedSingleItemFallback
    | ForcedFinalNoMatch
    | PipelineExhausted
    | FullDeltaUnexplained
    | CrossZoneVisionPenalty
    | CrossZoneContaminationPruned
    | CrossZoneContaminatedPartialSuppressed
    | GhostDemotion
    | PoolExhaustion
    | SegmentTargetRetry

  predicate MentionsRefit(reason: seq<Reason>) {
    FreezerUniqueRefit in reason || FreezerRefitArbitrated in reason
  }

  predicate MentionsNearGate(reason: seq<Reason>) {
    FreezerNearGate in reason || FreezerNearGateLowConf in reason
  }

  datatype JudgmentResult = JudgmentResult(
    status: JudgmentStatus,
    products: seq<ProductCount>,
    confidence: real,
    reason: seq<Reason>)

  /** `n` units of weight `w`, as repeated addition. */
  function Times(n: nat, w: real): real { if n == 0 then 0.0 else w + Times(n - 1, w) }

  function SumWeight(pcs: seq<ProductCount>): real {
    if pcs == [] then 0.0 else Times(pcs[0].count, pcs[0].product.unitWeight) + SumWeight(pcs[1..])
  }

  function SumCount(pcs: seq<ProductCount>): nat {
    if pcs == [] then 0 else pcs[0].count + SumCount(pcs[1..])
  }

  datatype SensorProfile = SensorProfile(
    toleranceGrams: real,
    weightIsDiscriminative: bool,
    countGateTolerance: Option<real>,
    minWeightChangeGrams: real,
    segmentStepGrams: real)
  {
    function CountGate(): real {
      if countGateTolerance.Some? then countGateTolerance.value else toleranceGrams
    }
  }

  datatype EventStatus = EventOk | EventError

  datatype TriggerEvent = TriggerEvent(
    zone: int,
    ts: real,
    deltaWeight: real,
    segments: seq<WeightSegment>,
    judgment: JudgmentResult,
    status: EventStatus,
    visionCandidates: seq<VisionCandidate>,
    videoPaths: seq<(string, string)>,
    changeTimestamps: seq<real>)

  /** Per-zone profiles with a machine-wide fallback. */
  function ProfileOf(profiles: map<int, SensorProfile>, zone: int, fallback: SensorProfile): SensorProfile {
    if zone in profiles then profiles[zone] else fallback
  }

  function Abs(x: real): real { if x < 0.0 then -x else x }
  function RMax(x: real, y: real): real { if x < y then y else x }
  function RMin(x: real, y: real): real { if y < x then y else x }
  function Max(x: int, y: int): int { if x < y then y else x }
  function Min(x: int, y: int): int { if y < x then y else x }

  /** Python's `round`: nearest integer, ties to even. */
  function Round(x: real): (n: int)
    ensures Abs(x - n as real) <= 0.5
  {
    var f := x.Floor;
    var d := x - f as real;
    if d < 0.5 || (d == 0.5 && f % 2 == 0) then f else f + 1
  }

  /** Python's `int(x)`: truncation towards zero. */
  function Trunc(x: real): int { if x >= 0.0 then x.Floor else -((-x).Floor) }
}
