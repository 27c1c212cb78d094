/** The value vector of an action (predict/valueVector.js): eight sub-scores,
    a clamped value density and an ordered list of explanation lines.
    Numbers are reals; dates are millisecond timestamps. */
module ValueVector {
  import opened Common

  // ---------------------------------------------------------------------------
  // Inputs
  // ---------------------------------------------------------------------------

  const INTRODUCTION: string := "INTRODUCTION"
  const ISSUE: string := "ISSUE"
  const PREISSUE: string := "PREISSUE"
  const GOAL: string := "GOAL"

  /** Milliseconds in a day: `1000 * 60 * 60 * 24`. */
  const DAY_MS: int := 86400000

  datatype Issue = Issue(kind: Option<string>, goalType: Option<string>)

  /** The `impact` record an action may carry. */
  datatype Impact = Impact(
    secondOrderLeverage: Option<real>,
    effortCost: Option<real>,
    probabilityOfSuccess: Option<real>)

  datatype TrustRisk = TrustRisk(score: Option<real>, band: Option<string>)

  /** The fields of an action the scorer and the weekly selector read; `kind`
      is the JavaScript `type` field, and a missing list is the empty list,
      which every reader treats alike. */
  datatype Action = Action(
    id: string,
    title: Option<string>,
    kind: Option<string>,
    sourceType: Option<string>,
    issue: Option<Issue>,
    impact: Option<Impact>,
    targetOrg: Option<string>,
    targetPersonName: Option<string>,
    targetPersonRole: Option<string>,
    unlocksGoals: seq<string>,
    resolvesList: seq<string>,
    optionalityGain: Option<real>,
    goalType: Option<string>,
    trustRisk: Option<TrustRisk>,
    probability: Option<real>,
    companyId: Option<string>,
    entityRefId: Option<string>,
    valueVector: Option<Vector>)

  /** A company goal; `kind` is its `type` and `due` the parsed due date. */
  datatype Goal = Goal(
    id: string,
    name: Option<string>,
    kind: Option<string>,
    status: Option<string>,
    current: real,
    target: real,
    due: Option<int>)

  // ---------------------------------------------------------------------------
  // The vector
  // ---------------------------------------------------------------------------

  datatype Band = Critical | High | Medium | Low

  datatype TimeSensitivity = TimeSensitivity(band: Band, multiplier: real, daysRemaining: Option<int>)

  /** The reasons `calculateDownsideProtection` records, one per grant. */
  datatype DownsideReason =
    | ForecastedIssue   // "Prevents forecasted issue"
    | CashCrisis        // "Prevents cash crisis"
    | MissedDeadline    // "Prevents missed deadline"
    | DeadlineRisk      // "Reduces deadline risk"
    | BlindSpots        // "Prevents blind spots"

  datatype Downside = Downside(score: real, reasons: seq<DownsideReason>)

  /** The deltas `calculateRippleEffect` records, one per grant. */
  datatype RippleDelta =
    | NewConnection               // relationship: "New connection in network"
    | PortfolioNetwork            // portfolio: "Strengthens portfolio network"
    | UnlocksGoals(count: nat)    // goals: "Unlocks <count> downstream goals"
    | ResolvesIssues(count: nat)  // issues: "Resolves <count> issues"

  datatype Ripple = Ripple(score: real, deltas: seq<RippleDelta>)

  /** The options `calculateOptionalityGain` records, one per grant. */
  datatype OptionTag =
    | FundingOptions       // "Expands future funding options"
    | PartnershipPipeline  // "Opens partnership pipeline"
    | SeniorAccess         // "Access to senior decision-maker"

  datatype Optionality = Optionality(score: real, options: seq<OptionTag>)

  datatype CostPart = Effort(value: real) | TrustCost(value: real)

  datatype Cost = Cost(score: real, components: seq<CostPart>)

  /** The four additive dimensions, in the order `buildExplanation` lists them. */
  datatype Driver = DirectImpact | DownsideProtection | RippleEffect | OptionalityGain

  /** One explanation line; numbers are the `Math.round`ed values shown. */
  datatype Line =
    | PrimaryDriver(driver: Driver, score: int)  // "Primary value driver: <name> (<score>)"
    | HighProbability(percent: int)              // "High probability of success (<p>%)"
    | UncertainOutcome(percent: int)             // "Uncertain outcome (<p>% probability)"
    | TimeCritical(days: Option<int>)            // "Time-critical: <days> days remaining"
    | HighEffort(score: int)                     // "High effort required (<c>/100)"
    | LowEffort(score: int)                      // "Low effort action (<c>/100)"
    | TrustRiskLine(band: Option<string>)        // "Trust risk: <band>"
    | DensityLine(density: int)                  // "Value density: <d>/100"

  datatype Vector = Vector(
    directImpact: real,
    downside: Downside,
    ripple: Ripple,
    optionality: Optionality,
    probability: real,
    cost: Cost,
    time: TimeSensitivity,
    trustRisk: TrustRisk,
    valueDensity: real,
    explain: seq<Line>)

  // ---------------------------------------------------------------------------
  // Field access with JavaScript's fallbacks
  // ---------------------------------------------------------------------------

  /** `action.type || action.sourceType`. */
  function ActionType(a: Action): Option<string>
  {
    if TruthyString(a.kind) then a.kind else a.sourceType
  }

  /** `action.type === 'INTRODUCTION' || action.sourceType === 'INTRODUCTION'`. */
  predicate IsIntroduction(a: Action)
  {
    a.kind == Some(INTRODUCTION) || a.sourceType == Some(INTRODUCTION)
  }

  /** `action.issue?.type`. */
  function IssueType(a: Action): Option<string>
  {
    if a.issue.Some? then a.issue.value.kind else None
  }

  function Leverage(a: Action): Option<real>
  {
    if a.impact.Some? then a.impact.value.secondOrderLeverage else None
  }

  function EffortCost(a: Action): Option<real>
  {
    if a.impact.Some? then a.impact.value.effortCost else None
  }

  function TrustScore(a: Action): Option<real>
  {
    if a.trustRisk.Some? then a.trustRisk.value.score else None
  }

  // ---------------------------------------------------------------------------
  // calculateTimeSensitivity
  // ---------------------------------------------------------------------------

  function Multiplier(b: Band): real
  {
    match b
    case Critical => 2.0
    case High => 1.5
    case Medium => 1.0
    case Low => 0.7
  }

  /** `calculateTimeSensitivity(dueDate, now)`: whole days left, rounded down,
      put into one of four bands. */
  function CalculateTimeSensitivity(due: Option<int>, now: int): (t: TimeSensitivity)
    ensures t.multiplier == Multiplier(t.band)
    ensures due.None? ==> t.band == Medium && t.daysRemaining.None?
    ensures due.Some? ==> t.daysRemaining.Some?
    ensures due.Some? ==> var d := t.daysRemaining.value;
      && d * DAY_MS <= due.value - now < (d + 1) * DAY_MS
      && (t.band == Critical <==> d <= 7)
      && (t.band == High <==> 7 < d <= 21)
      && (t.band == Medium <==> 21 < d <= 45)
      && (t.band == Low <==> 45 < d)
  {
    if due.None? then TimeSensitivity(Medium, 1.0, None)
    else
      var days := (due.value - now) / DAY_MS;
      var band :=
        if days <= 7 then Critical
        else if days <= 21 then High
        else if days <= 45 then Medium
        else Low;
      TimeSensitivity(band, Multiplier(band), Some(days))
  }

  /** A later due date never raises the urgency multiplier. */
  lemma UrgencyMonotone(due1: int, due2: int, now: int)
    requires due1 <= due2
    ensures CalculateTimeSensitivity(Some(due2), now).multiplier
         <= CalculateTimeSensitivity(Some(due1), now).multiplier
  {
    var d1 := CalculateTimeSensitivity(Some(due1), now).daysRemaining.value;
    var d2 := CalculateTimeSensitivity(Some(due2), now).daysRemaining.value;
    assert d1 * DAY_MS <= due1 - now <= due2 - now < (d2 + 1) * DAY_MS;
  }

  /** Every multiplier lies between 0.7 and 2.0. */
  lemma MultiplierBounds(b: Band)
    ensures 0.7 <= Multiplier(b) <= 2.0
  {
  }

  // ---------------------------------------------------------------------------
  // calculateDirectImpact
  // ---------------------------------------------------------------------------

  /** The share of the gap an action of kind `kind` is assumed to close. */
  function ContributionRate(kind: Option<string>, goalType: Option<string>): (rate: real)
    ensures 0.1 <= rate <= 0.3
  {
    if kind == Some(INTRODUCTION) then
      if goalType == Some("fundraise") then 0.2
      else if goalType == Some("partnership") then 0.3
      else 0.1
    else if kind == Some(ISSUE) then 0.15
    else if kind == Some(PREISSUE) then 0.1
    else if kind == Some(GOAL) then 0.25
    else 0.1
  }

  /** `calculateDirectImpact(action, goal)`: the contribution as a percentage
      of the gap, clamped to [0, 100]; 0 without a goal or an open gap. */
  function CalculateDirectImpact(a: Action, goal: Option<Goal>): (r: real)
    ensures 0.0 <= r <= 100.0
    ensures r == 0.0 <==> goal.None? || goal.value.target - goal.value.current <= 0.0
    ensures goal.Some? && goal.value.target - goal.value.current > 0.0 ==>
      r == 100.0 * ContributionRate(ActionType(a), goal.value.kind)
  {
    if goal.None? then 0.0
    else
      var gap := goal.value.target - goal.value.current;
      if gap <= 0.0 then 0.0
      else
        var rate := ContributionRate(ActionType(a), goal.value.kind);
        var contribution := gap * rate;
        assert contribution / gap == rate;
        Min(100.0, Max(0.0, contribution / gap * 100.0))
  }

  /** The size of an open gap does not change the score. */
  lemma DirectImpactIgnoresGapSize(a: Action, g1: Goal, g2: Goal)
    requires g1.kind == g2.kind
    requires g1.target - g1.current > 0.0 && g2.target - g2.current > 0.0
    ensures CalculateDirectImpact(a, Some(g1)) == CalculateDirectImpact(a, Some(g2))
  {
  }

  /** An introduction toward a goal that is neither a fundraise nor a
      partnership, with an open gap, scores exactly 10 whatever the gap. */
  lemma IntroductionOnPlainGoal(a: Action, g: Goal)
    requires ActionType(a) == Some(INTRODUCTION)
    requires g.kind != Some("fundraise") && g.kind != Some("partnership")
    requires g.target - g.current > 0.0
    ensures CalculateDirectImpact(a, Some(g)) == 10.0
  {
  }

  // ---------------------------------------------------------------------------
  // calculateDownsideProtection
  // ---------------------------------------------------------------------------

  /** Position of each reason in the fixed order of the grants. */
  function DownsideRank(r: DownsideReason): nat
  {
    match r
    case ForecastedIssue => 0
    case CashCrisis => 1
    case MissedDeadline => 2
    case DeadlineRisk => 3
    case BlindSpots => 4
  }

  function DownsideGrant(r: DownsideReason): real
  {
    match r
    case ForecastedIssue => 40.0
    case CashCrisis => 50.0
    case MissedDeadline => 30.0
    case DeadlineRisk => 15.0
    case BlindSpots => 20.0
  }

  /** When each grant applies; `band` is the `timeSensitivity.band` passed in
      the context, if any. */
  predicate DownsideApplies(a: Action, band: Option<Band>, r: DownsideReason)
  {
    match r
    case ForecastedIssue => a.sourceType == Some(PREISSUE) || a.kind == Some(PREISSUE)
    case CashCrisis => IssueType(a) == Some("RUNWAY_CRITICAL") || IssueType(a) == Some("RUNWAY_SHORT")
    case MissedDeadline => band == Some(Critical)
    case DeadlineRisk => band == Some(High)
    case BlindSpots => IssueType(a) == Some("DATA_STALE")
  }

  /** The reason `r` if its grant applies, else nothing. */
  function DownsideIf(a: Action, band: Option<Band>, r: DownsideReason): seq<DownsideReason>
  {
    if DownsideApplies(a, band, r) then [r] else []
  }

  /** The reasons recorded: every grant that applies, in the order of the
      catalogue. */
  function DownsideReasons(a: Action, band: Option<Band>): seq<DownsideReason>
  {
    DownsideIf(a, band, ForecastedIssue) + DownsideIf(a, band, CashCrisis)
      + DownsideIf(a, band, MissedDeadline) + DownsideIf(a, band, DeadlineRisk)
      + DownsideIf(a, band, BlindSpots)
  }

  /** A reason is recorded exactly when its grant applies; the two deadline
      grants exclude each other. */
  lemma DownsideReasonsMembers(a: Action, band: Option<Band>)
    ensures forall r :: r in DownsideReasons(a, band) <==> DownsideApplies(a, band, r)
    ensures !(MissedDeadline in DownsideReasons(a, band) && DeadlineRisk in DownsideReasons(a, band))
  {
  }

  /** Reasons are recorded in the fixed order of the grants, each at most once. */
  lemma DownsideReasonsOrdered(a: Action, band: Option<Band>)
    ensures Ranked(DownsideReasons(a, band), DownsideRank)
  {
  }

  /** The points grant `r` adds for this action and band. */
  function DownsideFor(a: Action, band: Option<Band>, r: DownsideReason): real
  {
    if DownsideApplies(a, band, r) then DownsideGrant(r) else 0.0
  }

  /** The unclamped protection: the sum over the catalogue of the grants
      that apply. */
  function DownsideSum(a: Action, band: Option<Band>): real
  {
    DownsideFor(a, band, ForecastedIssue) + DownsideFor(a, band, CashCrisis)
      + DownsideFor(a, band, MissedDeadline) + DownsideFor(a, band, DeadlineRisk)
      + DownsideFor(a, band, BlindSpots)
  }

  /** A grant counts towards the score exactly when its reason is recorded. */
  lemma DownsideGrantsRecorded(a: Action, band: Option<Band>, r: DownsideReason)
    ensures DownsideFor(a, band, r) > 0.0 <==> r in DownsideReasons(a, band)
  {
  }

  /** `calculateDownsideProtection(action, { timeSensitivity })`. */
  method CalculateDownsideProtection(a: Action, band: Option<Band>) returns (d: Downside)
    ensures d.reasons == DownsideReasons(a, band)
    ensures d.score == Min(100.0, DownsideSum(a, band))
    ensures 0.0 <= d.score <= 100.0
  {
    var protection := 0.0;
    var reasons: seq<DownsideReason> := [];
    if a.sourceType == Some(PREISSUE) || a.kind == Some(PREISSUE) {
      protection := protection + 40.0;
      reasons := reasons + [ForecastedIssue];
    }
    assert reasons == DownsideIf(a, band, ForecastedIssue);
    if IssueType(a) == Some("RUNWAY_CRITICAL") || IssueType(a) == Some("RUNWAY_SHORT") {
      protection := protection + 50.0;
      reasons := reasons + [CashCrisis];
    }
    assert reasons == DownsideIf(a, band, ForecastedIssue) + DownsideIf(a, band, CashCrisis);
    if band == Some(Critical) {
      protection := protection + 30.0;
      reasons := reasons + [MissedDeadline];
    } else if band == Some(High) {
      protection := protection + 15.0;
      reasons := reasons + [DeadlineRisk];
    }
    assert reasons == DownsideIf(a, band, ForecastedIssue) + DownsideIf(a, band, CashCrisis)
      + DownsideIf(a, band, MissedDeadline) + DownsideIf(a, band, DeadlineRisk);
    if IssueType(a) == Some("DATA_STALE") {
      protection := protection + 20.0;
      reasons := reasons + [BlindSpots];
    }
    d := Downside(Min(100.0, protection), reasons);
  }

  // ---------------------------------------------------------------------------
  // calculateRippleEffect
  // ---------------------------------------------------------------------------
  /** Position of each delta in the fixed order of the grants. */
  function RippleRank(d: RippleDelta): nat
  {
    match d
    case NewConnection => 0
    case PortfolioNetwork => 1
    case UnlocksGoals(_) => 2
    case ResolvesIssues(_) => 3
  }

  function RippleGrant(d: RippleDelta): real
  {
    match d
    case NewConnection => 25.0
    case PortfolioNetwork => 20.0
    case UnlocksGoals(n) => n as real * 15.0
    case ResolvesIssues(n) => (n as real - 1.0) * 10.0
  }

  /** When each delta is recorded; `portfolioIds` is `context.portfolioCompanyIds`
      (a missing list is empty). */
  predicate RippleApplies(a: Action, portfolioIds: seq<string>, d: RippleDelta)
  {
    match d
    case NewConnection => IsIntroduction(a)
    case PortfolioNetwork =>
      IsIntroduction(a) && TruthyString(a.targetOrg) && a.targetOrg.value in portfolioIds
    case UnlocksGoals(n) => |a.unlocksGoals| > 0 && n == |a.unlocksGoals|
    case ResolvesIssues(n) => |a.resolvesList| > 1 && n == |a.resolvesList|
  }

  function RippleIf(a: Action, portfolioIds: seq<string>, d: RippleDelta): seq<RippleDelta>
  {
    if RippleApplies(a, portfolioIds, d) then [d] else []
  }

  /** The deltas recorded: every grant that applies, in the fixed order. */
  function RippleDeltas(a: Action, portfolioIds: seq<string>): seq<RippleDelta>
  {
    RippleIf(a, portfolioIds, NewConnection) + RippleIf(a, portfolioIds, PortfolioNetwork)
      + RippleIf(a, portfolioIds, UnlocksGoals(|a.unlocksGoals|))
      + RippleIf(a, portfolioIds, ResolvesIssues(|a.resolvesList|))
  }

  function RippleFor(a: Action, portfolioIds: seq<string>, d: RippleDelta): real
  {
    if RippleApplies(a, portfolioIds, d) then RippleGrant(d) else 0.0
  }

  /** The unclamped ripple: the attached leverage (if truthy) plus every
      grant that applies. */
  function RippleSum(a: Action, portfolioIds: seq<string>): real
  {
    OrZero(Leverage(a))
      + RippleFor(a, portfolioIds, NewConnection) + RippleFor(a, portfolioIds, PortfolioNetwork)
      + RippleFor(a, portfolioIds, UnlocksGoals(|a.unlocksGoals|))
      + RippleFor(a, portfolioIds, ResolvesIssues(|a.resolvesList|))
  }

  /** A delta is recorded exactly when its grant applies; the portfolio bonus
      only comes with the introduction bonus. */
  lemma RippleDeltasMembers(a: Action, portfolioIds: seq<string>)
    ensures forall d :: d in RippleDeltas(a, portfolioIds) <==> RippleApplies(a, portfolioIds, d)
    ensures PortfolioNetwork in RippleDeltas(a, portfolioIds) ==> NewConnection in RippleDeltas(a, portfolioIds)
  {
  }

  lemma RippleDeltasOrdered(a: Action, portfolioIds: seq<string>)
    ensures Ranked(RippleDeltas(a, portfolioIds), RippleRank)
  {
  }

  /** Every grant is positive, so only a negative attached leverage can make
      the sum negative. */
  lemma RippleSumNonNegative(a: Action, portfolioIds: seq<string>)
    requires OrZero(Leverage(a)) >= 0.0
    ensures RippleSum(a, portfolioIds) >= 0.0
  {
  }

  /** `calculateRippleEffect(action, context)`. */
  method CalculateRippleEffect(a: Action, portfolioIds: seq<string>) returns (r: Ripple)
    ensures r.deltas == RippleDeltas(a, portfolioIds)
    ensures r.score == Min(100.0, RippleSum(a, portfolioIds))
    ensures r.score <= 100.0
  {
    var ripple := 0.0;
    var deltas: seq<RippleDelta> := [];
    if TruthyNumber(Leverage(a)) {
      ripple := Leverage(a).value;
    }
    if a.kind == Some(INTRODUCTION) || a.sourceType == Some(INTRODUCTION) {
      ripple := ripple + 25.0;
      deltas := deltas + [NewConnection];
      if TruthyString(a.targetOrg) && a.targetOrg.value in portfolioIds {
        ripple := ripple + 20.0;
        deltas := deltas + [PortfolioNetwork];
      }
    }
    assert deltas == RippleIf(a, portfolioIds, NewConnection) + RippleIf(a, portfolioIds, PortfolioNetwork);
    if |a.unlocksGoals| > 0 {
      ripple := ripple + |a.unlocksGoals| as real * 15.0;
      deltas := deltas + [UnlocksGoals(|a.unlocksGoals|)];
    }
    if |a.resolvesList| > 1 {
      ripple := ripple + (|a.resolvesList| - 1) as real * 10.0;
      deltas := deltas + [ResolvesIssues(|a.resolvesList|)];
    }
    r := Ripple(Min(100.0, ripple), deltas);
  }

  // ---------------------------------------------------------------------------
  // calculateOptionalityGain
  // ---------------------------------------------------------------------------

  const SENIOR_ROLES: seq<string> := ["CEO", "CTO", "Partner", "Managing Partner"]

  /** `seniorRoles.some(r => action.targetPersonRole?.includes(r))`. */
  predicate SeniorRole(role: Option<string>)
  {
    role.Some? && exists k :: 0 <= k < |SENIOR_ROLES| && Includes(role.value, SENIOR_ROLES[k])
  }

  /** `action.issue?.goalType`. */
  function IssueGoalType(a: Action): Option<string>
  {
    if a.issue.Some? then a.issue.value.goalType else None
  }

  function OptionRank(o: OptionTag): nat
  {
    match o
    case FundingOptions => 0
    case PartnershipPipeline => 1
    case SeniorAccess => 2
  }

  function OptionGrant(o: OptionTag): real
  {
    match o
    case FundingOptions => 20.0
    case PartnershipPipeline => 15.0
    case SeniorAccess => 20.0
  }

  /** When each option is recorded. The senior-role bonus reads `type` only,
      not `sourceType`. */
  predicate OptionApplies(a: Action, o: OptionTag)
  {
    match o
    case FundingOptions => a.goalType == Some("fundraise") || IssueGoalType(a) == Some("fundraise")
    case PartnershipPipeline => a.goalType == Some("partnership")
    case SeniorAccess => a.kind == Some(INTRODUCTION) && SeniorRole(a.targetPersonRole)
  }

  function OptionIf(a: Action, o: OptionTag): seq<OptionTag>
  {
    if OptionApplies(a, o) then [o] else []
  }

  function OptionTags(a: Action): seq<OptionTag>
  {
    OptionIf(a, FundingOptions) + OptionIf(a, PartnershipPipeline) + OptionIf(a, SeniorAccess)
  }

  function OptionFor(a: Action, o: OptionTag): real
  {
    if OptionApplies(a, o) then OptionGrant(o) else 0.0
  }

  /** The unclamped optionality: `action.optionalityGain || 0` plus every
      grant that applies. */
  function OptionalitySum(a: Action): real
  {
    OrZero(a.optionalityGain)
      + OptionFor(a, FundingOptions) + OptionFor(a, PartnershipPipeline) + OptionFor(a, SeniorAccess)
  }

  /** An option is recorded exactly when its grant applies; an action whose
      `type` is not INTRODUCTION never gets the senior-role bonus, whatever
      its `sourceType`. */
  lemma OptionTagsMembers(a: Action)
    ensures forall o :: o in OptionTags(a) <==> OptionApplies(a, o)
    ensures a.kind != Some(INTRODUCTION) ==> SeniorAccess !in OptionTags(a)
    ensures Ranked(OptionTags(a), OptionRank)
  {
  }

  /** `calculateOptionalityGain(action, context)`. */
  method CalculateOptionalityGain(a: Action) returns (o: Optionality)
    ensures o.options == OptionTags(a)
    ensures o.score == Min(100.0, OptionalitySum(a))
    ensures o.score <= 100.0
  {
    var optionality := OrZero(a.optionalityGain);
    var options: seq<OptionTag> := [];
    if a.goalType == Some("fundraise") || IssueGoalType(a) == Some("fundraise") {
      optionality := optionality + 20.0;
      options := options + [FundingOptions];
    }
    if a.goalType == Some("partnership") {
      optionality := optionality + 15.0;
      options := options + [PartnershipPipeline];
    }
    if a.kind == Some(INTRODUCTION) {
      if SeniorRole(a.targetPersonRole) {
        optionality := optionality + 20.0;
        options := options + [SeniorAccess];
      }
    }
    o := Optionality(Min(100.0, optionality), options);
  }

  // ---------------------------------------------------------------------------
  // calculateCost
  // ---------------------------------------------------------------------------

  /** The effort baseline by action type. */
  function BaselineCost(kind: Option<string>): real
  {
    if kind == Some(INTRODUCTION) then 20.0
    else if kind == Some(ISSUE) then 40.0
    else if kind == Some(PREISSUE) then 30.0
    else if kind == Some(GOAL) then 50.0
    else 35.0
  }

  /** A truthy `impact.effortCost` overrides the baseline. */
  function EffortFor(a: Action): real
  {
    if TruthyNumber(EffortCost(a)) then EffortCost(a).value else BaselineCost(ActionType(a))
  }

  /** 30% of a truthy trust-risk score. */
  function TrustCostFor(a: Action): real
  {
    if TruthyNumber(TrustScore(a)) then TrustScore(a).value * 0.3 else 0.0
  }

  /** The components `calculateCost` pushes: one effort entry, then a
      trust entry only when the trust-risk score is truthy. */
  function CostComponents(a: Action): seq<CostPart>
  {
    [Effort(EffortFor(a))] + if TruthyNumber(TrustScore(a)) then [TrustCost(TrustCostFor(a))] else []
  }

  /** `calculateCost(action)`: effort plus trust cost, clamped to [10, 100]. */
  method CalculateCost(a: Action) returns (c: Cost)
    ensures c.score == Max(10.0, Min(100.0, EffortFor(a) + TrustCostFor(a)))
    ensures 10.0 <= c.score <= 100.0
    ensures c.components == CostComponents(a)
    ensures |c.components| >= 1 && c.components[0] == Effort(EffortFor(a))
    ensures |c.components| == 2 <==> TruthyNumber(TrustScore(a))
    ensures |c.components| == 2 ==> c.components[1] == TrustCost(TrustCostFor(a))
  {
    var cost := 0.0;
    var components: seq<CostPart> := [];
    if TruthyNumber(EffortCost(a)) {
      cost := EffortCost(a).value;
      components := components + [Effort(cost)];
    } else {
      var kind := ActionType(a);
      if kind == Some(INTRODUCTION) {
        cost := 20.0;
      } else if kind == Some(ISSUE) {
        cost := 40.0;
      } else if kind == Some(PREISSUE) {
        cost := 30.0;
      } else if kind == Some(GOAL) {
        cost := 50.0;
      } else {
        cost := 35.0;
      }
      components := components + [Effort(cost)];
    }
    if TruthyNumber(TrustScore(a)) {
      var trustCost := TrustScore(a).value * 0.3;
      cost := cost + trustCost;
      components := components + [TrustCost(trustCost)];
    }
    c := Cost(Max(10.0, Min(100.0, cost)), components);
  }

  /** With a truthy effort cost the action's type plays no part in its cost. */
  lemma EffortOverridesType(a1: Action, a2: Action)
    requires TruthyNumber(EffortCost(a1)) && EffortCost(a1) == EffortCost(a2)
    requires TrustScore(a1) == TrustScore(a2)
    ensures EffortFor(a1) + TrustCostFor(a1) == EffortFor(a2) + TrustCostFor(a2)
  {
  }

  // ---------------------------------------------------------------------------
  // computeValueVector
  // ---------------------------------------------------------------------------

  /** `action.probability ?? action.impact?.probabilityOfSuccess ?? 0.5`:
      only a missing value falls through, a zero does not. */
  function Probability(a: Action): real
  {
    if a.probability.Some? then a.probability.value
    else if a.impact.Some? && a.impact.value.probabilityOfSuccess.Some? then
      a.impact.value.probabilityOfSuccess.value
    else 0.5
  }

  /** `action.trustRisk || { trustRiskScore: 0, trustRiskBand: 'low', ... }`. */
  function EffectiveTrustRisk(a: Action): TrustRisk
  {
    if a.trustRisk.Some? then a.trustRisk.value else TrustRisk(Some(0.0), Some("low"))
  }

  /** `goal?.due`. */
  function DueOf(goal: Option<Goal>): Option<int>
  {
    if goal.Some? then goal.value.due else None
  }

  /** The normalised value density: the probability-weighted sum of the four
      additive dimensions over cost times urgency, scaled by 25 and capped at
      100; 0 when the denominator is not positive. */
  function Density(direct: real, downside: real, ripple: real, optionality: real,
                   probability: real, cost: real, multiplier: real): (d: real)
    ensures d <= 100.0
    ensures cost * multiplier <= 0.0 ==> d == 0.0
    ensures (cost * multiplier > 0.0 && direct >= 0.0 && downside >= 0.0 && ripple >= 0.0
             && optionality >= 0.0 && probability >= 0.0) ==> d >= 0.0
  {
    var numerator := (direct + downside + ripple + optionality) * probability;
    var denominator := cost * multiplier;
    var density := if denominator > 0.0 then numerator / denominator else 0.0;
    Min(100.0, density * 25.0)
  }

  /** More of any additive dimension never lowers the density: raising any
      of direct impact, downside protection, ripple effect or optionality
      gain, with the others, the probability, the cost and the urgency fixed,
      gives a density at least as high. */
  lemma DensityMonotone(direct1: real, downside1: real, ripple1: real, optionality1: real,
                        direct2: real, downside2: real, ripple2: real, optionality2: real,
                        probability: real, cost: real, multiplier: real)
    requires direct1 <= direct2 && downside1 <= downside2 && ripple1 <= ripple2 && optionality1 <= optionality2
    requires probability >= 0.0 && cost * multiplier > 0.0
    ensures Density(direct1, downside1, ripple1, optionality1, probability, cost, multiplier)
         <= Density(direct2, downside2, ripple2, optionality2, probability, cost, multiplier)
  {
    var den := cost * multiplier;
    var n1 := (direct1 + downside1 + ripple1 + optionality1) * probability;
    var n2 := (direct2 + downside2 + ripple2 + optionality2) * probability;
    assert n1 <= n2;
    assert n1 / den <= n2 / den;
  }

  /** A clamped cost times any urgency multiplier is at least 7, so the
      density's zero-denominator fallback never applies to a computed vector. */
  lemma DenominatorBound(cost: real, band: Band)
    requires 10.0 <= cost
    ensures cost * Multiplier(band) >= 7.0
  {
    MultiplierBounds(band);
    assert cost * Multiplier(band) >= 10.0 * Multiplier(band);
  }

  /** The density the vector's own parts give. */
  function VectorDensity(v: Vector): real
  {
    Density(v.directImpact, v.downside.score, v.ripple.score, v.optionality.score,
            v.probability, v.cost.score, v.time.multiplier)
  }

  /** `v` is the vector `computeValueVector` gives `a` in a context with
      goal `goal`, clock `now` and portfolio ids `portfolioIds`. */
  ghost predicate VectorOf(v: Vector, a: Action, goal: Option<Goal>, now: int, portfolioIds: seq<string>)
  {
    && v.directImpact == CalculateDirectImpact(a, goal)
    && v.time == CalculateTimeSensitivity(DueOf(goal), now)
    && v.downside.reasons == DownsideReasons(a, Some(v.time.band))
    && v.downside.score == Min(100.0, DownsideSum(a, Some(v.time.band)))
    && v.ripple.deltas == RippleDeltas(a, portfolioIds)
    && v.ripple.score == Min(100.0, RippleSum(a, portfolioIds))
    && v.optionality.options == OptionTags(a)
    && v.optionality.score == Min(100.0, OptionalitySum(a))
    && v.probability == Probability(a)
    && v.cost.score == Max(10.0, Min(100.0, EffortFor(a) + TrustCostFor(a)))
    && v.cost.components == CostComponents(a)
    && v.trustRisk == EffectiveTrustRisk(a)
    && v.valueDensity == VectorDensity(v)
    && v.explain == ExplanationLines(v)
  }

  /** `computeValueVector(action, context)`; `goal`, `now` and
      `portfolioIds` are the context's fields. */
  method ComputeValueVector(a: Action, goal: Option<Goal>, now: int, portfolioIds: seq<string>)
    returns (v: Vector)
    ensures VectorOf(v, a, goal, now, portfolioIds)
    ensures v.cost.score * v.time.multiplier >= 7.0
    ensures 0.0 <= v.directImpact <= 100.0 && 10.0 <= v.cost.score <= 100.0
    ensures v.valueDensity <= 100.0
  {
    var directImpact := CalculateDirectImpact(a, goal);
    var time := CalculateTimeSensitivity(DueOf(goal), now);
    var downside := CalculateDownsideProtection(a, Some(time.band));
    var ripple := CalculateRippleEffect(a, portfolioIds);
    var optionality := CalculateOptionalityGain(a);
    var probability := Probability(a);
    var cost := CalculateCost(a);
    var trustRisk := EffectiveTrustRisk(a);
    DenominatorBound(cost.score, time.band);
    var normalized := Density(directImpact, downside.score, ripple.score, optionality.score,
                              probability, cost.score, time.multiplier);
    v := Vector(directImpact, downside, ripple, optionality, probability, cost, time, trustRisk, normalized, []);
    var explain := BuildExplanation(v);
    v := v.(explain := explain);
  }

  // ---------------------------------------------------------------------------
  // buildExplanation
  // ---------------------------------------------------------------------------

  const DRIVERS: seq<Driver> := [DirectImpact, DownsideProtection, RippleEffect, OptionalityGain]

  function DriverRank(d: Driver): nat
  {
    match d
    case DirectImpact => 0
    case DownsideProtection => 1
    case RippleEffect => 2
    case OptionalityGain => 3
  }

  function ScoreOf(v: Vector, d: Driver): real
  {
    match d
    case DirectImpact => v.directImpact
    case DownsideProtection => v.downside.score
    case RippleEffect => v.ripple.score
    case OptionalityGain => v.optionality.score
  }

  /** The largest of the four driver scores. */
  function Top(v: Vector): real
  {
    Max(Max(v.directImpact, v.downside.score), Max(v.ripple.score, v.optionality.score))
  }

  /** The driver scores in the order they are listed before sorting. */
  function DriverScores(v: Vector): (s: seq<real>)
    ensures |s| == |DRIVERS| && forall i :: 0 <= i < |s| ==> s[i] == ScoreOf(v, DRIVERS[i])
  {
    [v.directImpact, v.downside.score, v.ripple.score, v.optionality.score]
  }

  /** The head of a stable descending sort: the first position holding the
      largest value. */
  function FirstMax(s: seq<real>): (k: nat)
    requires |s| > 0
    ensures k < |s|
    ensures forall i :: 0 <= i < |s| ==> s[i] <= s[k]
    ensures forall i :: 0 <= i < k ==> s[i] < s[k]
  {
    if |s| == 1 then 0
    else
      var j := 1 + FirstMax(s[1..]);
      assert forall i :: 1 <= i < |s| ==> s[i] == s[1..][i - 1];
      if s[0] >= s[j] then 0 else j
  }

  /** Position of each line in the fixed order of `buildExplanation`. */
  function LineRank(l: Line): nat
  {
    match l
    case PrimaryDriver(_, _) => 0
    case HighProbability(_) => 1
    case UncertainOutcome(_) => 1
    case TimeCritical(_) => 2
    case HighEffort(_) => 3
    case LowEffort(_) => 3
    case TrustRiskLine(_) => 4
    case DensityLine(_) => 5
  }

  function DriverLines(v: Vector): (ls: seq<Line>)
    ensures |ls| <= 1 && forall l :: l in ls ==> LineRank(l) == 0
  {
    var k := FirstMax(DriverScores(v));
    if DriverScores(v)[k] > 0.0 then [PrimaryDriver(DRIVERS[k], Round(DriverScores(v)[k]))] else []
  }

  function ProbabilityLines(p: real): (ls: seq<Line>)
    ensures |ls| <= 1 && forall l :: l in ls ==> LineRank(l) == 1
  {
    if p >= 0.7 then [HighProbability(Round(p * 100.0))]
    else if p <= 0.3 then [UncertainOutcome(Round(p * 100.0))]
    else []
  }

  function TimeLines(t: TimeSensitivity): (ls: seq<Line>)
    ensures |ls| <= 1 && forall l :: l in ls ==> LineRank(l) == 2
  {
    if t.band == Critical then [TimeCritical(t.daysRemaining)] else []
  }

  function EffortLines(c: real): (ls: seq<Line>)
    ensures |ls| <= 1 && forall l :: l in ls ==> LineRank(l) == 3
  {
    if c > 60.0 then [HighEffort(Round(c))]
    else if c < 30.0 then [LowEffort(Round(c))]
    else []
  }

  /** `trustRiskScore > 30`; a missing score compares false. */
  function TrustLines(t: TrustRisk): (ls: seq<Line>)
    ensures |ls| <= 1 && forall l :: l in ls ==> LineRank(l) == 4
  {
    if t.score.Some? && t.score.value > 30.0 then [TrustRiskLine(t.band)] else []
  }

  /** The explanation of a vector (its own `explain` field is not read). */
  function ExplanationLines(v: Vector): seq<Line>
  {
    DriverLines(v) + ProbabilityLines(v.probability) + TimeLines(v.time)
      + EffortLines(v.cost.score) + TrustLines(v.trustRisk)
      + [DensityLine(Round(v.valueDensity))]
  }

  /** The explanation has one to six lines in the fixed order, at most one of
      each kind, and always ends with the density. */
  lemma ExplanationShape(v: Vector)
    ensures var lines := ExplanationLines(v);
      && 1 <= |lines| <= 6
      && lines[|lines| - 1] == DensityLine(Round(v.valueDensity))
      && Ranked(lines, LineRank)
  {
    var d, p, t, e, r := DriverLines(v), ProbabilityLines(v.probability), TimeLines(v.time),
                         EffortLines(v.cost.score), TrustLines(v.trustRisk);
    var last := [DensityLine(Round(v.valueDensity))];
    RankedJoin(d, p, LineRank, 1, 2);
    RankedJoin(d + p, t, LineRank, 2, 3);
    RankedJoin(d + p + t, e, LineRank, 3, 4);
    RankedJoin(d + p + t + e, r, LineRank, 4, 5);
    RankedJoin(d + p + t + e + r, last, LineRank, 5, 6);
  }

  /** The primary-driver line names the first of the highest-scoring drivers,
      and is present exactly when that score is positive. */
  lemma ExplanationPrimaryDriver(v: Vector)
    ensures Top(v) > 0.0 <==> exists d :: PrimaryDriver(d, Round(Top(v))) in ExplanationLines(v)
    ensures forall d, n :: PrimaryDriver(d, n) in ExplanationLines(v) ==>
      && ScoreOf(v, d) == Top(v) && n == Round(Top(v))
      && forall e :: DriverRank(e) < DriverRank(d) ==> ScoreOf(v, e) < Top(v)
  {
    var s := DriverScores(v);
    var k := FirstMax(s);
    assert s[k] == Top(v) by {
      assert s[0] <= s[k] && s[1] <= s[k] && s[2] <= s[k] && s[3] <= s[k];
    }
    assert DriverLines(v) == (if s[k] > 0.0 then [PrimaryDriver(DRIVERS[k], Round(s[k]))] else []);
    forall d, n | PrimaryDriver(d, n) in ExplanationLines(v)
      ensures ScoreOf(v, d) == Top(v) && n == Round(Top(v))
      ensures forall e :: DriverRank(e) < DriverRank(d) ==> ScoreOf(v, e) < Top(v)
    {
      assert PrimaryDriver(d, n) in DriverLines(v);
      assert d == DRIVERS[k];
      forall e | DriverRank(e) < DriverRank(d)
        ensures ScoreOf(v, e) < Top(v)
      {
        assert e == DRIVERS[DriverRank(e)];
      }
    }
    if Top(v) > 0.0 {
      assert PrimaryDriver(DRIVERS[k], Round(Top(v))) in ExplanationLines(v);
    }
  }

  /** The probability and effort lines follow their thresholds exactly. */
  lemma ExplanationThresholds(v: Vector)
    ensures HighProbability(Round(v.probability * 100.0)) in ExplanationLines(v) <==> v.probability >= 0.7
    ensures UncertainOutcome(Round(v.probability * 100.0)) in ExplanationLines(v) <==> v.probability <= 0.3
    ensures HighEffort(Round(v.cost.score)) in ExplanationLines(v) <==> v.cost.score > 60.0
    ensures LowEffort(Round(v.cost.score)) in ExplanationLines(v) <==> v.cost.score < 30.0
    ensures TimeCritical(v.time.daysRemaining) in ExplanationLines(v) <==> v.time.band == Critical
  {
    LineInPart(v, HighProbability(Round(v.probability * 100.0)));
    LineInPart(v, UncertainOutcome(Round(v.probability * 100.0)));
    LineInPart(v, HighEffort(Round(v.cost.score)));
    LineInPart(v, LowEffort(Round(v.cost.score)));
    LineInPart(v, TimeCritical(v.time.daysRemaining));
  }

  /** A line of the explanation comes from exactly one of its parts. */
  lemma LineInPart(v: Vector, x: Line)
    ensures x in ExplanationLines(v) <==>
      || x in DriverLines(v) || x in ProbabilityLines(v.probability) || x in TimeLines(v.time)
      || x in EffortLines(v.cost.score) || x in TrustLines(v.trustRisk) || x == DensityLine(Round(v.valueDensity))
  {
  }

  /** `buildExplanation(vector)`. */
  method BuildExplanation(v: Vector) returns (lines: seq<Line>)
    ensures lines == ExplanationLines(v)
  {
    lines := [];
    var scores := DriverScores(v);
    var k := FirstMax(scores);
    if scores[k] > 0.0 {
      lines := lines + [PrimaryDriver(DRIVERS[k], Round(scores[k]))];
    }
    if v.probability >= 0.7 {
      lines := lines + [HighProbability(Round(v.probability * 100.0))];
    } else if v.probability <= 0.3 {
      lines := lines + [UncertainOutcome(Round(v.probability * 100.0))];
    }
    if v.time.band == Critical {
      lines := lines + [TimeCritical(v.time.daysRemaining)];
    }
    assert lines == DriverLines(v) + ProbabilityLines(v.probability) + TimeLines(v.time);
    if v.cost.score > 60.0 {
      lines := lines + [HighEffort(Round(v.cost.score))];
    } else if v.cost.score < 30.0 {
      lines := lines + [LowEffort(Round(v.cost.score))];
    }
    assert lines == DriverLines(v) + ProbabilityLines(v.probability) + TimeLines(v.time)
      + EffortLines(v.cost.score);
    if v.trustRisk.score.Some? && v.trustRisk.score.value > 30.0 {
      lines := lines + [TrustRiskLine(v.trustRisk.band)];
    }
    assert lines == DriverLines(v) + ProbabilityLines(v.probability) + TimeLines(v.time)
      + EffortLines(v.cost.score) + TrustLines(v.trustRisk);
    lines := lines + [DensityLine(Round(v.valueDensity))];
  }
}
