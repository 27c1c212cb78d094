/** The weekly value exercise: per company, at most one network move and one
    operational move, each with a six-part rationale, plus a portfolio
    rollup. */
module WeeklyValue {
  import opened Common
  import opened Sequences
  import opened ValueVector

  datatype Company = Company(id: string, name: Option<string>, goals: seq<Goal>)

  /** `action.valueVector?.valueDensity || 0`. */
  function ActionDensity(a: Action): real
  {
    if a.valueVector.Some? then a.valueVector.value.valueDensity else 0.0
  }

  /** `action.valueVector?.timeSensitivity.band`, absent without a vector. */
  function BandOf(a: Action): Option<Band>
  {
    if a.valueVector.Some? then Some(a.valueVector.value.time.band) else None
  }

  function DaysOf(a: Action): Option<int>
  {
    if a.valueVector.Some? then a.valueVector.value.time.daysRemaining else None
  }

  function DeltasOf(a: Action): seq<RippleDelta>
  {
    if a.valueVector.Some? then a.valueVector.value.ripple.deltas else []
  }

  function OptionsOf(a: Action): seq<OptionTag>
  {
    if a.valueVector.Some? then a.valueVector.value.optionality.options else []
  }

  function ReasonsOf(a: Action): seq<DownsideReason>
  {
    if a.valueVector.Some? then a.valueVector.value.downside.reasons else []
  }

  // ---------------------------------------------------------------------------
  // generateExplanation
  // ---------------------------------------------------------------------------

  /** "Why this now?" */
  datatype WhyNow =
    | CriticalDeadline(days: Option<int>, goalName: string)
    | HighUrgency(days: Option<int>)
    | RelationshipCapital
    | OptimalTiming

  /** "What it unlocks?" */
  datatype Unlock =
    | RippleUnlock(delta: RippleDelta)
    | OptionUnlock(option: OptionTag)
    | DirectConnection(contact: string)
    | RemovesBlockingIssue
    | EnablesGoalProgress

  /** "What it prevents?" */
  datatype Prevention =
    | DownsidePrevented(reason: DownsideReason)
    | TrajectoryDegradation
    | AccumulatingDebt

  /** "Why it beats alternatives?" */
  datatype Beats =
    | HigherDensity(gap: int, alternative: string)
    | NetworkOptionality
    | BetterRiskAdjusted
    | OnlyViable

  /** "What happens if delayed?" */
  datatype IfDelayed =
    | LikelyFailure(days: Option<int>)
    | ProbabilityDrops
    | WindowMayClose
    | CompoundingDelay

  /** "What comes next if successful?" */
  datatype NextStep =
    | FollowUpIntro | PrepareMaterials(contact: string) | SetMeeting
    | UpdatePipeline | BriefTeam | NextMilestone
    | ValidateOutcome | UpdateGoalProgress | IdentifyDownstream

  datatype Explanation = Explanation(
    whyNow: WhyNow,
    whatItUnlocks: seq<Unlock>,
    whatItPrevents: seq<Prevention>,
    whyBeatAlternatives: Beats,
    ifDelayed: IfDelayed,
    nextIfSuccessful: seq<NextStep>)

  function RippleUnlocks(ds: seq<RippleDelta>): (r: seq<Unlock>)
    ensures |r| == |ds| && forall i :: 0 <= i < |ds| ==> r[i] == RippleUnlock(ds[i])
    ensures forall u :: u in r ==> u.RippleUnlock?
  {
    if ds == [] then [] else [RippleUnlock(ds[0])] + RippleUnlocks(ds[1..])
  }

  function OptionUnlocks(os: seq<OptionTag>): (r: seq<Unlock>)
    ensures |r| == |os| && forall i :: 0 <= i < |os| ==> r[i] == OptionUnlock(os[i])
    ensures forall u :: u in r ==> u.OptionUnlock?
  {
    if os == [] then [] else [OptionUnlock(os[0])] + OptionUnlocks(os[1..])
  }

  function Preventions(rs: seq<DownsideReason>): (r: seq<Prevention>)
    ensures |r| == |rs| && forall i :: 0 <= i < |rs| ==> r[i] == DownsidePrevented(rs[i])
  {
    if rs == [] then [] else [DownsidePrevented(rs[0])] + Preventions(rs[1..])
  }

  /** The connection an introduction unlocks. */
  function Contact(a: Action): Unlock
  {
    DirectConnection(OrDefault(a.targetPersonName, "key contact"))
  }

  /** Part 1, "why this now?": the deadline band first, then the kind. Only
      `type` marks an introduction in the whole rationale; `sourceType` is
      not read. */
  function WhyNowOf(a: Action, goal: Option<Goal>): (w: WhyNow)
    ensures w.CriticalDeadline? <==> BandOf(a) == Some(Critical)
    ensures w.HighUrgency? <==> BandOf(a) == Some(High)
    ensures w == RelationshipCapital <==>
      BandOf(a) != Some(Critical) && BandOf(a) != Some(High) && a.kind == Some(INTRODUCTION)
    ensures w.CriticalDeadline? || w.HighUrgency? ==> w.days == DaysOf(a)
  {
    if BandOf(a) == Some(Critical) then
      CriticalDeadline(DaysOf(a), if goal.Some? then OrDefault(goal.value.name, "goal") else "goal")
    else if BandOf(a) == Some(High) then HighUrgency(DaysOf(a))
    else if a.kind == Some(INTRODUCTION) then RelationshipCapital
    else OptimalTiming
  }

  /** The unlock list built from the deltas, the options and the extra
      contact item: the three in that order, or the fixed pair when all are
      empty. */
  function UnlockList(ds: seq<RippleDelta>, os: seq<OptionTag>, extra: seq<Unlock>): seq<Unlock>
  {
    var listed := RippleUnlocks(ds) + OptionUnlocks(os) + extra;
    if listed == [] then [RemovesBlockingIssue, EnablesGoalProgress] else listed
  }

  /** Part 2, "what it unlocks?": the ripple deltas, then the options, then
      the new contact of an introduction; two fixed items when there is
      nothing to list. */
  function UnlocksOf(a: Action): seq<Unlock>
  {
    UnlockList(DeltasOf(a), OptionsOf(a), if a.kind == Some(INTRODUCTION) then [Contact(a)] else [])
  }

  /** What `UnlockList` holds: every delta and every option, the contact
      item exactly when given, and the fixed pair exactly when there is
      nothing to list. */
  lemma UnlockListMembers(ds: seq<RippleDelta>, os: seq<OptionTag>, extra: seq<Unlock>)
    requires forall x :: x in extra ==> x.DirectConnection?
    ensures var u := UnlockList(ds, os, extra);
      && (forall d :: d in ds ==> RippleUnlock(d) in u)
      && (forall o :: o in os ==> OptionUnlock(o) in u)
      && (forall x: Unlock :: x.DirectConnection? ==> (x in u <==> x in extra))
      && (RemovesBlockingIssue in u <==> ds == [] && os == [] && extra == [])
      && (EnablesGoalProgress in u <==> ds == [] && os == [] && extra == [])
  {
    var rs, ops := RippleUnlocks(ds), OptionUnlocks(os);
    var listed := rs + ops + extra;
    if listed != [] {
      assert forall x :: x in listed ==> x in rs || x in ops || x in extra;
      forall d | d in ds
        ensures RippleUnlock(d) in rs
      {
        var i :| 0 <= i < |ds| && ds[i] == d;
        assert rs[i] == RippleUnlock(d);
      }
      forall o | o in os
        ensures OptionUnlock(o) in ops
      {
        var i :| 0 <= i < |os| && os[i] == o;
        assert ops[i] == OptionUnlock(o);
      }
    }
  }

  /** The order of `UnlockList` when there is something to list: the deltas'
      unlocks first, then the options', then the contact item last. */
  lemma UnlockListOrder(ds: seq<RippleDelta>, os: seq<OptionTag>, extra: seq<Unlock>)
    requires ds != [] || os != [] || extra != []
    ensures var u := UnlockList(ds, os, extra);
      && |u| == |ds| + |os| + |extra|
      && (forall i :: 0 <= i < |ds| ==> u[i] == RippleUnlock(ds[i]))
      && (forall i :: 0 <= i < |os| ==> u[|ds| + i] == OptionUnlock(os[i]))
      && (extra != [] ==> u[|u| - 1] == extra[|extra| - 1])
  {
    var rs, ops := RippleUnlocks(ds), OptionUnlocks(os);
    var listed := rs + ops + extra;
    assert |listed| > 0;
    forall i | 0 <= i < |os|
      ensures listed[|ds| + i] == OptionUnlock(os[i])
    {
      assert listed[|ds| + i] == ops[i];
    }
  }

  /** What the unlock list holds: every ripple delta and every option, the
      contact exactly for an introduction, and the fixed pair exactly when
      there is nothing to list. */
  lemma UnlocksOfMembers(a: Action)
    ensures var u := UnlocksOf(a);
      var nothing := DeltasOf(a) == [] && OptionsOf(a) == [] && a.kind != Some(INTRODUCTION);
      && (forall d :: d in DeltasOf(a) ==> RippleUnlock(d) in u)
      && (forall o :: o in OptionsOf(a) ==> OptionUnlock(o) in u)
      && (Contact(a) in u <==> a.kind == Some(INTRODUCTION))
      && (RemovesBlockingIssue in u <==> nothing)
      && (EnablesGoalProgress in u <==> nothing)
  {
    var extra := if a.kind == Some(INTRODUCTION) then [Contact(a)] else [];
    UnlockListMembers(DeltasOf(a), OptionsOf(a), extra);
  }

  /** The order of the unlock list when there is something to list: every
      delta in order, then every option in order, then the contact of an
      introduction last. */
  lemma UnlocksOfOrder(a: Action)
    requires DeltasOf(a) != [] || OptionsOf(a) != [] || a.kind == Some(INTRODUCTION)
    ensures var u := UnlocksOf(a);
      var nd, no := |DeltasOf(a)|, |OptionsOf(a)|;
      && |u| == nd + no + (if a.kind == Some(INTRODUCTION) then 1 else 0)
      && (forall i :: 0 <= i < nd ==> u[i] == RippleUnlock(DeltasOf(a)[i]))
      && (forall i :: 0 <= i < no ==> u[nd + i] == OptionUnlock(OptionsOf(a)[i]))
      && (a.kind == Some(INTRODUCTION) ==> u[|u| - 1] == Contact(a))
  {
    var ds, os := DeltasOf(a), OptionsOf(a);
    var extra := if a.kind == Some(INTRODUCTION) then [Contact(a)] else [];
    assert UnlocksOf(a) == UnlockList(ds, os, extra);
    UnlockListOrder(ds, os, extra);
  }

  /** The pushes that build part 2, proved to build exactly `UnlocksOf`. */
  method CollectUnlocks(a: Action) returns (unlocks: seq<Unlock>)
    ensures unlocks == UnlocksOf(a)
  {
    unlocks := [];
    if |DeltasOf(a)| > 0 {
      unlocks := unlocks + RippleUnlocks(DeltasOf(a));
    }
    if |OptionsOf(a)| > 0 {
      unlocks := unlocks + OptionUnlocks(OptionsOf(a));
    }
    if a.kind == Some(INTRODUCTION) {
      unlocks := unlocks + [Contact(a)];
    }
    if |unlocks| == 0 {
      unlocks := [RemovesBlockingIssue, EnablesGoalProgress];
    }
  }

  /** Part 3, "what it prevents?": the downside reasons, or two fixed items. */
  function PreventedBy(a: Action): (ps: seq<Prevention>)
    ensures |ps| > 0
    ensures forall r :: DownsidePrevented(r) in ps <==> r in ReasonsOf(a)
    ensures TrajectoryDegradation in ps <==> ReasonsOf(a) == []
  {
    var rs := ReasonsOf(a);
    if |rs| > 0 then
      assert forall r :: r in rs ==> DownsidePrevented(r) in Preventions(rs) by {
        forall r | r in rs
          ensures DownsidePrevented(r) in Preventions(rs)
        {
          var i :| 0 <= i < |rs| && rs[i] == r;
          assert Preventions(rs)[i] == DownsidePrevented(r);
        }
      }
      Preventions(rs)
    else [TrajectoryDegradation, AccumulatingDebt]
  }

  /** Part 4, "why it beats alternatives?": a quantified claim only when the
      rounded density lead over the top alternative exceeds 10. */
  function BeatsOf(a: Action, alternatives: seq<Action>): (b: Beats)
    ensures b == OnlyViable <==> alternatives == []
    ensures b.HigherDensity? <==>
      alternatives != [] && Round(ActionDensity(a) - ActionDensity(alternatives[0])) > 10
    ensures b.HigherDensity? ==> b.gap == Round(ActionDensity(a) - ActionDensity(alternatives[0]))
    ensures b == NetworkOptionality ==> a.kind == Some(INTRODUCTION) && alternatives[0].kind != Some(INTRODUCTION)
  {
    if |alternatives| > 0 then
      var top := alternatives[0];
      var gap := Round(ActionDensity(a) - ActionDensity(top));
      if gap > 10 then HigherDensity(gap, OrDefault(top.title, top.id))
      else if a.kind == Some(INTRODUCTION) && top.kind != Some(INTRODUCTION) then NetworkOptionality
      else BetterRiskAdjusted
    else OnlyViable
  }

  /** Part 5, "what happens if delayed?": follows the same cases as part 1. */
  function IfDelayedOf(a: Action): (d: IfDelayed)
    ensures d.LikelyFailure? <==> WhyNowOf(a, None).CriticalDeadline?
    ensures d == ProbabilityDrops <==> WhyNowOf(a, None).HighUrgency?
    ensures d == WindowMayClose <==> WhyNowOf(a, None) == RelationshipCapital
  {
    if BandOf(a) == Some(Critical) then LikelyFailure(DaysOf(a))
    else if BandOf(a) == Some(High) then ProbabilityDrops
    else if a.kind == Some(INTRODUCTION) then WindowMayClose
    else CompoundingDelay
  }

  /** Part 6, "what comes next if successful?": always three steps. */
  function NextSteps(a: Action, goal: Option<Goal>): (n: seq<NextStep>)
    ensures |n| == 3
    ensures n[0] == FollowUpIntro <==> a.kind == Some(INTRODUCTION)
    ensures n[0] == UpdatePipeline <==>
      a.kind != Some(INTRODUCTION) && goal.Some? && goal.value.kind == Some("fundraise")
  {
    if a.kind == Some(INTRODUCTION) then
      [FollowUpIntro, PrepareMaterials(OrDefault(a.targetPersonName, "contact")), SetMeeting]
    else if goal.Some? && goal.value.kind == Some("fundraise") then
      [UpdatePipeline, BriefTeam, NextMilestone]
    else
      [ValidateOutcome, UpdateGoalProgress, IdentifyDownstream]
  }

  /** The six answers `generateExplanation` gives for `a` against the
      runner-ups `alternatives` toward `goal`. */
  function ExplanationOf(a: Action, alternatives: seq<Action>, goal: Option<Goal>): Explanation
  {
    Explanation(WhyNowOf(a, goal), UnlocksOf(a), PreventedBy(a), BeatsOf(a, alternatives),
                IfDelayedOf(a), NextSteps(a, goal))
  }

  /** `generateExplanation(action, alternatives, context)`: exactly the six
      answers above; the two lists are never empty and there are always
      three next steps. */
  method GenerateExplanation(a: Action, alternatives: seq<Action>, goal: Option<Goal>)
    returns (e: Explanation)
    ensures e == ExplanationOf(a, alternatives, goal)
    ensures |e.whatItUnlocks| > 0 && |e.whatItPrevents| > 0 && |e.nextIfSuccessful| == 3
  {
    var unlocks := CollectUnlocks(a);
    UnlocksOfMembers(a);
    e := Explanation(WhyNowOf(a, goal), unlocks, PreventedBy(a), BeatsOf(a, alternatives),
                     IfDelayedOf(a), NextSteps(a, goal));
  }

  // ---------------------------------------------------------------------------
  // selectBestNetworkAction / selectBestNonNetworkAction
  // ---------------------------------------------------------------------------

  /** The non-network filter: neither `type` nor `sourceType` is INTRODUCTION. */
  predicate IsOperational(a: Action)
  {
    a.kind != Some(INTRODUCTION) && a.sourceType != Some(INTRODUCTION)
  }

  /** The two filters are exact complements: every action is in exactly one
      class, as often as it occurs. */
  lemma NetworkSplit(acts: seq<Action>)
    ensures forall a :: IsIntroduction(a) <==> !IsOperational(a)
    ensures multiset(Filter(acts, IsIntroduction)) + multiset(Filter(acts, IsOperational)) == multiset(acts)
  {
    FilterSplit(acts, IsIntroduction, IsOperational);
  }

  /** A surfaced runner-up: `{ id, title, valueDensity }`. */
  datatype Alternative = Alternative(id: string, title: Option<string>, valueDensity: real)

  /** `{ ...best, explanation, alternatives }`. */
  datatype Selection = Selection(action: Action, explanation: Explanation, alternatives: seq<Alternative>)

  /** A network runner-up is titled `title || targetPersonName`. */
  function NetworkAlternatives(s: seq<Action>): (r: seq<Alternative>)
    ensures |r| == |s|
    ensures forall i :: 0 <= i < |s| ==> r[i].id == s[i].id && r[i].valueDensity == ActionDensity(s[i])
  {
    if s == [] then []
    else
      var a := s[0];
      [Alternative(a.id, if TruthyString(a.title) then a.title else a.targetPersonName, ActionDensity(a))]
        + NetworkAlternatives(s[1..])
  }

  /** An operational runner-up is titled `title || id`. */
  function OperationalAlternatives(s: seq<Action>): (r: seq<Alternative>)
    ensures |r| == |s|
    ensures forall i :: 0 <= i < |s| ==> r[i].id == s[i].id && r[i].valueDensity == ActionDensity(s[i])
  {
    if s == [] then []
    else
      var a := s[0];
      [Alternative(a.id, Some(OrDefault(a.title, a.id)), ActionDensity(a))] + OperationalAlternatives(s[1..])
  }

  /** What `selectBestNetworkAction` returns: nothing without a network
      action, otherwise the first one with its explanation against the next
      (at most) three, which are listed as its alternatives. */
  function NetworkSelection(acts: seq<Action>, goal: Option<Goal>): Option<Selection>
  {
    var c := Filter(acts, IsIntroduction);
    if c == [] then None
    else
      var alternatives := Take(c[1..], 3);
      Some(Selection(c[0], ExplanationOf(c[0], alternatives, goal), NetworkAlternatives(alternatives)))
  }

  /** What `selectBestNonNetworkAction` returns: the same over the
      non-network actions, with operational titles. */
  function OperationalSelection(acts: seq<Action>, goal: Option<Goal>): Option<Selection>
  {
    var c := Filter(acts, IsOperational);
    if c == [] then None
    else
      var alternatives := Take(c[1..], 3);
      Some(Selection(c[0], ExplanationOf(c[0], alternatives, goal), OperationalAlternatives(alternatives)))
  }

  /** `selectBestNetworkAction(actions, context)`: nothing when there is no
      network action; otherwise the first one in the given order, explained
      against the next (at most) three, which become its alternatives. */
  method SelectBestNetworkAction(acts: seq<Action>, goal: Option<Goal>) returns (r: Option<Selection>)
    ensures r == NetworkSelection(acts, goal)
    ensures r.None? <==> forall a :: a in acts ==> !IsIntroduction(a)
    ensures r.Some? ==> var c := Filter(acts, IsIntroduction);
      && (exists i :: (0 <= i < |acts| && acts[i] == r.value.action && IsIntroduction(acts[i])
                       && forall j :: 0 <= j < i ==> !IsIntroduction(acts[j])))
      && |r.value.alternatives| == (if |c| - 1 < 3 then |c| - 1 else 3)
  {
    var c := Filter(acts, IsIntroduction);
    if |c| == 0 {
      r := None;
    } else {
      FilterFirst(acts, IsIntroduction);
      var best := c[0];
      var alternatives := Take(c[1..], 3);
      var explanation := GenerateExplanation(best, alternatives, goal);
      r := Some(Selection(best, explanation, NetworkAlternatives(alternatives)));
    }
  }

  /** `selectBestNonNetworkAction(actions, context)`: the same selection over
      the non-network actions. */
  method SelectBestNonNetworkAction(acts: seq<Action>, goal: Option<Goal>) returns (r: Option<Selection>)
    ensures r == OperationalSelection(acts, goal)
    ensures r.None? <==> forall a :: a in acts ==> !IsOperational(a)
    ensures r.Some? ==> var c := Filter(acts, IsOperational);
      && (exists i :: (0 <= i < |acts| && acts[i] == r.value.action && IsOperational(acts[i])
                       && forall j :: 0 <= j < i ==> !IsOperational(acts[j])))
      && |r.value.alternatives| == (if |c| - 1 < 3 then |c| - 1 else 3)
  {
    var c := Filter(acts, IsOperational);
    if |c| == 0 {
      r := None;
    } else {
      FilterFirst(acts, IsOperational);
      var best := c[0];
      var alternatives := Take(c[1..], 3);
      var explanation := GenerateExplanation(best, alternatives, goal);
      r := Some(Selection(best, explanation, OperationalAlternatives(alternatives)));
    }
  }

  // ---------------------------------------------------------------------------
  // Primary goal
  // ---------------------------------------------------------------------------

  predicate IsActive(g: Goal)
  {
    g.status == Some("active")
  }

  /** Sort key for "soonest deadline first" under a descending sort. A goal
      without a due date is keyed as if due at time 0. */
  function DueKey(g: Goal): real
  {
    if g.due.Some? then -(g.due.value as real) else 0.0
  }

  /** The active goals, soonest deadline first (a stable sort). */
  function ActiveBySoonest(goals: seq<Goal>): seq<Goal>
  {
    SortBy(Filter(goals, IsActive), DueKey)
  }

  /** `company.goals.filter(active).sort(by due)[0]`. */
  function PrimaryGoal(goals: seq<Goal>): (r: Option<Goal>)
    ensures r.None? <==> forall g :: g in goals ==> !IsActive(g)
    ensures r.Some? ==> r.value in goals && IsActive(r.value)
  {
    var f := Filter(goals, IsActive);
    var s := SortBy(f, DueKey);
    if s == [] then
      assert |f| == 0;
      None
    else
      assert s[0] in multiset(f);
      assert s[0] in f;
      Some(s[0])
  }

  /** Every active goal carries a due date. */
  predicate ActiveGoalsDated(goals: seq<Goal>)
  {
    forall g :: g in goals && IsActive(g) ==> g.due.Some?
  }

  /** The primary goal is due no later than any active goal. */
  lemma PrimaryGoalSoonest(goals: seq<Goal>)
    requires ActiveGoalsDated(goals) && PrimaryGoal(goals).Some?
    ensures forall g :: g in goals && IsActive(g) ==> PrimaryGoal(goals).value.due.value <= g.due.value
  {
    var actives := Filter(goals, IsActive);
    var s := ActiveBySoonest(goals);
    forall g | g in goals && IsActive(g)
      ensures s[0].due.value <= g.due.value
    {
      assert g in actives;
      assert g in multiset(s);
      var k :| 0 <= k < |s| && s[k] == g;
      if k > 0 {
        assert DueKey(s[0]) >= DueKey(s[k]);
      }
    }
  }

  /** Of the active goals due as soon as the primary goal, it is the first
      in the company's list: the sort is stable. */
  lemma PrimaryGoalFirstOfTies(goals: seq<Goal>)
    requires ActiveGoalsDated(goals) && PrimaryGoal(goals).Some?
    ensures var actives := Filter(goals, IsActive);
      forall j :: 0 <= j < |actives| && DueKey(actives[j]) == DueKey(PrimaryGoal(goals).value) ==>
        PrimaryGoal(goals).value in actives[..j + 1]
  {
    var actives := Filter(goals, IsActive);
    var s := ActiveBySoonest(goals);
    var d := DueKey(s[0]);
    var same := (g: Goal) => DueKey(g) == d;
    assert PrimaryGoal(goals) == Some(s[0]);
    SortByStable(actives, DueKey, same, d);
    assert Filter(s, same) == [s[0]] + Filter(s[1..], same);
    assert Filter(actives, same)[0] == s[0];
    FilterFirstPrecedes(actives, same);
    forall j | 0 <= j < |actives| && DueKey(actives[j]) == d
      ensures s[0] in actives[..j + 1]
    {
      assert same(actives[j]);
    }
  }

  /** Together: the primary goal is the first active goal with the earliest
      due date. */
  lemma PrimaryGoalEarliest(goals: seq<Goal>)
    requires ActiveGoalsDated(goals) && PrimaryGoal(goals).Some?
    ensures var r := PrimaryGoal(goals).value;
      var actives := Filter(goals, IsActive);
      && (forall g :: g in goals && IsActive(g) ==> r.due.value <= g.due.value)
      && (forall j :: 0 <= j < |actives| && actives[j].due == r.due ==> r in actives[..j + 1])
  {
    PrimaryGoalSoonest(goals);
    PrimaryGoalFirstOfTies(goals);
  }

  // ---------------------------------------------------------------------------
  // buildSummary
  // ---------------------------------------------------------------------------

  datatype SummaryLine =
    | NetworkPriority(density: int)          // "Priority: Network action (<n>/100 value density)"
    | IntroIsHighestLeverage(contact: string) // "<contact> intro is the highest-leverage move this week."
    | OperationalPriority(density: int)      // "Priority: Operational action (<op>/100 value density)"
    | FocusOn(title: string)                 // "Focus on \"<title>\" before network expansion."
    | BalancedPriority(density: int)         // "Balanced priority: ... (~<avg>/100)"
    | NetworkFirstIfTimeLimited
    | NetworkClearPriority
    | NoCompetingOperational
    | OperationalFocus
    | NoNetworkOpportunities
    | NoHighValueActions
    | ReviewBacklog

  function SelectionDensity(s: Option<Selection>): real
  {
    if s.Some? then ActionDensity(s.value.action) else 0.0
  }

  /** The verdict rule: with both moves present, a network priority exactly
      when its density beats 1.2 times the other's, an operational priority
      exactly when the reverse holds instead, and a balanced verdict
      otherwise, each with the rounded density and the second line that
      names the move; a fixed pair of lines for each other case. */
  predicate SummaryVerdict(lines: seq<SummaryLine>, network: Option<Selection>, operational: Option<Selection>)
  {
    var n := SelectionDensity(network);
    var op := SelectionDensity(operational);
    && |lines| == 2
    && (network.Some? && operational.Some? ==>
          && (lines[0].NetworkPriority? <==> n > op * 1.2)
          && (lines[0].OperationalPriority? <==> !(n > op * 1.2) && op > n * 1.2)
          && (lines[0].BalancedPriority? <==> !(n > op * 1.2) && !(op > n * 1.2))
          && (n > op * 1.2 ==>
                lines == [NetworkPriority(Round(n)),
                          IntroIsHighestLeverage(OrDefault(network.value.action.targetPersonName, "Contact"))])
          && (!(n > op * 1.2) && op > n * 1.2 ==>
                lines == [OperationalPriority(Round(op)),
                          FocusOn(OrDefault(operational.value.action.title, operational.value.action.id))])
          && (!(n > op * 1.2) && !(op > n * 1.2) ==>
                lines == [BalancedPriority(Round((n + op) / 2.0)), NetworkFirstIfTimeLimited]))
    && (network.Some? && operational.None? ==> lines == [NetworkClearPriority, NoCompetingOperational])
    && (network.None? && operational.Some? ==> lines == [OperationalFocus, NoNetworkOpportunities])
    && (network.None? && operational.None? ==> lines == [NoHighValueActions, ReviewBacklog])
  }

  /** With non-negative densities the two priority verdicts cannot both apply. */
  lemma DominanceExclusive(n: real, op: real)
    requires n >= 0.0 && op >= 0.0
    ensures !(n > op * 1.2 && op > n * 1.2)
  {
  }

  /** `buildSummary(company, networkAction, nonNetworkAction)`. */
  method BuildSummary(network: Option<Selection>, operational: Option<Selection>)
    returns (lines: seq<SummaryLine>)
    ensures SummaryVerdict(lines, network, operational)
  {
    lines := [];
    if network.Some? && operational.Some? {
      var n := SelectionDensity(network);
      var op := SelectionDensity(operational);
      if n > op * 1.2 {
        lines := lines + [NetworkPriority(Round(n))];
        lines := lines + [IntroIsHighestLeverage(OrDefault(network.value.action.targetPersonName, "Contact"))];
      } else if op > n * 1.2 {
        lines := lines + [OperationalPriority(Round(op))];
        lines := lines + [FocusOn(OrDefault(operational.value.action.title, operational.value.action.id))];
      } else {
        lines := lines + [BalancedPriority(Round((n + op) / 2.0))];
        lines := lines + [NetworkFirstIfTimeLimited];
      }
    } else if network.Some? {
      lines := lines + [NetworkClearPriority];
      lines := lines + [NoCompetingOperational];
    } else if operational.Some? {
      lines := lines + [OperationalFocus];
      lines := lines + [NoNetworkOpportunities];
    } else {
      lines := lines + [NoHighValueActions];
      lines := lines + [ReviewBacklog];
    }
  }

  // ---------------------------------------------------------------------------
  // generateCompanyWeeklyValue
  // ---------------------------------------------------------------------------

  /** `primaryGoal ? { id, name, type, progressPct, daysRemaining } : null`;
      a zero target or a missing due date gives a non-finite number, which
      serialises as null. */
  datatype GoalSummary = GoalSummary(
    id: string,
    name: Option<string>,
    kind: Option<string>,
    progressPct: Option<int>,
    daysRemaining: Option<int>)

  function SummarizeGoal(g: Goal, now: int): (r: GoalSummary)
    ensures r.daysRemaining.Some? <==> g.due.Some?
    ensures g.due.Some? ==>
      r.daysRemaining.value * DAY_MS <= g.due.value - now < (r.daysRemaining.value + 1) * DAY_MS
    ensures r.progressPct.None? <==> g.target == 0.0
  {
    GoalSummary(
      g.id, g.name, g.kind,
      if g.target == 0.0 then None else Some(Round(g.current / g.target * 100.0)),
      if g.due.Some? then Some((g.due.value - now) / DAY_MS) else None)
  }

  datatype CompanyWeekly = CompanyWeekly(
    companyId: string,
    companyName: Option<string>,
    primaryGoal: Option<GoalSummary>,
    networkAction: Option<Selection>,
    nonNetworkAction: Option<Selection>,
    summary: seq<SummaryLine>,
    totalActionsConsidered: nat)

  /** `attached` is `ranked` with every missing value vector computed in the
      given context and every attached one kept. */
  ghost predicate Attached(ranked: seq<Action>, attached: seq<Action>, goal: Option<Goal>, now: int,
                           portfolioIds: seq<string>)
  {
    && |attached| == |ranked|
    && forall i :: 0 <= i < |ranked| ==>
         && attached[i].valueVector.Some?
         && attached[i] == ranked[i].(valueVector := attached[i].valueVector)
         && (ranked[i].valueVector.Some? ==> attached[i] == ranked[i])
         && (ranked[i].valueVector.None? ==>
               VectorOf(attached[i].valueVector.value, ranked[i], goal, now, portfolioIds))
  }

  /** `rankedActions.map(a => ({ ...a, valueVector: a.valueVector || computeValueVector(a, ctx) }))`. */
  method AttachVectors(ranked: seq<Action>, goal: Option<Goal>, now: int, portfolioIds: seq<string>)
    returns (attached: seq<Action>)
    ensures Attached(ranked, attached, goal, now, portfolioIds)
  {
    attached := [];
    for i := 0 to |ranked|
      invariant Attached(ranked[..i], attached, goal, now, portfolioIds)
    {
      var a := ranked[i];
      if a.valueVector.None? {
        var v := ComputeValueVector(a, goal, now, portfolioIds);
        a := a.(valueVector := Some(v));
      }
      AttachedStep(ranked, i, attached, a, goal, now, portfolioIds);
      attached := attached + [a];
    }
    assert ranked[..|ranked|] == ranked;
  }

  /** The loop step of `AttachVectors`, on a prefix of `ranked`. */
  lemma AttachedStep(ranked: seq<Action>, i: nat, attached: seq<Action>, a: Action,
                     goal: Option<Goal>, now: int, portfolioIds: seq<string>)
    requires i < |ranked| && Attached(ranked[..i], attached, goal, now, portfolioIds)
    requires a.valueVector.Some? && a == ranked[i].(valueVector := a.valueVector)
    requires ranked[i].valueVector.Some? ==> a == ranked[i]
    requires ranked[i].valueVector.None? ==> VectorOf(a.valueVector.value, ranked[i], goal, now, portfolioIds)
    ensures Attached(ranked[..i + 1], attached + [a], goal, now, portfolioIds)
  {
    AttachedAppend(ranked[..i], attached, ranked[i], a, goal, now, portfolioIds);
    assert ranked[..i + 1] == ranked[..i] + [ranked[i]];
  }

  /** One more action, with its vector kept or computed. */
  lemma AttachedAppend(ranked: seq<Action>, attached: seq<Action>, r: Action, a: Action,
                       goal: Option<Goal>, now: int, portfolioIds: seq<string>)
    requires Attached(ranked, attached, goal, now, portfolioIds)
    requires a.valueVector.Some? && a == r.(valueVector := a.valueVector)
    requires r.valueVector.Some? ==> a == r
    requires r.valueVector.None? ==> VectorOf(a.valueVector.value, r, goal, now, portfolioIds)
    ensures Attached(ranked + [r], attached + [a], goal, now, portfolioIds)
  {
    var rs, ts := ranked + [r], attached + [a];
    forall i | 0 <= i < |rs|
      ensures ts[i].valueVector.Some? && ts[i] == rs[i].(valueVector := ts[i].valueVector)
      ensures rs[i].valueVector.Some? ==> ts[i] == rs[i]
      ensures rs[i].valueVector.None? ==> VectorOf(ts[i].valueVector.value, rs[i], goal, now, portfolioIds)
    {
      if i < |ranked| {
        assert rs[i] == ranked[i] && ts[i] == attached[i];
      }
    }
  }

  /** Attaching vectors changes no action's class. */
  lemma AttachedKeepsClasses(ranked: seq<Action>, attached: seq<Action>, goal: Option<Goal>, now: int,
                             portfolioIds: seq<string>)
    requires Attached(ranked, attached, goal, now, portfolioIds)
    ensures (forall a :: a in attached ==> !IsIntroduction(a)) <==> (forall a :: a in ranked ==> !IsIntroduction(a))
    ensures (forall a :: a in attached ==> !IsOperational(a)) <==> (forall a :: a in ranked ==> !IsOperational(a))
  {
    forall i | 0 <= i < |ranked|
      ensures IsIntroduction(attached[i]) == IsIntroduction(ranked[i])
      ensures IsOperational(attached[i]) == IsOperational(ranked[i])
    {
      assert attached[i].kind == ranked[i].kind && attached[i].sourceType == ranked[i].sourceType;
    }
  }

  /** The considered actions, densest first. */
  function Considered(attached: seq<Action>): seq<Action>
  {
    SortBy(attached, ActionDensity)
  }

  /** A sort keeps every element, so it keeps "no element of this class". */
  lemma SortKeepsClasses(s: seq<Action>)
    ensures (forall a :: a in Considered(s) ==> !IsIntroduction(a)) <==> (forall a :: a in s ==> !IsIntroduction(a))
    ensures (forall a :: a in Considered(s) ==> !IsOperational(a)) <==> (forall a :: a in s ==> !IsOperational(a))
  {
    var r := Considered(s);
    assert forall a :: a in r <==> a in multiset(r);
    assert forall a :: a in s <==> a in multiset(s);
  }

  /** Sorts the actions densest first and picks the best of each class. */
  method SelectMoves(attached: seq<Action>, goal: Option<Goal>) returns (network: Option<Selection>, operational: Option<Selection>)
    ensures network == NetworkSelection(Considered(attached), goal)
    ensures operational == OperationalSelection(Considered(attached), goal)
    ensures network.None? <==> forall a :: a in attached ==> !IsIntroduction(a)
    ensures operational.None? <==> forall a :: a in attached ==> !IsOperational(a)
  {
    var considered := SortBy(attached, ActionDensity);
    SortKeepsClasses(attached);
    network := SelectBestNetworkAction(considered, goal);
    operational := SelectBestNonNetworkAction(considered, goal);
  }

  /** The selected action of a class is the densest action of that class. */
  lemma SelectedIsDensest(attached: seq<Action>, p: Action -> bool)
    requires Filter(Considered(attached), p) != []
    ensures forall a :: a in attached && p(a) ==>
      ActionDensity(Filter(Considered(attached), p)[0]) >= ActionDensity(a)
  {
    var considered := Considered(attached);
    FilterHeadIsMax(considered, p, ActionDensity);
    assert forall a :: a in attached ==> a in multiset(considered);
  }

  /** `cw` is `generateCompanyWeeklyValue(company, ranked, context)` at
      time `now`, where `attached` is `ranked` with its value vectors
      attached: the company's id and name, the summary of its primary goal,
      the network and operational selections over `attached` sorted densest
      first (each present exactly when `ranked` holds an action of its
      class), the summary verdict on the two, and the number of actions. */
  ghost predicate CompanyWeeklyOf(cw: CompanyWeekly, company: Company, ranked: seq<Action>, attached: seq<Action>,
                                  now: int, portfolioIds: seq<string>)
  {
    var goal := PrimaryGoal(company.goals);
    && cw.companyId == company.id && cw.companyName == company.name
    && cw.totalActionsConsidered == |ranked|
    && cw.primaryGoal == (if goal.Some? then Some(SummarizeGoal(goal.value, now)) else None)
    && Attached(ranked, attached, goal, now, portfolioIds)
    && cw.networkAction == NetworkSelection(Considered(attached), goal)
    && cw.nonNetworkAction == OperationalSelection(Considered(attached), goal)
    && (cw.networkAction.None? <==> forall a :: a in ranked ==> !IsIntroduction(a))
    && (cw.nonNetworkAction.None? <==> forall a :: a in ranked ==> !IsOperational(a))
    && SummaryVerdict(cw.summary, cw.networkAction, cw.nonNetworkAction)
  }

  /** `generateCompanyWeeklyValue(company, rankedActions, context)`.
      `attached` is the list the selection runs on before its sort. */
  method GenerateCompanyWeeklyValue(company: Company, ranked: seq<Action>, now: int, portfolioIds: seq<string>)
    returns (cw: CompanyWeekly, ghost attached: seq<Action>)
    ensures CompanyWeeklyOf(cw, company, ranked, attached, now, portfolioIds)
    ensures cw.companyId == company.id && cw.companyName == company.name && cw.totalActionsConsidered == |ranked|
    ensures cw.networkAction.None? <==> forall a :: a in ranked ==> !IsIntroduction(a)
    ensures cw.nonNetworkAction.None? <==> forall a :: a in ranked ==> !IsOperational(a)
    ensures SummaryVerdict(cw.summary, cw.networkAction, cw.nonNetworkAction)
  {
    var goal := PrimaryGoal(company.goals);
    var withVectors := AttachVectors(ranked, goal, now, portfolioIds);
    attached := withVectors;
    AttachedKeepsClasses(ranked, withVectors, goal, now, portfolioIds);
    var network, operational := SelectMoves(withVectors, goal);
    var summary := BuildSummary(network, operational);
    var goalSummary := if goal.Some? then Some(SummarizeGoal(goal.value, now)) else None;
    cw := CompanyWeekly(company.id, company.name, goalSummary, network, operational, summary, |withVectors|);
  }

  // ---------------------------------------------------------------------------
  // generatePortfolioWeeklyValue
  // ---------------------------------------------------------------------------

  /** `action.companyId || action.entityRef?.id`. */
  function CompanyKey(a: Action): Option<string>
  {
    if TruthyString(a.companyId) then a.companyId else a.entityRefId
  }

  /** The actions grouped under `key`, in their original order. */
  function ActionsOf(acts: seq<Action>, key: Option<string>): (r: seq<Action>)
    ensures forall a :: a in r <==> a in acts && CompanyKey(a) == key
    ensures |r| <= |acts|
  {
    if acts == [] then []
    else
      var last := acts[|acts| - 1];
      assert acts == acts[..|acts| - 1] + [last];
      ActionsOf(acts[..|acts| - 1], key) + (if CompanyKey(last) == key then [last] else [])
  }

  /** `groups` holds, for every key seen in `acts`, exactly its non-empty
      group, and no other key. */
  ghost predicate Grouped(groups: map<Option<string>, seq<Action>>, acts: seq<Action>)
  {
    && (forall k :: k in groups ==> groups[k] == ActionsOf(acts, k) && groups[k] != [])
    && (forall k :: k !in groups ==> ActionsOf(acts, k) == [])
  }

  /** Appending one action extends exactly its own key's group. */
  lemma ActionsOfSnoc(acts: seq<Action>, i: nat, k: Option<string>)
    requires i < |acts|
    ensures ActionsOf(acts[..i + 1], k) == ActionsOf(acts[..i], k) + (if CompanyKey(acts[i]) == k then [acts[i]] else [])
  {
    assert acts[..i + 1][..i] == acts[..i];
  }

  /** One step of the grouping loop: pushing `acts[i]` onto its key's
      group, created empty when missing, groups one more action. */
  lemma GroupStep(groups: map<Option<string>, seq<Action>>, acts: seq<Action>, i: nat)
    requires i < |acts| && Grouped(groups, acts[..i])
    ensures var key := CompanyKey(acts[i]);
      Grouped(groups[key := (if key in groups then groups[key] else []) + [acts[i]]], acts[..i + 1])
  {
    var a := acts[i];
    var key := CompanyKey(a);
    var next := groups[key := (if key in groups then groups[key] else []) + [a]];
    forall k | k in next
      ensures next[k] == ActionsOf(acts[..i + 1], k) && next[k] != []
    {
      ActionsOfSnoc(acts, i, k);
    }
    forall k | k !in next
      ensures ActionsOf(acts[..i + 1], k) == []
    {
      ActionsOfSnoc(acts, i, k);
    }
  }

  /** The grouping loop: every key present holds exactly its actions, in
      order, and a key never seen has none. */
  method GroupByCompany(acts: seq<Action>) returns (groups: map<Option<string>, seq<Action>>)
    ensures forall k :: k in groups ==> groups[k] == ActionsOf(acts, k) && groups[k] != []
    ensures forall k :: k !in groups ==> ActionsOf(acts, k) == []
  {
    groups := map[];
    for i := 0 to |acts|
      invariant Grouped(groups, acts[..i])
    {
      var a := acts[i];
      var key := CompanyKey(a);
      GroupStep(groups, acts, i);
      ghost var next := groups[key := (if key in groups then groups[key] else []) + [a]];
      if key !in groups {
        groups := groups[key := []];
      }
      groups := groups[key := groups[key] + [a]];
      assert groups == next;
    }
    assert acts[..|acts|] == acts;
  }

  function NetworkDensity(cw: CompanyWeekly): real
  {
    SelectionDensity(cw.networkAction)
  }

  function OperationalDensity(cw: CompanyWeekly): real
  {
    SelectionDensity(cw.nonNetworkAction)
  }

  /** The company's best opportunity: the larger of its two moves' densities. */
  function BestDensity(cw: CompanyWeekly): real
  {
    Max(NetworkDensity(cw), OperationalDensity(cw))
  }

  predicate HasNetworkMove(cw: CompanyWeekly)
  {
    cw.networkAction.Some?
  }

  predicate HasOperationalMove(cw: CompanyWeekly)
  {
    cw.nonNetworkAction.Some?
  }

  /** A portfolio priority: `{ company, action, valueDensity }`. */
  datatype Move = Move(company: Option<string>, action: Option<string>, valueDensity: real)

  /** Network moves are named `targetPersonName || id`. */
  function NetworkMoves(s: seq<CompanyWeekly>): (r: seq<Move>)
    ensures |r| == |s|
    ensures forall i :: 0 <= i < |s| ==> r[i].company == s[i].companyName && r[i].valueDensity == NetworkDensity(s[i])
    ensures forall i :: 0 <= i < |s| && HasNetworkMove(s[i]) ==>
      var a := s[i].networkAction.value.action;
      r[i].action == Some(OrDefault(a.targetPersonName, a.id))
  {
    if s == [] then []
    else
      var name := if HasNetworkMove(s[0]) then
        var a := s[0].networkAction.value.action; Some(OrDefault(a.targetPersonName, a.id))
      else None;
      [Move(s[0].companyName, name, NetworkDensity(s[0]))] + NetworkMoves(s[1..])
  }

  /** Operational moves are named `title || id`. */
  function OperationalMoves(s: seq<CompanyWeekly>): (r: seq<Move>)
    ensures |r| == |s|
    ensures forall i :: 0 <= i < |s| ==> r[i].company == s[i].companyName && r[i].valueDensity == OperationalDensity(s[i])
    ensures forall i :: 0 <= i < |s| && HasOperationalMove(s[i]) ==>
      var a := s[i].nonNetworkAction.value.action;
      r[i].action == Some(OrDefault(a.title, a.id))
  {
    if s == [] then []
    else
      var name := if HasOperationalMove(s[0]) then
        var a := s[0].nonNetworkAction.value.action; Some(OrDefault(a.title, a.id))
      else None;
      [Move(s[0].companyName, name, OperationalDensity(s[0]))] + OperationalMoves(s[1..])
  }

  /** The companies behind the top network moves: those with a network
      move, densest first, the first three. */
  function NetworkLeaders(companies: seq<CompanyWeekly>): seq<CompanyWeekly>
  {
    Take(SortBy(Filter(companies, HasNetworkMove), NetworkDensity), 3)
  }

  /** The companies behind the top operational moves. */
  function OperationalLeaders(companies: seq<CompanyWeekly>): seq<CompanyWeekly>
  {
    Take(SortBy(Filter(companies, HasOperationalMove), OperationalDensity), 3)
  }

  /** The three densest network moves, densest first, one per leading
      company. */
  function TopNetworkMoves(companies: seq<CompanyWeekly>): (r: seq<Move>)
    ensures r == NetworkMoves(NetworkLeaders(companies))
    ensures |r| <= 3
    ensures forall i, j :: 0 <= i < j < |r| ==> r[i].valueDensity >= r[j].valueDensity
  {
    TakeDescending(SortBy(Filter(companies, HasNetworkMove), NetworkDensity), 3, NetworkDensity);
    NetworkMovesDescending(NetworkLeaders(companies));
    NetworkMoves(NetworkLeaders(companies))
  }

  /** Moves listed from companies in descending density stay in that order. */
  lemma NetworkMovesDescending(top: seq<CompanyWeekly>)
    requires Descending(top, NetworkDensity)
    ensures forall i, j :: 0 <= i < j < |top| ==> NetworkMoves(top)[i].valueDensity >= NetworkMoves(top)[j].valueDensity
  {
    var r := NetworkMoves(top);
    forall i, j | 0 <= i < j < |top|
      ensures r[i].valueDensity >= r[j].valueDensity
    {
      assert r[i].valueDensity == NetworkDensity(top[i]) && r[j].valueDensity == NetworkDensity(top[j]);
    }
  }

  /** The leaders are min(3, k) of the k companies with a network move,
      each taken at most as often as it occurs; the first is the densest of
      all, and every company left out is no denser than the last one
      listed. */
  lemma TopNetworkMovesDensest(companies: seq<CompanyWeekly>)
    ensures var top := NetworkLeaders(companies);
      var f := Filter(companies, HasNetworkMove);
      && |top| == (if |f| < 3 then |f| else 3)
      && multiset(top) <= multiset(f)
      && (forall c :: c in top ==> c in companies && HasNetworkMove(c))
      && (|top| > 0 ==> forall c :: c in companies && HasNetworkMove(c) ==> NetworkDensity(top[0]) >= NetworkDensity(c))
      && (|top| > 0 ==> forall c :: c in multiset(f) - multiset(top) ==> NetworkDensity(c) <= NetworkDensity(top[|top| - 1]))
  {
    var f := Filter(companies, HasNetworkMove);
    var top := NetworkLeaders(companies);
    SortByHeadIsMax(f, NetworkDensity);
    TopOfDescending(SortBy(f, NetworkDensity), NetworkDensity, 3);
    forall c | c in top
      ensures c in companies && HasNetworkMove(c)
    {
      assert c in multiset(f);
    }
  }

  /** The three densest operational moves, densest first, one per leading
      company. */
  function TopOperationalMoves(companies: seq<CompanyWeekly>): (r: seq<Move>)
    ensures r == OperationalMoves(OperationalLeaders(companies))
    ensures |r| <= 3
    ensures forall i, j :: 0 <= i < j < |r| ==> r[i].valueDensity >= r[j].valueDensity
  {
    TakeDescending(SortBy(Filter(companies, HasOperationalMove), OperationalDensity), 3, OperationalDensity);
    OperationalMovesDescending(OperationalLeaders(companies));
    OperationalMoves(OperationalLeaders(companies))
  }

  /** Moves listed from companies in descending density stay in that order. */
  lemma OperationalMovesDescending(top: seq<CompanyWeekly>)
    requires Descending(top, OperationalDensity)
    ensures forall i, j :: 0 <= i < j < |top| ==> OperationalMoves(top)[i].valueDensity >= OperationalMoves(top)[j].valueDensity
  {
    var r := OperationalMoves(top);
    forall i, j | 0 <= i < j < |top|
      ensures r[i].valueDensity >= r[j].valueDensity
    {
      assert r[i].valueDensity == OperationalDensity(top[i]) && r[j].valueDensity == OperationalDensity(top[j]);
    }
  }

  /** The leaders are min(3, k) of the k companies with an operational
      move, each taken at most as often as it occurs; the first is the
      densest of all, and every company left out is no denser than the last
      one listed. */
  lemma TopOperationalMovesDensest(companies: seq<CompanyWeekly>)
    ensures var top := OperationalLeaders(companies);
      var f := Filter(companies, HasOperationalMove);
      && |top| == (if |f| < 3 then |f| else 3)
      && multiset(top) <= multiset(f)
      && (forall c :: c in top ==> c in companies && HasOperationalMove(c))
      && (|top| > 0 ==> forall c :: c in companies && HasOperationalMove(c) ==> OperationalDensity(top[0]) >= OperationalDensity(c))
      && (|top| > 0 ==> forall c :: c in multiset(f) - multiset(top) ==> OperationalDensity(c) <= OperationalDensity(top[|top| - 1]))
  {
    var f := Filter(companies, HasOperationalMove);
    var top := OperationalLeaders(companies);
    SortByHeadIsMax(f, OperationalDensity);
    TopOfDescending(SortBy(f, OperationalDensity), OperationalDensity, 3);
    forall c | c in top
      ensures c in companies && HasOperationalMove(c)
    {
      assert c in multiset(f);
    }
  }

  datatype Stats = Stats(
    companiesWithNetworkActions: nat,
    companiesWithOperationalActions: nat,
    totalActionsConsidered: nat)

  datatype Portfolio = Portfolio(
    companies: seq<CompanyWeekly>,
    topNetworkMoves: seq<Move>,
    topOperationalMoves: seq<Move>,
    stats: Stats)

  /** A company's group, looked up in the grouping map: a key that was
      never seen has an empty group. */
  lemma GroupLookup(groups: map<Option<string>, seq<Action>>, all: seq<Action>, key: Option<string>)
    requires forall k :: k in groups ==> groups[k] == ActionsOf(all, k)
    requires forall k :: k !in groups ==> ActionsOf(all, k) == []
    ensures (if key in groups then groups[key] else []) == ActionsOf(all, key)
  {
  }

  /** `generatePortfolioWeeklyValue(companies, allRankedActions, context)`.
      `values` are the per-company results in the input's company order,
      each `generateCompanyWeeklyValue` of the company over its own group;
      `attached` holds each group with its value vectors attached. */
  method GeneratePortfolioWeeklyValue(companies: seq<Company>, all: seq<Action>, now: int,
                                      portfolioIds: seq<string>)
    returns (p: Portfolio, ghost values: seq<CompanyWeekly>, ghost attached: seq<seq<Action>>)
    ensures |values| == |companies| && |attached| == |companies|
    ensures forall i :: 0 <= i < |companies| ==>
      CompanyWeeklyOf(values[i], companies[i], ActionsOf(all, Some(companies[i].id)), attached[i], now, portfolioIds)
    ensures p.companies == SortBy(values, BestDensity)
    ensures multiset(p.companies) == multiset(values) && Descending(p.companies, BestDensity)
    ensures p.topNetworkMoves == TopNetworkMoves(p.companies)
    ensures p.topOperationalMoves == TopOperationalMoves(p.companies)
    ensures p.stats.companiesWithNetworkActions == |Filter(p.companies, HasNetworkMove)|
    ensures p.stats.companiesWithOperationalActions == |Filter(p.companies, HasOperationalMove)|
    ensures p.stats.totalActionsConsidered == |all|
  {
    var groups := GroupByCompany(all);
    var results: seq<CompanyWeekly> := [];
    ghost var lists: seq<seq<Action>> := [];
    for i := 0 to |companies|
      invariant |results| == i && |lists| == i
      invariant forall j :: 0 <= j < i ==>
        CompanyWeeklyOf(results[j], companies[j], ActionsOf(all, Some(companies[j].id)), lists[j], now, portfolioIds)
    {
      var key := Some(companies[i].id);
      var companyActions := if key in groups then groups[key] else [];
      GroupLookup(groups, all, key);
      var cw, att := GenerateCompanyWeeklyValue(companies[i], companyActions, now, portfolioIds);
      results := results + [cw];
      lists := lists + [att];
    }
    values, attached := results, lists;
    var sorted := SortBy(results, BestDensity);
    p := Portfolio(
      sorted,
      TopNetworkMoves(sorted),
      TopOperationalMoves(sorted),
      Stats(|Filter(sorted, HasNetworkMove)|, |Filter(sorted, HasOperationalMove)|, |all|));
  }
}
