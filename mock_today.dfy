/** The UI's mock "today" endpoint: a fixed list of three actions and two
    module-level lists of completed and skipped ids. A GET serves the first
    action in neither list, and starts over when none is left. */
module MockToday {
  import opened Common
  import opened Sequences

  datatype EntityRef = EntityRef(kind: string, id: string, name: string)

  datatype Step = Step(step: int, action: string)

  datatype Source = Source(sourceType: string, sourceId: string)

  datatype MockAction = MockAction(actionId: string, title: string, entityRef: EntityRef,
                                   resolutionId: string, steps: seq<Step>, sources: seq<Source>,
                                   kind: string)

  /** The fixed action list, in ranking order. */
  const MOCK_ACTIONS: seq<MockAction> := [
    MockAction("action_001", "Schedule investor update call with Series A lead",
               EntityRef("company", "comp_001", "Pluto Analytics"), "SCHEDULE_UPDATE",
               [Step(1, "Open calendar and find 30-minute slot this week"),
                Step(2, "Email lead investor with 3 time options"),
                Step(3, "Prepare brief update doc highlighting Q4 metrics")],
               [Source("GOAL", "goal_funding_q1")], "COMMUNICATION"),
    MockAction("action_002", "Review and approve engineering headcount plan",
               EntityRef("company", "comp_002", "Lucius AI"), "APPROVE_PLAN",
               [Step(1, "Review attached hiring plan document"),
                Step(2, "Verify budget alignment with Q1 burn target"),
                Step(3, "Reply to CTO with approval or requested changes")],
               [Source("ISSUE", "issue_burn_spike")], "APPROVAL"),
    MockAction("action_003", "Connect portfolio company CEO with potential design partner",
               EntityRef("company", "comp_003", "Nexova Systems"), "MAKE_INTRODUCTION",
               [Step(1, "Draft double opt-in intro email"),
                Step(2, "Send to both parties separately for approval"),
                Step(3, "Make introduction once both confirm")],
               [Source("GOAL", "goal_revenue_q1")], "INTRODUCTION")
  ]

  /** The actions, in list order, whose id is in neither list. */
  function Available(actions: seq<MockAction>, completed: seq<string>, skipped: seq<string>): (r: seq<MockAction>)
    ensures |r| <= |actions|
    ensures forall a :: a in r <==> a in actions && a.actionId !in completed && a.actionId !in skipped
  {
    Filter(actions, (a: MockAction) => a.actionId !in completed && a.actionId !in skipped)
  }

  /** With both lists empty every action is available, so a reset makes
      the next GET serve the first action again. */
  lemma NothingProcessedKeepsAll(actions: seq<MockAction>)
    ensures Available(actions, [], []) == actions
  {
    FilterAll(actions, (a: MockAction) => a.actionId !in [] && a.actionId !in []);
  }

  /** The action served is the first of the list that is in neither id
      list: every action ahead of it is completed or skipped. */
  lemma AvailableFirst(actions: seq<MockAction>, completed: seq<string>, skipped: seq<string>)
    requires Available(actions, completed, skipped) != []
    ensures exists i :: (0 <= i < |actions| && actions[i] == Available(actions, completed, skipped)[0]
                         && forall j :: 0 <= j < i ==>
                              actions[j].actionId in completed || actions[j].actionId in skipped)
  {
    FilterFirst(actions, (a: MockAction) => a.actionId !in completed && a.actionId !in skipped);
  }

  /** A reply: the status and, on 200, the action sent as the body; a 405
      carries an error message instead. */
  datatype Response = Response(status: int, action: Option<MockAction>)

  class TodayStore {
    const actions: seq<MockAction>
    var completedActionIds: seq<string>
    var skippedActionIds: seq<string>

    /** The module's initial state: the fixed list, both id lists empty. */
    constructor ()
      ensures actions == MOCK_ACTIONS
      ensures completedActionIds == [] && skippedActionIds == []
    {
      actions := MOCK_ACTIONS;
      completedActionIds := [];
      skippedActionIds := [];
    }

    /** `handler(req, res)` for a request with method `verb`. */
    method Handler(verb: string) returns (r: Response)
      requires actions != []
      modifies this
      ensures verb != "GET" ==>
                r == Response(405, None)
                && completedActionIds == old(completedActionIds) && skippedActionIds == old(skippedActionIds)
      ensures verb == "GET" ==> r.status == 200 && r.action.Some? && r.action.value in actions
      ensures verb == "GET" && Available(actions, old(completedActionIds), old(skippedActionIds)) != [] ==>
                r.action == Some(Available(actions, old(completedActionIds), old(skippedActionIds))[0])
                && completedActionIds == old(completedActionIds) && skippedActionIds == old(skippedActionIds)
      ensures verb == "GET" && Available(actions, old(completedActionIds), old(skippedActionIds)) == [] ==>
                r.action == Some(actions[0]) && completedActionIds == [] && skippedActionIds == []
      ensures forall id :: id in completedActionIds ==> id in old(completedActionIds)
      ensures forall id :: id in skippedActionIds ==> id in old(skippedActionIds)
    {
      if verb != "GET" {
        return Response(405, None);
      }
      var availableActions := Available(actions, completedActionIds, skippedActionIds);
      if |availableActions| == 0 {
        completedActionIds := [];
        skippedActionIds := [];
        return Response(200, Some(actions[0]));
      }
      assert availableActions[0] in availableActions;
      return Response(200, Some(availableActions[0]));
    }
  }
}
