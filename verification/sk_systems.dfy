/**
 * The concrete registration table of the engine's start-up routine, and what it
 * guarantees: unique names, every dependency registered, both relations acyclic,
 * and the orderings any scheduler honouring it must produce.
 */
module SkSystems {
  import opened Systems

  /** The eleven registrations, in the order they are made. */
  function SkInitTable(): seq<System>
  {
    StartupRegistrations() + FrameRegistrations()
  }

  /** The registrations of the subsystems with an initialiser, Graphics to Input. */
  function StartupRegistrations(): seq<System>
  {
    [ System("Graphics", [], [], true, true, true),
      System("Defaults", ["Graphics"], [], true, false, true),
      System("Platform", ["Graphics", "Defaults"], [], true, false, true),
      System("Physics", ["Defaults"], ["Input", "FrameBegin"], true, true, true),
      System("Renderer", ["Graphics", "Defaults"], ["Physics", "FrameBegin"], true, true, true),
      System("Input", ["Platform", "Defaults"], ["FrameBegin"], true, true, true) ]
  }

  /** The registrations of the per-frame-only subsystems, Text to FramePresent. */
  function FrameRegistrations(): seq<System>
  {
    [ System("Text", ["Defaults"], ["FrameBegin", "App"], false, true, true),
      System("App", [], ["Input", "Defaults", "FrameBegin", "Graphics", "Physics", "Renderer"], false, true, false),
      System("FrameBegin", [], [], false, true, false),
      System("FrameEnd", [], ["App", "Text"], false, true, false),
      System("FramePresent", [], ["FrameEnd"], false, true, false) ]
  }

  /** The registered names, in registration order. */
  function SkRegistrationOrder(): seq<string>
  {
    ["Graphics", "Defaults", "Platform", "Physics", "Renderer", "Input",
     "Text", "App", "FrameBegin", "FrameEnd", "FramePresent"]
  }

  lemma RegistrationOrderIsNames()
    ensures Names(SkInitTable()) == SkRegistrationOrder()
  {
    RegistrationNamesByIndex();
    NamesByIndex(SkInitTable(), SkRegistrationOrder());
  }

  lemma RegistrationNamesByIndex()
    ensures |SkRegistrationOrder()| == |SkInitTable()|
    ensures forall i :: 0 <= i < |SkInitTable()| ==> SkInitTable()[i].name == SkRegistrationOrder()[i]
  {
  }

  /** A per-frame schedule that honours every update dependency of the table. */
  function SkUpdateOrder(): seq<string>
  {
    ["Graphics", "Defaults", "Platform", "FrameBegin", "Input", "Physics",
     "Renderer", "App", "Text", "FrameEnd", "FramePresent"]
  }

  /** Position of each name in registration order. */
  function RegistrationRank(n: string): int
  {
    if n == "Graphics" then 0 else if n == "Defaults" then 1 else if n == "Platform" then 2
    else if n == "Physics" then 3 else if n == "Renderer" then 4 else if n == "Input" then 5
    else if n == "Text" then 6 else if n == "App" then 7 else if n == "FrameBegin" then 8
    else if n == "FrameEnd" then 9 else if n == "FramePresent" then 10 else 11
  }

  /** Position of each name in SkUpdateOrder. */
  function UpdateRank(n: string): int
  {
    if n == "Graphics" then 0 else if n == "Defaults" then 1 else if n == "Platform" then 2
    else if n == "FrameBegin" then 3 else if n == "Input" then 4 else if n == "Physics" then 5
    else if n == "Renderer" then 6 else if n == "App" then 7 else if n == "Text" then 8
    else if n == "FrameEnd" then 9 else if n == "FramePresent" then 10 else 11
  }

  // Facts about the literals, each small enough to be checked on its own.

  lemma RegistrationOrderDistinct()
    ensures forall i, j :: 0 <= i < j < |SkRegistrationOrder()| ==> SkRegistrationOrder()[i] != SkRegistrationOrder()[j]
  {
  }

  lemma UpdateOrderDistinct()
    ensures forall i, j :: 0 <= i < j < |SkUpdateOrder()| ==> SkUpdateOrder()[i] != SkUpdateOrder()[j]
  {
  }

  lemma OrdersShareNames()
    ensures forall n :: n in SkUpdateOrder() <==> n in SkRegistrationOrder()
  {
  }

  lemma RanksArePositions()
    ensures forall i :: 0 <= i < |SkRegistrationOrder()| ==> RegistrationRank(SkRegistrationOrder()[i]) == i
    ensures forall i :: 0 <= i < |SkUpdateOrder()| ==> UpdateRank(SkUpdateOrder()[i]) == i
  {
  }

  lemma InitEdgesClimb()
    ensures forall k, d :: 0 <= k < |SkInitTable()| && d in DepsOf(SkInitTable()[k], InitRelation) ==>
      RegistrationRank(d) < RegistrationRank(SkInitTable()[k].name)
  {
  }

  lemma UpdateEdgesClimb()
    ensures forall k, d :: 0 <= k < |SkInitTable()| && d in DepsOf(SkInitTable()[k], UpdateRelation) ==>
      UpdateRank(d) < UpdateRank(SkInitTable()[k].name)
  {
  }

  lemma DepsAreNames()
    ensures forall k, d :: 0 <= k < |SkInitTable()| && d in SkInitTable()[k].initDeps ==> d in SkRegistrationOrder()
    ensures forall k, d :: 0 <= k < |SkInitTable()| && d in SkInitTable()[k].updateDeps ==> d in SkRegistrationOrder()
  {
  }

  /** Both concrete orders list every registered name exactly once. */
  lemma OrdersListEveryName()
    ensures IsOrderOf(SkRegistrationOrder(), SkInitTable())
    ensures IsOrderOf(SkUpdateOrder(), SkInitTable())
  {
    RegistrationOrderIsNames();
    RegistrationOrderDistinct();
    UpdateOrderDistinct();
    OrdersShareNames();
  }

  /** Every name any registration depends on, under either relation, is registered. */
  lemma TableDepsRegistered()
    ensures DepsRegistered(SkInitTable())
  {
    RegistrationOrderIsNames();
    DepsAreNames();
    DepsRegisteredByIndex(SkInitTable());
  }

  /** Registration order is itself a valid initialisation order. */
  lemma RegistrationOrderInitializes()
    ensures Respects(SkRegistrationOrder(), SkInitTable(), InitRelation)
  {
    OrdersListEveryName();
    RanksArePositions();
    InitEdgesClimb();
    RankedRespects(SkRegistrationOrder(), SkInitTable(), InitRelation, RegistrationRank);
  }

  /** SkUpdateOrder is a valid per-frame order. */
  lemma UpdateOrderRespects()
    ensures Respects(SkUpdateOrder(), SkInitTable(), UpdateRelation)
  {
    OrdersListEveryName();
    RanksArePositions();
    UpdateEdgesClimb();
    RankedRespects(SkUpdateOrder(), SkInitTable(), UpdateRelation, UpdateRank);
  }

  // ---------------------------------------------------------------------------
  // What the table guarantees.
  // ---------------------------------------------------------------------------

  /** Names are unique, every dependency is registered, and neither relation has a cycle. */
  lemma SkInitTableWellFormed()
    ensures UniqueNames(SkInitTable())
    ensures DepsRegistered(SkInitTable())
    ensures Acyclic(SkInitTable(), InitRelation)
    ensures Acyclic(SkInitTable(), UpdateRelation)
  {
    TableNamesUnique();
    TableDepsRegistered();
    RegistrationOrderInitializes();
    RespectingOrderImpliesAcyclic(SkRegistrationOrder(), SkInitTable(), InitRelation);
    UpdateOrderRespects();
    RespectingOrderImpliesAcyclic(SkUpdateOrder(), SkInitTable(), UpdateRelation);
  }

  lemma TableNamesUnique()
    ensures UniqueNames(SkInitTable())
  {
    OrdersListEveryName();
    OrderImpliesUniqueNames(SkRegistrationOrder(), SkInitTable());
  }

  /** A dependency declared in the table is an edge of the table. */
  lemma TableEdge(rel: Relation, k: nat, d: string)
    requires k < |SkInitTable()| && d in DepsOf(SkInitTable()[k], rel)
    ensures Edge(SkInitTable(), rel, d, SkInitTable()[k].name)
  {
    TableNamesUnique();
    DeclaredDepIsEdge(SkInitTable(), rel, k, d);
  }

  lemma InitEdges()
    ensures Edge(SkInitTable(), InitRelation, "Graphics", "Defaults")
    ensures Edge(SkInitTable(), InitRelation, "Defaults", "Platform")
    ensures Edge(SkInitTable(), InitRelation, "Platform", "Input")
  {
    TableEdge(InitRelation, 1, "Graphics");
    TableEdge(InitRelation, 2, "Defaults");
    TableEdge(InitRelation, 5, "Platform");
  }

  lemma UpdateEdgesBeforeApp()
    ensures Edge(SkInitTable(), UpdateRelation, "FrameBegin", "Input")
    ensures Edge(SkInitTable(), UpdateRelation, "Input", "Physics")
    ensures Edge(SkInitTable(), UpdateRelation, "Physics", "Renderer")
  {
    TableEdge(UpdateRelation, 5, "FrameBegin");
    TableEdge(UpdateRelation, 3, "Input");
    TableEdge(UpdateRelation, 4, "Physics");
  }

  lemma UpdateEdgesFromApp()
    ensures Edge(SkInitTable(), UpdateRelation, "Renderer", "App")
    ensures Edge(SkInitTable(), UpdateRelation, "App", "Text")
    ensures Edge(SkInitTable(), UpdateRelation, "Text", "FrameEnd")
    ensures Edge(SkInitTable(), UpdateRelation, "FrameEnd", "FramePresent")
  {
    UpdateEdgesIntoText();
    UpdateEdgesAfterText();
  }

  lemma UpdateEdgesIntoText()
    ensures Edge(SkInitTable(), UpdateRelation, "Renderer", "App")
    ensures Edge(SkInitTable(), UpdateRelation, "App", "Text")
  {
    TableEdge(UpdateRelation, 7, "Renderer");
    TableEdge(UpdateRelation, 6, "App");
  }

  lemma UpdateEdgesAfterText()
    ensures Edge(SkInitTable(), UpdateRelation, "Text", "FrameEnd")
    ensures Edge(SkInitTable(), UpdateRelation, "FrameEnd", "FramePresent")
  {
    TableEdge(UpdateRelation, 9, "Text");
    TableEdge(UpdateRelation, 10, "FrameEnd");
  }

  /** Any initialisation order honouring the table brings up Graphics, then Defaults, then Platform, then Input. */
  lemma InitAnchors(order: seq<string>)
    requires Respects(order, SkInitTable(), InitRelation)
    ensures "Graphics" in order && "Defaults" in order && "Platform" in order && "Input" in order
    ensures IndexIn(order, "Graphics") < IndexIn(order, "Defaults") < IndexIn(order, "Platform") < IndexIn(order, "Input")
  {
    var t := SkInitTable();
    TableDepsRegistered();
    InitEdges();
    EdgeAscends(order, t, InitRelation, "Graphics", "Defaults");
    EdgeAscends(order, t, InitRelation, "Defaults", "Platform");
    EdgeAscends(order, t, InitRelation, "Platform", "Input");
  }

  /** Any per-frame order honouring the table runs FrameBegin, Input, Physics, Renderer, App, Text, FrameEnd, FramePresent in that order. */
  lemma FrameAnchors(order: seq<string>)
    requires Respects(order, SkInitTable(), UpdateRelation)
    ensures "FrameBegin" in order && "Input" in order && "Physics" in order && "Renderer" in order
    ensures "App" in order && "Text" in order && "FrameEnd" in order && "FramePresent" in order
    ensures IndexIn(order, "FrameBegin") < IndexIn(order, "Input") < IndexIn(order, "Physics") < IndexIn(order, "Renderer")
    ensures IndexIn(order, "Renderer") < IndexIn(order, "App") < IndexIn(order, "Text") < IndexIn(order, "FrameEnd")
    ensures IndexIn(order, "FrameEnd") < IndexIn(order, "FramePresent")
  {
    var t := SkInitTable();
    TableDepsRegistered();
    UpdateEdgesBeforeApp();
    UpdateEdgesFromApp();
    EdgeAscends(order, t, UpdateRelation, "FrameBegin", "Input");
    EdgeAscends(order, t, UpdateRelation, "Input", "Physics");
    EdgeAscends(order, t, UpdateRelation, "Physics", "Renderer");
    EdgeAscends(order, t, UpdateRelation, "Renderer", "App");
    EdgeAscends(order, t, UpdateRelation, "App", "Text");
    EdgeAscends(order, t, UpdateRelation, "Text", "FrameEnd");
    EdgeAscends(order, t, UpdateRelation, "FrameEnd", "FramePresent");
  }

  /** Proof helper: where Input and Physics sit in registration order, kept apart so the literal is unfolded once. */
  lemma InputAfterPhysicsInRegistration()
    ensures SkRegistrationOrder()[5] == "Input" && SkRegistrationOrder()[3] == "Physics"
  {
  }

  /** Registration order does not serve as a per-frame order: Physics is registered before Input but updates after it. */
  lemma RegistrationOrderIsNotAnUpdateOrder()
    ensures !Respects(SkRegistrationOrder(), SkInitTable(), UpdateRelation)
  {
    UpdateEdgesBeforeApp();
    InputAfterPhysicsInRegistration();
    BackwardEdgeRefutes(SkRegistrationOrder(), SkInitTable(), UpdateRelation, 5, 3, "Input", "Physics");
  }
}
