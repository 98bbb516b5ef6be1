/**
 * Execution progress from a Step Functions history: a fold over the events of
 * all pages into which states were entered and which were left.
 */
module SfnGraph {
  import opened Basics

  /** A history event; the two names are "" when the event has no such details. */
  datatype HistoryEvent = HistoryEvent(kind: string, enteredName: string, exitedName: string)

  datatype Progress = Pending | Running | Succeeded | Failed

  datatype StateProgress = StateProgress(name: string, progress: Progress)

  const GRAPH_STATES: seq<string> := ["IngestValidate", "KraljicClassify", "RouteStrategy", "StrategyExecute",
                                      "BidEvaluation", "ApprovalGate", "AwardComms", "Done"]

  predicate EndsWith(s: string, suffix: string) {
    |suffix| <= |s| && s[|s| - |suffix|..] == suffix
  }

  predicate Enters(e: HistoryEvent, name: string) {
    EndsWith(e.kind, "StateEntered") && e.enteredName == name && Truthy(name)
  }

  predicate Exits(e: HistoryEvent, name: string) {
    !EndsWith(e.kind, "StateEntered") && EndsWith(e.kind, "StateExited") && e.exitedName == name && Truthy(name)
  }

  predicate WasEntered(events: seq<HistoryEvent>, name: string) {
    exists e | e in events :: Enters(e, name)
  }

  predicate WasExited(events: seq<HistoryEvent>, name: string) {
    exists e | e in events :: Exits(e, name)
  }

  function ProgressOf(running: bool, events: seq<HistoryEvent>, name: string): Progress {
    if !WasEntered(events, name) then Pending
    else if WasExited(events, name) then Succeeded
    else if running then Running else Failed
  }

  /** One line per canonical state, whatever other states the history mentions. */
  ghost predicate IsGraph(graph: seq<StateProgress>, running: bool, events: seq<HistoryEvent>) {
    && |graph| == |GRAPH_STATES|
    && forall i | 0 <= i < |graph| ::
         graph[i] == StateProgress(GRAPH_STATES[i], ProgressOf(running, events, GRAPH_STATES[i]))
  }

  function Flatten(pages: seq<seq<HistoryEvent>>): seq<HistoryEvent> {
    if pages == [] then [] else Flatten(pages[..|pages| - 1]) + pages[|pages| - 1]
  }

  // ---------------------------------------------------------------- the fold

  method EnteredAndExited(events: seq<HistoryEvent>) returns (entered: seq<string>, exited: set<string>)
    ensures forall name :: name in entered <==> WasEntered(events, name)
    ensures forall name :: name in exited <==> WasExited(events, name)
    ensures NoDuplicates(entered)
  {
    entered, exited := [], {};
    for i := 0 to |events|
      invariant forall name :: name in entered <==> WasEntered(events[..i], name)
      invariant forall name :: name in exited <==> WasExited(events[..i], name)
      invariant NoDuplicates(entered)
    {
      var e := events[i];
      OneMoreEvent(events, i);
      if EndsWith(e.kind, "StateEntered") {
        if Truthy(e.enteredName) && e.enteredName !in entered {
          entered := entered + [e.enteredName];
        }
      } else if EndsWith(e.kind, "StateExited") {
        if Truthy(e.exitedName) {
          exited := exited + {e.exitedName};
        }
      }
    }
    assert events[..|events|] == events;
  }

  lemma OneMoreEvent(events: seq<HistoryEvent>, i: nat)
    requires i < |events|
    ensures forall name :: WasEntered(events[..i + 1], name) <==> WasEntered(events[..i], name) || Enters(events[i], name)
    ensures forall name :: WasExited(events[..i + 1], name) <==> WasExited(events[..i], name) || Exits(events[i], name)
  {
    assert events[..i + 1] == events[..i] + [events[i]];
    assert forall e :: e in events[..i + 1] <==> e in events[..i] || e == events[i];
  }

  /** The first page, and then one page per continuation token. */
  method ExecutionGraph(running: bool, pages: seq<seq<HistoryEvent>>) returns (graph: seq<StateProgress>)
    requires pages != []
    ensures IsGraph(graph, running, Flatten(pages))
  {
    var events := pages[0];
    FirstPage(pages);
    for p := 1 to |pages|
      invariant events == Flatten(pages[..p])
    {
      assert pages[..p + 1][..p] == pages[..p];
      events := events + pages[p];
    }
    assert pages[..|pages|] == pages;
    var entered, exited := EnteredAndExited(events);
    graph := [];
    for i := 0 to |GRAPH_STATES|
      invariant |graph| == i
      invariant forall j | 0 <= j < i ::
                  graph[j] == StateProgress(GRAPH_STATES[j], ProgressOf(running, events, GRAPH_STATES[j]))
    {
      var name := GRAPH_STATES[i];
      var progress := if name !in entered then Pending
                      else if name in exited then Succeeded
                      else if running then Running else Failed;
      graph := graph + [StateProgress(name, progress)];
    }
  }

  lemma FirstPage(pages: seq<seq<HistoryEvent>>)
    requires pages != []
    ensures Flatten(pages[..1]) == pages[0]
  {
    assert pages[..1][..0] == [];
  }

  // ---------------------------------------------------------------- main results

  /** Neither the split into pages nor the order of the events matters. */
  lemma PagingAndOrderDoNotMatter(p: seq<seq<HistoryEvent>>, q: seq<seq<HistoryEvent>>, running: bool,
                                  g: seq<StateProgress>, h: seq<StateProgress>)
    requires multiset(Flatten(p)) == multiset(Flatten(q))
    requires IsGraph(g, running, Flatten(p)) && IsGraph(h, running, Flatten(q))
    ensures g == h
  {
    forall e ensures e in Flatten(p) <==> e in Flatten(q) {
      assert e in Flatten(p) <==> e in multiset(Flatten(p));
      assert e in Flatten(q) <==> e in multiset(Flatten(q));
    }
    forall i | 0 <= i < |g| ensures g[i] == h[i] {
      assert ProgressOf(running, Flatten(p), GRAPH_STATES[i]) == ProgressOf(running, Flatten(q), GRAPH_STATES[i]);
    }
  }

  function Stage(p: Progress): nat {
    match p
    case Pending => 0
    case Running => 1
    case Failed => 1
    case Succeeded => 2
  }

  /**
   * While the execution runs, a longer history never moves a state back, and
   * no state shows as failed.
   */
  lemma ProgressNeverRecedes(g: seq<StateProgress>, h: seq<StateProgress>, events: seq<HistoryEvent>, more: seq<HistoryEvent>)
    requires IsGraph(g, true, events) && IsGraph(h, true, events + more)
    ensures |g| == |h|
    ensures forall i | 0 <= i < |g| :: g[i].name == h[i].name && Stage(g[i].progress) <= Stage(h[i].progress)
    ensures forall i | 0 <= i < |h| :: h[i].progress != Failed
  {
    forall i | 0 <= i < |g| ensures Stage(g[i].progress) <= Stage(h[i].progress) {
      var name := GRAPH_STATES[i];
      if e :| e in events && Enters(e, name) { assert e in events + more; }
      if e :| e in events && Exits(e, name) { assert e in events + more; }
    }
  }

  /** Some event of a kind ending in StateEntered names the state. */
  ghost predicate SaysEntered(events: seq<HistoryEvent>, name: string) {
    exists e, what | e in events :: e.kind == what + "StateEntered" && e.enteredName == name
  }

  ghost predicate SaysExited(events: seq<HistoryEvent>, name: string) {
    exists e, what | e in events :: e.kind == what + "StateExited" && e.exitedName == name
  }

  lemma EndsWithSplits(s: string, suffix: string)
    ensures EndsWith(s, suffix) <==> exists what :: s == what + suffix
  {
    if EndsWith(s, suffix) { assert s == s[..|s| - |suffix|] + suffix; }
    if what :| s == what + suffix { assert s[|s| - |suffix|..] == suffix; }
  }

  /** No kind is both. */
  lemma KindsApart(kind: string)
    requires EndsWith(kind, "StateExited")
    ensures !EndsWith(kind, "StateEntered")
  {
    assert |kind| >= 12 ==> kind[|kind| - 12..][1..] == "StateExited";
    assert "StateEntered"[1..] == "tateEntered";
  }

  lemma EnteredSays(events: seq<HistoryEvent>, name: string)
    requires name != ""
    ensures WasEntered(events, name) <==> SaysEntered(events, name)
    ensures WasExited(events, name) <==> SaysExited(events, name)
  {
    forall e | e in events
      ensures Enters(e, name) <==> e.enteredName == name && exists what :: e.kind == what + "StateEntered"
      ensures Exits(e, name) <==> e.exitedName == name && exists what :: e.kind == what + "StateExited"
    {
      EndsWithSplits(e.kind, "StateEntered");
      EndsWithSplits(e.kind, "StateExited");
      if EndsWith(e.kind, "StateExited") { KindsApart(e.kind); }
    }
  }

  /**
   * The graph from the events: the eight canonical states in order; one not
   * entered is pending, one entered and exited succeeded, and one entered and
   * not exited is running while the execution runs, and failed afterwards.
   */
  lemma GraphFromEvents(graph: seq<StateProgress>, running: bool, events: seq<HistoryEvent>)
    requires IsGraph(graph, running, events)
    ensures |graph| == 8
    ensures graph[0].name == "IngestValidate" && graph[1].name == "KraljicClassify" && graph[2].name == "RouteStrategy"
    ensures graph[3].name == "StrategyExecute" && graph[4].name == "BidEvaluation" && graph[5].name == "ApprovalGate"
    ensures graph[6].name == "AwardComms" && graph[7].name == "Done"
    ensures forall i | 0 <= i < |graph| ::
              graph[i].progress ==
                if !SaysEntered(events, graph[i].name) then Pending
                else if SaysExited(events, graph[i].name) then Succeeded
                else if running then Running else Failed
  {
    hide WasEntered, WasExited, SaysEntered, SaysExited;
    forall i | 0 <= i < |graph|
      ensures graph[i].progress ==
                if !SaysEntered(events, graph[i].name) then Pending
                else if SaysExited(events, graph[i].name) then Succeeded
                else if running then Running else Failed
    {
      assert GRAPH_STATES[i] != "";
      EnteredSays(events, graph[i].name);
    }
  }
}
