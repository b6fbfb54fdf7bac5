/**
 * `SegmentTracker`: the second step of Jaqaman's LAP tracking. It validates
 * its settings, hands the graph and the settings to a segment linker (cost
 * matrix creator and assignment solver), and turns each assignment the
 * linker returns into a weighted edge of the graph.
 */
module SegmentTracking {
  import opened Values
  import opened Validation
  import opened Graphs

  // ---------------------------------------------------------------------------
  // Settings keys (`TrackerKeys` is not part of this model; only the
  // distinctness of these texts matters)

  const KEY_ALLOW_GAP_CLOSING := "ALLOW_GAP_CLOSING"
  const KEY_GAP_CLOSING_MAX_DISTANCE := "GAP_CLOSING_MAX_DISTANCE"
  const KEY_GAP_CLOSING_MAX_FRAME_GAP := "MAX_FRAME_GAP"
  const KEY_GAP_CLOSING_FEATURE_PENALTIES := "GAP_CLOSING_FEATURE_PENALTIES"
  const KEY_ALLOW_TRACK_SPLITTING := "ALLOW_TRACK_SPLITTING"
  const KEY_SPLITTING_MAX_DISTANCE := "SPLITTING_MAX_DISTANCE"
  const KEY_SPLITTING_FEATURE_PENALTIES := "SPLITTING_FEATURE_PENALTIES"
  const KEY_ALLOW_TRACK_MERGING := "ALLOW_TRACK_MERGING"
  const KEY_MERGING_MAX_DISTANCE := "MERGING_MAX_DISTANCE"
  const KEY_MERGING_FEATURE_PENALTIES := "MERGING_FEATURE_PENALTIES"
  const KEY_ALTERNATIVE_LINKING_COST_FACTOR := "ALTERNATIVE_LINKING_COST_FACTOR"
  const KEY_CUTOFF_PERCENTILE := "CUTOFF_PERCENTILE"
  const KEY_BLOCKING_VALUE := "BLOCKING_VALUE"

  const BASE_ERROR_MESSAGE := "[SegmentTracker] "
  const NULL_GRAPH_MESSAGE := "The input graph is null."
  const NULL_SETTINGS_MESSAGE := "Settings map is null.\n"

  /** The keys `checkSettingsValidity` requires, in the order it lists them. */
  const MANDATORY_KEYS: seq<string> := [
    KEY_ALLOW_GAP_CLOSING, KEY_GAP_CLOSING_MAX_DISTANCE, KEY_GAP_CLOSING_MAX_FRAME_GAP,
    KEY_ALLOW_TRACK_SPLITTING, KEY_SPLITTING_MAX_DISTANCE,
    KEY_ALLOW_TRACK_MERGING, KEY_MERGING_MAX_DISTANCE,
    KEY_ALTERNATIVE_LINKING_COST_FACTOR, KEY_CUTOFF_PERCENTILE]

  /** The keys it accepts without requiring them. */
  const OPTIONAL_KEYS: seq<string> := [
    KEY_GAP_CLOSING_FEATURE_PENALTIES, KEY_SPLITTING_FEATURE_PENALTIES,
    KEY_MERGING_FEATURE_PENALTIES, KEY_BLOCKING_VALUE]

  /** The twelve keys the logger constructor copies from the full settings. */
  const PROJECTED_KEYS: set<string> := {
    KEY_ALLOW_GAP_CLOSING, KEY_GAP_CLOSING_FEATURE_PENALTIES, KEY_GAP_CLOSING_MAX_DISTANCE,
    KEY_GAP_CLOSING_MAX_FRAME_GAP, KEY_ALLOW_TRACK_SPLITTING, KEY_SPLITTING_FEATURE_PENALTIES,
    KEY_SPLITTING_MAX_DISTANCE, KEY_ALLOW_TRACK_MERGING, KEY_MERGING_FEATURE_PENALTIES,
    KEY_MERGING_MAX_DISTANCE, KEY_ALTERNATIVE_LINKING_COST_FACTOR, KEY_CUTOFF_PERCENTILE}

  // ---------------------------------------------------------------------------
  // What makes segment-linking settings valid, stated independently of the checks

  /** Every mandatory value present with its type, and every penalty setting absent or well formed. */
  predicate EntriesWellTyped(m: map<string, Value>)
  {
    && Lookup(m, KEY_ALLOW_GAP_CLOSING).BoolV?
    && Lookup(m, KEY_GAP_CLOSING_MAX_DISTANCE).DoubleV?
    && Lookup(m, KEY_GAP_CLOSING_MAX_FRAME_GAP).IntV?
    && Lookup(m, KEY_ALLOW_TRACK_SPLITTING).BoolV?
    && Lookup(m, KEY_SPLITTING_MAX_DISTANCE).DoubleV?
    && Lookup(m, KEY_ALLOW_TRACK_MERGING).BoolV?
    && Lookup(m, KEY_MERGING_MAX_DISTANCE).DoubleV?
    && Lookup(m, KEY_CUTOFF_PERCENTILE).DoubleV?
    && Lookup(m, KEY_ALTERNATIVE_LINKING_COST_FACTOR).DoubleV?
    && PenaltySettingOk(Lookup(m, KEY_GAP_CLOSING_FEATURE_PENALTIES))
    && PenaltySettingOk(Lookup(m, KEY_SPLITTING_FEATURE_PENALTIES))
    && PenaltySettingOk(Lookup(m, KEY_MERGING_FEATURE_PENALTIES))
  }

  /** The recognised keys: the mandatory ones, the three penalty maps and the blocking value. */
  predicate KeysRecognised(m: map<string, Value>)
  {
    forall k :: k in m ==> k in PROJECTED_KEYS || k == KEY_BLOCKING_VALUE
  }

  predicate SegmentSettingsValid(m: map<string, Value>)
  {
    EntriesWellTyped(m) && KeysRecognised(m)
  }

  /** Everything `checkSettingsValidity` appends for a non-null map: every check's messages, in call order. */
  function SettingsReport(m: map<string, Value>, order: seq<string>): seq<string>
  {
    ParameterReport(m, KEY_ALLOW_GAP_CLOSING, BooleanClass)
    + ParameterReport(m, KEY_GAP_CLOSING_MAX_DISTANCE, DoubleClass)
    + ParameterReport(m, KEY_GAP_CLOSING_MAX_FRAME_GAP, IntegerClass)
    + FeatureMapReport(m, KEY_GAP_CLOSING_FEATURE_PENALTIES)
    + ParameterReport(m, KEY_ALLOW_TRACK_SPLITTING, BooleanClass)
    + ParameterReport(m, KEY_SPLITTING_MAX_DISTANCE, DoubleClass)
    + FeatureMapReport(m, KEY_SPLITTING_FEATURE_PENALTIES)
    + ParameterReport(m, KEY_ALLOW_TRACK_MERGING, BooleanClass)
    + ParameterReport(m, KEY_MERGING_MAX_DISTANCE, DoubleClass)
    + FeatureMapReport(m, KEY_MERGING_FEATURE_PENALTIES)
    + ParameterReport(m, KEY_CUTOFF_PERCENTILE, DoubleClass)
    + ParameterReport(m, KEY_ALTERNATIVE_LINKING_COST_FACTOR, DoubleClass)
    + MapKeysReport(m, order, Some(MANDATORY_KEYS), Some(OPTIONAL_KEYS))
  }

  /** What `checkSettingsValidity` appends, `null` map included. */
  function ValidityReport(settings: Option<map<string, Value>>, order: seq<string>): seq<string>
  {
    if settings.None? then [NULL_SETTINGS_MESSAGE] else SettingsReport(settings.value, order)
  }

  /**
   * `checkSettingsValidity(settings, str)`. The checks are combined with the
   * non-short-circuit `&`, so every check runs and every failing one appends
   * its messages.
   */
  method CheckSettingsValidity(settings: Option<map<string, Value>>, order: seq<string>)
    returns (ok: bool, appended: seq<string>)
    requires settings.Some? ==> Enumerates(order, settings.value.Keys)
    ensures ok <==> settings.Some? && SegmentSettingsValid(settings.value)
    ensures ok <==> appended == []
    ensures appended == ValidityReport(settings, order)
  {
    if settings.None? {
      return false, [NULL_SETTINGS_MESSAGE];
    }
    var m := settings.value;
    var c: bool, a: seq<string>;
    // Gap-closing (`ok` starts true, so the first check alone decides it)
    ok, appended := CheckParameter(m, KEY_ALLOW_GAP_CLOSING, BooleanClass);
    c, a := CheckParameter(m, KEY_GAP_CLOSING_MAX_DISTANCE, DoubleClass);
    ok, appended := ok && c, appended + a;
    c, a := CheckParameter(m, KEY_GAP_CLOSING_MAX_FRAME_GAP, IntegerClass);
    ok, appended := ok && c, appended + a;
    c, a := CheckFeatureMap(m, KEY_GAP_CLOSING_FEATURE_PENALTIES);
    ok, appended := ok && c, appended + a;
    // Splitting
    c, a := CheckParameter(m, KEY_ALLOW_TRACK_SPLITTING, BooleanClass);
    ok, appended := ok && c, appended + a;
    c, a := CheckParameter(m, KEY_SPLITTING_MAX_DISTANCE, DoubleClass);
    ok, appended := ok && c, appended + a;
    c, a := CheckFeatureMap(m, KEY_SPLITTING_FEATURE_PENALTIES);
    ok, appended := ok && c, appended + a;
    // Merging
    c, a := CheckParameter(m, KEY_ALLOW_TRACK_MERGING, BooleanClass);
    ok, appended := ok && c, appended + a;
    c, a := CheckParameter(m, KEY_MERGING_MAX_DISTANCE, DoubleClass);
    ok, appended := ok && c, appended + a;
    c, a := CheckFeatureMap(m, KEY_MERGING_FEATURE_PENALTIES);
    ok, appended := ok && c, appended + a;
    // Others
    c, a := CheckParameter(m, KEY_CUTOFF_PERCENTILE, DoubleClass);
    ok, appended := ok && c, appended + a;
    c, a := CheckParameter(m, KEY_ALTERNATIVE_LINKING_COST_FACTOR, DoubleClass);
    ok, appended := ok && c, appended + a;
    // Key set
    c, a := CheckMapKeys(m, order, Some(MANDATORY_KEYS), Some(OPTIONAL_KEYS));
    ok, appended := ok && c, appended + a;
    ChecksDecideValidity(m);
  }

  /** The thirteen checks pass together exactly when the settings are valid. */
  lemma ChecksDecideValidity(m: map<string, Value>)
    ensures SegmentSettingsValid(m) <==>
              && KEY_ALLOW_GAP_CLOSING in m && IsInstance(m[KEY_ALLOW_GAP_CLOSING], BooleanClass)
              && KEY_GAP_CLOSING_MAX_DISTANCE in m && IsInstance(m[KEY_GAP_CLOSING_MAX_DISTANCE], DoubleClass)
              && KEY_GAP_CLOSING_MAX_FRAME_GAP in m && IsInstance(m[KEY_GAP_CLOSING_MAX_FRAME_GAP], IntegerClass)
              && PenaltySettingOk(Lookup(m, KEY_GAP_CLOSING_FEATURE_PENALTIES))
              && KEY_ALLOW_TRACK_SPLITTING in m && IsInstance(m[KEY_ALLOW_TRACK_SPLITTING], BooleanClass)
              && KEY_SPLITTING_MAX_DISTANCE in m && IsInstance(m[KEY_SPLITTING_MAX_DISTANCE], DoubleClass)
              && PenaltySettingOk(Lookup(m, KEY_SPLITTING_FEATURE_PENALTIES))
              && KEY_ALLOW_TRACK_MERGING in m && IsInstance(m[KEY_ALLOW_TRACK_MERGING], BooleanClass)
              && KEY_MERGING_MAX_DISTANCE in m && IsInstance(m[KEY_MERGING_MAX_DISTANCE], DoubleClass)
              && PenaltySettingOk(Lookup(m, KEY_MERGING_FEATURE_PENALTIES))
              && KEY_CUTOFF_PERCENTILE in m && IsInstance(m[KEY_CUTOFF_PERCENTILE], DoubleClass)
              && KEY_ALTERNATIVE_LINKING_COST_FACTOR in m
              && IsInstance(m[KEY_ALTERNATIVE_LINKING_COST_FACTOR], DoubleClass)
              && KeysConform(m.Keys, MANDATORY_KEYS, OPTIONAL_KEYS)
  {
    KeySetDecided(m);
  }

  /** The key-set check passes exactly when every key is recognised and every mandatory key is present. */
  lemma KeySetDecided(m: map<string, Value>)
    ensures KeysConform(m.Keys, MANDATORY_KEYS, OPTIONAL_KEYS) <==>
              && KeysRecognised(m)
              && KEY_ALLOW_GAP_CLOSING in m && KEY_GAP_CLOSING_MAX_DISTANCE in m
              && KEY_GAP_CLOSING_MAX_FRAME_GAP in m && KEY_ALLOW_TRACK_SPLITTING in m
              && KEY_SPLITTING_MAX_DISTANCE in m && KEY_ALLOW_TRACK_MERGING in m
              && KEY_MERGING_MAX_DISTANCE in m && KEY_ALTERNATIVE_LINKING_COST_FACTOR in m
              && KEY_CUTOFF_PERCENTILE in m
  {
    forall k | k in m
      ensures (k in MANDATORY_KEYS || k in OPTIONAL_KEYS) <==> (k in PROJECTED_KEYS || k == KEY_BLOCKING_VALUE)
    {
      RecognisedKeys(k);
    }
  }

  /** The key-set check accepts exactly the twelve copied keys and the blocking value. */
  lemma RecognisedKeys(k: string)
    ensures (k in MANDATORY_KEYS || k in OPTIONAL_KEYS) <==> (k in PROJECTED_KEYS || k == KEY_BLOCKING_VALUE)
  {
  }

  /** A missing mandatory key is named twice: by its parameter check and by the key-set check. */
  lemma MissingMandatoryKeyNamed(m: map<string, Value>, order: seq<string>, k: string)
    requires Enumerates(order, m.Keys)
    requires k in MANDATORY_KEYS && k !in m
    ensures NotFoundMessage(k) in SettingsReport(m, order)
    ensures MissingKeyMessage(k) in SettingsReport(m, order)
  {
    MissingKeyReportNames(MANDATORY_KEYS, m.Keys, k);
    assert MissingKeyMessage(k) in MapKeysReport(m, order, Some(MANDATORY_KEYS), Some(OPTIONAL_KEYS));
  }

  /** A key outside the recognised ones is named by the key-set check. */
  lemma UnexpectedKeyNamed(m: map<string, Value>, order: seq<string>, k: string)
    requires Enumerates(order, m.Keys)
    requires k in m && k !in PROJECTED_KEYS && k != KEY_BLOCKING_VALUE
    ensures UnexpectedKeyMessage(k) in SettingsReport(m, order)
  {
    UnexpectedKeyReportNames(order, Allowed(MANDATORY_KEYS, OPTIONAL_KEYS), k);
    assert UnexpectedKeyMessage(k) in MapKeysReport(m, order, Some(MANDATORY_KEYS), Some(OPTIONAL_KEYS));
  }

  // ---------------------------------------------------------------------------
  // The logger constructor's copy of the settings

  /**
   * The settings map the logger constructor builds: each of the twelve keys
   * mapped to `fullsettings.get(key)`, which is `null` for an absent key.
   */
  function ProjectSettings(full: map<string, Value>): (r: map<string, Value>)
    ensures r.Keys == PROJECTED_KEYS
    ensures forall k :: k in r ==> r[k] == Lookup(full, k)
    ensures KEY_BLOCKING_VALUE !in r
  {
    map k | k in PROJECTED_KEYS :: Lookup(full, k)
  }

  /** The copy always passes the key-set check: only the types of the copied values can make it invalid. */
  lemma ProjectedSettingsValidIff(full: map<string, Value>)
    ensures KeysConform(ProjectSettings(full).Keys, MANDATORY_KEYS, OPTIONAL_KEYS)
    ensures SegmentSettingsValid(ProjectSettings(full)) <==> EntriesWellTyped(full)
  {
    var r := ProjectSettings(full);
    forall k | k in PROJECTED_KEYS
      ensures Lookup(r, k) == Lookup(full, k)
    {
    }
  }

  // ---------------------------------------------------------------------------
  // The linker

  /**
   * What the segment linker (`JaqamanLinker` over a
   * `JaqamanSegmentCostMatrixCreator`) yields: its error message when
   * `checkInput` or `process` fails, or the assignment of sources to targets
   * and the cost of each source's assignment.
   */
  datatype LinkerOutcome =
    | LinkerFailed(message: Option<string>)
    | Linked(assignment: map<Spot, Spot>, costs: map<Spot, Double>)

  /**
   * What the linker guarantees of a successful result on a simple graph with
   * these spots and edges: every source has a cost, and joins a spot of the
   * graph other than itself that it is not already joined to; no two sources
   * ask for the same pair of spots.
   */
  predicate AssignmentFits(vertices: set<Spot>, weights: map<Edge, Double>,
                           assignment: map<Spot, Spot>, costs: map<Spot, Double>)
  {
    && (forall s :: s in assignment ==>
          && s in costs && s in vertices && assignment[s] in vertices && s != assignment[s]
          && Edge(s, assignment[s]) !in weights && Edge(assignment[s], s) !in weights)
    && (forall s :: s in assignment && assignment[s] in assignment ==> assignment[assignment[s]] != s)
  }

  /** The edges the assignment of `sources` becomes, each weighted by its source's cost. */
  function AssignmentEdges(assignment: map<Spot, Spot>, costs: map<Spot, Double>, sources: set<Spot>)
    : (r: map<Edge, Double>)
    requires assignment.Keys <= costs.Keys
    ensures forall s :: s in sources && s in assignment ==> Edge(s, assignment[s]) in r
    ensures forall e :: e in r ==> e.source in sources && e.source in assignment
                                   && e.target == assignment[e.source] && r[e] == costs[e.source]
  {
    map s | s in sources && s in assignment :: Edge(s, assignment[s]) := costs[s]
  }

  /** Assigning one more source adds exactly its edge. */
  lemma AssignmentEdgesGrow(assignment: map<Spot, Spot>, costs: map<Spot, Double>, done: set<Spot>, s: Spot)
    requires assignment.Keys <= costs.Keys && s in assignment
    ensures AssignmentEdges(assignment, costs, done + {s})
            == AssignmentEdges(assignment, costs, done)[Edge(s, assignment[s]) := costs[s]]
  {
  }

  /** Setting an entry of a union twice is setting it once in the right-hand map. */
  lemma UpdateUnion<K, V>(m: map<K, V>, n: map<K, V>, k: K, first: V, last: V)
    ensures (m + n)[k := first][k := last] == m + n[k := last]
  {
  }

  /** While the assignment is applied, the next source's spots are not yet joined. */
  lemma NextEdgeIsNew(vertices: set<Spot>, weights: map<Edge, Double>, assignment: map<Spot, Spot>,
                      costs: map<Spot, Double>, done: set<Spot>, s: Spot)
    requires AssignmentFits(vertices, weights, assignment, costs)
    requires s in assignment && s !in done
    ensures var current := weights + AssignmentEdges(assignment, costs, done);
            Edge(s, assignment[s]) !in current && Edge(assignment[s], s) !in current
  {
  }

  /**
   * One turn of the loop of `process`: the next assigned source is joined to
   * its target by a new edge weighted by its cost.
   */
  method AddAssignedEdge(graph: WeightedGraph, ghost before: map<Edge, Double>, assignment: map<Spot, Spot>,
                         costs: map<Spot, Double>, ghost done: set<Spot>, source: Spot)
    requires graph.Valid() && AssignmentFits(graph.vertices, before, assignment, costs)
    requires source in assignment && source !in done
    requires graph.weights == before + AssignmentEdges(assignment, costs, done)
    modifies graph
    ensures graph.Valid() && graph.vertices == old(graph.vertices)
    ensures graph.weights == before + AssignmentEdges(assignment, costs, done + {source})
  {
    var target := assignment[source];
    ghost var added := AssignmentEdges(assignment, costs, done);
    NextEdgeIsNew(graph.vertices, before, assignment, costs, done, source);
    var edge := graph.AddEdge(source, target);
    graph.SetEdgeWeight(edge.value, costs[source]);
    AssignmentEdgesGrow(assignment, costs, done, source);
    UpdateUnion(before, added, Edge(source, target), DEFAULT_EDGE_WEIGHT, costs[source]);
  }

  /**
   * The loop of `process` that turns the linker's assignment into graph edges:
   * each source is joined to its target by a new edge weighted by its cost.
   */
  method AddAssignedEdges(graph: WeightedGraph, assignment: map<Spot, Spot>, costs: map<Spot, Double>)
    requires graph.Valid()
    requires AssignmentFits(graph.vertices, graph.weights, assignment, costs)
    modifies graph
    ensures graph.Valid() && graph.vertices == old(graph.vertices)
    ensures graph.weights == old(graph.weights) + AssignmentEdges(assignment, costs, assignment.Keys)
  {
    ghost var before := graph.weights;
    var remaining := assignment.Keys;
    ghost var done: set<Spot> := {};
    assert graph.weights == before + AssignmentEdges(assignment, costs, done) by {
      assert AssignmentEdges(assignment, costs, done) == map[];
    }
    while remaining != {}
      invariant done !! remaining && done + remaining == assignment.Keys
      invariant graph.Valid() && graph.vertices == old(graph.vertices)
      invariant graph.weights == before + AssignmentEdges(assignment, costs, done)
      decreases remaining
    {
      var source :| source in remaining;
      AddAssignedEdge(graph, before, assignment, costs, done, source);
      remaining := remaining - {source};
      done := done + {source};
    }
  }

  // ---------------------------------------------------------------------------

  class SegmentTracker {
    const graph: WeightedGraph?
    const settings: SettingsMap?
    var errorMessage: Option<string>
    var processingTime: int
    var numThreads: int

    /** `SegmentTracker(graph, settings)`: the worker count defaults to the processors available. */
    constructor (graph: WeightedGraph?, settings: SettingsMap?, availableProcessors: int)
      ensures this.graph == graph && this.settings == settings
      ensures errorMessage == None && processingTime == 0 && numThreads == availableProcessors
    {
      this.graph := graph;
      this.settings := settings;
      errorMessage := None;
      processingTime := 0;
      numThreads := availableProcessors;
    }

    /** `SegmentTracker(graph, fullsettings, logger)`: keeps a fresh copy of the twelve segment-linking settings. */
    constructor WithLogger(graph: WeightedGraph?, fullsettings: map<string, Value>, availableProcessors: int)
      ensures this.graph == graph && this.settings != null && fresh(this.settings)
      ensures this.settings.entries == ProjectSettings(fullsettings)
      ensures errorMessage == None && processingTime == 0 && numThreads == availableProcessors
    {
      numThreads := availableProcessors;
      this.graph := graph;
      var slSettings := new SettingsMap(ProjectSettings(fullsettings));
      this.settings := slSettings;
      errorMessage := None;
      processingTime := 0;
    }

    /** `getResult()`: the graph the links are added to. */
    function GetResult(): (r: WeightedGraph?)
      ensures r == graph
    {
      graph
    }

    /** `getErrorMessage()`. */
    function GetErrorMessage(): (r: Option<string>)
      reads this
      ensures r == errorMessage
    {
      errorMessage
    }

    /** `getProcessingTime()`. */
    function GetProcessingTime(): (r: int)
      reads this
      ensures r == processingTime
    {
      processingTime
    }

    /** `getNumThreads()`. */
    function GetNumThreads(): (r: int)
      reads this
      ensures r == numThreads
    {
      numThreads
    }

    /** `setNumThreads(numThreads)`. */
    method SetNumThreads(n: int)
      modifies this`numThreads
      ensures GetNumThreads() == n
    {
      numThreads := n;
    }

    /** `setNumThreads()`: as many workers as processors. */
    method SetDefaultNumThreads(availableProcessors: int)
      modifies this`numThreads
      ensures GetNumThreads() == availableProcessors
    {
      numThreads := availableProcessors;
    }

    /** The settings are present and valid. */
    ghost predicate SettingsValid()
      reads this, settings
    {
      settings != null && SegmentSettingsValid(settings.entries)
    }

    /**
     * `process()`. `linker` is what the segment linker yields for this graph
     * and these settings; `settingsOrder` is the iteration order of the
     * settings map; `elapsed` is the wall-clock time the solve takes.
     */
    method Process(linker: LinkerOutcome, settingsOrder: seq<string>, elapsed: int) returns (ok: bool)
      requires graph != null ==> graph.Valid()
      requires settings != null ==> Enumerates(settingsOrder, settings.entries.Keys)
      requires graph != null && linker.Linked? ==>
                 AssignmentFits(graph.vertices, graph.weights, linker.assignment, linker.costs)
      modifies this`errorMessage, this`processingTime, graph
      ensures ok <==> graph != null && SettingsValid() && linker.Linked?
      // No graph: nothing but the error message changes.
      ensures graph == null ==>
                errorMessage == Some(BASE_ERROR_MESSAGE + NULL_GRAPH_MESSAGE)
                && processingTime == old(processingTime)
      // Invalid settings: the graph is untouched and every violation is reported.
      ensures graph != null && !SettingsValid() ==>
                && errorMessage == Some(BASE_ERROR_MESSAGE
                     + Concat(ValidityReport(if settings == null then None else Some(settings.entries), settingsOrder)))
                && graph.weights == old(graph.weights) && processingTime == old(processingTime)
      // The linker fails: the graph is untouched and its message is the error.
      ensures graph != null && SettingsValid() && linker.LinkerFailed? ==>
                && errorMessage == linker.message
                && graph.weights == old(graph.weights) && processingTime == old(processingTime)
      // Success: exactly one new edge per assigned source, weighted by its cost.
      ensures graph != null && SettingsValid() && linker.Linked? ==>
                && graph.weights == old(graph.weights)
                     + AssignmentEdges(linker.assignment, linker.costs, linker.assignment.Keys)
                && processingTime == elapsed && errorMessage == old(errorMessage)
      ensures graph != null ==> graph.Valid() && graph.vertices == old(graph.vertices)
    {
      if graph == null {
        errorMessage := Some(BASE_ERROR_MESSAGE + NULL_GRAPH_MESSAGE);
        return false;
      }
      var valid, errorHolder := CheckSettingsValidity(
        if settings == null then None else Some(settings.entries), settingsOrder);
      if !valid {
        errorMessage := Some(BASE_ERROR_MESSAGE + Concat(errorHolder));
        return false;
      }
      if linker.LinkerFailed? {
        errorMessage := linker.message;
        return false;
      }
      AddAssignedEdges(graph, linker.assignment, linker.costs);
      processingTime := elapsed;
      return true;
    }
  }
}
