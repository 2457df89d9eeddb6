/** The workflow engine: a big-step semantics of the node graph. */
module WorkflowSemantics {
  import opened Base
  import opened Interpolation

  datatype Kind = Condition | Other(kind: string)

  /** `None` where the stored configuration has no such entry, or a field that is not a string. */
  datatype Config = Config(field: Option<string>, operator: string, value: Option<Json>)

  datatype Node = Node(id: string, name: string, kind: Kind, config: Config,
                       nextId: Option<string>, trueId: Option<string>, falseId: Option<string>)

  /** The outputs collected so far, with the payload and the two ids under their own names. */
  type Outputs = map<string, Json>

  datatype Answer = Output(value: Json) | Error(message: string)

  /** JavaScript's loose equality, Number(...) (nothing for NaN) and String(...). */
  datatype Coercions = Coercions(equal: (Option<Json>, Option<Json>) -> bool,
                                 number: Option<Json> -> Option<int>,
                                 text: Option<Json> -> string)

  /** `execute(k, node, outputs)` is what the executor of a known type answers in the k-th step. */
  datatype Engine = Engine(known: set<string>, execute: (nat, Node, Outputs) -> Answer, js: Coercions)

  predicate OccursAt(text: string, part: string, i: nat) { i + |part| <= |text| && text[i..i + |part|] == part }

  predicate Contains(text: string, part: string) { exists i :: 0 <= i <= |text| && OccursAt(text, part, i) }

  /** The condition executor. */
  predicate Holds(js: Coercions, config: Config, outputs: Outputs) {
    var actual := GetNestedValue(Obj(outputs), config.field.GetOr(""));
    var value := config.value;
    match config.operator
    case "eq" => js.equal(actual, value)
    case "neq" => !js.equal(actual, value)
    case "gt" => js.number(actual).Some? && js.number(value).Some? && js.number(actual).value > js.number(value).value
    case "lt" => js.number(actual).Some? && js.number(value).Some? && js.number(actual).value < js.number(value).value
    case "contains" => Contains(js.text(actual), js.text(value))
    case "exists" => actual.Some? && actual.value != Null
    case _ => false
  }

  function RunNode(e: Engine, k: nat, n: Node, outputs: Outputs): Answer {
    match n.kind
    case Condition =>
      if n.config.field.None? then Error("No field to compare")
      else Output(Obj(map["conditionResult" := Bool(Holds(e.js, n.config, outputs))]))
    case Other(kind) => if kind in e.known then e.execute(k, n, outputs) else Error("Unknown node type")
  }

  /** The first node with the id; an absent or empty id ends the run. */
  function Find(nodes: seq<Node>, id: Option<string>): (r: Option<Node>)
    ensures r.Some? ==> id == Some(r.value.id) && r.value in nodes
  {
    if nodes == [] || id.None? || id.value == "" then None
    else if nodes[0].id == id.value then Some(nodes[0]) else Find(nodes[1..], id)
  }

  function Next(n: Node, outputs: Outputs, js: Coercions): Option<string> {
    match n.kind
    case Condition => if Holds(js, n.config, outputs) then n.trueId else n.falseId
    case Other(_) => n.nextId
  }

  /** One executed node: what it saw and what it answered. */
  datatype Entry = Entry(node: Node, seen: Outputs, answer: Answer)

  /** From node id `cur` with `outputs`, the run executes `trace` and ends; it fails exactly when its
      last node failed. */
  predicate Evaluates(e: Engine, nodes: seq<Node>, cur: Option<string>, outputs: Outputs, k: nat, trace: seq<Entry>, failed: bool)
    decreases |trace|
  {
    var n := Find(nodes, cur);
    if trace == [] then n.None? && !failed
    else
      && n.Some?
      && trace[0] == Entry(n.value, outputs, RunNode(e, k, n.value, outputs))
      && if trace[0].answer.Error? then |trace| == 1 && failed
         else Evaluates(e, nodes, Next(n.value, outputs, e.js), outputs[n.value.id := trace[0].answer.value], k + 1, trace[1..], failed)
  }

  /** The same for a prefix of a run: all nodes succeed, and the run goes on at `cur'`. */
  predicate Steps(e: Engine, nodes: seq<Node>, cur: Option<string>, outputs: Outputs, k: nat, trace: seq<Entry>,
                  cur': Option<string>, outputs': Outputs)
    decreases |trace|
  {
    if trace == [] then cur' == cur && outputs' == outputs
    else
      var n := Find(nodes, cur);
      && n.Some?
      && trace[0] == Entry(n.value, outputs, RunNode(e, k, n.value, outputs))
      && trace[0].answer.Output?
      && Steps(e, nodes, Next(n.value, outputs, e.js), outputs[n.value.id := trace[0].answer.value], k + 1, trace[1..], cur', outputs')
  }

  lemma {:induction false} StepsExtend(e: Engine, nodes: seq<Node>, cur: Option<string>, outputs: Outputs, k: nat, trace: seq<Entry>,
                                       cur': Option<string>, outputs': Outputs)
    requires Steps(e, nodes, cur, outputs, k, trace, cur', outputs') && Find(nodes, cur').Some?
    ensures var n := Find(nodes, cur').value;
      var last := Entry(n, outputs', RunNode(e, k + |trace|, n, outputs'));
      && (last.answer.Output? ==>
            Steps(e, nodes, cur, outputs, k, trace + [last], Next(n, outputs', e.js), outputs'[n.id := last.answer.value]))
      && (last.answer.Error? ==> Evaluates(e, nodes, cur, outputs, k, trace + [last], true))
    decreases |trace|
  {
    var n := Find(nodes, cur').value;
    var last := Entry(n, outputs', RunNode(e, k + |trace|, n, outputs'));
    if trace == [] {
      assert (trace + [last])[1..] == [];
    } else {
      var m := Find(nodes, cur).value;
      StepsExtend(e, nodes, Next(m, outputs, e.js), outputs[m.id := trace[0].answer.value], k + 1, trace[1..], cur', outputs');
      assert (trace + [last])[1..] == trace[1..] + [last];
    }
  }

  lemma {:induction false} StepsEnd(e: Engine, nodes: seq<Node>, cur: Option<string>, outputs: Outputs, k: nat, trace: seq<Entry>,
                                    cur': Option<string>, outputs': Outputs)
    requires Steps(e, nodes, cur, outputs, k, trace, cur', outputs') && Find(nodes, cur').None?
    ensures Evaluates(e, nodes, cur, outputs, k, trace, false)
    decreases |trace|
  {
    if trace != [] {
      var n := Find(nodes, cur).value;
      StepsEnd(e, nodes, Next(n, outputs, e.js), outputs[n.id := trace[0].answer.value], k + 1, trace[1..], cur', outputs');
    }
  }

  // ----- What a run looks like ----------------------------------------------------------------------

  /** The outputs after the first `i` nodes of a trace: each node's latest output under its id. */
  function OutputsAfter(base: Outputs, trace: seq<Entry>, i: nat): Outputs
    requires i <= |trace|
  {
    if i == 0 then base
    else
      var before := OutputsAfter(base, trace, i - 1);
      if trace[i - 1].answer.Output? then before[trace[i - 1].node.id := trace[i - 1].answer.value] else before
  }

  lemma {:induction false} OutputsAfterTail(base: Outputs, trace: seq<Entry>, i: nat)
    requires 0 < i <= |trace| && trace[0].answer.Output?
    ensures OutputsAfter(base, trace, i) == OutputsAfter(base[trace[0].node.id := trace[0].answer.value], trace[1..], i - 1)
  {
    if i > 1 { OutputsAfterTail(base, trace, i - 1); }
  }

  /** Every node sees exactly the initial values overwritten by the outputs of the nodes run before it;
      every node but possibly the last succeeds; and each node is the successor of the one before. */
  lemma {:induction false} TraceShape(e: Engine, nodes: seq<Node>, cur: Option<string>, outputs: Outputs, k: nat,
                                      trace: seq<Entry>, failed: bool, i: nat)
    requires Evaluates(e, nodes, cur, outputs, k, trace, failed) && i < |trace|
    ensures trace[i].seen == OutputsAfter(outputs, trace, i)
    ensures trace[i].answer == RunNode(e, k + i, trace[i].node, trace[i].seen)
    ensures trace[i].answer.Error? <==> failed && i == |trace| - 1
    ensures Find(nodes, if i == 0 then cur else Next(trace[i - 1].node, trace[i - 1].seen, e.js)) == Some(trace[i].node)
    decreases |trace|
  {
    if i > 0 {
      var n := Find(nodes, cur).value;
      TraceShape(e, nodes, Next(n, outputs, e.js), outputs[n.id := trace[0].answer.value], k + 1, trace[1..], failed, i - 1);
      OutputsAfterTail(outputs, trace, i);
    } else if trace[0].answer.Output? && failed && |trace| == 1 {
      assert false;
    }
  }

  /** The big-step relation is deterministic. */
  lemma {:induction false} Deterministic(e: Engine, nodes: seq<Node>, cur: Option<string>, outputs: Outputs, k: nat,
                                         t1: seq<Entry>, f1: bool, t2: seq<Entry>, f2: bool)
    requires Evaluates(e, nodes, cur, outputs, k, t1, f1) && Evaluates(e, nodes, cur, outputs, k, t2, f2)
    ensures t1 == t2 && f1 == f2
    decreases |t1|
  {
    if t1 != [] && t2 != [] && t1[0].answer.Output? {
      var n := Find(nodes, cur).value;
      Deterministic(e, nodes, Next(n, outputs, e.js), outputs[n.id := t1[0].answer.value], k + 1, t1[1..], f1, t2[1..], f2);
      assert t1 == [t1[0]] + t1[1..] && t2 == [t2[0]] + t2[1..];
    }
  }

  // ----- Which node comes next ------------------------------------------------------------------------

  /** `n` is the first node with this id. */
  predicate IsFirst(nodes: seq<Node>, id: string, n: Node) {
    n.id == id && exists j :: 0 <= j < |nodes| && nodes[j] == n && forall k :: 0 <= k < j ==> nodes[k].id != id
  }

  /** The id is absent or empty, or no node has it. */
  predicate Unknown(nodes: seq<Node>, id: Option<string>) {
    id.None? || id.value == "" || forall j :: 0 <= j < |nodes| ==> nodes[j].id != id.value
  }

  lemma {:induction false} FindIff(nodes: seq<Node>, id: Option<string>)
    ensures Find(nodes, id).None? <==> Unknown(nodes, id)
    ensures Find(nodes, id).Some? ==> id.value != "" && IsFirst(nodes, id.value, Find(nodes, id).value)
  {
    if nodes != [] && id.Some? && id.value != "" {
      if nodes[0].id == id.value {
        assert IsFirst(nodes, id.value, nodes[0]);
      } else {
        FindIff(nodes[1..], id);
        assert forall j :: 0 <= j < |nodes| - 1 ==> nodes[1..][j] == nodes[j + 1];
        if Find(nodes[1..], id).Some? {
          var n := Find(nodes[1..], id).value;
          var j :| 0 <= j < |nodes[1..]| && nodes[1..][j] == n && forall k :: 0 <= k < j ==> nodes[1..][k].id != id.value;
          forall k | 0 <= k < j + 1 ensures nodes[k].id != id.value { if k > 0 { assert nodes[1..][k - 1] == nodes[k]; } }
          assert nodes[j + 1] == n;
        } else {
          forall j | 0 <= j < |nodes| ensures nodes[j].id != id.value { if j > 0 { assert nodes[1..][j - 1] == nodes[j]; } }
        }
      }
    }
  }

  /** The stored answer of a condition node. */
  function Verdict(b: bool): Answer { Output(Obj(map["conditionResult" := Bool(b)])) }

  /** The successor: the branch that the stored answer names, and for every other kind of node the next one. */
  predicate Leads(x: Entry, id: Option<string>) {
    if x.node.kind.Condition?
    then (x.answer == Verdict(true) && id == x.node.trueId) || (x.answer == Verdict(false) && id == x.node.falseId)
    else id == x.node.nextId
  }

  /** `y` runs the first node with the id to which `x` leads. */
  predicate Link(nodes: seq<Node>, x: Entry, y: Entry) {
    y.node.id != "" && Leads(x, Some(y.node.id)) && IsFirst(nodes, y.node.id, y.node)
  }

  predicate Linked(nodes: seq<Node>, trace: seq<Entry>) { forall i :: 0 <= i < |trace| - 1 ==> Link(nodes, trace[i], trace[i + 1]) }

  /** The last node of the trace leads nowhere; without a node the list is empty, or its first id is. */
  ghost predicate Over(nodes: seq<Node>, trace: seq<Entry>) {
    if trace == [] then nodes == [] || nodes[0].id == ""
    else exists id :: Leads(trace[|trace| - 1], id) && Unknown(nodes, id)
  }

  lemma NextLeads(e: Engine, k: nat, n: Node, outputs: Outputs)
    requires RunNode(e, k, n, outputs).Output?
    ensures Leads(Entry(n, outputs, RunNode(e, k, n, outputs)), Next(n, outputs, e.js))
  {}

  lemma LeadsOnce(x: Entry, id: Option<string>, id': Option<string>)
    requires Leads(x, id) && Leads(x, id')
    ensures id == id'
  {
    if x.node.kind.Condition? {
      var yes, no := map["conditionResult" := Bool(true)], map["conditionResult" := Bool(false)];
      assert yes["conditionResult"] != no["conditionResult"];
    }
  }

  lemma LinkedFrom(nodes: seq<Node>, trace: seq<Entry>)
    requires trace != [] && Linked(nodes, trace[1..])
    requires |trace| > 1 ==> Link(nodes, trace[0], trace[1])
    ensures Linked(nodes, trace)
  {
    forall i | 0 <= i < |trace| - 1 ensures Link(nodes, trace[i], trace[i + 1]) {
      if i > 0 { assert Link(nodes, trace[1..][i - 1], trace[1..][i]); }
    }
  }

  lemma {:induction false} StepsLinked(e: Engine, nodes: seq<Node>, cur: Option<string>, outputs: Outputs, k: nat, trace: seq<Entry>,
                                       cur': Option<string>, outputs': Outputs)
    requires Steps(e, nodes, cur, outputs, k, trace, cur', outputs')
    ensures Linked(nodes, trace) && (trace != [] ==> Find(nodes, cur) == Some(trace[0].node))
    ensures if trace == [] then cur' == cur else Leads(trace[|trace| - 1], cur')
    decreases |trace|
  {
    if trace != [] {
      var n := Find(nodes, cur).value;
      var next := Next(n, outputs, e.js);
      NextLeads(e, k, n, outputs);
      StepsLinked(e, nodes, next, outputs[n.id := trace[0].answer.value], k + 1, trace[1..], cur', outputs');
      FindIff(nodes, next);
      LinkedFrom(nodes, trace);
    }
  }

  lemma {:induction false} EvaluatesLinked(e: Engine, nodes: seq<Node>, cur: Option<string>, outputs: Outputs, k: nat,
                                           trace: seq<Entry>, failed: bool)
    requires Evaluates(e, nodes, cur, outputs, k, trace, failed)
    ensures Linked(nodes, trace) && (trace != [] ==> Find(nodes, cur) == Some(trace[0].node))
    ensures trace == [] ==> Unknown(nodes, cur)
    ensures !failed && trace != [] ==> Over(nodes, trace)
    decreases |trace|
  {
    FindIff(nodes, cur);
    if trace != [] && trace[0].answer.Output? {
      var n := Find(nodes, cur).value;
      var next := Next(n, outputs, e.js);
      NextLeads(e, k, n, outputs);
      EvaluatesLinked(e, nodes, next, outputs[n.id := trace[0].answer.value], k + 1, trace[1..], failed);
      FindIff(nodes, next);
      LinkedFrom(nodes, trace);
      if !failed && |trace| > 1 { assert trace[1..][|trace| - 2] == trace[|trace| - 1]; }
    }
  }

  /** A node with an answer is the last one of a successful run if and only if the id to which it leads is
      absent or unknown; otherwise the next one is the first node with that id. */
  lemma {:induction false} BranchTaken(e: Engine, nodes: seq<Node>, cur: Option<string>, outputs: Outputs, k: nat, trace: seq<Entry>, failed: bool,
                                       i: nat)
    requires Evaluates(e, nodes, cur, outputs, k, trace, failed) && i < |trace| && trace[i].answer.Output?
    ensures exists id :: Leads(trace[i], id)
    ensures forall id :: Leads(trace[i], id) ==>
      && (!failed && i == |trace| - 1 <==> Unknown(nodes, id))
      && (i < |trace| - 1 ==> id.Some? && IsFirst(nodes, id.value, trace[i + 1].node))
  {
    forall id, id' | Leads(trace[i], id) && Leads(trace[i], id') ensures id == id' { LeadsOnce(trace[i], id, id'); }
    EvaluatesLinked(e, nodes, cur, outputs, k, trace, failed);
    TraceShape(e, nodes, cur, outputs, k, trace, failed, i);
    if i < |trace| - 1 {
      assert Link(nodes, trace[i], trace[i + 1]);
      assert Leads(trace[i], Some(trace[i + 1].node.id));
    } else {
      assert trace[i] == trace[|trace| - 1];
    }
  }

  /** What a condition node answers, operator by operator. */
  lemma ConditionAnswer(e: Engine, k: nat, n: Node, outputs: Outputs)
    requires n.kind.Condition? && n.config.field.Some?
    ensures var actual, value := GetNestedValue(Obj(outputs), n.config.field.value), n.config.value;
      var x, y := e.js.number(actual), e.js.number(value);
      var yes := RunNode(e, k, n, outputs) == Verdict(true);
      && (!yes ==> RunNode(e, k, n, outputs) == Verdict(false))
      && (n.config.operator == "eq" ==> (yes <==> e.js.equal(actual, value)))
      && (n.config.operator == "neq" ==> (yes <==> !e.js.equal(actual, value)))
      && (n.config.operator == "gt" ==> (yes <==> exists a, b :: x == Some(a) && y == Some(b) && a > b))
      && (n.config.operator == "lt" ==> (yes <==> exists a, b :: x == Some(a) && y == Some(b) && a < b))
      && (n.config.operator == "contains" ==>
            (yes <==> exists before, after :: e.js.text(actual) == before + e.js.text(value) + after))
      && (n.config.operator == "exists" ==> (yes <==> actual != None && actual != Some(Null)))
      && (n.config.operator !in {"eq", "neq", "gt", "lt", "contains", "exists"} ==> !yes)
  {
    var yes, no := map["conditionResult" := Bool(true)], map["conditionResult" := Bool(false)];
    assert yes["conditionResult"] != no["conditionResult"];
    ContainsIff(e.js.text(GetNestedValue(Obj(outputs), n.config.field.value)), e.js.text(n.config.value));
  }

  lemma ContainsIff(text: string, part: string)
    ensures Contains(text, part) <==> exists before, after :: text == before + part + after
  {
    if Contains(text, part) {
      var i :| 0 <= i <= |text| && OccursAt(text, part, i);
      assert text == text[..i] + part + text[i + |part|..];
    }
    if exists before, after :: text == before + part + after {
      var before, after :| text == before + part + after;
      assert text[|before|..|before| + |part|] == part;
      assert OccursAt(text, part, |before|);
    }
  }

  /** A node of an unknown kind, or a condition without a field, answers with an error; the answer of any
      other node is that of its executor. */
  lemma OtherAnswers(e: Engine, k: nat, n: Node, outputs: Outputs)
    ensures n.kind.Condition? ==> (RunNode(e, k, n, outputs).Error? <==> n.config.field.None?)
    ensures n.kind.Other? && n.kind.kind !in e.known ==> RunNode(e, k, n, outputs).Error?
    ensures n.kind.Other? && n.kind.kind in e.known ==> RunNode(e, k, n, outputs) == e.execute(k, n, outputs)
  {}

  // ----- Acyclic graphs -----------------------------------------------------------------------------

  predicate Edge(nodes: seq<Node>, a: string, b: string) {
    var n := Find(nodes, Some(a));
    n.Some? && Find(nodes, Some(b)).Some?
    && if n.value.kind == Condition then n.value.trueId == Some(b) || n.value.falseId == Some(b) else n.value.nextId == Some(b)
  }

  predicate Path(nodes: seq<Node>, ids: seq<string>) {
    forall i :: 0 <= i < |ids| - 1 ==> Edge(nodes, ids[i], ids[i + 1])
  }

  ghost predicate Acyclic(nodes: seq<Node>) {
    forall ids :: |ids| >= 2 && Path(nodes, ids) ==> ids[0] != ids[|ids| - 1]
  }

  predicate AllFound(nodes: seq<Node>, ids: seq<string>) {
    forall i :: 0 <= i < |ids| ==> Find(nodes, Some(ids[i])).Some?
  }

  lemma AcyclicDistinct(nodes: seq<Node>, ids: seq<string>, i: nat, j: nat)
    requires Acyclic(nodes) && Path(nodes, ids) && i < j < |ids|
    ensures ids[i] != ids[j]
  {
    var part := ids[i..j + 1];
    forall k | 0 <= k < |part| - 1 ensures Edge(nodes, part[k], part[k + 1]) {
      assert Edge(nodes, ids[i + k], ids[i + k + 1]);
    }
  }

  function Ids(nodes: seq<Node>): set<string> { set n | n in nodes :: n.id }

  lemma {:induction false} IdsSize(nodes: seq<Node>)
    ensures |Ids(nodes)| <= |nodes|
  {
    if nodes != [] {
      IdsSize(nodes[1..]);
      assert Ids(nodes) == {nodes[0].id} + Ids(nodes[1..]) by {
        assert nodes == [nodes[0]] + nodes[1..];
      }
    }
  }

  lemma {:induction false} DistinctSize(ids: seq<string>)
    requires forall i, j :: 0 <= i < j < |ids| ==> ids[i] != ids[j]
    ensures |set x | x in ids| == |ids|
  {
    if ids != [] {
      DistinctSize(ids[1..]);
      assert (set x | x in ids) == {ids[0]} + (set x | x in ids[1..]);
    }
  }

  /** A path of existing nodes in an acyclic graph is no longer than the list of nodes. */
  lemma PathLength(nodes: seq<Node>, ids: seq<string>)
    requires Acyclic(nodes) && Path(nodes, ids) && AllFound(nodes, ids)
    ensures |ids| <= |nodes|
  {
    forall i, j | 0 <= i < j < |ids| ensures ids[i] != ids[j] { AcyclicDistinct(nodes, ids, i, j); }
    DistinctSize(ids);
    var distinct := set x | x in ids;
    forall x | x in distinct ensures x in Ids(nodes) {
      var i :| 0 <= i < |ids| && ids[i] == x;
      assert Find(nodes, Some(x)).value in nodes;
    }
    SubsetSize(distinct, Ids(nodes));
    IdsSize(nodes);
  }

  lemma {:induction false} SubsetSize(a: set<string>, b: set<string>)
    requires a <= b
    ensures |a| <= |b|
    decreases a
  {
    if a != {} {
      var x :| x in a;
      SubsetSize(a - {x}, b - {x});
    }
  }

  function TraceIds(trace: seq<Entry>): seq<string> {
    seq(|trace|, i requires 0 <= i < |trace| => trace[i].node.id)
  }

  /** The ids of a running prefix, with the next node when there is one, form a path. */
  lemma {:induction false} StepsPath(e: Engine, nodes: seq<Node>, cur: Option<string>, outputs: Outputs, k: nat, trace: seq<Entry>,
                                     cur': Option<string>, outputs': Outputs)
    requires Steps(e, nodes, cur, outputs, k, trace, cur', outputs')
    ensures AllFound(nodes, TraceIds(trace)) && Path(nodes, TraceIds(trace))
    ensures |trace| > 0 ==> cur == Some(TraceIds(trace)[0])
    ensures |trace| > 0 && Find(nodes, cur').Some? ==> Edge(nodes, TraceIds(trace)[|trace| - 1], cur'.value)
    decreases |trace|
  {
    if trace != [] {
      var n := Find(nodes, cur).value;
      StepsPath(e, nodes, Next(n, outputs, e.js), outputs[n.id := trace[0].answer.value], k + 1, trace[1..], cur', outputs');
      var ids, rest := TraceIds(trace), TraceIds(trace[1..]);
      assert forall i :: 0 <= i < |rest| ==> rest[i] == ids[i + 1];
      forall i | 0 <= i < |ids| ensures Find(nodes, Some(ids[i])).Some? {
        if i > 0 { assert rest[i - 1] == ids[i]; }
      }
      forall i | 0 <= i < |ids| - 1 ensures Edge(nodes, ids[i], ids[i + 1]) {
        if i > 0 { assert Edge(nodes, rest[i - 1], rest[i]); }
      }
    }
  }
}

module WorkflowRecords {
  import opened Base
  import opened WorkflowSemantics

  datatype RunStatus = Queued | Running | Success | Failed | CancelledRun

  /** An element of the stored `nodeResults`. */
  datatype Stored = Started(nodeId: string) | Finished(entry: Entry)

  datatype Execution = Execution(status: RunStatus, nodeResults: seq<Stored>, retryCount: nat, maxRetries: nat)

  function Results(trace: seq<Entry>): (r: seq<Stored>)
    ensures |r| == |trace| && forall i :: 0 <= i < |trace| ==> r[i] == Finished(trace[i])
  {
    seq(|trace|, i requires 0 <= i < |trace| => Finished(trace[i]))
  }

  function Marks(trace: seq<Entry>): (r: seq<Stored>)
    ensures |r| == |trace| && forall i :: 0 <= i < |trace| ==> r[i] == Started(trace[i].node.id)
  {
    seq(|trace|, i requires 0 <= i < |trace| => Started(trace[i].node.id))
  }

  /** The stored list between two nodes of a run: every node pushed one element at the end and then
      overwrote the one at its own position, whatever was stored before the run. */
  function MidRun(before: seq<Stored>, trace: seq<Entry>): seq<Stored> {
    Results(trace) + (before + Marks(trace))[|trace|..]
  }

  /** Between nodes the stored list is this run's own trace if and only if the run began with none. */
  lemma MidRunIff(before: seq<Stored>, trace: seq<Entry>)
    ensures MidRun(before, trace) == Results(trace) <==> before == []
  {
    assert |MidRun(before, trace)| == |before| + |trace|;
    if before == [] {
      assert (before + Marks(trace))[|trace|..] == [];
      assert MidRun(before, trace) == Results(trace) + [];
    }
  }

  /** One node: the push before it and the positional write after it. */
  lemma MidRunStep(before: seq<Stored>, trace: seq<Entry>, last: Entry)
    ensures |MidRun(before, trace)| == |before| + |trace|
    ensures (MidRun(before, trace) + [Started(last.node.id)])[|trace| := Finished(last)] == MidRun(before, trace + [last])
  {
    var pushed := MidRun(before, trace) + [Started(last.node.id)];
    var all := before + Marks(trace);
    var all' := before + Marks(trace + [last]);
    assert all' == all + [Started(last.node.id)];
    assert pushed == Results(trace) + all'[|trace|..];
    assert all'[|trace|..] == [all'[|trace|]] + all'[|trace| + 1..];
    assert Results(trace + [last]) == Results(trace) + [Finished(last)];
    assert pushed[|trace| := Finished(last)] == Results(trace) + [Finished(last)] + all'[|trace| + 1..];
  }

  // ----- The life of an execution -------------------------------------------------------------------

  /** A retry request, alone with the record, or the end of a run. */
  datatype LifeEvent = Retried | Ended(failed: bool, trace: seq<Entry>)

  function LifeStep(d: Execution, e: LifeEvent): Execution {
    match e
    case Retried => if RetryAllowed(d) then RetryWrite(d) else d
    case Ended(failed, trace) => d.(status := if failed then Failed else Success, nodeResults := Results(trace))
  }

  function Life(maxRetries: nat, events: seq<LifeEvent>): Execution {
    if events == [] then Execution(Queued, [], 0, maxRetries) else LifeStep(Life(maxRetries, events[..|events| - 1]), events[|events| - 1])
  }

  /** How many retries were accepted. */
  function Accepted(maxRetries: nat, events: seq<LifeEvent>): nat {
    if events == [] then 0
    else
      var n := |events| - 1;
      Accepted(maxRetries, events[..n]) + if events[n].Retried? && RetryAllowed(Life(maxRetries, events[..n])) then 1 else 0
  }

  function LastTrace(events: seq<LifeEvent>): seq<Entry> {
    if events == [] then []
    else match events[|events| - 1]
      case Ended(_, trace) => trace
      case Retried => LastTrace(events[..|events| - 1])
  }

  /** Over the whole life of a triggered execution the stored count is the number of accepted retries,
      which never exceeds the maximum; and the stored results are those of the last run that ended. */
  lemma {:induction false} LifeOk(maxRetries: nat, events: seq<LifeEvent>)
    ensures var d := Life(maxRetries, events);
      && d.retryCount == Accepted(maxRetries, events) <= maxRetries == d.maxRetries
      && d.nodeResults == Results(LastTrace(events))
  {
    if events != [] { LifeOk(maxRetries, events[..|events| - 1]); }
  }

  /** The execution document. */
  class ExecutionStore {
    var doc: Execution

    constructor (maxRetries: nat)
      ensures doc == Life(maxRetries, [])
    {
      doc := Execution(Queued, [], 0, maxRetries);
    }

    method Push(x: Stored)
      modifies this
      ensures doc == old(doc).(nodeResults := old(doc).nodeResults + [x])
    {
      doc := doc.(nodeResults := doc.nodeResults + [x]);
    }

    method Put(i: nat, x: Stored)
      requires i < |doc.nodeResults|
      modifies this
      ensures doc == old(doc).(nodeResults := old(doc).nodeResults[i := x])
    {
      doc := doc.(nodeResults := doc.nodeResults[i := x]);
    }

    method SetStatus(st: RunStatus)
      modifies this
      ensures doc == old(doc).(status := st)
    {
      doc := doc.(status := st);
    }

    method Finish(st: RunStatus, results: seq<Stored>)
      modifies this
      ensures doc == old(doc).(status := st, nodeResults := results)
    {
      doc := doc.(status := st, nodeResults := results);
    }

    /** `retryExecution` after the lookups: only a failed execution with retries left is queued again. */
    method Retry() returns (ok: bool)
      modifies this
      ensures ok <==> old(doc).status == Failed && old(doc).retryCount < old(doc).maxRetries
      ensures doc == LifeStep(old(doc), Retried)
      ensures doc == if ok then old(doc).(status := Queued, retryCount := old(doc).retryCount + 1) else old(doc)
      ensures old(doc).retryCount <= old(doc).maxRetries ==> doc.retryCount <= doc.maxRetries
    {
      ok := doc.status == Failed && doc.retryCount < doc.maxRetries;
      if ok { doc := doc.(status := Queued, retryCount := doc.retryCount + 1); }
    }
  }

  // ----- Concurrent retries -------------------------------------------------------------------------

  /** The write of `retryExecution`, which does not repeat the checks made when the document was read. */
  function RetryWrite(d: Execution): Execution { d.(status := Queued, retryCount := d.retryCount + 1) }

  predicate RetryAllowed(d: Execution) { d.status == Failed && d.retryCount < d.maxRetries }

  /** `n` requests that all read the document before any of them writes. */
  function RetryWrites(d: Execution, n: nat): Execution { if n == 0 then d else RetryWrite(RetryWrites(d, n - 1)) }

  /** Together they stay within the maximum if and only if there are no more of them than retries left. */
  lemma {:induction false} ConcurrentRetriesIff(d: Execution, n: nat)
    requires RetryAllowed(d)
    ensures RetryWrites(d, n).retryCount <= RetryWrites(d, n).maxRetries <==> n <= d.maxRetries - d.retryCount
    ensures RetryWrites(d, n).maxRetries == d.maxRetries && RetryWrites(d, n).retryCount == d.retryCount + n
  {
    if n > 0 { ConcurrentRetriesIff(d, n - 1); }
  }

  method FindNode(nodes: seq<Node>, id: Option<string>) returns (r: Option<Node>)
    ensures r == Find(nodes, id)
  {
    var i := 0;
    while i < |nodes| && id.Some? && id.value != "" && nodes[i].id != id.value
      invariant i <= |nodes| && Find(nodes, id) == Find(nodes[i..], id)
    {
      i := i + 1;
    }
    r := if i < |nodes| && id.Some? && id.value != "" then Some(nodes[i]) else None;
  }

  function First(nodes: seq<Node>): Option<string> { if nodes == [] then None else Some(nodes[0].id) }

  /** The first write inside the loop that fails: that before node `node` or that after it, and whether it
      took effect all the same. */
  datatype Fault = Fault(node: nat, after: bool, ran: bool)

  /** The fate of the writes of one run; `mark` is that of the failure path. */
  datatype Writes = Writes(begin: Outcome, loop: Option<Fault>, finish: Outcome, stats: Outcome, mark: Outcome)

  datatype Ending = NotStarted | OutOfFuel | Succeeded | NodeFailed | WriteFailed

  /** The nodes of a run as far as it got. */
  ghost predicate Partial(e: Engine, nodes: seq<Node>, base: Outputs, trace: seq<Entry>) {
    || Evaluates(e, nodes, First(nodes), base, 0, trace, true)
    || exists current, outputs :: Steps(e, nodes, First(nodes), base, 0, trace, current, outputs)
  }

  /** The body of the loop up to the choice of the next node; `fault` is what befalls its writes. */
  method ExecuteNode(e: Engine, nodes: seq<Node>, node: Node, outputs: Outputs, trace: seq<Entry>, store: ExecutionStore,
                     fault: Option<Fault>, ghost before: seq<Stored>, ghost base: Outputs, ghost current: Option<string>)
      returns (ran: Option<Answer>, stored: bool)
    requires Steps(e, nodes, First(nodes), base, 0, trace, current, outputs) && Find(nodes, current) == Some(node)
    requires store.doc.nodeResults == MidRun(before, trace)
    modifies store
    ensures ran.None? <==> fault.Some? && fault.value.node == |trace| && !fault.value.after
    ensures stored <==> !(fault.Some? && fault.value.node == |trace|)
    ensures ran.Some? ==> ran.value == RunNode(e, |trace|, node, outputs)
    ensures store.doc == old(store.doc).(nodeResults := store.doc.nodeResults)
    ensures stored ==> store.doc.nodeResults == MidRun(before, trace + [Entry(node, outputs, ran.value)])
    ensures ran.Some? && ran.value.Error? ==> Evaluates(e, nodes, First(nodes), base, 0, trace + [Entry(node, outputs, ran.value)], true)
    ensures ran.Some? && ran.value.Output? ==>
      Steps(e, nodes, First(nodes), base, 0, trace + [Entry(node, outputs, ran.value)], Next(node, outputs, e.js), outputs[node.id := ran.value.value])
  {
    StepsExtend(e, nodes, First(nodes), base, 0, trace, current, outputs);
    var strikes := fault.Some? && fault.value.node == |trace|;
    if strikes && !fault.value.after {
      if fault.value.ran { store.Push(Started(node.id)); }
      return None, false;
    }
    store.Push(Started(node.id));
    var answer := RunNode(e, |trace|, node, outputs);
    var entry := Entry(node, outputs, answer);
    MidRunStep(before, trace, entry);
    if !strikes || fault.value.ran { store.Put(|trace|, Finished(entry)); }
    ran, stored := Some(answer), !strikes;
  }

  /** The loop, up to `fuel` nodes. */
  method RunNodes(e: Engine, nodes: seq<Node>, base: Outputs, store: ExecutionStore, fuel: nat, fault: Option<Fault>)
      returns (trace: seq<Entry>, ending: Ending)
    modifies store
    ensures store.doc == old(store.doc).(nodeResults := store.doc.nodeResults)
    ensures ending != NotStarted && (ending == WriteFailed ==> fault.Some? && Partial(e, nodes, base, trace))
    ensures ending != WriteFailed ==> store.doc.nodeResults == MidRun(old(store.doc).nodeResults, trace)
    ensures ending == Succeeded || ending == NodeFailed ==> Evaluates(e, nodes, First(nodes), base, 0, trace, ending == NodeFailed)
    ensures ending == OutOfFuel ==> |trace| == fuel && !(Acyclic(nodes) && fuel >= |nodes|) && Partial(e, nodes, base, trace)
    ensures Acyclic(nodes) ==> |trace| <= |nodes|
  {
    var outputs := base;
    var current := First(nodes);
    trace := [];
    ghost var before := store.doc.nodeResults;
    assert MidRun(before, trace) == before;
    while true
      invariant Steps(e, nodes, First(nodes), base, 0, trace, current, outputs) && |trace| <= fuel
      invariant store.doc == old(store.doc).(nodeResults := MidRun(before, trace))
      decreases fuel - |trace|
    {
      var found := FindNode(nodes, current);
      StepsLength(e, nodes, First(nodes), base, trace, current, outputs);
      if found.None? { break; }
      if |trace| == fuel { return trace, OutOfFuel; }
      var node := found.value;
      var ran, stored := ExecuteNode(e, nodes, node, outputs, trace, store, fault, before, base, current);
      if ran.None? { return trace, WriteFailed; }
      trace := trace + [Entry(node, outputs, ran.value)];
      if !stored { return trace, WriteFailed; }
      if ran.value.Error? { return trace, NodeFailed; }
      current := Next(node, outputs, e.js);
      outputs := outputs[node.id := ran.value.value];
    }
    StepsEnd(e, nodes, First(nodes), base, 0, trace, current, outputs);
    ending := Succeeded;
  }

  /** `executeWorkflow`, up to `fuel` nodes, which on an acyclic graph is no bound when there are as many
      as nodes.  A run that ends without a failing write is the big-step run of the graph.  Success leaves
      exactly its own trace in the record; so does every failure, and the record then tells of it, if and
      only if the write of the failure path takes effect. */
  method ExecuteWorkflow(e: Engine, nodes: seq<Node>, base: Outputs, store: ExecutionStore, fuel: nat, w: Writes)
      returns (trace: seq<Entry>, ending: Ending)
    modifies store
    ensures ending == NotStarted <==> w.begin != Replied
    ensures ending == NotStarted ==> trace == [] && store.doc == if w.begin.Ran() then old(store.doc).(status := Running) else old(store.doc)
    ensures ending == OutOfFuel ==>
      |trace| == fuel && store.doc == old(store.doc).(status := Running, nodeResults := MidRun(old(store.doc).nodeResults, trace))
    ensures ending == Succeeded ==>
      Evaluates(e, nodes, First(nodes), base, 0, trace, false) && store.doc == LifeStep(old(store.doc), Ended(false, trace))
    ensures ending == Succeeded ==> store.doc == old(store.doc).(status := Success, nodeResults := Results(trace))
    ensures ending == NodeFailed ==> Evaluates(e, nodes, First(nodes), base, 0, trace, true)
    // Which nodes are run, in terms of the ids and of the answers alone.
    ensures Linked(nodes, trace) && (trace != [] ==> nodes != [] && trace[0].node == nodes[0] && trace[0].seen == base)
    ensures ending == Succeeded ==> Over(nodes, trace) && forall i :: 0 <= i < |trace| ==> trace[i].answer.Output?
    ensures ending == NodeFailed ==> trace != [] && trace[|trace| - 1].answer.Error?
    ensures ending == WriteFailed ==> Partial(e, nodes, base, trace) && (w.loop.Some? || w.finish != Replied || w.stats != Replied)
    ensures (ending == NodeFailed || ending == WriteFailed) && w.mark.Ran() ==>
      store.doc == LifeStep(old(store.doc), Ended(true, trace)) == old(store.doc).(status := Failed, nodeResults := Results(trace))
    ensures ending == NodeFailed || ending == WriteFailed ==> (store.doc.status == Failed <==> w.mark.Ran())
    ensures Acyclic(nodes) ==> |trace| <= |nodes| && (fuel >= |nodes| ==> ending != OutOfFuel)
  {
    if w.begin.Ran() { store.SetStatus(Running); }
    if w.begin != Replied { return [], NotStarted; }
    trace, ending := RunNodes(e, nodes, base, store, fuel, w.loop);
    if ending == Succeeded || ending == NodeFailed {
      WholeTrace(e, nodes, base, trace, ending == NodeFailed);
    } else {
      PartialTrace(e, nodes, base, trace);
    }
    if ending == OutOfFuel { return; }
    if ending == Succeeded {
      if w.finish.Ran() { store.Finish(Success, Results(trace)); }
      if w.finish == w.stats == Replied { return; }
      SuccessIsPartial(e, nodes, base, trace);
      ending := WriteFailed;
    }
    if w.mark.Ran() { store.Finish(Failed, Results(trace)); }
  }

  lemma FirstFound(nodes: seq<Node>)
    ensures if nodes == [] || nodes[0].id == "" then Unknown(nodes, First(nodes)) else Find(nodes, First(nodes)) == Some(nodes[0])
    ensures Find(nodes, First(nodes)).Some? ==> nodes != [] && Find(nodes, First(nodes)).value == nodes[0]
  {}

  lemma WholeTrace(e: Engine, nodes: seq<Node>, base: Outputs, trace: seq<Entry>, failed: bool)
    requires Evaluates(e, nodes, First(nodes), base, 0, trace, failed)
    ensures Linked(nodes, trace) && (trace != [] ==> nodes != [] && trace[0].node == nodes[0] && trace[0].seen == base)
    ensures !failed ==> Over(nodes, trace)
    ensures forall i :: 0 <= i < |trace| ==> (trace[i].answer.Error? <==> failed && i == |trace| - 1)
    ensures failed ==> trace != []
  {
    EvaluatesLinked(e, nodes, First(nodes), base, 0, trace, failed);
    FirstFound(nodes);
    forall i | 0 <= i < |trace| ensures trace[i].answer.Error? <==> failed && i == |trace| - 1 {
      TraceShape(e, nodes, First(nodes), base, 0, trace, failed, i);
    }
  }

  lemma PartialTrace(e: Engine, nodes: seq<Node>, base: Outputs, trace: seq<Entry>)
    requires Partial(e, nodes, base, trace)
    ensures Linked(nodes, trace) && (trace != [] ==> nodes != [] && trace[0].node == nodes[0] && trace[0].seen == base)
  {
    FirstFound(nodes);
    if Evaluates(e, nodes, First(nodes), base, 0, trace, true) {
      WholeTrace(e, nodes, base, trace, true);
    } else {
      var current, outputs :| Steps(e, nodes, First(nodes), base, 0, trace, current, outputs);
      StepsLinked(e, nodes, First(nodes), base, 0, trace, current, outputs);
    }
  }

  lemma SuccessIsPartial(e: Engine, nodes: seq<Node>, base: Outputs, trace: seq<Entry>)
    requires Evaluates(e, nodes, First(nodes), base, 0, trace, false)
    ensures Partial(e, nodes, base, trace)
  {
    EvaluatesSteps(e, nodes, First(nodes), base, 0, trace);
  }

  lemma {:induction false} EvaluatesSteps(e: Engine, nodes: seq<Node>, cur: Option<string>, outputs: Outputs, k: nat, trace: seq<Entry>)
    requires Evaluates(e, nodes, cur, outputs, k, trace, false)
    ensures exists cur', outputs' :: Steps(e, nodes, cur, outputs, k, trace, cur', outputs')
    decreases |trace|
  {
    if trace == [] {
      assert Steps(e, nodes, cur, outputs, k, trace, cur, outputs);
    } else {
      var n := Find(nodes, cur).value;
      var next, after := Next(n, outputs, e.js), outputs[n.id := trace[0].answer.value];
      EvaluatesSteps(e, nodes, next, after, k + 1, trace[1..]);
      var cur', outputs' :| Steps(e, nodes, next, after, k + 1, trace[1..], cur', outputs');
      assert Steps(e, nodes, cur, outputs, k, trace, cur', outputs');
    }
  }

  /** On an acyclic graph a prefix is no longer than the list of nodes, and shorter when it can go on. */
  lemma {:induction false} StepsLength(e: Engine, nodes: seq<Node>, cur: Option<string>, outputs: Outputs, trace: seq<Entry>,
                    cur': Option<string>, outputs': Outputs)
    requires Steps(e, nodes, cur, outputs, 0, trace, cur', outputs')
    ensures Acyclic(nodes) ==> |trace| <= |nodes| && (Find(nodes, cur').Some? ==> |trace| < |nodes|)
  {
    StepsPath(e, nodes, cur, outputs, 0, trace, cur', outputs');
    if Acyclic(nodes) { PathLength(nodes, TraceIds(trace)); }
    if Find(nodes, cur').Some? { TooLong(nodes, trace, cur'); }
  }

  /** A prefix that can still go on is shorter than the list of nodes. */
  lemma {:induction false} TooLong(nodes: seq<Node>, trace: seq<Entry>, next: Option<string>)
    requires AllFound(nodes, TraceIds(trace)) && Path(nodes, TraceIds(trace)) && Find(nodes, next).Some?
    requires |trace| > 0 ==> Edge(nodes, TraceIds(trace)[|trace| - 1], next.value)
    ensures Acyclic(nodes) ==> |trace| < |nodes|
  {
    if Acyclic(nodes) {
      var ids := TraceIds(trace) + [next.value];
      forall i | 0 <= i < |ids| - 1 ensures Edge(nodes, ids[i], ids[i + 1]) {
        if i + 1 < |trace| { assert Edge(nodes, TraceIds(trace)[i], TraceIds(trace)[i + 1]); }
      }
      PathLength(nodes, ids);
    }
  }
}
