/** The static tree of agent stages that the module builds: two analysers
    grouped in a parallel step, followed in sequence by the advocacy
    generator and the report formatter. Only the declared structure is
    modelled; how the orchestration library runs a stage is not. */
module Pipeline {
  import opened Wrappers
  import BiasLookup

  /** A callable handed to a language-model stage. */
  datatype Tool = BiasImplications {
    /** The name under which the callable is offered to the model. */
    function Name(): string { "get_bias_implications" }

    function Call(argument: string): string {
      BiasLookup.GetBiasImplications(argument)
    }
  }

  /** A stage of the tree. A language-model stage has a name, an optional key
      under which its output is stored in the shared context, its tools, and
      the context keys its instruction names as its inputs; the instruction
      text itself is not modelled. */
  datatype Stage =
    | Llm(name: string, outputKey: Option<string>, tools: seq<Tool>, inputKeys: seq<string>)
    | Parallel(name: string, subs: seq<Stage>)
    | Sequential(name: string, subs: seq<Stage>)

  const SymptomAnalyzer: Stage :=
    Llm("symptom_analyzer_agent", Some("symptom_analysis"), [], [])

  const BiasAnalyzer: Stage :=
    Llm("bias_analyzer_agent", Some("bias_analysis"), [BiasImplications], [])

  const AdvocacyGenerator: Stage :=
    Llm("advocacy_generator_agent", Some("advocacy_analysis"), [],
        ["symptom_analysis", "bias_analysis"])

  const ParallelAnalysisStep: Stage :=
    Parallel("parallel_analysis_step", [SymptomAnalyzer, BiasAnalyzer])

  const ReportFormatter: Stage :=
    Llm("report_formatter_agent", None, [],
        ["symptom_analysis", "bias_analysis", "advocacy_analysis"])

  const Root: Stage :=
    Sequential("root_agent", [ParallelAnalysisStep, AdvocacyGenerator, ReportFormatter])

  /** The language-model stages inside `s`, in declaration order. */
  function Leaves(s: Stage): (r: seq<Stage>)
    decreases s, 1
    ensures forall l | l in r :: l.Llm?
    ensures s.Llm? ==> r == [s]
  {
    match s
    case Llm(_, _, _, _) => [s]
    case Parallel(_, subs) => LeavesOf(subs)
    case Sequential(_, subs) => LeavesOf(subs)
  }

  function LeavesOf(subs: seq<Stage>): (r: seq<Stage>)
    decreases subs, 0
    ensures forall l | l in r :: l.Llm?
    ensures forall i | 0 <= i < |subs| :: forall l | l in Leaves(subs[i]) :: l in r
    ensures forall l | l in r :: exists i | 0 <= i < |subs| :: l in Leaves(subs[i])
  {
    if subs == [] then []
    else
      var rest := LeavesOf(subs[1..]);
      assert forall i | 1 <= i < |subs| :: subs[i] == subs[1..][i - 1];
      assert forall i | 0 <= i < |subs| - 1 :: subs[1..][i] == subs[i + 1];
      Leaves(subs[0]) + rest
  }

  /** The output keys declared by the language-model stages of `leaves`, in order. */
  function KeysOf(leaves: seq<Stage>): (keys: seq<string>) {
    if leaves == [] then []
    else
      var first := if leaves[0].Llm? && leaves[0].outputKey.Some? then [leaves[0].outputKey.value] else [];
      first + KeysOf(leaves[1..])
  }

  function OutputKeys(s: Stage): (keys: seq<string>) {
    KeysOf(Leaves(s))
  }

  /** The context keys that the stages inside `s` store. */
  function Writes(s: Stage): (keys: set<string>) {
    set k | k in OutputKeys(s)
  }

  /** The context keys that the stages inside `s` name as inputs. */
  function Reads(s: Stage): (keys: set<string>) {
    set l, k | l in Leaves(s) && l.Llm? && k in l.inputKeys :: k
  }

  predicate NoDuplicates<T(==)>(xs: seq<T>) {
    forall i, j | 0 <= i < j < |xs| :: xs[i] != xs[j]
  }

  /** Walks a sequence of steps, carrying the keys stored so far: each step
      may only read keys already available when it starts. */
  function FedInOrder(steps: seq<Stage>, available: set<string>): (fed: bool) {
    if steps == [] then true
    else Reads(steps[0]) <= available && FedInOrder(steps[1..], available + Writes(steps[0]))
  }

  /** Every key that step `i` reads is available beforehand, or is stored by a
      strictly earlier step. */
  ghost predicate FedByEarlierSteps(steps: seq<Stage>, available: set<string>) {
    forall i, k | 0 <= i < |steps| && k in Reads(steps[i]) ::
      k in available || exists j | 0 <= j < i :: k in Writes(steps[j])
  }

  /** The walk and the quantified statement agree, in both directions. */
  lemma {:induction false} FedInOrderIffFedByEarlier(steps: seq<Stage>, available: set<string>)
    ensures FedInOrder(steps, available) <==> FedByEarlierSteps(steps, available)
    decreases |steps|
  {
    if steps != [] {
      var rest := steps[1..];
      var more := available + Writes(steps[0]);
      FedInOrderIffFedByEarlier(rest, more);
      assert forall i | 1 <= i < |steps| :: steps[i] == rest[i - 1];
      if FedInOrder(steps, available) {
        forall i, k | 0 <= i < |steps| && k in Reads(steps[i])
          ensures k in available || exists j | 0 <= j < i :: k in Writes(steps[j])
        {
          if i > 0 {
            assert k in Reads(rest[i - 1]);
            if k !in more {
              var j :| 0 <= j < i - 1 && k in Writes(rest[j]);
              assert k in Writes(steps[j + 1]);
            } else if k !in available {
              assert k in Writes(steps[0]);
            }
          }
        }
      }
      if FedByEarlierSteps(steps, available) {
        assert Reads(steps[0]) <= available by {
          forall k | k in Reads(steps[0]) ensures k in available {
            assert 0 <= 0 < |steps| && k in Reads(steps[0]);
          }
        }
        forall i, k | 0 <= i < |rest| && k in Reads(rest[i])
          ensures k in more || exists j | 0 <= j < i :: k in Writes(rest[j])
        {
          assert k in Reads(steps[i + 1]);
          if k !in available {
            var j :| 0 <= j < i + 1 && k in Writes(steps[j]);
            if j > 0 {
              assert k in Writes(rest[j - 1]);
            }
          }
        }
      }
    }
  }

  /** The root is a sequence of exactly three steps, in this order, and the
      parallel step groups exactly the two analysers. */
  lemma RootTopology()
    ensures Root.Sequential? && Root.name == "root_agent"
    ensures Root.subs == [ParallelAnalysisStep, AdvocacyGenerator, ReportFormatter]
    ensures ParallelAnalysisStep.Parallel? && ParallelAnalysisStep.name == "parallel_analysis_step"
    ensures ParallelAnalysisStep.subs == [SymptomAnalyzer, BiasAnalyzer]
    ensures Leaves(ParallelAnalysisStep) == [SymptomAnalyzer, BiasAnalyzer]
    ensures Leaves(Root) == [SymptomAnalyzer, BiasAnalyzer, AdvocacyGenerator, ReportFormatter]
  {
    LeavesOfCons(BiasAnalyzer, []);
    LeavesOfCons(SymptomAnalyzer, [BiasAnalyzer]);
    LeavesOfCons(ReportFormatter, []);
    LeavesOfCons(AdvocacyGenerator, [ReportFormatter]);
    LeavesOfCons(ParallelAnalysisStep, [AdvocacyGenerator, ReportFormatter]);
  }

  lemma LeavesOfCons(s: Stage, rest: seq<Stage>)
    ensures LeavesOf([s] + rest) == Leaves(s) + LeavesOf(rest)
  {
    assert ([s] + rest)[1..] == rest;
  }

  lemma ReadsOfLlm(l: Stage)
    requires l.Llm?
    ensures Reads(l) == set k | k in l.inputKeys
  {
  }

  lemma KeysOfCons(l: Stage, rest: seq<Stage>)
    ensures KeysOf([l] + rest) ==
      (if l.Llm? && l.outputKey.Some? then [l.outputKey.value] else []) + KeysOf(rest)
  {
    assert ([l] + rest)[1..] == rest;
  }

  /** The analysers, the generator and the formatter store under three
      pairwise distinct keys; the formatter stores nothing. */
  lemma RootOutputKeys()
    ensures SymptomAnalyzer.outputKey == Some("symptom_analysis")
    ensures BiasAnalyzer.outputKey == Some("bias_analysis")
    ensures AdvocacyGenerator.outputKey == Some("advocacy_analysis")
    ensures ReportFormatter.outputKey == None
    ensures OutputKeys(Root) == ["symptom_analysis", "bias_analysis", "advocacy_analysis"]
    ensures NoDuplicates(OutputKeys(Root))
  {
    RootTopology();
    KeysOfCons(ReportFormatter, []);
    KeysOfCons(AdvocacyGenerator, [ReportFormatter]);
    KeysOfCons(BiasAnalyzer, [AdvocacyGenerator, ReportFormatter]);
    KeysOfCons(SymptomAnalyzer, [BiasAnalyzer, AdvocacyGenerator, ReportFormatter]);
  }

  /** Only the bias analyser carries a tool, and that tool is the bias lookup. */
  lemma RootTools()
    ensures forall l | l in Leaves(Root) :: l.tools != [] <==> l == BiasAnalyzer
    ensures BiasAnalyzer.tools == [BiasImplications]
    ensures BiasImplications.Name() == "get_bias_implications"
    ensures forall b: string :: BiasImplications.Call(b) == BiasLookup.GetBiasImplications(b)
  {
    RootTopology();
  }

  /** The keys each root step reads and stores. */
  lemma RootStepKeys()
    ensures Reads(ParallelAnalysisStep) == {}
    ensures Writes(ParallelAnalysisStep) == {"symptom_analysis", "bias_analysis"}
    ensures Reads(AdvocacyGenerator) == {"symptom_analysis", "bias_analysis"}
    ensures Writes(AdvocacyGenerator) == {"advocacy_analysis"}
    ensures Reads(ReportFormatter) == {"symptom_analysis", "bias_analysis", "advocacy_analysis"}
  {
    RootTopology();
    KeysOfCons(BiasAnalyzer, []);
    KeysOfCons(SymptomAnalyzer, [BiasAnalyzer]);
    ReadsOfLlm(AdvocacyGenerator);
    ReadsOfLlm(ReportFormatter);
  }

  /** The walk over the root sequence, from an empty context, accepts it. */
  lemma RootFedInOrder()
    ensures FedInOrder(Root.subs, {})
  {
    RootStepKeys();
    var steps := Root.subs;
    var afterAnalysis := {"symptom_analysis", "bias_analysis"};
    var afterAdvocacy := afterAnalysis + {"advocacy_analysis"};
    assert [ReportFormatter][1..] == [];
    assert FedInOrder([ReportFormatter], afterAdvocacy);
    assert [AdvocacyGenerator, ReportFormatter][1..] == [ReportFormatter];
    assert FedInOrder([AdvocacyGenerator, ReportFormatter], afterAnalysis);
    assert steps[0] == ParallelAnalysisStep && steps[1..] == [AdvocacyGenerator, ReportFormatter];
    assert {} + Writes(steps[0]) == afterAnalysis;
  }

  /** Each key a later stage reads is stored by a strictly earlier step of the
      root sequence, starting from an empty context. */
  lemma RootDataFlow()
    ensures AdvocacyGenerator.inputKeys == ["symptom_analysis", "bias_analysis"]
    ensures ReportFormatter.inputKeys == ["symptom_analysis", "bias_analysis", "advocacy_analysis"]
    ensures FedByEarlierSteps(Root.subs, {})
  {
    RootFedInOrder();
    FedInOrderIffFedByEarlier(Root.subs, {});
  }

  /** The check rejects the same steps in the wrong order: with the advocacy
      generator first, its inputs are not yet stored. */
  lemma ReorderedRootRejected()
    ensures !FedByEarlierSteps([AdvocacyGenerator, ParallelAnalysisStep, ReportFormatter], {})
  {
    RootStepKeys();
    var steps := [AdvocacyGenerator, ParallelAnalysisStep, ReportFormatter];
    assert !FedInOrder(steps, {}) by {
      assert "symptom_analysis" in Reads(steps[0]);
    }
    FedInOrderIffFedByEarlier(steps, {});
  }

  /** No member of the parallel step reads what another member stores. */
  lemma ParallelMembersIndependent()
    ensures forall i, j | 0 <= i < |ParallelAnalysisStep.subs| && 0 <= j < |ParallelAnalysisStep.subs| && i != j ::
      Reads(ParallelAnalysisStep.subs[i]) !! Writes(ParallelAnalysisStep.subs[j])
  {
  }
}
