# lucia_agent: bias lookup and stage topology

The lucia_agent repository wires a patient-advocacy pipeline of hosted
language-model "agents": a symptom analyser and a bias analyser run as one
parallel step, then an advocacy generator, then a report formatter. Almost
all of it is prompt text and configuration for an orchestration library.
This project models the two deterministic parts of `main_agent/agent.py`:

- **`BiasLookup`** (`bias_lookup.dfy`) models `get_bias_implications`. The
  dictionary literal becomes a list of key/text pairs, `DatabaseLiteral`.
  `DictOf` turns it into a map the way a Python dict literal does: pairs are
  inserted left to right and a later repeated key wins. `DictGet` models
  `dict.get(key, default)`. The lemmas fix each of the six texts. They also
  show that every other identifier, including a differently cased or padded
  one, gets the sentinel `"No specific information found for this bias type."`,
  and that the sentinel is never one of the six texts.
- **`Pipeline`** (`pipeline.dfy`) models the stage constants as one datatype
  value, `Root`. A language-model stage holds four things: its name, its
  optional `output_key`, its tools, and the context keys its instruction says
  it receives (lines 65 and 112). A parallel and a sequential stage each hold
  a name and their sub-stages. The lemmas cover the tree's shape, the
  distinct output keys and where the one tool sits. One more lemma shows that
  every key a stage reads is stored by a strictly earlier step of the root
  sequence. That check works on the declared structure alone. A key counts
  as available to a step only once a whole earlier step has stored it, and
  nothing is assumed about how the library runs the steps.
- `Wrappers` (`wrappers.dfy`) holds the `Option` type used for `output_key`.

`get_bias_implications` has no precondition. Every string gets a result.

## Model

| member | source | states |
|---|---|---|
| `BiasLookup.DictOf` | main_agent/agent.py:12-19 | the dictionary built from the literal has exactly the literal's keys, and every stored pair is a pair of the literal |
| `BiasLookup.DictOfLastWins` | main_agent/agent.py:12-19 | for any literal, the dictionary holds the text of the last pair with a given key, so a later repeated key overwrites an earlier one |
| `BiasLookup.DictGetOfLiteral` | main_agent/agent.py:20 | `get` with a default on a literal with distinct keys gives the text of the pair whose key equals the query, and gives the default when no key equals it |
| `BiasLookup.LiteralKeysDistinct` | main_agent/agent.py:12-19 | the six identifiers of `bias_database` are pairwise distinct |
| `BiasLookup.GetBiasImplications` | main_agent/agent.py:10-20 | total over all strings: an identifier equal to a key of the literal gets that pair's text, and any other identifier gets the sentinel |
| `BiasLookup.LiteralKeysAreKnown` | main_agent/agent.py:12-19 | the literal's keys are exactly the six identifiers psychologizing, gender, weight, ageism, confirmation and racial-or-ethnic bias |
| `BiasLookup.FoundIffKnown` | main_agent/agent.py:12-20 | the result is the sentinel if and only if the identifier is not one of the six; a known identifier gets one of the stored texts, so "found" and "not found" can be told apart |
| `BiasLookup.UnknownBiasYieldsSentinel` | main_agent/agent.py:20 | every identifier outside the six gets exactly "No specific information found for this bias type." |
| `BiasLookup.CaseMismatchYieldsSentinel` | main_agent/agent.py:20 | matching is case-sensitive: `Gender_Bias` and `GENDER_BIAS` get the sentinel |
| `BiasLookup.PaddingYieldsSentinel` | main_agent/agent.py:20 | matching is exact: a leading or trailing space, or a space instead of the underscore, gets the sentinel |
| `BiasLookup.PsychologizingBiasText` | main_agent/agent.py:13 | `psychologizing_bias` gets its fixed text about delayed diagnosis |
| `BiasLookup.GenderBiasText` | main_agent/agent.py:14 | `gender_bias` gets its fixed text about women's pain |
| `BiasLookup.WeightBiasText` | main_agent/agent.py:15 | `weight_bias` gets its fixed text about attributing symptoms to weight |
| `BiasLookup.AgeismBiasText` | main_agent/agent.py:16 | `ageism_bias` gets its fixed text about dismissal as ageing |
| `BiasLookup.ConfirmationBiasText` | main_agent/agent.py:17 | `confirmation_bias` gets its fixed text about the initial hypothesis |
| `BiasLookup.RacialOrEthnicBiasText` | main_agent/agent.py:18 | `racial_or_ethnic_bias` gets its fixed text about stereotypes |
| `Pipeline.Leaves` | main_agent/agent.py:101-142 | every stage the flattening of a stage tree yields is a language-model stage, and a language-model stage flattens to itself |
| `Pipeline.LeavesOf` | main_agent/agent.py:101-142 | flattening a list of sub-stages yields only language-model stages, keeps every leaf of every sub-stage, and yields nothing that is not a leaf of some sub-stage |
| `Pipeline.FedInOrderIffFedByEarlier` | main_agent/agent.py:136-142 | for any sequence of steps, a left-to-right walk of the keys stored so far accepts the steps exactly when every key a step reads was available at the start or was stored by a strictly earlier step |
| `Pipeline.RootTopology` | main_agent/agent.py:101-142 | `root_agent` is a sequence of exactly three steps in this order: `parallel_analysis_step`, the advocacy generator, the report formatter. The parallel step holds exactly the symptom and bias analysers, so the language-model stages, in declaration order, are symptom, bias, advocacy, report |
| `Pipeline.RootOutputKeys` | main_agent/agent.py:39-132 | the output keys are `symptom_analysis`, `bias_analysis` and `advocacy_analysis`, in that order and pairwise distinct; the report formatter declares none |
| `Pipeline.RootTools` | main_agent/agent.py:54-61 | among the pipeline's stages only the bias analyser has a tool; its one tool is named `get_bias_implications` and calls the bias lookup |
| `Pipeline.RootStepKeys` | main_agent/agent.py:39-132 | the parallel step reads no context key and stores `symptom_analysis` and `bias_analysis`; the advocacy generator reads those two and stores `advocacy_analysis`; the formatter reads all three |
| `Pipeline.RootFedInOrder` | main_agent/agent.py:136-142 | walking the three root steps from an empty context, each step reads only keys already stored by an earlier step |
| `Pipeline.RootDataFlow` | main_agent/agent.py:63-142 | the advocacy generator reads `symptom_analysis` and `bias_analysis`; the formatter reads those and `advocacy_analysis`; starting from an empty context, each key read is stored by a strictly earlier step of the root sequence |
| `Pipeline.ReorderedRootRejected` | main_agent/agent.py:136-142 | the data-flow check is not vacuous: the same three steps with the advocacy generator first are rejected, because its inputs are not yet stored |
| `Pipeline.ParallelMembersIndependent` | main_agent/agent.py:39-107 | no member of the parallel step reads a key that another member stores |

## Left out

- Prompt text: the instructions at main_agent/agent.py:24-37, 47-52, 64-84 and 111-127 ask a hosted model for something in plain language, and no code enforces what they ask. They are not modelled. The only part kept is the context keys each instruction names as its inputs (`inputKeys`). The two analysers are given none, because their instructions speak only of the raw patient narrative.
- The hosted model: running a language-model stage is a network call to an external service with nondeterministic output. It is not modelled.
- How parallel and sequential steps run: concurrency, session state, context merging, event streaming and retries all live in the orchestration library, and `google.adk` is not part of this model. `FedByEarlierSteps` is a check on the declared structure only. It treats each step of a sequence as a whole: all the keys the stages inside a step read must be stored by strictly earlier steps, or be available at the start. So it also rejects a nested sequential step whose first member feeds its second. The root tree has no nested sequential step, so nothing proved about `Root` depends on this.
- Error handling and report rendering: the source has no code that validates a stage's output, classifies failures (contract violation, unavailable service, a workflow error wrapping the first failure) or renders the report's per-section "none found" text. These exist only as prompt requests or as library behaviour.
- The cumulative cross-turn context and the session service: they belong to the library and its in-memory session service, which are not part of this model.
- Model names (`gemini-2.5-flash-lite`) and agent `description` strings: they are configuration metadata with no behaviour.
- tests/test_agent.py: an asynchronous driver that creates a session, streams events and prints the final text. It is all input/output and has no assertions.
