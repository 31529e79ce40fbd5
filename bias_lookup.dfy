/** The knowledge lookup `get_bias_implications`: a fixed dictionary from a
    bias identifier to an explanatory text, queried with a default value. */
module BiasLookup {

  /** One `key: value` pair of a dictionary literal. */
  datatype Entry = Entry(key: string, text: string)

  /** The dictionary literal `bias_database`, its pairs in the order written. */
  const DatabaseLiteral: seq<Entry> := [
    Entry("psychologizing_bias",
      "This can lead to delayed diagnosis for underlying physical conditions, as symptoms are incorrectly attributed to mental stress."),
    Entry("gender_bias",
      "Often results in women's pain being taken less seriously or misdiagnosed, particularly in cardiovascular and autoimmune diseases."),
    Entry("weight_bias",
      "The tendency to attribute a wide range of symptoms to a patient's weight without a full workup. This can cause clinicians to miss underlying metabolic, orthopedic, or endocrine disorders."),
    Entry("ageism_bias",
      "Dismissing a patient's medical concerns as a normal or inevitable part of aging. This can prevent the timely diagnosis and treatment of serious conditions like heart disease, cancer, or neurological issues."),
    Entry("confirmation_bias",
      "The tendency for a clinician to focus on evidence that supports their initial hypothesis while ignoring evidence that contradicts it. This can lead to a premature or incorrect diagnosis."),
    Entry("racial_or_ethnic_bias",
      "Occurs when clinical judgments are influenced by stereotypes. This can lead to the undertreatment of pain and misdiagnosis of conditions that present differently across populations, such as dermatological or cardiac symptoms.")
  ]

  /** The default handed to `get` for an identifier the dictionary lacks. */
  const NotFound: string := "No specific information found for this bias type."

  /** The six identifiers the lookup knows, written out independently of the literal. */
  const KnownBiasTypes: set<string> := {
    "psychologizing_bias", "gender_bias", "weight_bias",
    "ageism_bias", "confirmation_bias", "racial_or_ethnic_bias"
  }

  predicate DistinctKeys(entries: seq<Entry>) {
    forall i, j | 0 <= i < j < |entries| :: entries[i].key != entries[j].key
  }

  /** The dictionary a literal evaluates to: its pairs are inserted left to
      right, so a later pair with a repeated key overwrites an earlier one. */
  function DictOf(entries: seq<Entry>): (m: map<string, string>)
    ensures m.Keys == set i | 0 <= i < |entries| :: entries[i].key
    ensures forall k | k in m :: exists i | 0 <= i < |entries| :: entries[i] == Entry(k, m[k])
  {
    if entries == [] then map[]
    else
      var n := |entries| - 1;
      var prefix := DictOf(entries[..n]);
      assert forall i | 0 <= i < n :: entries[..n][i] == entries[i];
      prefix[entries[n].key := entries[n].text]
  }

  /** No pair after position `i` repeats the key of pair `i`. */
  predicate LastWithKey(entries: seq<Entry>, i: nat)
    requires i < |entries|
  {
    forall j | i < j < |entries| :: entries[j].key != entries[i].key
  }

  /** A later pair with a repeated key overwrites an earlier one: the text of
      the last pair with a given key is what the dictionary stores. */
  lemma {:induction false} DictOfLastWins(entries: seq<Entry>, i: nat)
    requires i < |entries| && LastWithKey(entries, i)
    ensures entries[i].key in DictOf(entries)
    ensures DictOf(entries)[entries[i].key] == entries[i].text
  {
    var n := |entries| - 1;
    if i < n {
      assert entries[..n][i] == entries[i];
      assert LastWithKey(entries[..n], i) by {
        forall j | i < j < n ensures entries[..n][j].key != entries[..n][i].key {
          assert entries[..n][j] == entries[j];
        }
      }
      DictOfLastWins(entries[..n], i);
    }
  }

  /** `d.get(key, default)` on a dictionary `d`. */
  function DictGet(d: map<string, string>, key: string, default: string): (r: string) {
    if key in d then d[key] else default
  }

  /** Querying a literal with distinct keys yields the text of the pair whose
      key matches, and the default when no pair's key matches. */
  lemma DictGetOfLiteral(entries: seq<Entry>, key: string, default: string)
    requires DistinctKeys(entries)
    ensures forall i | 0 <= i < |entries| && entries[i].key == key ::
      DictGet(DictOf(entries), key, default) == entries[i].text
    ensures (forall i | 0 <= i < |entries| :: entries[i].key != key) ==>
      DictGet(DictOf(entries), key, default) == default
  {
  }

  lemma LiteralKeysDistinct()
    ensures DistinctKeys(DatabaseLiteral)
  {
  }

  /** `get_bias_implications(bias_type)`: total over all strings; exact-match
      keys give their stored text, everything else the default. */
  function GetBiasImplications(biasType: string): (r: string)
    ensures forall i | 0 <= i < |DatabaseLiteral| && DatabaseLiteral[i].key == biasType ::
      r == DatabaseLiteral[i].text
    ensures (forall i | 0 <= i < |DatabaseLiteral| :: DatabaseLiteral[i].key != biasType) ==>
      r == NotFound
  {
    LiteralKeysDistinct();
    DictGetOfLiteral(DatabaseLiteral, biasType, NotFound);
    DictGet(DictOf(DatabaseLiteral), biasType, NotFound)
  }

  /** The literal's keys are exactly the six known identifiers. */
  lemma LiteralKeysAreKnown()
    ensures (set i | 0 <= i < |DatabaseLiteral| :: DatabaseLiteral[i].key) == KnownBiasTypes
  {
    var ks := set i | 0 <= i < |DatabaseLiteral| :: DatabaseLiteral[i].key;
    assert DatabaseLiteral[0].key in ks && DatabaseLiteral[1].key in ks && DatabaseLiteral[2].key in ks;
    assert DatabaseLiteral[3].key in ks && DatabaseLiteral[4].key in ks && DatabaseLiteral[5].key in ks;
  }

  /** A caller can tell "found" from "not found": the sentinel comes back
      exactly for the identifiers outside the six, and a found text is never
      the sentinel. */
  lemma FoundIffKnown(biasType: string)
    ensures GetBiasImplications(biasType) == NotFound <==> biasType !in KnownBiasTypes
    ensures biasType in KnownBiasTypes ==>
      exists i | 0 <= i < |DatabaseLiteral| :: GetBiasImplications(biasType) == DatabaseLiteral[i].text
  {
    LiteralKeysAreKnown();
    if biasType in KnownBiasTypes {
      var i :| 0 <= i < |DatabaseLiteral| && DatabaseLiteral[i].key == biasType;
      assert |DatabaseLiteral[i].text| > |NotFound|;
    }
  }

  /** Any identifier outside the six yields the sentinel sentence. */
  lemma UnknownBiasYieldsSentinel(biasType: string)
    requires biasType !in KnownBiasTypes
    ensures GetBiasImplications(biasType) == "No specific information found for this bias type."
  {
    LiteralKeysAreKnown();
    assert forall i | 0 <= i < |DatabaseLiteral| :: DatabaseLiteral[i].key in KnownBiasTypes;
  }

  /** Matching is exact string equality: a differently cased identifier misses. */
  lemma CaseMismatchYieldsSentinel()
    ensures GetBiasImplications("Gender_Bias") == NotFound
    ensures GetBiasImplications("GENDER_BIAS") == NotFound
  {
    assert "Gender_Bias"[0] != "gender_bias"[0];
    assert "GENDER_BIAS"[0] != "gender_bias"[0];
    UnknownBiasYieldsSentinel("Gender_Bias");
    UnknownBiasYieldsSentinel("GENDER_BIAS");
  }

  /** Matching is exact string equality: padding or a changed separator misses. */
  lemma PaddingYieldsSentinel()
    ensures GetBiasImplications(" gender_bias") == NotFound
    ensures GetBiasImplications("gender_bias ") == NotFound
    ensures GetBiasImplications("gender bias") == NotFound
  {
    assert |" gender_bias"| == 12 && |"gender_bias "| == 12;
    assert "gender bias"[6] != "gender_bias"[6];
    UnknownBiasYieldsSentinel(" gender_bias");
    UnknownBiasYieldsSentinel("gender_bias ");
    UnknownBiasYieldsSentinel("gender bias");
  }

  lemma PsychologizingBiasText()
    ensures GetBiasImplications("psychologizing_bias") ==
      "This can lead to delayed diagnosis for underlying physical conditions, as symptoms are incorrectly attributed to mental stress."
  {
    assert DatabaseLiteral[0].key == "psychologizing_bias";
  }

  lemma GenderBiasText()
    ensures GetBiasImplications("gender_bias") ==
      "Often results in women's pain being taken less seriously or misdiagnosed, particularly in cardiovascular and autoimmune diseases."
  {
    assert DatabaseLiteral[1].key == "gender_bias";
  }

  lemma WeightBiasText()
    ensures GetBiasImplications("weight_bias") ==
      "The tendency to attribute a wide range of symptoms to a patient's weight without a full workup. This can cause clinicians to miss underlying metabolic, orthopedic, or endocrine disorders."
  {
    assert DatabaseLiteral[2].key == "weight_bias";
  }

  lemma AgeismBiasText()
    ensures GetBiasImplications("ageism_bias") ==
      "Dismissing a patient's medical concerns as a normal or inevitable part of aging. This can prevent the timely diagnosis and treatment of serious conditions like heart disease, cancer, or neurological issues."
  {
    assert DatabaseLiteral[3].key == "ageism_bias";
  }

  lemma ConfirmationBiasText()
    ensures GetBiasImplications("confirmation_bias") ==
      "The tendency for a clinician to focus on evidence that supports their initial hypothesis while ignoring evidence that contradicts it. This can lead to a premature or incorrect diagnosis."
  {
  }

  lemma RacialOrEthnicBiasText()
    ensures GetBiasImplications("racial_or_ethnic_bias") ==
      "Occurs when clinical judgments are influenced by stereotypes. This can lead to the undertreatment of pain and misdiagnosis of conditions that present differently across populations, such as dermatological or cardiac symptoms."
  {
  }
}
