/**
 * Reading a topic's configuration back: the broker reports every entry, and
 * only those that differ from the defaults are kept.
 */
module TopicConfig {
  import opened Wrappers
  import opened Sarama

  /** An entry counts as a default when flagged so or when it comes from the defaults or the static broker file. */
  predicate IsDefault(entry: ConfigEntry) {
    entry.default || entry.source == SourceDefault || entry.source == SourceStaticBroker
  }

  lemma IsDefaultCases(entry: ConfigEntry)
    ensures entry.default ==> IsDefault(entry)
    ensures !entry.default ==>
      (IsDefault(entry) <==> entry.source == SourceDefault || entry.source == SourceStaticBroker)
  {
  }

  /** The map the loop builds: each non-default entry, in order, sets its name to its value. */
  function NonDefaultConfig(entries: seq<ConfigEntry>): map<string, string> {
    if entries == [] then map[]
    else
      var config := NonDefaultConfig(entries[..|entries| - 1]);
      var entry := entries[|entries| - 1];
      if IsDefault(entry) then config else config[entry.name := entry.value]
  }

  /** A name is kept exactly when some entry with that name is not a default. */
  lemma {:induction false} NonDefaultConfigKeys(entries: seq<ConfigEntry>, name: string)
    ensures name in NonDefaultConfig(entries)
        <==> exists i :: 0 <= i < |entries| && entries[i].name == name && !IsDefault(entries[i])
  {
    if entries != [] {
      var init := entries[..|entries| - 1];
      NonDefaultConfigKeys(init, name);
      assert forall i :: 0 <= i < |init| ==> init[i] == entries[i];
    }
  }

  /** A kept name maps to the value of the last non-default entry with that name. */
  lemma {:induction false} NonDefaultConfigLastWins(entries: seq<ConfigEntry>, i: nat)
    requires i < |entries| && !IsDefault(entries[i])
    requires forall j :: i < j < |entries| && entries[j].name == entries[i].name ==> IsDefault(entries[j])
    ensures entries[i].name in NonDefaultConfig(entries)
    ensures NonDefaultConfig(entries)[entries[i].name] == entries[i].value
  {
    var last := |entries| - 1;
    if i < last {
      var init := entries[..last];
      assert forall j :: 0 <= j < |init| ==> init[j] == entries[j];
      NonDefaultConfigLastWins(init, i);
    }
  }

  /**
   * `describeConfig` stands for the admin client's DescribeConfig on the topic
   * resource named `topic`.
   */
  method RetrieveTopicConfiguration(topic: string, describeConfig: string -> Result<seq<ConfigEntry>, Error>)
    returns (r: Result<map<string, string>, Error>)
    ensures describeConfig(topic).Failure? ==> r == Failure(describeConfig(topic).error)
    ensures describeConfig(topic).Success? ==> r == Success(NonDefaultConfig(describeConfig(topic).value))
  {
    var config: map<string, string> := map[];
    var described := describeConfig(topic);
    if described.Failure? {
      return Failure(described.error);
    }
    var entries := described.value;
    for i := 0 to |entries|
      invariant config == NonDefaultConfig(entries[..i])
    {
      var entry := entries[i];
      assert entries[..i + 1][..i] == entries[..i];
      if !IsDefault(entry) {
        var value := entry.value;
        config := config[entry.name := value];
      }
    }
    assert entries[..|entries|] == entries;
    return Success(config);
  }
}
