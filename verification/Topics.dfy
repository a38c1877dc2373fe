/** MQTT topics: configuration checks, and the two places that derive topics from it. */
module Topics {
  import opened Wrappers
  import opened Text

  const MAX_TOPIC_BYTES: nat := 65_535

  datatype ConfigError = InvalidField(field: string)

  /** Bytes of a character in UTF-8. */
  function CharBytes(c: char): (n: nat)
    ensures 1 <= n <= 4
  {
    var u := c as int;
    if u < 0x80 then 1 else if u < 0x800 then 2 else if u < 0x1_0000 then 3 else 4
  }

  /** `str::len`. */
  function ByteLength(s: string): (n: nat) {
    if s == "" then 0 else CharBytes(s[0]) + ByteLength(s[1..])
  }

  /** `char::is_control`. */
  predicate IsControl(c: char) {
    var u := c as int;
    u < 0x20 || 0x7F <= u < 0xA0
  }

  predicate Alphanumeric(c: char) {
    'a' <= c <= 'z' || 'A' <= c <= 'Z' || '0' <= c <= '9'
  }

  ghost predicate ValidIdentifier(value: string, maximum: nat, punctuation: string) {
    value != "" && ByteLength(value) <= maximum
    && forall i :: 0 <= i < |value| ==> Alphanumeric(value[i]) || value[i] in punctuation
  }

  predicate DoubleSlash(s: string, i: nat)
    requires i + 1 < |s|
  {
    s[i] == '/' && s[i + 1] == '/'
  }

  /** `str::contains("//")`. */
  ghost predicate HasEmptyLevel(s: string) {
    exists i: nat :: i + 1 < |s| && DoubleSlash(s, i)
  }

  predicate Allowed(c: char) {
    c != '+' && c != '#' && !IsControl(c)
  }

  ghost predicate AllAllowed(s: string) {
    forall i :: 0 <= i < |s| ==> Allowed(s[i])
  }

  /** The checks of `validate_topic`. */
  ghost predicate ValidTopic(value: string) {
    && value != "" && ByteLength(value) <= MAX_TOPIC_BYTES && Trim(value) == value
    && value[0] != '/' && value[|value| - 1] != '/'
    && !HasEmptyLevel(value) && AllAllowed(value)
  }

  datatype Config = Config(deviceId: string, baseTopic: string, discoveryPrefix: string)

  // ---- the topics of the supervisor

  function StateTopic(c: Config): (topic: string) { c.baseTopic + "/state" }

  function AvailabilityTopic(c: Config): (topic: string) { c.baseTopic + "/availability" }

  function DiscoveryTopic(c: Config): (topic: string) { c.discoveryPrefix + "/device/" + c.deviceId + "/config" }

  // ---- the topics the Discovery document advertises

  function TrimEndSlashes(s: string): (t: string) {
    if s != "" && s[|s| - 1] == '/' then TrimEndSlashes(s[..|s| - 1]) else s
  }

  function ChildTopic(base: string, child: string): (topic: string) { TrimEndSlashes(base) + "/" + child }

  function AdvertisedStateTopic(c: Config): (topic: string) { ChildTopic(c.baseTopic, "state") }

  function AdvertisedAvailabilityTopic(c: Config): (topic: string) { ChildTopic(c.baseTopic, "availability") }

  function AdvertisedDiscoveryTopic(c: Config): (topic: string) {
    TrimEndSlashes(c.discoveryPrefix) + "/device/" + c.deviceId + "/config"
  }

  // ---- validation

  /** The topic checks of `RawConfig::validate`, in its order. */
  ghost function Validate(raw: Config): (r: Result<Config, ConfigError>) {
    if !ValidIdentifier(raw.deviceId, 64, "_-") then Failure(InvalidField("device.id"))
    else if !ValidTopic(raw.baseTopic) then Failure(InvalidField("mqtt.base_topic"))
    else if !ValidTopic(raw.discoveryPrefix) then Failure(InvalidField("mqtt.discovery_prefix"))
    else if ByteLength(StateTopic(raw)) > MAX_TOPIC_BYTES || ByteLength(AvailabilityTopic(raw)) > MAX_TOPIC_BYTES
         || ByteLength(DiscoveryTopic(raw)) > MAX_TOPIC_BYTES then Failure(InvalidField("mqtt topics"))
    else Success(raw)
  }

  // ---- agreement

  /** For an accepted configuration Discovery advertises the topics the supervisor publishes to. */
  lemma TopicsAgree(raw: Config)
    requires Validate(raw).Success?
    ensures var c := Validate(raw).value;
      && AdvertisedStateTopic(c) == StateTopic(c)
      && AdvertisedAvailabilityTopic(c) == AvailabilityTopic(c)
      && AdvertisedDiscoveryTopic(c) == DiscoveryTopic(c)
  {
    TopicsDisagree(raw);
    hide AdvertisedStateTopic, AdvertisedAvailabilityTopic, AdvertisedDiscoveryTopic, StateTopic,
        AvailabilityTopic, DiscoveryTopic;
  }

  predicate EndsWithSlash(s: string) {
    s != "" && s[|s| - 1] == '/'
  }

  /** The two derivations differ exactly for a base topic or a prefix that ends with a slash. */
  lemma TopicsDisagree(c: Config)
    ensures AdvertisedStateTopic(c) == StateTopic(c) <==> !EndsWithSlash(c.baseTopic)
    ensures AdvertisedAvailabilityTopic(c) == AvailabilityTopic(c) <==> !EndsWithSlash(c.baseTopic)
    ensures AdvertisedDiscoveryTopic(c) == DiscoveryTopic(c) <==> !EndsWithSlash(c.discoveryPrefix)
  {
    SlashesTrimmed(c.baseTopic);
    SlashesTrimmed(c.discoveryPrefix);
    hide TrimEndSlashes;
    assert |AdvertisedStateTopic(c)| == |TrimEndSlashes(c.baseTopic)| + |"/state"|;
    assert |AdvertisedAvailabilityTopic(c)| == |TrimEndSlashes(c.baseTopic)| + |"/availability"|;
    if !EndsWithSlash(c.baseTopic) {
      assert c.baseTopic + "/" + "state" == c.baseTopic + "/state";
      assert c.baseTopic + "/" + "availability" == c.baseTopic + "/availability";
    }
  }

  lemma {:induction false} SlashesTrimmed(s: string)
    ensures if EndsWithSlash(s) then |TrimEndSlashes(s)| < |s| else TrimEndSlashes(s) == s
    decreases |s|
  {
    if EndsWithSlash(s) {
      SlashesTrimmed(s[..|s| - 1]);
    }
  }

  /** The three topics are pairwise distinct, whatever the configuration. */
  lemma TopicsAreDistinct(c: Config)
    ensures StateTopic(c) != AvailabilityTopic(c)
    ensures StateTopic(c) != DiscoveryTopic(c)
    ensures AvailabilityTopic(c) != DiscoveryTopic(c)
  {
    var s, a, d := StateTopic(c), AvailabilityTopic(c), DiscoveryTopic(c);
    assert s[|s| - 1] == 'e' && a[|a| - 1] == 'y' && d[|d| - 1] == 'g';
  }

  // ---- derived topics are topics again

  lemma NoEmptyLevelIn(a: string, b: string)
    requires !HasEmptyLevel(a) && !HasEmptyLevel(b)
    requires a == "" || b == "" || a[|a| - 1] != '/' || b[0] != '/'
    ensures !HasEmptyLevel(a + b)
  {
    forall i: nat | i + 1 < |a + b|
      ensures !DoubleSlash(a + b, i)
    {
      if i + 1 < |a| {
        assert !DoubleSlash(a, i);
      } else if i >= |a| {
        assert !DoubleSlash(b, i - |a|);
      }
    }
  }

  /** One or more levels that may follow a topic. */
  ghost predicate Levels(levels: string) {
    && AllAllowed(levels) && !HasEmptyLevel(levels)
    && |levels| >= 2 && levels[0] == '/' && levels[|levels| - 1] != '/' && !IsSpace(levels[|levels| - 1])
  }

  predicate WordChar(c: char) {
    Alphanumeric(c) || c == '_' || c == '-'
  }

  ghost predicate Word(word: string) {
    word != "" && forall i :: 0 <= i < |word| ==> WordChar(word[i])
  }

  /** Appending levels to a valid topic gives a valid topic, as long as it stays short enough. */
  lemma ExtendedTopicIsValid(base: string, levels: string)
    requires ValidTopic(base) && Levels(levels) && ByteLength(base + levels) <= MAX_TOPIC_BYTES
    ensures ValidTopic(base + levels)
  {
    var topic := base + levels;
    NoEmptyLevelIn(base, levels);
    TrimmedStrings(base);
    TrimmedStrings(topic);
    assert topic[0] == base[0] && topic[|topic| - 1] == levels[|levels| - 1];
  }

  lemma OneLevel(word: string)
    requires Word(word)
    ensures Levels("/" + word)
  {
    var levels := "/" + word;
    forall i: nat | i + 1 < |levels|
      ensures !DoubleSlash(levels, i)
    {
      assert WordChar(word[i]);
    }
  }

  lemma MoreLevels(first: string, second: string)
    requires Levels(first) && Levels(second)
    ensures Levels(first + second)
  {
    NoEmptyLevelIn(first, second);
  }

  lemma DiscoveryLevels(device: string, id: string, config: string)
    requires Word(device) && Word(id) && Word(config)
    ensures Levels(("/" + device) + ("/" + id) + ("/" + config))
  {
    hide Levels, Word;
    OneLevel(device);
    OneLevel(id);
    OneLevel(config);
    MoreLevels("/" + device, "/" + id);
    MoreLevels(("/" + device) + ("/" + id), "/" + config);
  }

  lemma FixedWords()
    ensures Word("state") && Word("availability") && Word("device") && Word("config")
  {
  }

  lemma IdentifierIsWord(raw: Config)
    requires Validate(raw).Success?
    ensures Word(raw.deviceId)
  {
    hide ValidTopic, ByteLength;
    assert forall c: char :: c in "_-" <==> c == '_' || c == '-';
  }

  lemma Accepted(raw: Config)
    requires Validate(raw).Success?
    ensures ValidTopic(raw.baseTopic) && ValidTopic(raw.discoveryPrefix)
    ensures ByteLength(StateTopic(raw)) <= MAX_TOPIC_BYTES
    ensures ByteLength(AvailabilityTopic(raw)) <= MAX_TOPIC_BYTES
    ensures ByteLength(DiscoveryTopic(raw)) <= MAX_TOPIC_BYTES
  {
    hide ValidTopic, ByteLength, ValidIdentifier, StateTopic, AvailabilityTopic, DiscoveryTopic;
  }

  /** The three topics of an accepted configuration are again concrete topics. */
  lemma DerivedTopicsAreValid(raw: Config)
    requires Validate(raw).Success?
    ensures ValidTopic(StateTopic(raw)) && ValidTopic(AvailabilityTopic(raw)) && ValidTopic(DiscoveryTopic(raw))
  {
    hide ValidTopic, Levels, Word, ByteLength, Validate, StateTopic, AvailabilityTopic, DiscoveryTopic;
    Accepted(raw);
    FixedWords();
    IdentifierIsWord(raw);
    LevelsAsWritten(raw);
    OneLevel("state");
    OneLevel("availability");
    DiscoveryLevels("device", raw.deviceId, "config");
    ExtendedTopicIsValid(raw.baseTopic, "/" + "state");
    ExtendedTopicIsValid(raw.baseTopic, "/" + "availability");
    ExtendedTopicIsValid(raw.discoveryPrefix, ("/" + "device") + ("/" + raw.deviceId) + ("/" + "config"));
  }

  lemma LevelsAsWritten(c: Config)
    ensures StateTopic(c) == c.baseTopic + ("/" + "state")
    ensures AvailabilityTopic(c) == c.baseTopic + ("/" + "availability")
    ensures DiscoveryTopic(c) == c.discoveryPrefix + (("/" + "device") + ("/" + c.deviceId) + ("/" + "config"))
  {
    assert "/state" == "/" + "state" && "/availability" == "/" + "availability";
    assert "/device/" == "/" + "device" + "/" && "/config" == "/" + "config";
    assert c.discoveryPrefix + ("/" + "device" + "/") + c.deviceId + ("/" + "config")
        == c.discoveryPrefix + (("/" + "device") + ("/" + c.deviceId) + ("/" + "config"));
  }

  // ---- which configurations are accepted

  /** Bytes beyond one per character that UTF-8 needs: one each from U+0080, U+0800 and U+10000 on. */
  function ExtraBytes(s: string): (n: nat) {
    if s == "" then 0
    else
      (if s[0] as int >= 0x80 then 1 else 0) + (if s[0] as int >= 0x800 then 1 else 0)
      + (if s[0] as int >= 0x1_0000 then 1 else 0) + ExtraBytes(s[1..])
  }

  lemma {:induction false} BytesAreCounted(s: string)
    ensures ByteLength(s) == |s| + ExtraBytes(s)
    decreases |s|
  {
    if s != "" {
      BytesAreCounted(s[1..]);
    }
  }

  lemma {:induction false} AsciiIsOneByte(s: string)
    requires forall i :: 0 <= i < |s| ==> s[i] as int < 0x80
    ensures ByteLength(s) == |s|
    decreases |s|
  {
    if s != "" {
      AsciiIsOneByte(s[1..]);
    }
  }

  predicate IdentifierChar(c: char) {
    'a' <= c <= 'z' || 'A' <= c <= 'Z' || '0' <= c <= '9' || c == '_' || c == '-'
  }

  /** One to 64 letters, digits, underscores and hyphens. */
  ghost predicate Identifier(id: string) {
    1 <= |id| <= 64 && forall i :: 0 <= i < |id| ==> IdentifierChar(id[i])
  }

  lemma Punctuation(c: char)
    ensures Alphanumeric(c) || c in "_-" <==> IdentifierChar(c)
  {
  }

  lemma IdentifiersAreValid(id: string)
    ensures ValidIdentifier(id, 64, "_-") <==> Identifier(id)
  {
    forall c: char
      ensures Alphanumeric(c) || c in "_-" <==> IdentifierChar(c)
    {
      Punctuation(c);
    }
    if Identifier(id) || ValidIdentifier(id, 64, "_-") {
      AsciiIsOneByte(id);
    }
  }

  /** A character of a topic level: no slash, no wildcard and no control character. */
  predicate LevelChar(c: char) {
    c != '/' && c != '+' && c != '#' && !(c as int < 0x20) && !(0x7F <= c as int < 0xA0)
  }

  ghost predicate Level(level: string) {
    level != "" && forall i :: 0 <= i < |level| ==> LevelChar(level[i])
  }

  /** Levels joined by slashes. */
  function Join(levels: seq<string>): (topic: string)
    requires levels != []
  {
    if |levels| == 1 then levels[0] else levels[0] + "/" + Join(levels[1..])
  }

  ghost predicate AllLevels(levels: seq<string>) {
    levels != [] && forall i :: 0 <= i < |levels| ==> Level(levels[i])
  }

  /** A concrete topic: nonempty levels joined by slashes, no white space at either end, at most 65,535 bytes. */
  ghost predicate ConcreteTopic(topic: string) {
    Levelled(topic) && Tight(topic) && Fits(topic)
  }

  ghost predicate Levelled(topic: string) {
    exists levels :: AllLevels(levels) && topic == Join(levels)
  }

  ghost predicate Fits(topic: string) {
    |topic| + ExtraBytes(topic) <= 65_535
  }

  /** What makes a text slashes between nonempty levels, character by character. */
  ghost predicate Slashed(topic: string) {
    && topic != "" && topic[0] != '/' && topic[|topic| - 1] != '/'
    && !HasEmptyLevel(topic) && AllAllowed(topic)
  }

  lemma LevelIsSlashed(level: string)
    requires Level(level)
    ensures Slashed(level)
  {
    forall i: nat | i + 1 < |level|
      ensures !DoubleSlash(level, i)
    {
      assert LevelChar(level[i]);
    }
  }

  lemma {:induction false} JoinedIsSlashed(levels: seq<string>)
    requires AllLevels(levels)
    ensures Slashed(Join(levels))
    decreases |levels|
  {
    LevelIsSlashed(levels[0]);
    if |levels| > 1 {
      JoinedIsSlashed(levels[1..]);
      SlashBetween(levels[0], Join(levels[1..]));
    }
  }

  lemma SlashBetween(first: string, rest: string)
    requires Slashed(first) && Slashed(rest)
    ensures Slashed(first + "/" + rest)
  {
    NoEmptyLevelIn(first, "/");
    NoEmptyLevelIn(first + "/", rest);
    var topic := first + "/" + rest;
    assert topic[0] == first[0] && topic[|topic| - 1] == rest[|rest| - 1];
  }

  /** The first slash, or the length without one. */
  function FirstSlash(s: string): (n: nat)
    ensures n <= |s| && (n < |s| ==> s[n] == '/') && forall i :: 0 <= i < n ==> s[i] != '/'
  {
    if s == "" || s[0] == '/' then 0 else 1 + FirstSlash(s[1..])
  }

  lemma {:induction false} SlashedIsJoined(topic: string) returns (levels: seq<string>)
    requires Slashed(topic)
    ensures AllLevels(levels) && topic == Join(levels)
    decreases |topic|
  {
    var n := FirstSlash(topic);
    assert n > 0;
    var first := topic[..n];
    assert forall i :: 0 <= i < n ==> Allowed(topic[i]) && first[i] == topic[i];
    if n == |topic| {
      assert first == topic;
      levels := [topic];
    } else {
      var tail := topic[n + 1..];
      TailIsSlashed(topic, n);
      var rest := SlashedIsJoined(tail);
      levels := [first] + rest;
      assert levels[1..] == rest;
      assert topic == first + "/" + tail;
    }
  }

  lemma TailIsSlashed(topic: string, n: nat)
    requires Slashed(topic) && n < |topic| && topic[n] == '/'
    ensures Slashed(topic[n + 1..])
  {
    var tail := topic[n + 1..];
    assert n + 1 < |topic|;
    assert !DoubleSlash(topic, n);
    forall i: nat | i + 1 < |tail|
      ensures !DoubleSlash(tail, i)
    {
      assert !DoubleSlash(topic, n + 1 + i);
    }
    forall i | 0 <= i < |tail|
      ensures Allowed(tail[i])
    {
      assert tail[i] == topic[n + 1 + i];
    }
    assert tail[|tail| - 1] == topic[|topic| - 1];
  }

  lemma LevelledIsSlashed(topic: string)
    ensures Levelled(topic) <==> Slashed(topic)
  {
    hide Slashed;
    if Slashed(topic) {
      var levels := SlashedIsJoined(topic);
    }
    if Levelled(topic) {
      var levels :| AllLevels(levels) && topic == Join(levels);
      JoinedIsSlashed(levels);
    }
  }

  /** The checks of a topic accept exactly the concrete topics. */
  lemma TopicsAreConcrete(topic: string)
    ensures ValidTopic(topic) <==> ConcreteTopic(topic)
  {
    hide ValidTopic, Slashed, Levelled, ByteLength, ExtraBytes, Trim, IsSpace;
    BytesAreCounted(topic);
    TrimmedStrings(topic);
    ValidMeansSlashed(topic);
    LevelledIsSlashed(topic);
  }

  lemma ValidMeansSlashed(topic: string)
    ensures ValidTopic(topic) <==> Slashed(topic) && Trim(topic) == topic && ByteLength(topic) <= 65_535
  {
    hide Trim, ByteLength, HasEmptyLevel, AllAllowed;
  }

  ghost predicate DerivedFit(c: Config) {
    && Fits(c.baseTopic + "/state") && Fits(c.baseTopic + "/availability")
    && Fits(c.discoveryPrefix + "/device/" + c.deviceId + "/config")
  }

  /** Exactly which configurations are accepted, unchanged, and which field a rejection names: the first bad one. */
  lemma AcceptedConfigurations(raw: Config)
    ensures Validate(raw) ==
      if !Identifier(raw.deviceId) then Failure(InvalidField("device.id"))
      else if !ConcreteTopic(raw.baseTopic) then Failure(InvalidField("mqtt.base_topic"))
      else if !ConcreteTopic(raw.discoveryPrefix) then Failure(InvalidField("mqtt.discovery_prefix"))
      else if !DerivedFit(raw) then Failure(InvalidField("mqtt topics"))
      else Success(raw)
  {
    IdentifiersAreValid(raw.deviceId);
    TopicsAreConcrete(raw.baseTopic);
    TopicsAreConcrete(raw.discoveryPrefix);
    hide ValidIdentifier, ValidTopic, Identifier, ConcreteTopic, ByteLength, ExtraBytes;
    BytesAreCounted(StateTopic(raw));
    BytesAreCounted(AvailabilityTopic(raw));
    BytesAreCounted(DiscoveryTopic(raw));
  }

  // ---- what the derived topics are

  lemma {:induction false} JoinMore(levels: seq<string>, last: string)
    requires levels != []
    ensures Join(levels + [last]) == Join(levels) + "/" + last
    decreases |levels|
  {
    var more := levels + [last];
    if |levels| == 1 {
      assert more[1..] == [last];
    } else {
      assert more[1..] == levels[1..] + [last];
      JoinMore(levels[1..], last);
      assert Join(more) == levels[0] + "/" + (Join(levels[1..]) + "/" + last);
    }
  }

  /** The levels of the topics the supervisor uses: those of the base or the prefix, and fixed ones after them. */
  lemma DerivedLevels(base: seq<string>, prefix: seq<string>, id: string)
    requires base != [] && prefix != []
    ensures var c := Config(id, Join(base), Join(prefix));
      && StateTopic(c) == Join(base + ["state"])
      && AvailabilityTopic(c) == Join(base + ["availability"])
      && DiscoveryTopic(c) == Join(prefix + ["device"] + [id] + ["config"])
  {
    var c := Config(id, Join(base), Join(prefix));
    LevelsAsWritten(c);
    JoinMore(base, "state");
    JoinMore(base, "availability");
    JoinMore(prefix, "device");
    JoinMore(prefix + ["device"], id);
    JoinMore(prefix + ["device"] + [id], "config");
    hide Join, StateTopic, AvailabilityTopic, DiscoveryTopic;
    SlashWord(Join(base), "state");
    SlashWord(Join(base), "availability");
    ThreeLevels(Join(prefix), "device", id, "config");
  }

  lemma SlashWord(base: string, word: string)
    ensures base + ("/" + word) == base + "/" + word
  {
  }

  lemma ThreeLevels(base: string, first: string, second: string, third: string)
    ensures base + (("/" + first) + ("/" + second) + ("/" + third))
         == base + "/" + first + "/" + second + "/" + third
  {
  }
}
