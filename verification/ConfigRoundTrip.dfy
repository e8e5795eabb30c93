/** Loading what was saved: what comes back, field by field. */
module ConfigRoundTrip {
  import opened Text
  import opened ConfigFile

  /** Text the line parser leaves alone. */
  ghost predicate Clean(s: string) {
    Solid(s) && '#' !in s && ';' !in s && '\n' !in s
  }

  ghost predicate CleanKey(s: string) {
    Clean(s) && '=' !in s && s[0] != '['
  }

  lemma {:induction false} KeyValueLine(key: string, value: string)
    requires CleanKey(key) && Clean(value)
    ensures ParseLine(KeyValue(key, value)) == Assign(key, value)
  {
    var s := key + " = " + value;
    KeyValueTrim(key, value);
    FindNone(s, '#');
    FindNone(s, ';');
    assert s[..|s|] == s;
    assert s == (key + " ") + ['='] + (" " + value);
    FindIs(key + " ", '=', " " + value);
    assert s[..|key| + 1] == key + " " && s[|key| + 2..] == " " + value;
  }

  lemma KeyValueTrim(key: string, value: string)
    requires CleanKey(key) && Clean(value)
    ensures var s := key + " = " + value;
      Trim(s + "\n") == s && Trim(s) == s && Trim(key + " ") == key && Trim(" " + value) == value
  {
    var s := key + " = " + value;
    assert s[0] == key[0] && s[|s| - 1] == value[|value| - 1];
    TrimSolid("", s, "\n");
    TrimSolid("", s, "");
    TrimSolid("", key, " ");
    TrimSolid(" ", value, "");
    assert "" + s + "\n" == s + "\n" && "" + s + "" == s && "" + key + " " == key + " "
        && " " + value + "" == " " + value;
  }

  /** A comment line does nothing. */
  lemma CommentLine(text: string)
    requires text != [] && !IsSpace(text[|text| - 1])
    ensures ParseLine(Comment(text)) == Nothing
  {
    var s := "# " + text;
    TrimSolid("", s, "\n");
    assert "" + s + "\n" == s + "\n";
  }

  lemma EmptyLine()
    ensures ParseLine(BLANK_LINE) == Nothing
  {
    assert TrimLeft("\n") == TrimLeft("\n"[1..]) == "";
  }

  /** A section header enters its section. */
  lemma SectionLine(name: string)
    requires Clean(name) && ']' !in name
    ensures ParseLine(Header(name)) == Enter(ParseSection(name))
  {
    var s := "[" + name + "]";
    TrimSolid("", s, "\n");
    TrimSolid("", s, "");
    assert "" + s + "\n" == s + "\n" && "" + s + "" == s;
    FindNone(s, '#');
    FindNone(s, ';');
    assert s[..|s|] == s;
    FindIs("[" + name, ']', "");
    assert ("[" + name) + [']'] + "" == s;
    assert s[1..|name| + 1] == name;
  }

  lemma {:induction false} ObeyAllConcat(st: State, a: seq<string>, b: seq<string>)
    requires Sized(st)
    ensures ObeyAll(st, a + b) == ObeyAll(ObeyAll(st, a), b)
    decreases |b|
  {
    hide Obey, ParseLine;
    if b == [] {
      assert a + b == a;
    } else {
      assert (a + b)[..|a + b| - 1] == a + b[..|b| - 1];
      ObeyAllConcat(st, a, b[..|b| - 1]);
    }
  }

  /** A line as `fgets` sees it: one newline, at the end, within the buffer. */
  ghost predicate WholeLine(s: string) {
    0 < |s| <= MAX_LINE && s[|s| - 1] == '\n' && '\n' !in s[..|s| - 1]
  }

  ghost predicate WholeLines(lines: seq<string>) {
    forall i :: 0 <= i < |lines| ==> WholeLine(lines[i])
  }

  /** `fgets` gives back the lines that were written. */
  lemma {:induction false} LinesOfFlatten(lines: seq<string>)
    requires WholeLines(lines)
    ensures Lines(Flatten(lines)) == lines
    decreases |lines|
  {
    if lines != [] {
      var s, rest := lines[0], Flatten(lines[1..]);
      var text := s + rest;
      FindIs(s[..|s| - 1], '\n', rest);
      assert s[..|s| - 1] + ['\n'] + rest == text;
      assert text[..|s|] == s && text[|s|..] == rest;
      LinesOfFlatten(lines[1..]);
    }
  }

  lemma DigitsClean(s: string)
    requires Digits(s) && s != []
    ensures CleanKey(s) && ':' !in s
  {
  }

  lemma IntegerClean(n: int)
    ensures Clean(Integer(n))
    ensures n >= 0 ==> CleanKey(Integer(n)) && ':' !in Integer(n)
  {
    if n < 0 {
      DigitsClean(Decimal(-n));
    } else {
      DigitsClean(Decimal(n));
    }
  }

  /** A device id that survives being written on a line. */
  ghost predicate GoodId(id: DeviceId) {
    Clean(FormatDeviceId(id)) && |id.value| <= MAX_FIELD && (id.kind == NoDevice || id.kind == Auto ==> id.value == "")
  }

  lemma FieldKeeps(s: string, limit: nat)
    ensures Field(s, limit) == s <==> |s| <= limit
  {
  }

  /** The ways to name a device, each with its value cut to the size of its field; everything else names none. */
  lemma DeviceForms(value: string)
    ensures ParseDeviceId("SN:" + value) == DeviceId(BySerial, Field(value, 63))
    ensures ParseDeviceId("BUS:" + value) == DeviceId(ByBus, Field(value, 63))
    ensures ParseDeviceId("CUSTOM:" + value) == DeviceId(Custom, Field(value, 63))
    ensures ParseDeviceId("auto") == DeviceId(Auto, "") && ParseDeviceId("none") == DeviceId(NoDevice, "")
  {
    hide Field;
    var a, b, c := "SN:" + value, "BUS:" + value, "CUSTOM:" + value;
    assert a[..3] == "SN:" && a[3..] == value;
    assert b[..4] == "BUS:" && b[4..] == value && b[0] == 'B';
    assert c[..7] == "CUSTOM:" && c[7..] == value && c[0] == 'C';
  }

  lemma NoDeviceForm(value: string)
    requires value != "auto" && !("SN:" <= value) && !("BUS:" <= value) && !("CUSTOM:" <= value)
    ensures ParseDeviceId(value) == DeviceId(NoDevice, "")
  {
    hide Field;
  }

  /**
    Printing and parsing a device id is the identity exactly on ids whose value fits its field and is empty
    where the kind has none.
  */
  lemma DeviceIdRoundTrip(id: DeviceId)
    ensures ParseDeviceId(FormatDeviceId(id)) == id <==>
            |id.value| <= 63 && (id.kind == NoDevice || id.kind == Auto ==> id.value == "")
  {
    hide ParseDeviceId, Field;
    DeviceForms(id.value);
    FieldKeeps(id.value, 63);
  }

  /** An instance whose written form is understood. */
  ghost predicate GoodInstance(inst: Instance, slot: nat) {
    && inst.instanceId == slot + 1 && slot < MAX_INSTANCES
    && GoodId(inst.deviceId)
    && (inst.alias == "" || (Clean(inst.alias) && |inst.alias| <= MAX_FIELD))
    && 0 <= inst.frequency < TWO32
    && MIN_BUFFER_SIZE <= inst.bufferSize <= MAX_BUFFER_SIZE
    && -TWO32 < inst.latencyTimer < TWO32
  }

  /** What a mapping line puts into its slot. */
  function Mapped(c: Config, inst: Instance): (r: Config)
    requires |c.instances| == MAX_INSTANCES && 1 <= inst.instanceId <= MAX_INSTANCES
    ensures |r.instances| == MAX_INSTANCES
  {
    var id := inst.instanceId;
    WithInstance(c, id, c.instances[id - 1].(enabled := true, port := c.basePort + id - 1, deviceId := inst.deviceId))
      .(instanceCount := if id > c.instanceCount then id else c.instanceCount)
  }

  lemma MappingLineObeyed(st: State, inst: Instance, slot: nat)
    requires Sized(st) && st.section == Mappings && GoodInstance(inst, slot)
    ensures Obey(st, ParseLine(MappingLine(inst))) == st.(config := Mapped(st.config, inst))
  {
    hide ParseLine, Atoi, Integer, ParseDeviceId, FormatDeviceId, Clean, CleanKey;
    IntegerClean(inst.instanceId);
    KeyValueLine(Integer(inst.instanceId), FormatDeviceId(inst.deviceId));
    AtoiOfInteger(inst.instanceId);
    DeviceIdRoundTrip(inst.deviceId);
  }

  lemma AliasLineObeyed(st: State, inst: Instance, slot: nat)
    requires Sized(st) && st.section == Aliases && GoodInstance(inst, slot) && inst.alias != ""
    ensures Obey(st, ParseLine(AliasLine(inst))) ==
            st.(config := WithInstance(st.config, slot + 1, st.config.instances[slot].(alias := inst.alias)))
  {
    hide ParseLine, Atoi, Integer, Clean, CleanKey;
    IntegerClean(inst.instanceId);
    KeyValueLine(Integer(inst.instanceId), inst.alias);
    AtoiOfInteger(inst.instanceId);
  }

  lemma SettingKey(id: nat, name: string)
    requires Clean(name) && '=' !in name && ':' !in name
    ensures var key := Integer(id) + ":" + name;
      CleanKey(key) && Find(key, ':') == |Integer(id)| && key[..|Integer(id)|] == Integer(id)
          && key[|Integer(id)| + 1..] == name
  {
    IntegerClean(id);
    FindIs(Integer(id), ':', name);
  }

  lemma SettingLineObeyed(st: State, inst: Instance, slot: nat, name: string, n: int)
    requires Sized(st) && st.section == Settings && GoodInstance(inst, slot)
    requires Clean(name) && '=' !in name && ':' !in name
    ensures Obey(st, ParseLine(Setting(inst, name, Integer(n)))) ==
            st.(config := WithInstance(st.config, slot + 1, ApplySetting(st.config.instances[slot], name, Integer(n))))
  {
    hide ParseLine, Atoi, Integer, Clean, CleanKey, ApplySetting;
    var id := inst.instanceId;
    SettingKey(id, name);
    IntegerClean(n);
    KeyValueLine(Integer(id) + ":" + name, Integer(n));
    AtoiOfInteger(id);
  }

  /** What one instance's lines in a section do to its slot. */
  function SlotAfter(section: Section, slot: Instance, inst: Instance, basePort: int): Instance {
    match section
    case Mappings => slot.(enabled := true, port := basePort + inst.instanceId - 1, deviceId := inst.deviceId)
    case Settings => slot.(frequency := inst.frequency,
                           latencyTimer := if inst.latencyTimer != DEFAULT_LATENCY then inst.latencyTimer
                               else slot.latencyTimer,
                           bufferSize := if inst.bufferSize != DEFAULT_BUFFER_SIZE then inst.bufferSize
                               else slot.bufferSize)
    case Aliases => if inst.alias != "" then slot.(alias := inst.alias) else slot
    case _ => slot
  }

  /** What one enabled instance's lines in a section do. */
  function After(section: Section, p: Config, inst: Instance): (r: Config)
    requires |p.instances| == MAX_INSTANCES && 1 <= inst.instanceId <= MAX_INSTANCES
    ensures |r.instances| == MAX_INSTANCES
  {
    WithInstance(p, inst.instanceId, SlotAfter(section, p.instances[inst.instanceId - 1], inst, p.basePort))
      .(instanceCount := if section == Mappings && inst.instanceId > p.instanceCount then inst.instanceId
          else p.instanceCount)
  }

  lemma ObeyOne(st: State, line: string)
    requires Sized(st)
    ensures ObeyAll(st, [line]) == Obey(st, ParseLine(line))
  {
    hide Obey, ParseLine;
    assert [line][..0] == [];
  }

  lemma FrequencyWord(inst: Instance, n: int)
    requires 0 <= n < TWO32
    ensures ApplySetting(inst, "frequency", Integer(n)) == inst.(frequency := n)
  {
    hide StrToL;
    StrToLOfInteger(n);
  }

  lemma LatencyWord(inst: Instance, n: int)
    ensures ApplySetting(inst, "latency_timer", Integer(n)) == inst.(latencyTimer := n)
  {
    hide Atoi;
    AtoiOfInteger(n);
  }

  lemma BufferWord(inst: Instance, n: int)
    requires MIN_BUFFER_SIZE <= n <= MAX_BUFFER_SIZE
    ensures ApplySetting(inst, "xvc_buffer_size", Integer(n)) == inst.(bufferSize := n)
  {
    hide StrToL;
    StrToLOfInteger(n);
  }

  predicate Letters(s: string) {
    forall i :: 0 <= i < |s| ==> 'a' <= s[i] <= 'z' || s[i] == '_'
  }

  lemma LettersClean(s: string)
    requires s != [] && Letters(s)
    ensures Clean(s) && '=' !in s && ':' !in s && ']' !in s
  {
  }

  lemma Overwrite(p: Config, id: int, a: Instance, b: Instance)
    requires |p.instances| == MAX_INSTANCES && 1 <= id <= MAX_INSTANCES
    ensures WithInstance(WithInstance(p, id, a), id, b) == WithInstance(p, id, b)
    ensures WithInstance(p, id, a).instances[id - 1] == a
    ensures WithInstance(p, id, p.instances[id - 1]) == p
  {
  }

  /** A setting that is written only when it differs from its default. */
  lemma OptionalSetting(st: State, p: Config, cur: Instance, inst: Instance, slot: nat, write: bool, name: string,
                        n: int)
    requires Sized(st) && st.section == Settings && GoodInstance(inst, slot) && name != [] && Letters(name)
    requires Sized(st.(config := p)) && st.config == WithInstance(p, slot + 1, cur)
    ensures ObeyAll(st, if write then [Setting(inst, name, Integer(n))] else []) ==
            st.(config := WithInstance(p, slot + 1, if write then ApplySetting(cur, name, Integer(n)) else cur))
  {
    hide Obey, ParseLine, ApplySetting, Setting, Clean, WithInstance, Letters;
    if write {
      LettersClean(name);
      ObeyOne(st, Setting(inst, name, Integer(n)));
      SettingLineObeyed(st, inst, slot, name, n);
      Overwrite(p, slot + 1, cur, ApplySetting(cur, name, Integer(n)));
    }
  }

  lemma SettingLinesObeyed(st: State, inst: Instance, slot: nat)
    requires Sized(st) && st.section == Settings && GoodInstance(inst, slot)
    ensures ObeyAll(st, SettingLines(inst)) == st.(config := After(Settings, st.config, inst))
  {
    hide Obey, ParseLine, ApplySetting, Setting, ObeyAll, Integer, Clean, WithInstance, After;
    var p, s0 := st.config, st.config.instances[slot];
    var a := [Setting(inst, "frequency", Integer(inst.frequency))];
    var b := if inst.latencyTimer != DEFAULT_LATENCY then [Setting(inst, "latency_timer", Integer(inst.latencyTimer))]
        else [];
    var d := if inst.bufferSize != DEFAULT_BUFFER_SIZE
        then [Setting(inst, "xvc_buffer_size", Integer(inst.bufferSize))] else [];
    ObeyAllConcat(st, a + b, d);
    ObeyAllConcat(st, a, b);
    Overwrite(p, slot + 1, s0, s0);
    OptionalSetting(st, p, s0, inst, slot, true, "frequency", inst.frequency);
    FrequencyWord(s0, inst.frequency);
    var s1 := s0.(frequency := inst.frequency);
    OptionalSetting(ObeyAll(st, a), p, s1, inst, slot, inst.latencyTimer != DEFAULT_LATENCY, "latency_timer",
        inst.latencyTimer);
    LatencyWord(s1, inst.latencyTimer);
    var s2 := if inst.latencyTimer != DEFAULT_LATENCY then s1.(latencyTimer := inst.latencyTimer) else s1;
    OptionalSetting(ObeyAll(ObeyAll(st, a), b), p, s2, inst, slot, inst.bufferSize != DEFAULT_BUFFER_SIZE,
        "xvc_buffer_size", inst.bufferSize);
    BufferWord(s2, inst.bufferSize);
    SettingsInstanceCount(p, inst, slot);
  }

  lemma SettingsInstanceCount(p: Config, inst: Instance, slot: nat)
    requires |p.instances| == MAX_INSTANCES && inst.instanceId == slot + 1 && slot < MAX_INSTANCES
    ensures After(Settings, p, inst) == WithInstance(p, slot + 1,
        SlotAfter(Settings, p.instances[slot], inst, p.basePort))
  {
  }

  lemma MappedIsAfter(p: Config, inst: Instance)
    requires |p.instances| == MAX_INSTANCES && 1 <= inst.instanceId <= MAX_INSTANCES
    ensures Mapped(p, inst) == After(Mappings, p, inst)
  {
  }

  lemma AliasIsAfter(p: Config, inst: Instance, slot: nat)
    requires |p.instances| == MAX_INSTANCES && inst.instanceId == slot + 1 && slot < MAX_INSTANCES
    ensures After(Aliases, p, inst) ==
            if inst.alias != "" then WithInstance(p, slot + 1, p.instances[slot].(alias := inst.alias)) else p
  {
    assert p.instances[slot := p.instances[slot]] == p.instances;
  }

  /** An instance's lines in a section change its slot and nothing else. */
  lemma InstanceLinesObeyed(st: State, inst: Instance, slot: nat)
    requires Sized(st) && st.section in {Mappings, Settings, Aliases}
    requires inst.enabled ==> GoodInstance(inst, slot)
    ensures ObeyAll(st, InstanceLines(inst, st.section)) == if inst.enabled
        then st.(config := After(st.section, st.config, inst)) else st
  {
    hide Obey, ParseLine, MappingLine, AliasLine, SettingLines, Clean, GoodId, After, Mapped, WithInstance, ObeyAll;
    if !inst.enabled {
      ObeyNone(st);
    } else if st.section == Mappings {
      ObeyOne(st, MappingLine(inst));
      MappingLineObeyed(st, inst, slot);
      MappedIsAfter(st.config, inst);
    } else if st.section == Settings {
      SettingLinesObeyed(st, inst, slot);
    } else {
      AliasIsAfter(st.config, inst, slot);
      if inst.alias != "" {
        ObeyOne(st, AliasLine(inst));
        AliasLineObeyed(st, inst, slot);
      } else {
        ObeyNone(st);
      }
    }
  }

  /** The first k instances carry the ids of their slots. */
  predicate Numbered(c: Config, k: nat) {
    k <= |c.instances| && k <= MAX_INSTANCES && forall i :: 0 <= i < k ==> c.instances[i].instanceId == i + 1
  }

  /** The configuration after a section's lines for the first k instances. */
  function AfterAll(c: Config, section: Section, p: Config, k: nat): (r: Config)
    requires |p.instances| == MAX_INSTANCES && k <= |c.instances|
    requires Numbered(c, k)
    ensures |r.instances| == MAX_INSTANCES
  {
    if k == 0 then p
    else
      var q := AfterAll(c, section, p, k - 1);
      if c.instances[k - 1].enabled then After(section, q, c.instances[k - 1]) else q
  }

  /** Ids are those of the slots, and what is enabled is something the file format can carry. */
  ghost predicate Saveable(c: Config) {
    && |c.instances| == MAX_INSTANCES && 0 <= c.instanceCount <= MAX_INSTANCES
    && -TWO32 < c.basePort < TWO32 && -TWO32 < c.maxInstances < TWO32
    && Numbered(c, c.instanceCount)
    && forall i :: 0 <= i < c.instanceCount && c.instances[i].enabled ==> GoodInstance(c.instances[i], i)
  }

  lemma {:induction false} SectionObeyed(c: Config, st: State, k: nat)
    requires Saveable(c) && k <= c.instanceCount && Sized(st) && st.section in {Mappings, Settings, Aliases}
    ensures ObeyAll(st, SectionLines(c, st.section, k)) == st.(config := AfterAll(c, st.section, st.config, k))
    decreases k
  {
    hide Obey, ParseLine, InstanceLines, After, GoodId, Clean;
    if k > 0 {
      SectionObeyed(c, st, k - 1);
      var rest := InstanceLines(c.instances[k - 1], st.section);
      ObeyAllConcat(st, SectionLines(c, st.section, k - 1), rest);
      InstanceLinesObeyed(ObeyAll(st, SectionLines(c, st.section, k - 1)), c.instances[k - 1], k - 1);
    }
  }

  /** The highest enabled slot among the first k, as an id; 0 for none. */
  function LastEnabled(c: Config, k: nat): (n: nat)
    requires k <= |c.instances|
    ensures n <= k
  {
    if k == 0 then 0 else if c.instances[k - 1].enabled then k else LastEnabled(c, k - 1)
  }

  /** A section changes exactly the slots of enabled instances. */
  lemma {:induction false} SlotsAfter(c: Config, section: Section, p: Config, k: nat)
    requires |p.instances| == MAX_INSTANCES && k <= |c.instances|
    requires Numbered(c, k)
    ensures var r := AfterAll(c, section, p, k);
      && r == p.(instances := r.instances, instanceCount := r.instanceCount)
      && (forall i :: 0 <= i < MAX_INSTANCES ==>
           r.instances[i] == if i < k && c.instances[i].enabled
               then SlotAfter(section, p.instances[i], c.instances[i], p.basePort) else p.instances[i])
      && (section != Mappings ==> r.instanceCount == p.instanceCount)
      && (section == Mappings && p.instanceCount == 0 ==> r.instanceCount == LastEnabled(c, k))
    decreases k
  {
    hide SlotAfter;
    if k > 0 {
      SlotsAfter(c, section, p, k - 1);
    }
  }

  lemma ObeyCons(st: State, line: string, rest: seq<string>)
    requires Sized(st)
    ensures ObeyAll(st, [line] + rest) == ObeyAll(Obey(st, ParseLine(line)), rest)
  {
    ObeyAllConcat(st, [line], rest);
    ObeyOne(st, line);
  }

  lemma ObeyNone(st: State)
    requires Sized(st)
    ensures ObeyAll(st, []) == st
  {
  }

  lemma SkipComment(st: State, text: string, rest: seq<string>)
    requires Sized(st) && text != [] && !IsSpace(text[|text| - 1])
    ensures ObeyAll(st, [Comment(text)] + rest) == ObeyAll(st, rest)
  {
    hide ParseLine, ObeyAll;
    CommentLine(text);
    ObeyCons(st, Comment(text), rest);
  }

  lemma SkipBlank(st: State, rest: seq<string>)
    requires Sized(st)
    ensures ObeyAll(st, [BLANK_LINE] + rest) == ObeyAll(st, rest)
  {
    hide ParseLine, ObeyAll;
    EmptyLine();
    ObeyCons(st, BLANK_LINE, rest);
  }

  lemma EnterSection(st: State, name: string, rest: seq<string>)
    requires Sized(st) && name != [] && Letters(name)
    ensures ObeyAll(st, [Header(name)] + rest) == ObeyAll(st.(section := ParseSection(name)), rest)
  {
    hide ParseLine, ObeyAll, ParseSection;
    LettersClean(name);
    SectionLine(name);
    ObeyCons(st, Header(name), rest);
  }

  lemma ManagementValue(st: State, key: string, value: string, rest: seq<string>)
    requires Sized(st) && st.section == Management && key != [] && Letters(key) && Clean(value)
    ensures ObeyAll(st, [KeyValue(key, value)] + rest)
        == ObeyAll(st.(config := ApplyManagement(st.config, key, value)), rest)
  {
    hide ParseLine, ObeyAll, ApplyManagement;
    LettersClean(key);
    KeyValueLine(key, value);
    ObeyCons(st, KeyValue(key, value), rest);
  }

  lemma ManagementObeyed(c: Config, p: Config)
    requires |p.instances| == MAX_INSTANCES
    ensures ObeyAll(State(NoSection, p), ManagementLines(c)) ==
            State(Management, p.(mgmtEnabled := c.mgmtEnabled, basePort := c.basePort, maxInstances := c.maxInstances))
  {
    hide ParseLine, ObeyAll, Integer, Clean, Atoi, Comment, Header, KeyValue;
    var st := State(NoSection, p);
    var enabled := if c.mgmtEnabled then "true" else "false";
    var body := ManagementLines(c)[3..];
    SkipHeading(st, body);
    assert ManagementLines(c) == [Comment("XVC Server Configuration"), Comment("Generated automatically"), BLANK_LINE]
        + body;
    var m := State(Management, p);
    assert body == [Header("instance_management")] + body[1..];
    EnterSection(st, "instance_management", body[1..]);
    LettersClean(enabled);
    assert body[1..] == [KeyValue("enabled", enabled)] + body[2..];
    ManagementValue(m, "enabled", enabled, body[2..]);
    ManagementNumbers(m.(config := p.(mgmtEnabled := c.mgmtEnabled)), c);
    assert body[2..] == [KeyValue("base_port", Integer(c.basePort)),
        KeyValue("max_instances", Integer(c.maxInstances)), BLANK_LINE];
  }

  lemma SkipHeading(st: State, rest: seq<string>)
    requires Sized(st)
    ensures ObeyAll(st, [Comment("XVC Server Configuration"), Comment("Generated automatically"), BLANK_LINE] + rest)
        == ObeyAll(st, rest)
  {
    hide ParseLine, ObeyAll, Comment;
    var a, b := Comment("XVC Server Configuration"), Comment("Generated automatically");
    SkipBlank(st, rest);
    SkipComment(st, "Generated automatically", [BLANK_LINE] + rest);
    SkipComment(st, "XVC Server Configuration", [b] + ([BLANK_LINE] + rest));
    assert [a, b, BLANK_LINE] + rest == [a] + ([b] + ([BLANK_LINE] + rest));
  }

  lemma ManagementNumbers(st: State, c: Config)
    requires Sized(st) && st.section == Management
    ensures ObeyAll(st, [KeyValue("base_port", Integer(c.basePort)),
        KeyValue("max_instances", Integer(c.maxInstances)), BLANK_LINE]) ==
            st.(config := st.config.(basePort := c.basePort, maxInstances := c.maxInstances))
  {
    hide ParseLine, ObeyAll, Integer, Clean, Atoi, KeyValue;
    var a, b := KeyValue("base_port", Integer(c.basePort)), KeyValue("max_instances", Integer(c.maxInstances));
    IntegerClean(c.basePort);
    IntegerClean(c.maxInstances);
    AtoiOfInteger(c.basePort);
    AtoiOfInteger(c.maxInstances);
    assert [a, b, BLANK_LINE] == [a] + ([b] + ([BLANK_LINE] + []));
    ManagementValue(st, "base_port", Integer(c.basePort), [b] + ([BLANK_LINE] + []));
    var st1 := st.(config := st.config.(basePort := c.basePort));
    ManagementValue(st1, "max_instances", Integer(c.maxInstances), [BLANK_LINE] + []);
    var st2 := st1.(config := st1.config.(maxInstances := c.maxInstances));
    SkipBlank(st2, []);
    ObeyNone(st2);
  }

  lemma MappingsHeadObeyed(st: State)
    requires Sized(st)
    ensures ObeyAll(st, MappingsHead()) == st.(section := Mappings)
  {
    hide ParseLine, ObeyAll, Comment, Header;
    var a, b := Comment("Format: instance_id = device_id"), Comment(DEVICE_FORMS);
    assert MappingsHead() == [Header("instance_mappings")] + ([a] + ([b] + []));
    EnterSection(st, "instance_mappings", [a] + ([b] + []));
    SkipComment(st.(section := Mappings), "Format: instance_id = device_id", [b] + []);
    SkipComment(st.(section := Mappings), DEVICE_FORMS, []);
    ObeyNone(st.(section := Mappings));
  }

  lemma SettingsHeadObeyed(st: State)
    requires Sized(st)
    ensures ObeyAll(st, SettingsHead()) == st.(section := Settings)
  {
    hide ParseLine, ObeyAll, Comment, Header;
    var h, a := Header("instance_settings"), Comment("Format: instance_id:setting = value");
    assert SettingsHead() == [BLANK_LINE] + ([h] + ([a] + []));
    SkipBlank(st, [h] + ([a] + []));
    EnterSection(st, "instance_settings", [a] + []);
    SkipComment(st.(section := Settings), "Format: instance_id:setting = value", []);
    ObeyNone(st.(section := Settings));
  }

  lemma AliasesHeadObeyed(st: State)
    requires Sized(st)
    ensures ObeyAll(st, AliasesHead()) == st.(section := Aliases)
  {
    hide ParseLine, ObeyAll, Comment, Header;
    var h := Header("instance_aliases");
    assert AliasesHead() == [BLANK_LINE] + ([h] + []);
    SkipBlank(st, [h] + []);
    EnterSection(st, "instance_aliases", []);
    ObeyNone(st.(section := Aliases));
  }

  function Pow10(k: nat): nat {
    if k == 0 then 1 else 10 * Pow10(k - 1)
  }

  lemma {:induction false} DecimalLength(n: nat, k: nat)
    requires k > 0 && n < Pow10(k)
    ensures |Decimal(n)| <= k
    decreases k
  {
    if n >= 10 {
      assert k > 1 by { assert Pow10(1) == 10 * Pow10(0); }
      assert n / 10 < Pow10(k - 1);
      DecimalLength(n / 10, k - 1);
    }
  }

  lemma IntegerLength(n: int)
    requires -TWO32 < n < TWO32
    ensures |Integer(n)| <= 11
  {
    assert Pow10(10) == 10 * 10 * 10 * 10 * 10 * Pow10(5) && Pow10(5) == 100000;
    DecimalLength(if n < 0 then -n else n, 10);
  }

  lemma KeyValueWhole(key: string, value: string)
    requires Clean(key) && Clean(value) && |key| + |value| <= 500
    ensures WholeLine(KeyValue(key, value))
  {
    var s := key + " = " + value;
    assert KeyValue(key, value)[..|s|] == s;
  }

  lemma CommentWhole(text: string)
    requires '\n' !in text && |text| <= 500
    ensures WholeLine(Comment(text))
  {
    var s := "# " + text;
    assert Comment(text)[..|s|] == s;
  }

  lemma HeaderWhole(name: string)
    requires name != [] && Letters(name) && |name| <= 500
    ensures WholeLine(Header(name))
  {
    LettersClean(name);
    var s := "[" + name + "]";
    assert Header(name)[..|s|] == s;
  }

  lemma WholeConcat(a: seq<string>, b: seq<string>)
    requires WholeLines(a) && WholeLines(b)
    ensures WholeLines(a + b)
  {
  }

  lemma NumberWhole(key: string, n: int)
    requires Clean(key) && |key| <= 100 && -TWO32 < n < TWO32
    ensures WholeLine(KeyValue(key, Integer(n)))
  {
    IntegerClean(n);
    IntegerLength(n);
    KeyValueWhole(key, Integer(n));
  }

  lemma ManagementWhole(c: Config)
    requires -TWO32 < c.basePort < TWO32 && -TWO32 < c.maxInstances < TWO32
    ensures WholeLines(ManagementLines(c))
  {
    hide Integer, Comment, Header, KeyValue, WholeLine, Clean;
    CommentWhole("XVC Server Configuration");
    CommentWhole("Generated automatically");
    HeaderWhole("instance_management");
    BlankWhole();
    SwitchWhole(c.mgmtEnabled);
    LettersClean("base_port");
    LettersClean("max_instances");
    NumberWhole("base_port", c.basePort);
    NumberWhole("max_instances", c.maxInstances);
  }

  lemma SwitchWhole(on: bool)
    ensures WholeLine(KeyValue("enabled", if on then "true" else "false"))
  {
    hide KeyValue, WholeLine, Clean;
    LettersClean("enabled");
    LettersClean("true");
    LettersClean("false");
    KeyValueWhole("enabled", if on then "true" else "false");
  }

  lemma BlankWhole()
    ensures WholeLine(BLANK_LINE)
  {
  }

  lemma DeviceFormsWhole()
    ensures WholeLine(Comment(DEVICE_FORMS))
  {
    assert '\n' !in "device_id: SN:serial, BUS:bus-dev,";
    assert '\n' !in " CUSTOM:name, or auto";
    CommentWhole(DEVICE_FORMS);
  }

  lemma MappingsHeadWhole()
    ensures WholeLines(MappingsHead())
  {
    hide Comment, Header, WholeLine;
    HeaderWhole("instance_mappings");
    CommentWhole("Format: instance_id = device_id");
    DeviceFormsWhole();
  }

  lemma SettingsHeadWhole()
    ensures WholeLines(SettingsHead())
  {
    hide Comment, Header, WholeLine;
    BlankWhole();
    HeaderWhole("instance_settings");
    CommentWhole("Format: instance_id:setting = value");
  }

  lemma AliasesHeadWhole()
    ensures WholeLines(AliasesHead())
  {
    hide Header, WholeLine;
    BlankWhole();
    HeaderWhole("instance_aliases");
  }

  lemma SettingWhole(inst: Instance, slot: nat, name: string, n: int)
    requires GoodInstance(inst, slot) && name != [] && Letters(name) && |name| <= 50 && -TWO32 < n < TWO32
    ensures WholeLine(Setting(inst, name, Integer(n)))
  {
    hide Integer, WholeLine, KeyValue, GoodId;
    LettersClean(name);
    SettingKey(inst.instanceId, name);
    IntegerLength(inst.instanceId);
    NumberWhole(Integer(inst.instanceId) + ":" + name, n);
  }

  lemma InstanceLinesWhole(inst: Instance, slot: nat, section: Section)
    requires inst.enabled ==> GoodInstance(inst, slot)
    ensures WholeLines(InstanceLines(inst, section))
  {
    hide Integer, WholeLine, KeyValue, Setting, Clean, FormatDeviceId, Letters;
    if !inst.enabled {
      return;
    }
    IntegerClean(inst.instanceId);
    IntegerLength(inst.instanceId);
    match section
    case Mappings =>
      FormatLength(inst.deviceId);
      KeyValueWhole(Integer(inst.instanceId), FormatDeviceId(inst.deviceId));
    case Settings =>
      SettingWords();
      SettingWhole(inst, slot, "frequency", inst.frequency);
      SettingWhole(inst, slot, "latency_timer", inst.latencyTimer);
      SettingWhole(inst, slot, "xvc_buffer_size", inst.bufferSize);
    case Aliases =>
      if inst.alias != "" {
        KeyValueWhole(Integer(inst.instanceId), inst.alias);
      }
    case _ =>
  }

  lemma SettingWords()
    ensures Letters("frequency") && Letters("latency_timer") && Letters("xvc_buffer_size")
  {
  }

  lemma FormatLength(id: DeviceId)
    requires |id.value| <= MAX_FIELD
    ensures |FormatDeviceId(id)| <= MAX_FIELD + 7
  {
  }

  lemma {:induction false} SectionWhole(c: Config, section: Section, k: nat)
    requires Saveable(c) && k <= c.instanceCount
    ensures WholeLines(SectionLines(c, section, k))
    decreases k
  {
    hide InstanceLines, WholeLines, GoodInstance;
    if k > 0 {
      SectionWhole(c, section, k - 1);
      InstanceLinesWhole(c.instances[k - 1], k - 1, section);
      WholeConcat(SectionLines(c, section, k - 1), InstanceLines(c.instances[k - 1], section));
    } else {
      assert WholeLines([]) by { NoWholeLines(); }
    }
  }

  lemma NoWholeLines()
    ensures WholeLines([])
  {
  }

  /** Every line that is saved fits the reader's buffer. */
  lemma SaveLinesWhole(c: Config)
    requires Saveable(c)
    ensures WholeLines(SaveLines(c))
  {
    hide WholeLine, SectionLines, ManagementLines, MappingsHead, SettingsHead, AliasesHead, GoodInstance;
    ManagementWhole(c);
    MappingsHeadWhole();
    SettingsHeadWhole();
    AliasesHeadWhole();
    BlankWhole();
    SectionWhole(c, Mappings, c.instanceCount);
    SectionWhole(c, Settings, c.instanceCount);
    SectionWhole(c, Aliases, c.instanceCount);
  }

  /** What a reload restores: every enabled instance's id, port, device, alias, frequency, latency and buffer size. */
  function Kept(c: Config): (r: Config)
    requires |c.instances| == MAX_INSTANCES && 0 <= c.instanceCount <= MAX_INSTANCES
  {
    Config(c.mgmtEnabled, c.basePort, c.maxInstances,
           seq(MAX_INSTANCES, i requires 0 <= i < MAX_INSTANCES => if i < c.instanceCount
               && c.instances[i].enabled then KeptInstance(c, i) else DefaultInstance(i)),
           LastEnabled(c, c.instanceCount))
  }

  function KeptInstance(c: Config, i: nat): Instance
    requires i < |c.instances|
  {
    var inst := c.instances[i];
    DefaultInstance(i).(enabled := true, port := c.basePort + i, deviceId := inst.deviceId, alias := inst.alias,
                        frequency := inst.frequency, latencyTimer := inst.latencyTimer, bufferSize := inst.bufferSize)
  }

  lemma SlotRestored(c: Config, i: nat)
    requires i < |c.instances| && c.instances[i].instanceId == i + 1
    ensures var inst, b := c.instances[i], c.basePort;
      SlotAfter(Aliases, SlotAfter(Settings, SlotAfter(Mappings, DefaultInstance(i), inst, b), inst, b), inst, b)
          == KeptInstance(c, i)
  {
  }

  /** The three sections one after the other, slot by slot. */
  lemma SectionsRestore(c: Config)
    requires Saveable(c)
    ensures var n := c.instanceCount;
      var p := DefaultConfig().(mgmtEnabled := c.mgmtEnabled, basePort := c.basePort, maxInstances := c.maxInstances);
      AfterAll(c, Aliases, AfterAll(c, Settings, AfterAll(c, Mappings, p, n), n), n) == Kept(c)
  {
    hide AfterAll, GoodId, Clean, LastEnabled, SlotAfter, KeptInstance, DefaultInstance;
    var n := c.instanceCount;
    var p := DefaultConfig().(mgmtEnabled := c.mgmtEnabled, basePort := c.basePort, maxInstances := c.maxInstances);
    var m := AfterAll(c, Mappings, p, n);
    SlotsAfter(c, Mappings, p, n);
    var s := AfterAll(c, Settings, m, n);
    SlotsAfter(c, Settings, m, n);
    var a := AfterAll(c, Aliases, s, n);
    SlotsAfter(c, Aliases, s, n);
    forall i | 0 <= i < MAX_INSTANCES ensures a.instances[i] == Kept(c).instances[i] {
      assert p.instances[i] == DefaultInstance(i);
      if i < n && c.instances[i].enabled {
        SlotRestored(c, i);
      }
    }
  }

  /** All lines of a saved file, obeyed in order. */
  lemma SavedLinesObeyed(c: Config)
    requires Saveable(c)
    ensures ObeyAll(State(NoSection, DefaultConfig()), SaveLines(c)).config == Kept(c)
  {
    hide ParseLine, ObeyAll, AfterAll, ManagementLines, MappingsHead, SettingsHead, AliasesHead, SectionLines, GoodId,
        Clean, Kept;
    var n := c.instanceCount;
    var st := State(NoSection, DefaultConfig());
    var p := DefaultConfig().(mgmtEnabled := c.mgmtEnabled, basePort := c.basePort, maxInstances := c.maxInstances);
    var l1 := ManagementLines(c) + MappingsHead();
    var l2 := l1 + SectionLines(c, Mappings, n);
    var l3 := l2 + SettingsHead();
    var l4 := l3 + SectionLines(c, Settings, n);
    var l5 := l4 + AliasesHead();
    var l6 := l5 + SectionLines(c, Aliases, n);
    ManagementObeyed(c, DefaultConfig());
    ObeyAllConcat(st, ManagementLines(c), MappingsHead());
    MappingsHeadObeyed(State(Management, p));
    ObeyAllConcat(st, l1, SectionLines(c, Mappings, n));
    SectionObeyed(c, State(Mappings, p), n);
    var m := AfterAll(c, Mappings, p, n);
    ObeyAllConcat(st, l2, SettingsHead());
    SettingsHeadObeyed(State(Mappings, m));
    ObeyAllConcat(st, l3, SectionLines(c, Settings, n));
    SectionObeyed(c, State(Settings, m), n);
    var s := AfterAll(c, Settings, m, n);
    ObeyAllConcat(st, l4, AliasesHead());
    AliasesHeadObeyed(State(Settings, s));
    ObeyAllConcat(st, l5, SectionLines(c, Aliases, n));
    SectionObeyed(c, State(Aliases, s), n);
    var a := AfterAll(c, Aliases, s, n);
    ObeyAllConcat(st, l6, [BLANK_LINE]);
    SkipBlank(State(Aliases, a), []);
    ObeyNone(State(Aliases, a));
    assert [BLANK_LINE] + [] == [BLANK_LINE];
    assert SaveLines(c) == l6 + [BLANK_LINE];
    SectionsRestore(c);
  }

  /** Saving and loading restores exactly what the file carries. */
  lemma RoundTrip(c: Config)
    requires Saveable(c)
    ensures Load(Save(c)) == Kept(c)
  {
    hide ObeyAll, Lines, Flatten, SaveLines, GoodInstance;
    SaveLinesWhole(c);
    LinesOfFlatten(SaveLines(c));
    SavedLinesObeyed(c);
  }

  /** An enabled instance has its canonical port and its defaults wherever the file has no line for it. */
  predicate Plain(inst: Instance, port: int) {
    && inst.port == port && !inst.asyncMode && inst.lockTimeout == DEFAULT_LOCK_TIMEOUT
    && inst.whitelistMode == Off && inst.whitelist == []
  }

  /** A slot the reload would not touch. */
  predicate Untouched(inst: Instance, slot: nat) {
    && inst.instanceId == slot + 1 && inst.port == DEFAULT_BASE_PORT + slot && !inst.enabled
    && inst.deviceId == DeviceId(NoDevice, "") && inst.alias == ""
    && inst.frequency == DEFAULT_FREQUENCY && inst.latencyTimer == DEFAULT_LATENCY
        && inst.bufferSize == DEFAULT_BUFFER_SIZE
    && !inst.asyncMode && inst.lockTimeout == DEFAULT_LOCK_TIMEOUT && inst.whitelistMode == Off && inst.whitelist == []
  }

  /** Only what the file carries is set, and the last instance counted is enabled. */
  ghost predicate NothingOmitted(c: Config)
    requires |c.instances| == MAX_INSTANCES && 0 <= c.instanceCount <= MAX_INSTANCES
  {
    && (c.instanceCount > 0 ==> c.instances[c.instanceCount - 1].enabled)
    && forall i :: 0 <= i < MAX_INSTANCES ==>
         if i < c.instanceCount && c.instances[i].enabled then Plain(c.instances[i], c.basePort + i)
             else Untouched(c.instances[i], i)
  }

  lemma SlotKept(c: Config, i: nat)
    requires Saveable(c) && i < MAX_INSTANCES
    ensures Kept(c).instances[i] == c.instances[i] <==>
            if i < c.instanceCount && c.instances[i].enabled then Plain(c.instances[i], c.basePort + i)
                else Untouched(c.instances[i], i)
  {
    hide LastEnabled, GoodInstance;
  }

  lemma CountKept(c: Config, k: nat)
    requires k <= |c.instances|
    ensures LastEnabled(c, k) == k <==> (k > 0 ==> c.instances[k - 1].enabled)
  {
  }

  /** Saving and loading is the identity exactly on the configurations that set nothing the file omits. */
  lemma RoundTripIdentity(c: Config)
    requires Saveable(c)
    ensures Load(Save(c)) == c <==> NothingOmitted(c)
  {
    hide Load, Save, LastEnabled, KeptInstance, GoodInstance, Kept, Plain, Untouched;
    RoundTrip(c);
    KeptFields(c);
    CountKept(c, c.instanceCount);
    forall i | 0 <= i < MAX_INSTANCES
      ensures Kept(c).instances[i] == c.instances[i] <==>
              if i < c.instanceCount && c.instances[i].enabled then Plain(c.instances[i], c.basePort + i)
                  else Untouched(c.instances[i], i)
    {
      SlotKept(c, i);
    }
    if NothingOmitted(c) {
      assert Kept(c).instances == c.instances;
    }
  }

  lemma KeptFields(c: Config)
    requires |c.instances| == MAX_INSTANCES && 0 <= c.instanceCount <= MAX_INSTANCES
    ensures |Kept(c).instances| == MAX_INSTANCES
    ensures Kept(c) == c.(instances := Kept(c).instances, instanceCount := LastEnabled(c, c.instanceCount))
  {
    hide LastEnabled;
  }
}
