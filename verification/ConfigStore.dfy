/** The configuration in memory: initialised, loaded line by line, and saved section by section. */
module ConfigStore {
  import opened Text
  import opened ConfigFile

  /** `trim`: skip blanks in front, then cut them off behind. */
  method TrimString(s: string) returns (r: string)
    ensures r == Trim(s)
  {
    var start := 0;
    while start < |s| && IsSpace(s[start])
      invariant start <= |s| && TrimLeft(s[start..]) == TrimLeft(s)
    {
      assert s[start..][1..] == s[start + 1..];
      start := start + 1;
    }
    r := s[start..];
    while r != [] && IsSpace(r[|r| - 1])
      invariant TrimRight(r) == Trim(s)
    {
      r := r[..|r| - 1];
    }
  }

  class Store {
    var mgmtEnabled: bool
    var basePort: int
    var maxInstances: int
    var instanceCount: int
    const instances: array<Instance>

    ghost predicate Valid()
      reads this
    {
      instances.Length == MAX_INSTANCES
    }

    /** The configuration held. */
    ghost function Current(): (c: Config)
      reads this, instances
      ensures |c.instances| == instances.Length
    {
      Config(mgmtEnabled, basePort, maxInstances, instances[..], instanceCount)
    }

    constructor ()
      ensures Valid() && fresh(instances) && Current() == DefaultConfig()
    {
      instances := new Instance[MAX_INSTANCES](i => DefaultInstance(0));
      new;
      Init();
    }

    /** `config_init`. */
    method Init()
      requires Valid()
      modifies this, instances
      ensures Valid() && Current() == DefaultConfig()
    {
      hide DefaultInstance;
      mgmtEnabled, basePort, maxInstances, instanceCount := true, DEFAULT_BASE_PORT, MAX_INSTANCES, 0;
      for i := 0 to MAX_INSTANCES
        invariant Current() == DefaultConfig().(instances := instances[..])
        invariant forall k :: 0 <= k < i ==> instances[k] == DefaultInstance(k)
      {
        instances[i] := DefaultInstance(i);
      }
    }

    /** Applies one key/value line to the section it stands in. */
    method Assign(section: Section, key: string, value: string)
      requires Valid()
      modifies this, instances
      ensures Valid() && Current() == Apply(old(Current()), section, key, value)
    {
      hide Atoi, ParseDeviceId, Field, ApplySetting, ApplyWhitelist, IsTrue;
      match section
      case Management =>
        if key == "enabled" {
          mgmtEnabled := IsTrue(value);
        } else if key == "base_port" {
          basePort := Atoi(value);
        } else if key == "max_instances" {
          maxInstances := Atoi(value);
        }
      case Mappings =>
        var id := Atoi(key);
        if 1 <= id <= MAX_INSTANCES {
          instances[id - 1] := instances[id - 1].(enabled := true, port := basePort + id - 1,
              deviceId := ParseDeviceId(value));
          if id > instanceCount {
            instanceCount := id;
          }
        }
      case Settings => AssignQualified(key, value, false);
      case IpWhitelist => AssignQualified(key, value, true);
      case Aliases =>
        var id := Atoi(key);
        if 1 <= id <= MAX_INSTANCES {
          instances[id - 1] := instances[id - 1].(alias := Field(value, MAX_FIELD));
        }
      case NoSection =>
    }

    /** A key of the form id:setting. */
    method AssignQualified(key: string, value: string, whitelist: bool)
      requires Valid()
      modifies instances
      ensures Current() == ApplyQualified(old(Current()), key, value, whitelist)
    {
      hide Atoi, ApplySetting, ApplyWhitelist;
      var colon := Find(key, ':');
      if colon < |key| {
        var id := Atoi(key[..colon]);
        var setting := key[colon + 1..];
        if 1 <= id <= MAX_INSTANCES {
          if whitelist {
            instances[id - 1] := ApplyWhitelist(instances[id - 1], setting, value);
          } else {
            instances[id - 1] := ApplySetting(instances[id - 1], setting, value);
          }
        }
      }
    }

    /** One line of the file: blanks and comments go, a header changes the section, a pair is applied. */
    method DoLine(section: Section, line: string) returns (next: Section)
      requires Valid()
      modifies this, instances
      ensures Valid() && State(next, Current()) == Obey(State(section, old(Current())), ParseLine(line))
    {
      hide Trim, Apply, ParseSection;
      next := section;
      var ptr := TrimString(line);
      if ptr == "" || ptr[0] == '#' || ptr[0] == ';' {
        return;
      }
      ptr := ptr[..Find(ptr, '#')];
      ptr := ptr[..Find(ptr, ';')];
      ptr := TrimString(ptr);
      if ptr == "" {
        return;
      }
      if ptr[0] == '[' {
        var end := Find(ptr, ']');
        if end < |ptr| {
          next := ParseSection(ptr[1..end]);
        }
        return;
      }
      var eq := Find(ptr, '=');
      if eq < |ptr| {
        var key := TrimString(ptr[..eq]);
        var value := TrimString(ptr[eq + 1..]);
        Assign(section, key, value);
      }
    }

    /** `config_load` on the text of a file. */
    method Load(text: string)
      requires Valid()
      modifies this, instances
      ensures Valid() && Current() == ConfigFile.Load(text)
    {
      hide Obey, ParseLine, LineLength;
      Init();
      var section, rest := NoSection, text;
      ghost var st, done := State(NoSection, DefaultConfig()), [];
      while rest != []
        invariant Valid() && Sized(st) && done + Lines(rest) == Lines(text)
        invariant State(section, Current()) == ObeyAll(st, done)
        decreases |rest|
      {
        var n := LineLength(rest);
        var line := rest[..n];
        section := DoLine(section, line);
        assert (done + [line])[..|done|] == done;
        assert (done + [line]) + Lines(rest[n..]) == done + ([line] + Lines(rest[n..]));
        done, rest := done + [line], rest[n..];
      }
      assert done + [] == done;
    }

    /** One section of `config_save`, instance by instance. */
    method SaveSection(section: Section) returns (text: string)
      requires Valid() && 0 <= instanceCount <= MAX_INSTANCES
      ensures text == Flatten(SectionLines(Current(), section, instanceCount))
    {
      hide InstanceLines;
      text := "";
      for i := 0 to instanceCount
        invariant text == Flatten(SectionLines(Current(), section, i))
      {
        var lines := InstanceLines(instances[i], section);
        FlattenConcat(SectionLines(Current(), section, i), lines);
        text := text + Flatten(lines);
      }
    }

    /** `config_save`: the text of the file. */
    method Save() returns (text: string)
      requires Valid() && 0 <= instanceCount <= MAX_INSTANCES
      ensures text == ConfigFile.Save(Current())
    {
      hide SectionLines, ManagementLines, MappingsHead, SettingsHead, AliasesHead, Flatten;
      var head := ManagementLines(Config(mgmtEnabled, basePort, maxInstances, [], instanceCount));
      var mappings := SaveSection(Mappings);
      var settings := SaveSection(Settings);
      var aliases := SaveSection(Aliases);
      text := Flatten(head) + Flatten(MappingsHead()) + mappings + Flatten(SettingsHead()) + settings
              + Flatten(AliasesHead()) + aliases + Flatten([BLANK_LINE]);
      ManagementIgnoresInstances(Config(mgmtEnabled, basePort, maxInstances, [], instanceCount), Current());
      SaveIsSections(Current());
    }
  }

  lemma {:induction false} FlattenConcat(a: seq<string>, b: seq<string>)
    ensures Flatten(a + b) == Flatten(a) + Flatten(b)
    decreases |a|
  {
    if a == [] {
      assert a + b == b;
    } else {
      assert (a + b)[1..] == a[1..] + b;
      FlattenConcat(a[1..], b);
    }
  }

  lemma ManagementIgnoresInstances(c: Config, d: Config)
    requires d == c.(instances := d.instances)
    ensures ManagementLines(c) == ManagementLines(d)
  {
  }

  lemma SaveIsSections(c: Config)
    requires 0 <= c.instanceCount <= |c.instances|
    ensures var n := c.instanceCount;
      ConfigFile.Save(c) == Flatten(ManagementLines(c)) + Flatten(MappingsHead())
          + Flatten(SectionLines(c, Mappings, n))
        + Flatten(SettingsHead()) + Flatten(SectionLines(c, Settings, n)) + Flatten(AliasesHead())
        + Flatten(SectionLines(c, Aliases, n)) + Flatten([BLANK_LINE])
  {
    hide SectionLines, ManagementLines, MappingsHead, SettingsHead, AliasesHead, Flatten;
    var n := c.instanceCount;
    var l1 := ManagementLines(c) + MappingsHead();
    var l2 := l1 + SectionLines(c, Mappings, n);
    var l3 := l2 + SettingsHead();
    var l4 := l3 + SectionLines(c, Settings, n);
    var l5 := l4 + AliasesHead();
    var l6 := l5 + SectionLines(c, Aliases, n);
    FlattenConcat(ManagementLines(c), MappingsHead());
    FlattenConcat(l1, SectionLines(c, Mappings, n));
    FlattenConcat(l2, SettingsHead());
    FlattenConcat(l3, SectionLines(c, Settings, n));
    FlattenConcat(l4, AliasesHead());
    FlattenConcat(l5, SectionLines(c, Aliases, n));
    FlattenConcat(l6, [BLANK_LINE]);
  }
}
