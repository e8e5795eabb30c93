/**
  What a line of the configuration file does, stated on the text of the file: a section header and one
  key/value line appended to any file that ends with a newline.
*/
module ConfigKeys {
  import opened Text
  import opened ConfigFile
  import opened ConfigRoundTrip

  /** The text is empty or ends with a newline. */
  predicate Ended(text: string) {
    text == "" || text[|text| - 1] == '\n'
  }

  /** A section header and a line of that section. */
  function Entry(section: string, key: string, value: string): string {
    "[" + section + "]\n" + key + " = " + value + "\n"
  }

  /** Lines are read from appended text as from a file of its own. */
  lemma {:induction false} LinesAppend(text: string, rest: string)
    requires Ended(text)
    ensures Lines(text + rest) == Lines(text) + Lines(rest)
    decreases |text|
  {
    hide Find, LineLength;
    if text == "" {
      assert text + rest == rest;
    } else {
      LengthAppend(text, rest);
      var n := LineLength(text);
      var all := text + rest;
      assert all[..n] == text[..n] && all[n..] == text[n..] + rest;
      LinesAppend(text[n..], rest);
      assert Lines(all) == [text[..n]] + (Lines(text[n..]) + Lines(rest));
    }
  }

  lemma LengthAppend(text: string, rest: string)
    requires Ended(text) && text != ""
    ensures LineLength(text + rest) == LineLength(text)
  {
    hide Find;
    var eol := Find(text, '\n');
    FindInside(text, '\n', |text| - 1);
    FindIs(text[..eol], '\n', text[eol + 1..] + rest);
    assert text[..eol] + ['\n'] + (text[eol + 1..] + rest) == text + rest;
  }

  lemma {:induction false} FindInside(s: string, c: char, k: nat)
    requires k < |s| && s[k] == c
    ensures Find(s, c) <= k
  {
    if k > 0 && s[0] != c {
      FindInside(s[1..], c, k - 1);
    }
  }

  lemma EntryLines(section: string, key: string, value: string)
    requires section != "" && Letters(section) && |section| <= 500 && Clean(key) && Clean(value)
    requires |key| + |value| <= 500
    ensures Lines(Entry(section, key, value)) == [Header(section), KeyValue(key, value)]
  {
    hide Lines, WholeLine;
    var lines := [Header(section), KeyValue(key, value)];
    HeaderWhole(section);
    KeyValueWhole(key, value);
    assert lines[1..] == [KeyValue(key, value)] && lines[1..][1..] == [];
    assert Flatten([KeyValue(key, value)]) == KeyValue(key, value) + Flatten([KeyValue(key, value)][1..]);
    assert Flatten(lines) == Header(section) + KeyValue(key, value);
    assert Flatten(lines) == Entry(section, key, value);
    LinesOfFlatten(lines);
  }

  lemma LoadSized(text: string)
    ensures |Load(text).instances| == 32
  {
  }

  /** The line is applied, in its section, to what the file says so far. */
  lemma LoadEntry(text: string, section: string, key: string, value: string)
    requires Ended(text) && section != "" && Letters(section) && |section| <= 500
    requires CleanKey(key) && Clean(value) && |key| + |value| <= 500
    ensures Load(text + Entry(section, key, value)) == Apply(Load(text), ParseSection(section), key, value)
  {
    hide Lines, Obey, ParseLine, Apply, DefaultConfig, Entry, Clean;
    var st := State(NoSection, DefaultConfig());
    LinesAppend(text, Entry(section, key, value));
    EntryLines(section, key, value);
    ObeyAllConcat(st, Lines(text), [Header(section), KeyValue(key, value)]);
    TwoLines(ObeyAll(st, Lines(text)), section, key, value);
  }

  lemma TwoLines(st: State, section: string, key: string, value: string)
    requires Sized(st) && section != "" && Letters(section) && CleanKey(key) && Clean(value)
    ensures ObeyAll(st, [Header(section), KeyValue(key, value)]).config
            == Apply(st.config, ParseSection(section), key, value)
  {
    hide ParseLine, Apply, ParseSection, Clean, CleanKey;
    LettersClean(section);
    SectionLine(section);
    KeyValueLine(key, value);
    var line := KeyValue(key, value);
    ObeyCons(st, Header(section), [line]);
    ObeyOne(st.(section := ParseSection(section)), line);
    assert [Header(section)] + [line] == [Header(section), line];
  }

  /** Loading from nothing: every field at its default. */
  lemma EmptyFile(i: nat)
    requires i < 32
    ensures var c := Load("");
      && c == Config(true, 2542, 32, c.instances, 0) && |c.instances| == 32
      && c.instances[i] == Instance(i + 1, 2542 + i, DeviceId(NoDevice, ""), "", 30000000, 2, false, 2048, Off, [], 10,
          false)
  {
  }

  /** A file with instance id's slot changed. */
  function Changed(c: Config, id: nat, inst: Instance): Config
    requires 1 <= id <= |c.instances|
  {
    c.(instances := c.instances[id - 1 := inst])
  }

  /** A text that can stand behind the colon of a key. */
  ghost predicate Suffix(name: string) {
    Clean(name) && '=' !in name && ':' !in name && |name| <= 100
  }

  function Qualified(id: nat, name: string): string {
    Decimal(id) + ":" + name
  }

  lemma QualifiedKey(id: nat, name: string)
    requires 1 <= id <= 99 && Suffix(name)
    ensures var key := Qualified(id, name);
      && CleanKey(key) && |key| <= 112 && Find(key, ':') < |key|
      && Atoi(key[..Find(key, ':')]) == id && key[Find(key, ':') + 1..] == name
  {
    hide Atoi, Decimal, Find, Clean, CleanKey;
    SettingKey(id, name);
    AtoiOfInteger(id);
    IntegerLength(id);
  }

  lemma LoadQualified(text: string, whitelist: bool, id: nat, name: string, value: string)
    requires Ended(text) && 1 <= id <= 32 && Suffix(name) && Clean(value) && |value| <= 300
    ensures var c, section := Load(text), if whitelist then "ip_whitelist_per_instance" else "instance_settings";
      Load(text + Entry(section, Qualified(id, name), value)) == Changed(c, id,
        if whitelist then ApplyWhitelist(c.instances[id - 1], name, value)
            else ApplySetting(c.instances[id - 1], name, value))
  {
    hide Load, Atoi, Find, ApplyWhitelist, ApplySetting, Qualified, CleanKey, Clean, Entry;
    QualifiedKey(id, name);
    SectionNames();
    LoadEntry(text, if whitelist then "ip_whitelist_per_instance" else "instance_settings", Qualified(id, name), value);
  }

  lemma SectionNames()
    ensures Letters("ip_whitelist_per_instance") && ParseSection("ip_whitelist_per_instance") == IpWhitelist
    ensures Letters("instance_settings") && ParseSection("instance_settings") == Settings
    ensures Letters("instance_management") && ParseSection("instance_management") == Management
    ensures Letters("instance_mappings") && ParseSection("instance_mappings") == Mappings
    ensures Letters("instance_aliases") && ParseSection("instance_aliases") == Aliases
  {
  }

  /**
    `id:allow_n = ip` and `id:block_n = ip` add that address, cut to 45 characters, to the instance's list,
    as long as it has fewer than 64.
  */
  lemma WhitelistLine(text: string, id: nat, block: bool, n: string, ip: string)
    requires Ended(text) && 1 <= id <= 32 && Suffix((if block then "block_" else "allow_") + n) && Clean(ip)
    requires |ip| <= 300
    ensures var c := Load(text);
      var inst := c.instances[id - 1];
      Load(text + Entry("ip_whitelist_per_instance", Qualified(id, (if block then "block_" else "allow_") + n), ip)) ==
      if |inst.whitelist| < 64
      then Changed(c, id, inst.(whitelist := inst.whitelist + [WhitelistEntry(Field(ip, 45), block)])) else c
  {
    hide Load, Entry, Qualified, Clean;
    var name := (if block then "block_" else "allow_") + n;
    LoadQualified(text, true, id, name, ip);
    assert name[..6] == if block then "block_" else "allow_";
    assert name[..1] == if block then "b" else "a";
    assert name != "mode" by { assert name[0] == 'b' || name[0] == 'a'; }
    LoadSized(text);
    var c := Load(text);
    assert c.instances[id - 1 := c.instances[id - 1]] == c.instances;
  }

  /** `id:mode` sets the mode it names; anything but strict and permissive turns the list off. */
  lemma ModeLine(text: string, id: nat, mode: string)
    requires Ended(text) && 1 <= id <= 32 && Clean(mode) && |mode| <= 300
    ensures var c := Load(text);
      Load(text + Entry("ip_whitelist_per_instance", Qualified(id, "mode"), mode)) ==
      Changed(c, id, c.instances[id - 1].(whitelistMode :=
        if mode == "strict" then Strict else if mode == "permissive" then Permissive else Off))
  {
    hide Load, Entry, Qualified, Clean;
    SettingNames();
    LoadQualified(text, true, id, "mode", mode);
  }

  lemma SettingNames()
    ensures Suffix("mode") && Suffix("async") && Suffix("client_lock_timeout")
    ensures Suffix("frequency") && Suffix("latency_timer") && Suffix("xvc_buffer_size")
  {
    LettersClean("mode");
    LettersClean("async");
    LettersClean("client_lock_timeout");
    LettersClean("frequency");
    LettersClean("latency_timer");
    LettersClean("xvc_buffer_size");
  }

  /** `id:async` is on for `true` and `1` only. */
  lemma AsyncLine(text: string, id: nat, value: string)
    requires Ended(text) && 1 <= id <= 32 && Clean(value) && |value| <= 300
    ensures var c := Load(text);
      Load(text + Entry("instance_settings", Qualified(id, "async"), value)) ==
      Changed(c, id, c.instances[id - 1].(asyncMode := value == "true" || value == "1"))
  {
    hide Load, Entry, Qualified, Clean;
    SettingNames();
    LoadQualified(text, false, id, "async", value);
  }

  /**
    The numeric settings: a negative lock timeout becomes 0, and a buffer size is kept between 64 bytes and
    512 MiB.
  */
  lemma NumberLines(text: string, id: nat, n: int)
    requires Ended(text) && 1 <= id <= 32 && -0x1_0000_0000 < n < 0x1_0000_0000
    ensures var c := Load(text);
      var inst := c.instances[id - 1];
      && Load(text + Entry("instance_settings", Qualified(id, "client_lock_timeout"), Integer(n))) ==
         Changed(c, id, inst.(lockTimeout := if n < 0 then 0 else n))
      && Load(text + Entry("instance_settings", Qualified(id, "latency_timer"), Integer(n))) ==
         Changed(c, id, inst.(latencyTimer := n))
      && (n >= 0 ==>
            Load(text + Entry("instance_settings", Qualified(id, "frequency"), Integer(n))) ==
            Changed(c, id, inst.(frequency := n)))
      && Load(text + Entry("instance_settings", Qualified(id, "xvc_buffer_size"), Integer(n))) ==
         Changed(c, id, inst.(bufferSize := if n < 64 then 64 else if n > 536870912 then 536870912 else n))
  {
    hide Load, Entry, Qualified, Clean, Integer, Atoi, StrToL;
    SettingNames();
    IntegerClean(n);
    IntegerLength(n);
    AtoiOfInteger(n);
    StrToLOfInteger(n);
    LoadQualified(text, false, id, "client_lock_timeout", Integer(n));
    LoadQualified(text, false, id, "latency_timer", Integer(n));
    LoadQualified(text, false, id, "frequency", Integer(n));
    LoadQualified(text, false, id, "xvc_buffer_size", Integer(n));
  }

  /** The lines of [instance_management]. */
  lemma ManagementLine(text: string, value: string, n: int)
    requires Ended(text) && Clean(value) && |value| <= 300 && -0x1_0000_0000 < n < 0x1_0000_0000
    ensures var c := Load(text);
      && Load(text + Entry("instance_management", "enabled", value))
          == c.(mgmtEnabled := value == "true" || value == "1")
      && Load(text + Entry("instance_management", "base_port", Integer(n))) == c.(basePort := n)
      && Load(text + Entry("instance_management", "max_instances", Integer(n))) == c.(maxInstances := n)
  {
    hide Load, Entry, Clean, CleanKey, Integer, Atoi;
    SectionNames();
    ManagementNames();
    IntegerClean(n);
    IntegerLength(n);
    AtoiOfInteger(n);
    LoadEntry(text, "instance_management", "enabled", value);
    LoadEntry(text, "instance_management", "base_port", Integer(n));
    LoadEntry(text, "instance_management", "max_instances", Integer(n));
  }

  lemma ManagementNames()
    ensures CleanKey("enabled") && CleanKey("base_port") && CleanKey("max_instances")
  {
    LettersClean("enabled");
    LettersClean("base_port");
    LettersClean("max_instances");
  }

  /** `id = device` enables an instance on its canonical port, and `id = name` in the aliases names it. */
  lemma InstanceLine(text: string, id: nat, value: string)
    requires Ended(text) && 1 <= id <= 32 && Clean(value) && |value| <= 300
    ensures var c := Load(text);
      var inst := c.instances[id - 1];
      && Load(text + Entry("instance_mappings", Decimal(id), value)) ==
         Changed(c, id, inst.(enabled := true, port := c.basePort + id - 1, deviceId := ParseDeviceId(value)))
           .(instanceCount := if id > c.instanceCount then id else c.instanceCount)
      && Load(text + Entry("instance_aliases", Decimal(id), value)) == Changed(c, id, inst.(alias := Field(value, 63)))
  {
    hide Load, Entry, Clean, CleanKey, Decimal, Atoi, ParseDeviceId;
    SectionNames();
    IntegerClean(id);
    IntegerLength(id);
    AtoiOfInteger(id);
    LoadEntry(text, "instance_mappings", Decimal(id), value);
    LoadEntry(text, "instance_aliases", Decimal(id), value);
  }

  /** Lines for instances that do not exist change nothing. */
  lemma NoSuchInstance(text: string, id: nat, name: string, value: string)
    requires Ended(text) && (id == 0 || 32 < id <= 99) && Suffix(name) && Clean(value) && |value| <= 300
    ensures Load(text + Entry("instance_mappings", Decimal(id), value)) == Load(text)
    ensures Load(text + Entry("instance_aliases", Decimal(id), value)) == Load(text)
    ensures Load(text + Entry("instance_settings", Qualified(id, name), value)) == Load(text)
    ensures Load(text + Entry("ip_whitelist_per_instance", Qualified(id, name), value)) == Load(text)
  {
    hide Load, Entry, Clean, CleanKey, Decimal, Atoi, Find, Qualified;
    SectionNames();
    IntegerClean(id);
    IntegerLength(id);
    AtoiOfInteger(id);
    AnyQualifiedKey(id, name);
    LoadEntry(text, "instance_mappings", Decimal(id), value);
    LoadEntry(text, "instance_aliases", Decimal(id), value);
    LoadEntry(text, "instance_settings", Qualified(id, name), value);
    LoadEntry(text, "ip_whitelist_per_instance", Qualified(id, name), value);
  }

  lemma AnyQualifiedKey(id: nat, name: string)
    requires id <= 99 && Suffix(name)
    ensures var key := Qualified(id, name);
      && CleanKey(key) && |key| <= 112 && Find(key, ':') < |key|
      && Atoi(key[..Find(key, ':')]) == id && key[Find(key, ':') + 1..] == name
  {
    hide Atoi, Decimal, Find, Clean, CleanKey;
    SettingKey(id, name);
    AtoiOfInteger(id);
    IntegerLength(id);
  }

  /** A field keeps the first characters of a text, as many as it holds. */
  lemma FieldIsPrefix(s: string, limit: nat)
    ensures Field(s, limit) <= s && |Field(s, limit)| == if |s| <= limit then |s| else limit
  {
  }

  /** Space and the five control characters from tab to carriage return are blank, and nothing else. */
  lemma Blanks(c: char)
    ensures IsSpace(c) <==> c as int == 32 || 9 <= c as int <= 13
  {
  }

  /** A line without a newline in its first 511 characters is cut there. */
  lemma LongLine(text: string)
    requires |text| >= 511 && '\n' !in text[..511]
    ensures LineLength(text) == 511 && Lines(text) == [text[..511]] + Lines(text[511..])
  {
    hide Find;
    assert forall i :: 0 <= i < 511 ==> text[i] == text[..511][i];
  }

  /** A line that starts with a comment mark does nothing. */
  lemma WholeComment(mark: char, comment: string)
    requires mark == '#' || mark == ';'
    ensures ParseLine([mark] + comment) == Nothing
  {
    hide TrimRight;
    var s := [mark] + comment;
    StartsSolid(s);
    var m := TrimRightKeeps(s, 0);
    assert s[..m][0] == mark;
  }

  /** A line that is neither a pair nor a whole header does nothing. */
  lemma Malformed(s: string)
    requires Clean(s) && (if s[0] == '[' then ']' !in s else '=' !in s)
    ensures ParseLine(s) == Nothing
  {
    hide Trim, Find;
    FindNone(s, '#');
    FindNone(s, ';');
    assert s[..|s|] == s;
    TrimSolid("", s, "");
    assert "" + s + "" == s;
    FindNone(s, if s[0] == '[' then ']' else '=');
  }

  lemma ThreeDigits(a: char, b: char, c: char, base: nat)
    requires DigitValue(a) < base && DigitValue(b) < base && DigitValue(c) < base
    ensures Leading([a, b, c], base) == base * (base * DigitValue(a) + DigitValue(b)) + DigitValue(c)
  {
    var s := [a, b, c];
    assert s[1..] == [b, c] && [b, c][1..] == [c] && [c][1..] == [];
    assert DigitRun([], base) == 0 && DigitRun([c], base) == 1 + DigitRun([c][1..], base);
    assert DigitRun([b, c], base) == 1 + DigitRun([b, c][1..], base);
    assert DigitRun(s, base) == 1 + DigitRun(s[1..], base);
    assert s[..3] == s;
    assert s[..2] == [a, b] && [a, b][..1] == [a] && [a][..0] == [];
    assert Value([a], base) == base * Value([], base) + DigitValue(a);
    assert Value([a, b], base) == base * Value([a], base) + DigitValue(b);
  }

  /** Numbers can be written in hexadecimal and octal where the base is left open. */
  lemma OpenBases()
    ensures StrToL("0x1F4") == 500 && StrToL("0X1f4") == 500 && StrToL("017") == 15 && StrToL("500") == 500
  {
    hide Leading;
    ThreeDigits('1', 'F', '4', 16);
    ThreeDigits('1', 'f', '4', 16);
    ThreeDigits('0', '1', '7', 8);
    ThreeDigits('5', '0', '0', 10);
    assert "0x1F4"[2..] == ['1', 'F', '4'] && "0X1f4"[2..] == ['1', 'f', '4'];
  }

  /** Trimming keeps a text whose first character is not blank, up to some point past any other such character. */
  lemma {:induction false} TrimRightKeeps(s: string, k: nat) returns (m: nat)
    requires k < |s| && !IsSpace(s[k])
    ensures k < m <= |s| && TrimRight(s) == s[..m]
    decreases |s|
  {
    hide IsSpace;
    if IsSpace(s[|s| - 1]) {
      m := TrimRightKeeps(s[..|s| - 1], k);
      assert s[..|s| - 1][..m] == s[..m];
    } else {
      m := |s|;
    }
  }

  /** The comment goes, whichever mark begins it and whatever it contains. */
  lemma CommentIsCut(s: string, mark: char, comment: string)
    requires '#' !in s && ';' !in s && (mark == '#' || mark == ';')
    ensures WithoutComment(s + [mark] + comment) == s
  {
    hide Find;
    var t := s + [mark] + comment;
    if mark == '#' {
      FindIs(s, '#', comment);
      assert t[..|s|] == s;
      FindNone(s, ';');
      assert s[..|s|] == s;
    } else {
      var h := Find(t, '#');
      assert h > |s| by {
        if h < |t| {
          assert t[h] == '#' && t[|s|] == ';' && forall i :: 0 <= i < |s| ==> t[i] == s[i];
        }
      }
      var u := t[..h];
      assert u == s + [';'] + u[|s| + 1..];
      FindIs(s, ';', u[|s| + 1..]);
      assert u[..|s|] == s;
    }
  }

  /** A comment at the end of a line is not part of its value. */
  lemma TrailingComment(key: string, value: string, mark: char, comment: string)
    requires CleanKey(key) && Clean(value) && (mark == '#' || mark == ';')
    ensures ParseLine(key + " = " + value + " " + [mark] + comment) == Assign(key, value)
  {
    hide Find, TrimLeft, TrimRight, WithoutComment;
    var s := key + " = " + value;
    var line := s + " " + [mark] + comment;
    var a := s + " ";
    assert line == a + [mark] + comment && line[|a|] == mark && line[0] == key[0];
    StartsSolid(line);
    var m := TrimRightKeeps(line, |a|);
    var t := line[..m];
    assert t == a + [mark] + t[|a| + 1..];
    CommentIsCut(a, mark, t[|a| + 1..]);
    KeyValueTrim(key, value);
    SolidThenBlank(s, key, value);
    FindIs(key + " ", '=', " " + value);
    assert s == (key + " ") + ['='] + (" " + value);
    assert s[..|key| + 1] == key + " " && s[|key| + 2..] == " " + value;
  }

  lemma StartsSolid(s: string)
    requires s != "" && !IsSpace(s[0])
    ensures TrimLeft(s) == s
  {
  }

  lemma SolidThenBlank(s: string, key: string, value: string)
    requires CleanKey(key) && Clean(value) && s == key + " = " + value
    ensures Trim(s + " ") == s
  {
    TrimSolid("", s, " ");
    assert "" + s + " " == s + " ";
  }
}
