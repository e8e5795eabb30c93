/** The configuration file: what each line of it does, and what is written for a configuration. */
module ConfigFile {
  import opened Text

  const MAX_INSTANCES: nat := 32
  /** The longest string a 64-byte field holds. */
  const MAX_FIELD: nat := 63
  /** How many characters one `fgets` into the 512-byte line buffer takes at most. */
  const MAX_LINE: nat := 511
  const MAX_IP: nat := 45
  const MAX_WHITELIST_ENTRIES: nat := 64
  const DEFAULT_BASE_PORT: int := 2542
  const DEFAULT_FREQUENCY: nat := 30000000
  const DEFAULT_LATENCY: int := 2
  const DEFAULT_BUFFER_SIZE: int := 2048
  const MIN_BUFFER_SIZE: int := 64
  const MAX_BUFFER_SIZE: int := 536870912
  const DEFAULT_LOCK_TIMEOUT: int := 10
  const TWO32: int := 0x1_0000_0000

  datatype Kind = NoDevice | BySerial | ByBus | Custom | Auto
  datatype DeviceId = DeviceId(kind: Kind, value: string)
  datatype WhitelistMode = Off | Permissive | Strict
  datatype WhitelistEntry = WhitelistEntry(ip: string, isBlock: bool)

  datatype Instance = Instance(
    instanceId: int, port: int, deviceId: DeviceId, alias: string,
    frequency: int, latencyTimer: int, asyncMode: bool, bufferSize: int,
    whitelistMode: WhitelistMode, whitelist: seq<WhitelistEntry>, lockTimeout: int, enabled: bool)

  datatype Config = Config(mgmtEnabled: bool, basePort: int, maxInstances: int, instances: seq<Instance>,
                           instanceCount: int)

  datatype Section = NoSection | Management | Mappings | Settings | Aliases | IpWhitelist

  /** `config_init` for slot i. */
  function DefaultInstance(i: nat): Instance {
    Instance(i + 1, DEFAULT_BASE_PORT + i, DeviceId(NoDevice, ""), "", DEFAULT_FREQUENCY, DEFAULT_LATENCY, false,
             DEFAULT_BUFFER_SIZE, Off, [], DEFAULT_LOCK_TIMEOUT, false)
  }

  function DefaultConfig(): (c: Config)
    ensures |c.instances| == MAX_INSTANCES
  {
    Config(true, DEFAULT_BASE_PORT, MAX_INSTANCES, seq(MAX_INSTANCES,
        i requires 0 <= i < MAX_INSTANCES => DefaultInstance(i)), 0)
  }

  function ParseSection(name: string): Section {
    if name == "instance_management" then Management
    else if name == "instance_mappings" then Mappings
    else if name == "instance_settings" then Settings
    else if name == "instance_aliases" then Aliases
    else if name == "ip_whitelist_per_instance" then IpWhitelist
    else NoSection
  }

  /** What `strncpy` into a cleared field keeps. */
  function Field(s: string, limit: nat): (r: string)
    ensures |s| <= limit ==> r == s
  {
    if |s| <= limit then s else s[..limit]
  }

  predicate StartsWith(s: string, p: string) {
    |p| <= |s| && s[..|p|] == p
  }

  /** `config_parse_device_id`: the field is cleared first, so an unknown form leaves no device. */
  function ParseDeviceId(s: string): DeviceId {
    if StartsWith(s, "SN:") then DeviceId(BySerial, Field(s[3..], MAX_FIELD))
    else if StartsWith(s, "BUS:") then DeviceId(ByBus, Field(s[4..], MAX_FIELD))
    else if StartsWith(s, "CUSTOM:") then DeviceId(Custom, Field(s[7..], MAX_FIELD))
    else if s == "auto" then DeviceId(Auto, "")
    else DeviceId(NoDevice, "")
  }

  /** `config_format_device_id`. */
  function FormatDeviceId(id: DeviceId): (s: string)
    ensures s != []
  {
    match id.kind
    case BySerial => "SN:" + id.value
    case ByBus => "BUS:" + id.value
    case Custom => "CUSTOM:" + id.value
    case Auto => "auto"
    case NoDevice => "none"
  }

  predicate IsTrue(value: string) {
    value == "true" || value == "1"
  }

  /** A line of [instance_management]. */
  function ApplyManagement(c: Config, key: string, value: string): (r: Config)
    ensures r.instances == c.instances
  {
    if key == "enabled" then c.(mgmtEnabled := IsTrue(value))
    else if key == "base_port" then c.(basePort := Atoi(value))
    else if key == "max_instances" then c.(maxInstances := Atoi(value))
    else c
  }

  function WithInstance(c: Config, id: int, inst: Instance): (r: Config)
    requires |c.instances| == MAX_INSTANCES && 1 <= id <= MAX_INSTANCES
    ensures |r.instances| == MAX_INSTANCES
  {
    c.(instances := c.instances[id - 1 := inst])
  }

  /** A line of [instance_mappings]. */
  function ApplyMapping(c: Config, key: string, value: string): (r: Config)
    requires |c.instances| == MAX_INSTANCES
    ensures |r.instances| == MAX_INSTANCES
  {
    var id := Atoi(key);
    if 1 <= id <= MAX_INSTANCES then
      WithInstance(c, id, c.instances[id - 1].(enabled := true, port := c.basePort + id - 1,
          deviceId := ParseDeviceId(value)))
        .(instanceCount := if id > c.instanceCount then id else c.instanceCount)
    else c
  }

  function Clamp(n: int, low: int, high: int): int {
    if n < low then low else if n > high then high else n
  }

  /** One setting of one instance. */
  function ApplySetting(inst: Instance, setting: string, value: string): Instance {
    if setting == "frequency" then inst.(frequency := StrToL(value) % TWO32)
    else if setting == "latency_timer" then inst.(latencyTimer := Atoi(value))
    else if setting == "async" then inst.(asyncMode := IsTrue(value))
    else if setting == "xvc_buffer_size" then inst.(bufferSize :=
        Clamp(StrToL(value), MIN_BUFFER_SIZE, MAX_BUFFER_SIZE))
    else if setting == "client_lock_timeout" then
      inst.(lockTimeout := if Atoi(value) < 0 then 0 else Atoi(value))
    else inst
  }

  /** A line of [ip_whitelist_per_instance], for one instance. */
  function ApplyWhitelist(inst: Instance, setting: string, value: string): Instance {
    if setting == "mode" then
      inst.(whitelistMode := if value == "strict" then Strict else if value == "permissive" then Permissive else Off)
    else if StartsWith(setting, "allow_") || StartsWith(setting, "block_") then
      if |inst.whitelist| < MAX_WHITELIST_ENTRIES
      then inst.(whitelist := inst.whitelist + [WhitelistEntry(Field(value, MAX_IP), StartsWith(setting, "b"))])
      else inst
    else inst
  }

  /** A line whose key has the form id:setting. */
  function ApplyQualified(c: Config, key: string, value: string, whitelist: bool): (r: Config)
    requires |c.instances| == MAX_INSTANCES
    ensures |r.instances| == MAX_INSTANCES
  {
    var colon := Find(key, ':');
    if colon == |key| then c
    else
      var id := Atoi(key[..colon]);
      if 1 <= id <= MAX_INSTANCES then
        var inst := c.instances[id - 1];
        var setting := key[colon + 1..];
        WithInstance(c, id, if whitelist then ApplyWhitelist(inst, setting, value)
            else ApplySetting(inst, setting, value))
      else c
  }

  /** A line of [instance_aliases]. */
  function ApplyAlias(c: Config, key: string, value: string): (r: Config)
    requires |c.instances| == MAX_INSTANCES
    ensures |r.instances| == MAX_INSTANCES
  {
    var id := Atoi(key);
    if 1 <= id <= MAX_INSTANCES then WithInstance(c, id, c.instances[id - 1].(alias := Field(value, MAX_FIELD))) else c
  }

  function Apply(c: Config, section: Section, key: string, value: string): (r: Config)
    requires |c.instances| == MAX_INSTANCES
    ensures |r.instances| == MAX_INSTANCES
  {
    match section
    case Management => ApplyManagement(c, key, value)
    case Mappings => ApplyMapping(c, key, value)
    case Settings => ApplyQualified(c, key, value, false)
    case Aliases => ApplyAlias(c, key, value)
    case IpWhitelist => ApplyQualified(c, key, value, true)
    case NoSection => c
  }

  /** What one line asks for once blanks and comments are gone. */
  datatype Directive = Nothing | Enter(section: Section) | Assign(key: string, value: string)

  function WithoutComment(s: string): string {
    var t := s[..Find(s, '#')];
    t[..Find(t, ';')]
  }

  function ParseLine(line: string): Directive {
    var s := Trim(line);
    if s == "" || s[0] == '#' || s[0] == ';' then Nothing
    else
      var t := Trim(WithoutComment(s));
      if t == "" then Nothing
      else if t[0] == '[' then
        var end := Find(t, ']');
        if end == |t| then Nothing else Enter(ParseSection(t[1..end]))
      else
        var eq := Find(t, '=');
        if eq == |t| then Nothing else Assign(Trim(t[..eq]), Trim(t[eq + 1..]))
  }

  /** The parser between two lines. */
  datatype State = State(section: Section, config: Config)

  predicate Sized(st: State) {
    |st.config.instances| == MAX_INSTANCES
  }

  function Obey(st: State, d: Directive): (r: State)
    requires Sized(st)
    ensures Sized(r)
  {
    match d
    case Nothing => st
    case Enter(section) => st.(section := section)
    case Assign(key, value) => st.(config := Apply(st.config, st.section, key, value))
  }

  /** The lines so far, one after the other. */
  function ObeyAll(st: State, lines: seq<string>): (r: State)
    requires Sized(st)
    ensures Sized(r)
  {
    if lines == [] then st else Obey(ObeyAll(st, lines[..|lines| - 1]), ParseLine(lines[|lines| - 1]))
  }

  /** How much of a text one `fgets` takes: up to a newline, at most a buffer full. */
  function LineLength(text: string): (n: nat)
    ensures n <= |text| && (text != [] ==> n > 0)
  {
    var eol := Find(text, '\n');
    var n := if eol < |text| then eol + 1 else eol;
    if n > MAX_LINE then MAX_LINE else n
  }

  /** The lines `fgets` delivers. */
  function Lines(text: string): seq<string>
    decreases |text|
  {
    if text == [] then [] else [text[..LineLength(text)]] + Lines(text[LineLength(text)..])
  }

  /** `config_load`. */
  function Load(text: string): Config {
    ObeyAll(State(NoSection, DefaultConfig()), Lines(text)).config
  }

  function Comment(text: string): string {
    "# " + text + "\n"
  }

  function Header(name: string): string {
    "[" + name + "]" + "\n"
  }

  function KeyValue(key: string, value: string): string {
    key + " = " + value + "\n"
  }

  const DEVICE_FORMS: string := "device_id: SN:serial, BUS:bus-dev," + " CUSTOM:name, or auto"

  const BLANK_LINE: string := "\n"

  function Setting(inst: Instance, name: string, value: string): string {
    KeyValue(Integer(inst.instanceId) + ":" + name, value)
  }

  function MappingLine(inst: Instance): string {
    KeyValue(Integer(inst.instanceId), FormatDeviceId(inst.deviceId))
  }

  /** The settings written for an instance: those at their default are left out, except the frequency. */
  function SettingLines(inst: Instance): seq<string> {
    [Setting(inst, "frequency", Integer(inst.frequency))]
    + (if inst.latencyTimer != DEFAULT_LATENCY then [Setting(inst, "latency_timer", Integer(inst.latencyTimer))]
        else [])
    + (if inst.bufferSize != DEFAULT_BUFFER_SIZE then [Setting(inst, "xvc_buffer_size", Integer(inst.bufferSize))]
        else [])
  }

  function AliasLine(inst: Instance): string {
    KeyValue(Integer(inst.instanceId), inst.alias)
  }

  /** The part of a section that belongs to one instance. */
  function InstanceLines(inst: Instance, section: Section): seq<string> {
    if !inst.enabled then []
    else match section
      case Mappings => [MappingLine(inst)]
      case Settings => SettingLines(inst)
      case Aliases => if inst.alias != [] then [AliasLine(inst)] else []
      case _ => []
  }

  /** The part of a section that belongs to the first k instances. */
  function SectionLines(c: Config, section: Section, k: nat): seq<string>
    requires k <= |c.instances|
  {
    if k == 0 then [] else SectionLines(c, section, k - 1) + InstanceLines(c.instances[k - 1], section)
  }

  function ManagementLines(c: Config): seq<string> {
    [Comment("XVC Server Configuration"), Comment("Generated automatically"), BLANK_LINE]
    + [Header("instance_management"),
       KeyValue("enabled", if c.mgmtEnabled then "true" else "false"),
       KeyValue("base_port", Integer(c.basePort)),
       KeyValue("max_instances", Integer(c.maxInstances)),
       BLANK_LINE]
  }

  function MappingsHead(): seq<string> {
    [Header("instance_mappings"), Comment("Format: instance_id = device_id"), Comment(DEVICE_FORMS)]
  }

  function SettingsHead(): seq<string> {
    [BLANK_LINE, Header("instance_settings"), Comment("Format: instance_id:setting = value")]
  }

  function AliasesHead(): seq<string> {
    [BLANK_LINE, Header("instance_aliases")]
  }

  /** The lines `config_save` writes. */
  function SaveLines(c: Config): seq<string>
    requires 0 <= c.instanceCount <= |c.instances|
  {
    ManagementLines(c)
    + MappingsHead() + SectionLines(c, Mappings, c.instanceCount)
    + SettingsHead() + SectionLines(c, Settings, c.instanceCount)
    + AliasesHead() + SectionLines(c, Aliases, c.instanceCount)
    + [BLANK_LINE]
  }

  function Flatten(lines: seq<string>): string {
    if lines == [] then [] else lines[0] + Flatten(lines[1..])
  }

  /** `config_save`. */
  function Save(c: Config): string
    requires 0 <= c.instanceCount <= |c.instances|
  {
    Flatten(SaveLines(c))
  }
}
