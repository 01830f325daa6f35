/**
 * The provisioning-parameter translator of the Proxmox compute resource:
 * `parse_cpu`, `parse_memory`, `parse_volume` and `parse_vm`, which turn the
 * form-shaped VM attributes into the flat parameter map handed to the
 * Proxmox create call.
 */
module Proxmox {
  import opened Wrappers
  import opened Hashes
  import opened RubyInteger

  /** The errors the translator and its caller can raise. */
  datatype Error =
    | InvalidVmid              // "invalid vmid"
    | Shape(key: string)       // the entry under `key` is not a hash (NoMethodError in Ruby)
    | Remote(message: string)  // an error raised by the Proxmox client

  /** `cpu_a`: the config keys read by `parse_cpu`. */
  const CpuKeys: set<string> :=
    {"cpu_type", "spectre", "pcid", "vcpus", "cpulimit", "cpuunits", "cores", "sockets", "numa"}

  /** The cpu keys `parse_cpu` consumes itself. */
  const CpuModelKeys: set<string> := {"cpu_type", "spectre", "pcid"}

  /** `memory_a`: the config keys read by `parse_memory`. */
  const MemoryKeys: set<string> := {"memory", "min_memory", "balloon", "shares"}

  /** `general_a`: structural keys of the attribute hash that never reach the payload. */
  const GeneralKeys: set<string> :=
    {"node", "config", "volumes", "interfaces_attributes", "firmware_type", "provision_method"}

  /** The volume keys `parse_volume` consumes itself. */
  const VolumeKeys: set<string> := {"bus", "device", "storage", "size", "_delete"}

  // ---------------------------------------------------------------- cpu

  /** The flags segment of the `cpu` option for the two flags. */
  function CpuFlags(spectre: bool, pcid: bool): string {
    if spectre && pcid then ",flags=+spec-ctrl;+pcid"
    else if spectre then ",flags=+spec-ctrl"
    else if pcid then ",flags=+pcid"
    else ""
  }

  /**
   * The `cpu` option of `parse_cpu`, built by appending one piece after
   * another as the source does: `cputype=<cpu_type>` and then the flags.
   */
  function CpuOption(args: map<string, string>): (s: string)
    ensures s == "cputype=" + Field(args, "cpu_type")
                 + CpuFlags(ToI(Field(args, "spectre")) == 1, ToI(Field(args, "pcid")) == 1)
  {
    var spectre := ToI(Field(args, "spectre")) == 1;
    var pcid := ToI(Field(args, "pcid")) == 1;
    var flags := (if spectre || pcid then ",flags=" else "")
      + (if spectre then "+spec-ctrl" else "")
      + (if spectre && pcid then ";" else "")
      + (if pcid then "+pcid" else "");
    assert flags == CpuFlags(spectre, pcid) by {
      if spectre && pcid {
        assert flags == ",flags=" + "+spec-ctrl" + ";" + "+pcid";
      } else if spectre {
        assert flags == ",flags=" + "+spec-ctrl" + "" + "";
      } else if pcid {
        assert flags == ",flags=" + "" + "" + "+pcid";
      }
    }
    "cputype=" + Field(args, "cpu_type") + flags
  }

  /**
   * `parse_cpu`: the `cpu` option, followed by the other cpu entries whose
   * value is not blank, left as strings.  (A non-blank string entry `cpu`
   * would follow the symbol key `:cpu` and replace it once merged into the
   * indifferent-access payload; `parse_vm` never passes one.)
   */
  function ParseCpu(args: map<string, string>): (r: Payload)
    ensures "cpu" in r
    ensures "cpu" !in args ==> r["cpu"] == Str(CpuOption(args))
    ensures forall k :: k in r <==> k == "cpu" || (k in args && k !in CpuModelKeys && args[k] != "")
    ensures forall k :: k in r && k != "cpu" ==> r[k] == Str(args[k])
  {
    var rest := map k | k in args && k !in CpuModelKeys && args[k] != "" :: args[k];
    map["cpu" := Str(CpuOption(args))] + Lift(rest)
  }

  /** The flags segment is present exactly when one of the two flags reads as 1. */
  lemma CpuFlagsPresent(spectre: bool, pcid: bool)
    ensures CpuFlags(spectre, pcid) != "" <==> spectre || pcid
    ensures spectre || pcid ==> CpuFlags(spectre, pcid)[..7] == ",flags="
  {
  }

  /** How the provisioning form sends a checkbox. */
  function Checkbox(checked: bool): string {
    if checked then "1" else "0"
  }

  /** The cpu group the provisioning form sends: a model name and the two checkboxes. */
  function CpuForm(cpuType: string, spectre: bool, pcid: bool): map<string, string> {
    map["cpu_type" := cpuType, "spectre" := Checkbox(spectre), "pcid" := Checkbox(pcid)]
  }

  /** On a form cpu group, `parse_cpu` yields the one `cpu` option carrying exactly the flags that were checked. */
  lemma CpuFromForm(cpuType: string, spectre: bool, pcid: bool)
    ensures ParseCpu(CpuForm(cpuType, spectre, pcid)) == map["cpu" := Str("cputype=" + cpuType + CpuFlags(spectre, pcid))]
  {
    ToIFormFlags();
    var form := CpuForm(cpuType, spectre, pcid);
    assert Field(form, "spectre") == Checkbox(spectre) && Field(form, "pcid") == Checkbox(pcid);
    assert form.Keys == CpuModelKeys;
    var r := ParseCpu(form);
    assert r.Keys == {"cpu"};
  }

  /** Model `host` with spectre checked and pcid not gives `cputype=host,flags=+spec-ctrl`. */
  lemma HostWithSpectre()
    ensures ParseCpu(CpuForm("host", true, false)) == map["cpu" := Str("cputype=host" + ",flags=+spec-ctrl")]
  {
    CpuFromForm("host", true, false);
    assert "cputype=" + "host" == "cputype=host";
  }

  // ---------------------------------------------------------------- memory

  /**
   * `parse_memory`: `balloon` reading as 1 switches ballooning on, and then
   * `min_memory` becomes the balloon target and `shares` is passed on;
   * otherwise `balloon` itself is the target and there is no `shares`.
   */
  function ParseMemory(args: map<string, string>): (r: Payload)
    ensures "memory" in r && r["memory"] == Int(ToI(Field(args, "memory")))
    ensures ToI(Field(args, "balloon")) == 1 ==>
      && r.Keys == {"memory", "shares", "balloon"}
      && r["shares"] == Int(ToI(Field(args, "shares")))
      && r["balloon"] == Int(ToI(Field(args, "min_memory")))
    ensures ToI(Field(args, "balloon")) != 1 ==>
      && r.Keys == {"memory", "balloon"}
      && r["balloon"] == Int(ToI(Field(args, "balloon")))
      && r["balloon"] != Int(1)
  {
    var memory := map["memory" := Int(ToI(Field(args, "memory")))];
    var ballooned := ToI(Field(args, "balloon")) == 1;
    if ballooned then
      memory["shares" := Int(ToI(Field(args, "shares")))]["balloon" := Int(ToI(Field(args, "min_memory")))]
    else
      memory["balloon" := Int(ToI(Field(args, "balloon")))]
  }

  /**
   * With ballooning checked, the numbers the form sends come back as the
   * memory size, the balloon floor taken from `min_memory`, and the shares.
   */
  lemma BallooningFromForm(memory: nat, floor: nat, shares: nat)
    ensures ParseMemory(map["memory" := Decimal(memory), "balloon" := "1",
                            "min_memory" := Decimal(floor), "shares" := Decimal(shares)])
      == map["memory" := Int(memory), "shares" := Int(shares), "balloon" := Int(floor)]
  {
    var form := map["memory" := Decimal(memory), "balloon" := "1",
                     "min_memory" := Decimal(floor), "shares" := Decimal(shares)];
    assert Field(form, "balloon") == "1";
    assert Field(form, "memory") == Decimal(memory);
    assert Field(form, "min_memory") == Decimal(floor);
    assert Field(form, "shares") == Decimal(shares);
    ToIFormFlags();
    ToIOfDecimal(memory);
    ToIOfDecimal(floor);
    ToIOfDecimal(shares);
  }

  /** Without ballooning, a `balloon` number other than 1 comes back as the balloon target. */
  lemma FixedMemoryFromForm(memory: nat, target: nat)
    requires target != 1
    ensures ParseMemory(map["memory" := Decimal(memory), "balloon" := Decimal(target)])
      == map["memory" := Int(memory), "balloon" := Int(target)]
  {
    ToIOfDecimal(memory);
    ToIOfDecimal(target);
  }

  // ---------------------------------------------------------------- volumes

  /** The disk handed to the disk flattener. */
  datatype Disk = Disk(id: string, storage: string, size: string)

  /**
   * `Fog::Proxmox::Disk.flatten(disk, Fog::Proxmox::Hash.stringify(options))`:
   * a foreign library, taken as a parameter.
   */
  type Flattener = (Disk, map<string, string>) -> Payload

  /** What `parse_volume` decides to do with one volume group. */
  datatype VolumeAction =
    | DeleteDisk(id: string)
    | AddDisk(disk: Disk, options: map<string, string>)

  /**
   * The decision of `parse_volume`: `_delete` reading as 1 deletes slot
   * `bus ++ device` and reads nothing else; otherwise the disk is
   * `{id, storage, size}` and every other key is an option.
   */
  function VolumeRequest(args: map<string, string>): (a: VolumeAction)
    ensures a.DeleteDisk? <==> ToI(Field(args, "_delete")) == 1
    ensures a.DeleteDisk? ==> a.id == Field(args, "bus") + Field(args, "device")
    ensures a.AddDisk? ==>
      && a.disk == Disk(Field(args, "bus") + Field(args, "device"), Field(args, "storage"), Field(args, "size"))
      && (forall k :: k in a.options <==> k in args && k !in VolumeKeys)
      && (forall k :: k in a.options ==> a.options[k] == args[k])
  {
    var id := Field(args, "bus") + Field(args, "device");
    if ToI(Field(args, "_delete")) == 1 then DeleteDisk(id)
    else AddDisk(Disk(id, Field(args, "storage"), Field(args, "size")), args - VolumeKeys)
  }

  /** `parse_volume`: `{delete: id}`, or whatever the flattener makes of the disk and its options. */
  function ParseVolume(args: map<string, string>, flatten: Flattener): (r: Payload)
    ensures ToI(Field(args, "_delete")) == 1 ==>
      r == map["delete" := Str(Field(args, "bus") + Field(args, "device"))]
    ensures ToI(Field(args, "_delete")) != 1 ==>
      r == flatten(Disk(Field(args, "bus") + Field(args, "device"), Field(args, "storage"), Field(args, "size")),
                   VolumeRequest(args).options)
  {
    match VolumeRequest(args)
    case DeleteDisk(id) => map["delete" := Str(id)]
    case AddDisk(disk, options) => flatten(disk, options)
  }

  /**
   * A volume marked for deletion yields the single entry `delete` and reads
   * nothing but `bus`, `device` and `_delete`: two such groups that agree on
   * those give the same result, whatever the flattener.
   */
  lemma DeleteReadsOnlySlot(args: map<string, string>, other: map<string, string>, flatten: Flattener, otherFlatten: Flattener)
    requires ToI(Field(args, "_delete")) == 1
    requires Field(other, "_delete") == Field(args, "_delete")
    requires Field(other, "bus") == Field(args, "bus") && Field(other, "device") == Field(args, "device")
    ensures ParseVolume(args, flatten) == ParseVolume(other, otherFlatten)
    ensures ParseVolume(args, flatten).Keys == {"delete"}
  {
  }

  // ---------------------------------------------------------------- vm

  /** `h.delete_if { |_key, value| value.empty? }` */
  function DropBlank(h: map<string, string>): map<string, string> {
    map k | k in h && h[k] != "" :: h[k]
  }

  /** What is left of `config` once the cpu keys, the memory keys and the blank values are gone. */
  function ConfigLeftover(config: map<string, string>): map<string, string> {
    DropBlank(config - CpuKeys - MemoryKeys)
  }

  /**
   * `a.merge(b).merge(c).merge(d).merge(e)`: every key of every map, each
   * with the value of the last map that has it.
   */
  function Overlay(a: Payload, b: Payload, c: Payload, d: Payload, e: Payload): (r: Payload)
    ensures r.Keys == a.Keys + b.Keys + c.Keys + d.Keys + e.Keys
    ensures forall k :: k in e ==> r[k] == e[k]
    ensures forall k :: k in d && k !in e ==> r[k] == d[k]
    ensures forall k :: k in c && k !in d && k !in e ==> r[k] == c[k]
    ensures forall k :: k in b && k !in c && k !in d && k !in e ==> r[k] == b[k]
    ensures forall k :: k in a && k !in b && k !in c && k !in d && k !in e ==> r[k] == a[k]
  {
    a + b + c + d + e
  }

  /**
   * After `parse_vm` the attribute hash has lost exactly its structural keys,
   * and `config` exactly its cpu keys, its memory keys and its blank values;
   * every other entry of both is kept with its value.
   */
  lemma StrippedEntries(args: map<string, Value>, config: map<string, string>)
    ensures forall k :: k in args - GeneralKeys <==> k in args && k !in GeneralKeys
    ensures forall k :: k in args - GeneralKeys ==> (args - GeneralKeys)[k] == args[k]
    ensures forall k :: k in ConfigLeftover(config) <==>
      k in config && k !in CpuKeys && k !in MemoryKeys && config[k] != ""
    ensures forall k :: k in ConfigLeftover(config) ==> ConfigLeftover(config)[k] == config[k]
  {
  }

  /**
   * The payload `parse_vm` returns when both groups are hashes: the attribute
   * hash without its structural keys, then the config leftovers, the volume,
   * the cpu and the memory parameters, later ones winning.
   */
  function ComposePayload(args: map<string, Value>, config: map<string, string>,
                          volumes: map<string, string>, flatten: Flattener): Payload
  {
    Overlay(args - GeneralKeys, Lift(ConfigLeftover(config)), ParseVolume(volumes, flatten),
            ParseCpu(Select(config, CpuKeys)), ParseMemory(Select(config, MemoryKeys)))
  }

  /** The cpu and memory selections of a config never hold the key `cpu`. */
  lemma CpuKeyFree(config: map<string, string>)
    ensures "cpu" !in Select(config, CpuKeys) && "cpu" !in ParseMemory(Select(config, MemoryKeys))
  {
  }

  /** Whatever the other groups hold, the payload's `cpu` is the cpu option: no later map has that key. */
  lemma PayloadCpuOption(args: map<string, Value>, config: map<string, string>,
                         volumes: map<string, string>, flatten: Flattener)
    ensures var r := ComposePayload(args, config, volumes, flatten);
      "cpu" in r && r["cpu"] == Str(CpuOption(Select(config, CpuKeys)))
  {
    CpuKeyFree(config);
  }

  /** Whatever the other groups hold, the memory parameters are the payload's: they are merged last. */
  lemma PayloadMemory(args: map<string, Value>, config: map<string, string>,
                      volumes: map<string, string>, flatten: Flattener)
    ensures var r := ComposePayload(args, config, volumes, flatten);
      var memory := ParseMemory(Select(config, MemoryKeys));
      && "memory" in r && r["memory"] == memory["memory"]
      && "balloon" in r && r["balloon"] == memory["balloon"]
  {
  }

  /**
   * `parse_vm` on the values it reads: the `volumes` entry is parsed first,
   * so a missing or non-hash `volumes` fails before `config` is looked at;
   * a payload always carries the cpu option and the memory parameters built
   * from `config`, whatever the attribute hash and the volume hold.
   */
  function ParseVmResult(args: map<string, Value>, config: Option<map<string, string>>,
                         volumes: Option<map<string, string>>, flatten: Flattener): (r: Result<Payload, Error>)
    ensures volumes.None? ==> r == Failure(Shape("volumes"))
    ensures volumes.Some? && config.None? ==> r == Failure(Shape("config"))
    ensures r.Success? <==> volumes.Some? && config.Some?
    ensures r.Success? ==> r.value == ComposePayload(args, config.value, volumes.value, flatten)
    ensures r.Success? ==>
      var memory := ParseMemory(Select(config.value, MemoryKeys));
      && "cpu" in r.value && r.value["cpu"] == Str(CpuOption(Select(config.value, CpuKeys)))
      && "memory" in r.value && r.value["memory"] == memory["memory"]
      && "balloon" in r.value && r.value["balloon"] == memory["balloon"]
  {
    if volumes.None? then Failure(Shape("volumes"))
    else if config.None? then Failure(Shape("config"))
    else
      PayloadCpuOption(args, config.value, volumes.value, flatten);
      PayloadMemory(args, config.value, volumes.value, flatten);
      Success(ComposePayload(args, config.value, volumes.value, flatten))
  }

  /** The nested `config` hash, the one object besides the attribute hash that `parse_vm` changes. */
  function ConfigGroup(args: Attributes): set<Group>
    reads args
  {
    GroupSet(GroupAt(args.entries, "config"))
  }

  /**
   * `parse_vm`: strips the structural keys from the caller's attribute hash
   * and the cpu, memory and blank entries from its `config` hash, in place,
   * and returns the merged payload.  Config values are not converted to
   * integers: the source's `value = value.to_i` only rebinds a block variable.
   */
  method ParseVm(args: Attributes, flatten: Flattener) returns (r: Result<Payload, Error>)
    modifies args, ConfigGroup(args)
    ensures
      var config := GroupAt(old(args.entries), "config");
      var volumes := GroupAt(old(args.entries), "volumes");
      r == ParseVmResult(old(args.entries), old(Contents(config)), old(Contents(volumes)), flatten)
    ensures r.Failure? ==> unchanged(args) && unchanged(old(ConfigGroup(args)))
    ensures r.Success? ==>
      var config := GroupAt(old(args.entries), "config").value;
      && args.entries == old(args.entries) - GeneralKeys
      && config.entries == ConfigLeftover(old(config.entries))
  {
    var config := GroupAt(args.entries, "config");
    var volumes := GroupAt(args.entries, "volumes");
    if volumes.None? {
      return Failure(Shape("volumes"));
    }
    var disks := ParseVolume(volumes.value.entries, flatten);
    if config.None? {
      return Failure(Shape("config"));
    }
    var group := config.value;
    var cpu := ParseCpu(Select(group.entries, CpuKeys));
    var memory := ParseMemory(Select(group.entries, MemoryKeys));
    args.entries := args.entries - GeneralKeys;
    group.entries := group.entries - CpuKeys;
    group.entries := group.entries - MemoryKeys;
    group.entries := DropBlank(group.entries);
    r := Success(Overlay(args.entries, Lift(group.entries), disks, cpu, memory));
  }
}
