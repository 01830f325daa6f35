# foreman_fog_proxmox provisioning translator, in Dafny

This project models the part of the Foreman Proxmox compute resource
(`ForemanProxmox::Proxmox`) that turns the VM attributes submitted by the
provisioning form into the flat parameter map sent to the Proxmox API, and
the `create_vm` flow that calls the API with that map.

- `ruby_integer.dfy` (`RubyInteger`): Ruby's `String#to_i`, which every
  number and checkbox of the form goes through. It skips leading whitespace,
  reads an optional sign, then reads digits, allowing single underscores
  between them. Anything else yields 0. The lemmas show that `to_i` inverts
  `to_s` and give the readings the form relies on.
- `hashes.dfy` (`Hashes`): the Ruby hashes involved.
  - The attribute hash is a `class Attributes`.
  - The nested `config` and `volumes` hashes are `class Group` objects, so
    `parse_vm`'s in-place `delete_if` on `config` is an update of a shared
    object.
  - Payload values are strings, integers or nested groups.
- `proxmox.dfy` (`Proxmox`):
  - `parse_cpu`, `parse_memory` and `parse_volume` are pure functions.
  - The precedence of the chained `merge` is a pure function.
  - `parse_vm` is a method that mutates the attribute hash and its `config`
    group.
- `create_vm.dfy` (`Provisioning`): `create_vm` with its begin/rescue.
  - It runs over a `Client` that logs every call and answers from a given
    `Cluster`.
  - It is proved against `CreateVmRun`, a function that gives the result and
    the exact call sequence of one run.
- `wrappers.dfy`: `Option` and `Result`.

Behaviour of the code worth knowing:

- Config and cpu values are not converted to integers. `value = value.to_i`
  inside `each` only rebinds the block variable, so leftover config entries
  and cpu entries such as `cores` reach the payload as strings.
- `parse_volume` is called once, on the `volumes` entry itself. It does not
  iterate over indexed volume groups.
- `parse_vm` builds no network interfaces.
- The rollback `destroy_vm vm.id if vm` cannot fire. `vm` is assigned by the
  last step, and nothing after that step can raise. So a failure is re-raised
  without destroying anything. `CreateVm` returns a ghost flag recording
  whether its rescue branch reached `destroy_vm`, and ensures it is false.

## Model

| member | source | states |
|---|---|---|
| RubyInteger.ToIDecimal | app/models/foreman_proxmox/proxmox.rb:129-130 | `to_i` of a decimal numeral, after any leading whitespace and leading zeros and before text that does not continue the number, is that number |
| RubyInteger.ToINegative | app/models/foreman_proxmox/proxmox.rb:129 | a minus sign before a numeral negates it |
| RubyInteger.ToIOfDecimal | app/models/foreman_proxmox/proxmox.rb:129 | `n.to_s.to_i == n` for every natural number |
| RubyInteger.ToIFormFlags | app/models/foreman_proxmox/proxmox.rb:130 | blank reads as 0; "0" reads as 0; "1", "01", "1x" and " 1" read as 1 |
| Proxmox.CpuOption | app/models/foreman_proxmox/proxmox.rb:142-148 | the appended string is `cputype=<cpu_type>` followed by the flag segment chosen by whether `spectre` and `pcid` read as 1 |
| Proxmox.CpuFlagsPresent | app/models/foreman_proxmox/proxmox.rb:145-148 | the flag segment is non-empty exactly when either flag is set, and then starts with `,flags=` |
| Proxmox.ParseCpu | app/models/foreman_proxmox/proxmox.rb:141-155 | the result has `cpu` with the cpu option, plus exactly the input keys other than `cpu_type`, `spectre` and `pcid` with a non-blank value, those values unchanged |
| Proxmox.CpuFromForm | app/models/foreman_proxmox/proxmox.rb:142-152 | a form cpu group (model name and two checkboxes) gives a single `cpu` entry carrying exactly the checked flags |
| Proxmox.HostWithSpectre | app/models/foreman_proxmox/proxmox.rb:142-148 | model `host` with only spectre checked gives `cpu = "cputype=host,flags=+spec-ctrl"` |
| Proxmox.ParseMemory | app/models/foreman_proxmox/proxmox.rb:128-139 | `memory` is always `to_i(memory)`. If `balloon` reads as 1, the keys are exactly memory, shares and balloon, with shares = `to_i(shares)` and balloon = `to_i(min_memory)`. Otherwise the keys are exactly memory and balloon, with balloon = `to_i(balloon)`, never 1 |
| Proxmox.BallooningFromForm | app/models/foreman_proxmox/proxmox.rb:129-133 | with ballooning checked, the numbers sent by the form come back as memory, balloon floor (from `min_memory`) and shares |
| Proxmox.FixedMemoryFromForm | app/models/foreman_proxmox/proxmox.rb:129-135 | without ballooning, a balloon number other than 1 comes back unchanged as the balloon target |
| Proxmox.VolumeRequest | app/models/foreman_proxmox/proxmox.rb:157-170 | `_delete` reading as 1 means delete slot `bus ++ device`. Otherwise the disk is `{bus ++ device, storage, size}` and the options are exactly the other keys with their values |
| Proxmox.ParseVolume | app/models/foreman_proxmox/proxmox.rb:157-173 | a deletion yields exactly `{delete: bus ++ device}`. Otherwise the result is what the flattener makes of that disk and those options |
| Proxmox.DeleteReadsOnlySlot | app/models/foreman_proxmox/proxmox.rb:159-164 | a deletion yields the single key `delete` and reads no field besides `bus`, `device` and `_delete` |
| Proxmox.Overlay | app/models/foreman_proxmox/proxmox.rb:123 | the chained merge has every key of every map; memory beats cpu, cpu beats volumes, volumes beat config, config beats args |
| Proxmox.StrippedEntries | app/models/foreman_proxmox/proxmox.rb:117-120 | the stripped attribute hash lacks exactly the structural keys. The stripped config lacks exactly the cpu keys, the memory keys and the blank values. Every other entry keeps its value |
| Proxmox.CpuKeyFree | app/models/foreman_proxmox/proxmox.rb:110-114 | neither the cpu selection nor the memory parameters hold a `cpu` key |
| Proxmox.PayloadCpuOption | app/models/foreman_proxmox/proxmox.rb:123 | the payload's `cpu` is the cpu option built from the config, whatever the other groups hold |
| Proxmox.PayloadMemory | app/models/foreman_proxmox/proxmox.rb:123 | the payload's `memory` and `balloon` are those of `parse_memory`, whatever the other groups hold |
| Proxmox.ParseVmResult | app/models/foreman_proxmox/proxmox.rb:108-126 | a missing `volumes` group fails first, then a missing `config` group; with both present the payload always holds `cpu` with the cpu option built from `config`, and `memory` and `balloon` with the values `parse_memory` gives for `config`, whatever the attribute hash and the volume hold |
| Proxmox.ParseVm | app/models/foreman_proxmox/proxmox.rb:108-126 | the result is `ParseVmResult` of the state before the call. On failure nothing changes. On success the attribute hash loses exactly its structural keys and `config` becomes its leftover entries |
| Provisioning.Client.Node | app/models/foreman_proxmox/proxmox.rb:224-226 | a node lookup is logged and answered by the cluster |
| Provisioning.Client.IdValid | app/models/foreman_proxmox/proxmox.rb:96 | the vmid check is logged and answered by the cluster |
| Provisioning.Client.Create | app/models/foreman_proxmox/proxmox.rb:99 | the create call is logged and answered by the cluster |
| Provisioning.Client.Get | app/models/foreman_proxmox/proxmox.rb:100 | the get call is logged and answered by the cluster |
| Provisioning.InvalidVmidFirst | app/models/foreman_proxmox/proxmox.rb:96 | an invalid vmid raises "invalid vmid" after the first-node lookup and the check, and nothing else is called |
| Provisioning.CreateOnlyAfterChecks | app/models/foreman_proxmox/proxmox.rb:96-99 | every run starts with the first-node lookup. `create` is called at most once, as the fourth call, only after the vmid passed the check, with the payload `parse_vm` returned. It has more than three calls exactly when every step before `create` succeeds, and then the third call is the target-node lookup and the fourth is `create` of that payload on the node it found |
| Provisioning.FailuresReraised | app/models/foreman_proxmox/proxmox.rb:102-105 | every failure is the one raised by the last call of the run, or by `parse_vm` right after the last node lookup |
| Provisioning.SuccessCreated | app/models/foreman_proxmox/proxmox.rb:99-101 | a successful run made five calls; `create` got the parsed payload and answered without error; the result is what `get` answered for the vmid |
| Provisioning.VmidKept | app/models/foreman_proxmox/proxmox.rb:100 | stripping the structural keys keeps the `vmid` entry that `get` is asked for |
| Provisioning.Submit | app/models/foreman_proxmox/proxmox.rb:99-100 | `create` then `get`, with the result and log given by `SubmitRun` |
| Provisioning.SubmitParsed | app/models/foreman_proxmox/proxmox.rb:99-100 | `parse_vm` then submission, with the result, log and state given by `ParseVmResult` and `SubmitParsedRun` |
| Provisioning.Provision | app/models/foreman_proxmox/proxmox.rb:97-100 | target-node lookup, parse and submission, with the result, log and state given by `ProvisionRun` |
| Provisioning.CreateVm | app/models/foreman_proxmox/proxmox.rb:95-106 | the result and the appended calls are those of `CreateVmRun`. The attributes and `config` change exactly when `parse_vm` is reached and succeeds, and then as `parse_vm` says. The returned flag saying whether the rescue reached `destroy_vm` is always false |

## Left out

- Symbol versus string keys: keys are strings throughout. The attribute hash is read both as `args[:vmid]` and as `args['config']`, so it is taken to have indifferent access.
- Proxmox.ParseCpu: a string `cpu` key in its input would be kept beside the symbol `:cpu` in Ruby. The model has only one `cpu` key, so that case is stated only for inputs without `cpu`; `parse_vm` never passes one.
- Proxmox.ParseVolume: the options reach the flattener as an unordered map, while Ruby keeps the form's key order in the hash passed to `Hash.stringify`, so the order of the options in the flattened disk string is not modelled; two volume groups differing only in key order flatten alike here.
- Provisioning.CreateVm: `Cluster.node` answers a query alone, so with empty attributes the two `client.nodes.first` lookups (the vmid check's node and the target node) always give the same answer; a cluster whose first node changes between the two calls is not modelled.
- Nested hashes hold only string values. Deeper nesting under `config` or `volumes` is not modelled.
- A missing or non-hash `config` or `volumes` entry, which raises `NoMethodError` in Ruby, is the error `Shape(key)`.
- `Fog::Proxmox::Disk.flatten` and `Fog::Proxmox::Hash.stringify` are a foreign library. They are the function parameter `Flattener`, and only its inputs are stated.
- The Proxmox client (`client`, `nodes.first`, `find_by_id`, `servers.id_valid?`, `create`, `get`) is not modelled. Its answers are given as a `Cluster`, so `id_valid?` is an arbitrary predicate.
- `destroy_vm` is defined outside this file. It is never reached (see above), so it is not modelled as a call.
- `String#to_i` ignores the `0d` radix prefix that Ruby accepts, because the form never sends one.
- Logging (`logger.debug`, `logger.warn`) is left out, as output only.
- Connection and credential handling (`test_connection`, `credentials_valid?`, `disconnect`, `client`, `identity_client`, `fog_credentials`) is left out: it is remote I/O.
- `find_vm_by_uuid`, `new_vm`, `new_volume`, `next_vmid` and `associated_host` are left out: they only forward to remote calls.
- The sorted listings `nodes`, `pools` and `storages` are left out: they are sorts over remote collections.
- The Rails `validates` declarations are left out: they belong to the framework.
- `ProxmoxContainerHelper` (`parse_container_*`) is not defined in proxmox.rb and is not modelled.
