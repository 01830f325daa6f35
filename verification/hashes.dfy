/**
 * The Ruby hashes the translator works on.  Keys are strings: the caller's
 * attribute hash is read both as `args[:vmid]` and as `args['config']`, so it
 * has indifferent access, and a symbol key merged into it becomes the string
 * of the same name.
 */
module Hashes {
  import opened Wrappers

  /** A nested form hash (the `config` and `volumes` groups), string to string, updated in place. */
  class Group {
    var entries: map<string, string>

    constructor (entries: map<string, string>)
      ensures this.entries == entries
    {
      this.entries := entries;
    }
  }

  /** A value of a flat parameter map: a form string, an integer, or a nested hash (by reference). */
  datatype Value = Str(s: string) | Int(i: int) | Nested(group: Group)

  type Payload = map<string, Value>

  /** The caller's top-level attribute hash, updated in place. */
  class Attributes {
    var entries: map<string, Value>

    constructor (entries: map<string, Value>)
      ensures this.entries == entries
    {
      this.entries := entries;
    }
  }

  /** `"#{h[key]}"` on a string hash: the value, or "" for a missing key (nil). */
  function Field(h: map<string, string>, key: string): string {
    if key in h then h[key] else ""
  }

  /** `h[key]` on the attribute hash, with nil as None. */
  function Lookup(h: map<string, Value>, key: string): Option<Value> {
    if key in h then Some(h[key]) else None
  }

  /** The nested hash stored under `key`, if that entry is one. */
  function GroupAt(h: map<string, Value>, key: string): Option<Group> {
    if key in h && h[key].Nested? then Some(h[key].group) else None
  }

  function GroupSet(g: Option<Group>): set<Group> {
    if g.Some? then {g.value} else {}
  }

  /** The entries of an optional nested hash. */
  function Contents(g: Option<Group>): Option<map<string, string>>
    reads GroupSet(g)
  {
    if g.Some? then Some(g.value.entries) else None
  }

  /** `h.select { |key, _| keys.include? key }` */
  function Select(h: map<string, string>, keys: set<string>): map<string, string> {
    map k | k in h && k in keys :: h[k]
  }

  /** A string hash as parameter values. */
  function Lift(h: map<string, string>): Payload {
    map k | k in h :: Str(h[k])
  }
}
