// Profile documents as the loader is handed them.

module Profiles {

  datatype Option<+T> = None | Some(value: T) {
    function UnwrapOr(default: T): T { if Some? then value else default }
  }

  datatype EntryId = EntryId(name: string)

  datatype Realm = Root | Local(entry: EntryId) | Shared(name: string)

  /** One service name mapped to a realm by an entry. */
  datatype Binding = Binding(service: string, realm: Realm)

  datatype PluginRef = PluginRef(package: string, version: string, hash: string)

  /** The reserved package of a pure grouping entry, which spawns no fiber. */
  const GROUP_PACKAGE := "jinn.profile/group"

  /** A config payload; only its type's own equality attestation may compare two. */
  datatype Config = Config(payload: string)

  datatype Entry = Entry(
    id: EntryId, plugin: PluginRef, config: Config, disabled: bool,
    parent: Option<EntryId>, isolation: seq<Binding>)

  predicate IsGroup(entry: Entry) { entry.plugin.package == GROUP_PACKAGE }

  /** A service as a plugin declares it: its name, and the contract type that goes with the name in a slot key. */
  datatype Service = Service(name: string, contract: nat)

  /** What a package's lane declares: the services it injects and the one it provides. */
  datatype Lane = Lane(injects: seq<Service>, offers: Option<Service>)

  /** The records of a document by id. */
  type Doc = map<EntryId, Entry>

  /** A document's records by id: the first occurrence of an id wins. */
  function Records(entries: seq<Entry>): Doc {
    if entries == [] then map[] else
      var last := entries[|entries| - 1];
      var m := Records(entries[..|entries| - 1]);
      if last.id in m then m else m[last.id := last]
  }

  lemma {:induction false} RecordsHold(entries: seq<Entry>)
    ensures forall id :: id in Records(entries) ==>
              Records(entries)[id].id == id && Records(entries)[id] in entries
    ensures forall i :: 0 <= i < |entries| ==> entries[i].id in Records(entries)
  {
    if entries != [] { RecordsHold(entries[..|entries| - 1]); }
  }

  /** No id occurs twice. */
  predicate Distinct(entries: seq<Entry>) {
    forall i, j :: 0 <= i < j < |entries| ==> entries[i].id != entries[j].id
  }
}
