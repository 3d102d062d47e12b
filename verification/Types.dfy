/** The records the wizard keeps about shared upstream resources. */
module Types {

  datatype Option<+T> = None | Some(value: T)

  /** One run step holding a reference to a resource (ResourceReference). */
  datatype Ref = Ref(run: string, step: string)

  datatype Service = Forge | Index | Weave

  /** Identifies one upstream resource and its ledger entry (ledger.Key). */
  datatype Key = Key(service: Service, kind: string, name: string)

  /** The mutable part of a ledger entry (WizardResourceSpec). */
  datatype Entry = Entry(
    managed: bool,
    hash: string,
    externalId: string,
    terminating: bool,
    refs: seq<Ref>)

  /** A stored entry: uid names its life, ver changes with every write (resourceVersion). */
  datatype Stored = Stored(uid: nat, ver: nat, entry: Entry)

  /** Adjustments made while a reference is added (ledger.AddOptions). */
  datatype AddOptions = AddOptions(manage: bool, externalId: string)

  ghost predicate NoDuplicates<T(!new)>(s: seq<T>) {
    forall i, j :: 0 <= i < j < |s| ==> s[i] != s[j]
  }
}
