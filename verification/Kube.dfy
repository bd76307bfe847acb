/**
 Kubernetes objects as the operator reads and writes them. One value type covers
 every kind the operator touches, so the reconcile engine, the planner and the
 cleanup code all speak about the same stored objects.
 */
module Kube {

  datatype Option<+T> = None | Some(value: T)

  datatype Result<+T, +E> = Ok(value: T) | Err(error: E)

  type StringMap = map<string, string>

  /** `defaults` are the spec fields the API server fills in when a client leaves them out. */
  datatype Kind = Kind(name: string, tracksGeneration: bool, defaults: StringMap)

  datatype Key = Key(kind: Kind, namespace: string, name: string)

  datatype OwnerRef = OwnerRef(name: string, uid: nat)

  /** What a DataSource points to. */
  datatype Source =
    | NoSource
    | Pvc(namespace: string, name: string)
    | Snapshot(namespace: string, name: string)
    | Reference(namespace: string, name: string)

  datatype Registry = NoRegistry | Registry(url: string, architecture: string)

  datatype Parameter = Parameter(name: string, value: string)

  /** The VirtualMachine inside a template, or the fact that it does not decode. */
  datatype VmDefinition = Undecodable | VmDefinition(usesSourceRef: bool, body: string)

  datatype Spec =
    | Fields(fields: StringMap)
    | DataSourceSpec(source: Source)
    | CronSpec(managed: string, registry: Registry, schedule: string)
    | TemplateSpec(vm: VmDefinition, parameters: seq<Parameter>)

  /** `version` is the resourceVersion; zero stands for the empty string a client starts from. */
  datatype Object = Object(
    key: Key,
    uid: nat,
    version: nat,
    generation: nat,
    labels: StringMap,
    annotations: StringMap,
    ownerRefs: seq<OwnerRef>,
    finalizers: set<string>,
    terminating: bool,
    spec: Spec,
    conditions: StringMap)

  const DATA_SOURCE := Kind("DataSource", true, map[])
  const DATA_IMPORT_CRON := Kind("DataImportCron", true, map[])
  const PVC := Kind("PersistentVolumeClaim", false, map[])
  const TEMPLATE := Kind("Template", false, map[])

  const GOLDEN_IMAGES := "kubevirt-os-images"

  type Cron = o: Object | o.key.kind == DATA_IMPORT_CRON && o.spec.CronSpec?
    witness Object(Key(DATA_IMPORT_CRON, "", ""), 0, 0, 0, map[], map[], [], {}, false, CronSpec("", NoRegistry, ""),
                   map[])

  /** The zero value of the same Go type. */
  function BlankSpec(like: Spec): Spec {
    match like
    case Fields(_) => Fields(map[])
    case DataSourceSpec(_) => DataSourceSpec(NoSource)
    case CronSpec(_, _, _) => CronSpec("", NoRegistry, "")
    case TemplateSpec(_, _) => TemplateSpec(Undecodable, [])
  }

  /** The empty resource that is filled by a read, with only its key set. */
  function Blank(like: Object): Object {
    Object(like.key, 0, 0, 0, map[], map[], [], {}, false, BlankSpec(like.spec), map[])
  }

  predicate HasPrefix(s: string, prefix: string) {
    prefix <= s
  }

  function Lookup<K, V>(m: map<K, V>, k: K): Option<V> {
    if k in m then Some(m[k]) else None
  }

  /** A Go map read: a missing key reads as the empty string. */
  function GetOrEmpty(m: StringMap, k: string): string {
    if k in m then m[k] else ""
  }

  /** Maps that answer every read alike are the same map. */
  lemma SameReads(m: StringMap, n: StringMap)
    requires forall k :: Lookup(m, k) == Lookup(n, k)
    ensures m == n
  {
    assert forall k :: k in m <==> Lookup(m, k).Some?;
    assert forall k :: k in n <==> Lookup(n, k).Some?;
    assert forall k <- m :: Lookup(m, k) == Some(m[k]);
  }
}
