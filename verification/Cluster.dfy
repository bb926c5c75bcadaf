/** The shared object store of one namespace and the calls the operator makes on it. */
module Cluster {
  import opened Basics
  import opened SmbApi
  import opened ContainerConfig
  import opened Ownership

  datatype Kind = ConfigMap | Deployment | StatefulSet | Pvc | Service

  datatype ObjKey = ObjKey(kind: Kind, name: string)

  /** The data of a ConfigMap: absent, without our key, with text that does not parse, or good. */
  datatype Data = NoData | NoConfig | BadJson | Json(config: Config)

  /** A managed object; data matters for ConfigMaps, replicas for Deployments and StatefulSets. */
  datatype Object = Object(owners: seq<OwnerRef>, data: Data, replicas: int)

  datatype State = State(
    operator: OperatorConfig,
    shares: map<string, Share>,
    objects: map<ObjKey, Object>,
    securities: map<string, SecurityConfig>,
    commons: map<string, CommonConfig>)

  datatype Call =
    | GetShare(name: string) | UpdateShare(name: string) | UpdateStatus(name: string)
    | GetSecurity(name: string) | GetCommon(name: string)
    | GetObject(key: ObjKey) | CreateObject(key: ObjKey) | UpdateObject(key: ObjKey)

  /** The client calls that fail during one pass; a failed call has no effect. */
  type Faults = set<Call>

  datatype Fetch<+T> = Found(value: T) | NotFound | GetError

  function FetchObject(st: State, f: Faults, k: ObjKey): Fetch<Object> {
    if GetObject(k) in f then GetError else
    if k in st.objects then Found(st.objects[k]) else NotFound
  }

  function FetchShare(st: State, f: Faults, name: string): Fetch<Share> {
    if GetShare(name) in f then GetError else
    if name in st.shares then Found(st.shares[name]) else NotFound
  }

  /** A share's configuration resource: none if the share names none, an error if it is missing. */
  function FetchSecurity(st: State, f: Faults, s: Share): Fetch<Option<SecurityConfig>> {
    var name := s.spec.securityConfig;
    if name == "" then Found(None)
    else if GetSecurity(name) in f || name !in st.securities then GetError
    else Found(Some(st.securities[name]))
  }

  function FetchCommon(st: State, f: Faults, s: Share): Fetch<Option<CommonConfig>> {
    var name := s.spec.commonConfig;
    if name == "" then Found(None)
    else if GetCommon(name) in f || name !in st.commons then GetError
    else Found(Some(st.commons[name]))
  }

  /** Everything that defines the share's server, or an error. */
  function FetchInstance(st: State, f: Faults, s: Share): Option<Instance> {
    var security, common := FetchSecurity(st, f, s), FetchCommon(st, f, s);
    if security.Found? && common.Found?
    then Some(Instance(s, security.value, common.value, st.operator))
    else None
  }

  /** The configuration of a ConfigMap; a missing one reads as empty. */
  function LoadConfig(d: Data): Option<Config> {
    match d
    case NoData => Some(New())
    case NoConfig => Some(New())
    case BadJson => None
    case Json(c) => Some(c)
  }

  // ----- what one pass does to the store -----

  /** The one thing a pass does. All but the first three write to the store once. */
  datatype Action =
    | Idle
    | Fail
    | Crash
    | SaveShare(share: Share)
    | Release(share: Share)
    | Create(key: ObjKey, object: Object)
    | ClaimObject(key: ObjKey)
    | Transfer(key: ObjKey, to: OwnerRef)
    | SaveConfig(key: ObjKey, config: Config)
    | Resize(key: ObjKey, replicas: int)
  {
    predicate Writes() {
      !Idle? && !Fail? && !Crash?
    }
  }

  datatype Result = Done | Requeue | Error | Panic

  function ResultOf(a: Action): Result {
    match a
    case Idle => Done
    case Release(_) => Done
    case Fail => Error
    case Crash => Panic
    case _ => Requeue
  }

  function Put(st: State, k: ObjKey, o: Object): State {
    st.(objects := st.objects[k := o])
  }

  /** The store after the share's pass performed the action. */
  function Apply(st: State, s: Share, a: Action): State {
    match a
    case Idle => st
    case Fail => st
    case Crash => st
    case SaveShare(s') => st.(shares := st.shares[s.name := s'])
    case Release(s') => st.(shares := st.shares[s.name := s'])
    case Create(k, o) => Put(st, k, o)
    case ClaimObject(k) =>
      if k !in st.objects then st
      else
        var o := st.objects[k];
        Put(st, k, o.(owners := o.owners + [ShareRef(s.name, s.uid, false)]))
    case Transfer(k, to) =>
      if k !in st.objects then st
      else
        var o := st.objects[k];
        Put(st, k, o.(owners := WithController(o.owners, to.name, to.uid)))
    case SaveConfig(k, c) => if k in st.objects then Put(st, k, st.objects[k].(data := Json(c))) else st
    case Resize(k, n) => if k in st.objects then Put(st, k, st.objects[k].(replicas := n)) else st
  }
}
