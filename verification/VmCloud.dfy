/** The virtual machines of the cloud and what else a machine's reconciliation changes, and the API calls made for it.
    */
module VmCloud {
  import opened Faults

  type Id = nat

  /** The states the code tells apart; `Unset` is the empty string. */
  datatype VmState = Unset | Running | InError | Expunging | Expunged | OtherState(text: string)

  datatype Vm = Vm(name: string, template: Id, zone: Id, networks: seq<Id>, state: VmState, nics: seq<string>)

  /**
   `userExpunge` is the capability that decides whether a destroyed VM is expunged at once, and `members` holds the VMs
   behind each load balancer rule. On the side of Kubernetes, `discarded` are the CAPI machines told to go, by the name
   of the machine they own, and `checkers` the VMs that have a state checker.
   */
  datatype Cloud = Cloud(clock: nat, nextId: Id, vms: map<Id, Vm>, userExpunge: bool, members: map<Id, seq<Id>>,
                         discarded: set<string>, checkers: set<Id>)

  class CloudStack {
    const env: Env
    var cloud: Cloud

    constructor (env: Env, cloud: Cloud)
      ensures this.env == env && this.cloud == cloud
    {
      this.env, this.cloud := env, cloud;
    }
  }

  function Tick(w: Cloud): Cloud { w.(clock := w.clock + 1) }

  /** The cloud without the count of calls made to it. */
  function Still(w: Cloud): Cloud { w.(clock := 0) }

  function Change(env: Env, w: Cloud, accepted: bool, refusal: Text, done: Cloud): (Cloud, GoError) {
    var (w1, err) := Attempt(env(w.clock), accepted, refusal, w, done);
    (Tick(w1), err)
  }

  function Read<T>(env: Env, w: Cloud, reply: Reply<T>): (Cloud, Reply<T>) {
    (Tick(w), Answer(env(w.clock), reply))
  }

  /** Identifiers were handed out before `nextId`. */
  ghost predicate WellFormed(w: Cloud) { forall id :: id in w.vms ==> id < w.nextId }

  /** Identifiers of the VMs of a name, in the order they were created. */
  function Named(vms: map<Id, Vm>, name: string, from: Id, to: Id): (ids: seq<Id>)
    decreases to - from
  {
    if to <= from then []
    else
      var rest := Named(vms, name, from + 1, to);
      if from in vms && vms[from].name == name then [from] + rest else rest
  }

  datatype Hit = One(id: Id, vm: Vm) | Several

  function GetMetricsByID(env: Env, w: Cloud, id: Id): (Cloud, Reply<Hit>) {
    Read(env, w, if id in w.vms then Reply(One(id, w.vms[id])) else Failed(NoMatch))
  }

  function GetMetricsByName(env: Env, w: Cloud, name: string): (Cloud, Reply<Hit>) {
    var ids := Named(w.vms, name, 0, w.nextId);
    Read(env, w,
         if ids == [] then Failed(NoMatch)
         else if |ids| == 1 && ids[0] in w.vms then Reply(One(ids[0], w.vms[ids[0]]))
         else Reply(Several))
  }

  predicate Matches(vm: Vm, name: string, template: Id, zone: Id, network: Id) {
    vm.name == name && vm.template == template && vm.zone == zone && network in vm.networks
  }

  function Matching(vms: map<Id, Vm>, name: string, template: Id, zone: Id, network: Id, from: Id, to: Id)
    : (ids: seq<Id>)
    decreases to - from
  {
    if to <= from then []
    else
      var rest := Matching(vms, name, template, zone, network, from + 1, to);
      if from in vms && Matches(vms[from], name, template, zone, network) then [from] + rest else rest
  }

  function ListMachines(env: Env, w: Cloud, name: string, template: Id, zone: Id, network: Id): (Cloud, Reply<seq<Id>>) {
    Read(env, w, Reply(Matching(w.vms, name, template, zone, network, 0, w.nextId)))
  }

  /** The lookups of offerings, templates, limits, volumes and state checkers, as far as they matter here: each may
      fail. */
  function Lookup(env: Env, w: Cloud): (Cloud, GoError) {
    (Tick(w), match env(w.clock) case Fault(text, _) => Error(text) case Normal => Nil)
  }

  /** The new VM's identifier is `nextId`. */
  function Deploy(env: Env, w: Cloud, vm: Vm): (Cloud, GoError) {
    Change(env, w, true, Other, w.(nextId := w.nextId + 1, vms := w.vms[w.nextId := vm]))
  }

  function ListCapabilities(env: Env, w: Cloud): (Cloud, Reply<bool>) { Read(env, w, Reply(w.userExpunge)) }

  function Destroyed(vms: map<Id, Vm>, id: Id, expunge: bool): map<Id, Vm> {
    if id !in vms then vms
    else vms[id := vms[id].(state := if expunge then Expunging else OtherState("Destroyed"))]
  }

  function Destroy(env: Env, w: Cloud, id: Id, expunge: bool): (Cloud, GoError) {
    Change(env, w, id in w.vms, UnknownUuid, w.(vms := Destroyed(w.vms, id, expunge)))
  }

  function MembersOf(w: Cloud, rule: Id): seq<Id> { if rule in w.members then w.members[rule] else [] }

  function ListMembers(env: Env, w: Cloud, rule: Id): (Cloud, Reply<seq<Id>>) { Read(env, w, Reply(MembersOf(w, rule))) }

  function AssignMember(env: Env, w: Cloud, rule: Id, id: Id): (Cloud, GoError) {
    Change(env, w, id in w.vms, Other, w.(members := w.members[rule := MembersOf(w, rule) + [id]]))
  }

  /** The deletion of a machine's CAPI machine, which was fetched before. */
  function Discard(env: Env, w: Cloud, name: string): (Cloud, GoError) {
    Change(env, w, true, Other, w.(discarded := w.discarded + {name}))
  }

  /** Creation is refused with "already exists", for which `Duplicate` stands here. */
  function CreateChecker(env: Env, w: Cloud, id: Id): (Cloud, GoError) {
    Change(env, w, id !in w.checkers, Duplicate, w.(checkers := w.checkers + {id}))
  }
}
