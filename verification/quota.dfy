/**
 * pkg/quota/resourceQuota.go: quota arithmetic over shared Quantity cells.
 *
 * A Go ResourceQuota is a struct of three pointers, so copying the struct shares the cells.
 * `ResourceQuota` below is that struct and `Quantity` the cell; `Amounts` is the value it
 * denotes, where None is a nil pointer: a dimension without a limit.
 */
module Quota {
  import opened Prelude
  import opened Escapism
  import opened Pods

  datatype Dim = Cpu | Gpu | Memory

  /** The value of a ResourceQuota. */
  datatype Amounts = Amounts(cpu: Option<int>, gpu: Option<int>, memory: Option<int>) {
    function At(d: Dim): Option<int> {
      match d
      case Cpu => cpu
      case Gpu => gpu
      case Memory => memory
    }
  }

  function DimMinus(limit: Option<int>, amount: Option<int>): Option<int> {
    if limit.Some? && amount.Some? then Some(limit.value - amount.value) else limit
  }

  /** Every dimension that both sides have is debited. */
  function Minus(limit: Amounts, amount: Amounts): Amounts {
    Amounts(DimMinus(limit.cpu, amount.cpu), DimMinus(limit.gpu, amount.gpu),
            DimMinus(limit.memory, amount.memory))
  }

  predicate DimFits(request: Option<int>, limit: Option<int>) {
    request.Some? && limit.Some? ==> request.value <= limit.value
  }

  predicate Fits(request: Amounts, limit: Amounts) {
    DimFits(request.cpu, limit.cpu) && DimFits(request.gpu, limit.gpu)
    && DimFits(request.memory, limit.memory)
  }

  /** No nil cell is dereferenced when request is debited from limit. */
  predicate Covers(request: Amounts, limit: Amounts) {
    (limit.cpu.Some? ==> request.cpu.Some?) && (limit.gpu.Some? ==> request.gpu.Some?)
    && (limit.memory.Some? ==> request.memory.Some?)
  }

  /** No dimension is below zero. */
  ghost predicate NonNegative(a: Amounts) {
    forall d: Dim :: a.At(d).Some? ==> a.At(d).value >= 0
  }

  /** The three definitions above, dimension by dimension. */
  lemma Dimensions(request: Amounts, limit: Amounts)
    ensures Fits(request, limit) <==> forall d: Dim :: DimFits(request.At(d), limit.At(d))
    ensures Covers(request, limit) <==> forall d: Dim :: limit.At(d).Some? ==> request.At(d).Some?
    ensures forall d: Dim :: Minus(limit, request).At(d) == DimMinus(limit.At(d), request.At(d))
  {
    assert request.At(Cpu) == request.cpu && limit.At(Cpu) == limit.cpu;
    assert request.At(Gpu) == request.gpu && limit.At(Gpu) == limit.gpu;
    assert request.At(Memory) == request.memory && limit.At(Memory) == limit.memory;
  }

  /** resource.Quantity, on integers. */
  class Quantity {
    var value: int

    constructor (value: int)
      ensures this.value == value
    {
      this.value := value;
    }

    method Sub(amount: int)
      modifies this
      ensures value == old(value) - amount
    {
      value := value - amount;
    }

    method Add(amount: int)
      modifies this
      ensures value == old(value) + amount
    {
      value := value + amount;
    }
  }

  datatype ResourceQuota = ResourceQuota(cpu: Quantity?, gpu: Quantity?, memory: Quantity?) {
    /** The cells that the struct shares with its copies. */
    ghost function Cells(): set<Quantity> {
      (if cpu == null then {} else {cpu}) + (if gpu == null then {} else {gpu})
      + (if memory == null then {} else {memory})
    }

    ghost predicate Within(cells: set<Quantity>) {
      && (cpu != null ==> cpu in cells)
      && (gpu != null ==> gpu in cells)
      && (memory != null ==> memory in cells)
    }

    /** The struct shares no cell with `cells`. */
    ghost predicate Outside(cells: set<Quantity>) {
      && (cpu != null ==> cpu !in cells)
      && (gpu != null ==> gpu !in cells)
      && (memory != null ==> memory !in cells)
    }

    /** No two dimensions share a cell. */
    ghost predicate Distinct() {
      && (cpu != null ==> cpu != gpu && cpu != memory)
      && (gpu != null ==> gpu != memory)
    }

    /** The two structs share no cell. */
    ghost predicate Apart(other: ResourceQuota) {
      && (cpu != null ==> cpu != other.cpu && cpu != other.gpu && cpu != other.memory)
      && (gpu != null ==> gpu != other.cpu && gpu != other.gpu && gpu != other.memory)
      && (memory != null ==> memory != other.cpu && memory != other.gpu && memory != other.memory)
    }

    function Value(): Amounts
      reads cpu, gpu, memory
    {
      Amounts(CellValue(cpu), CellValue(gpu), CellValue(memory))
    }
  }

  function CellValue(q: Quantity?): Option<int>
    reads q
  {
    if q == null then None else Some(q.value)
  }

  /** ResourceQuota.Sub: debits the dimensions that both sides have. */
  method Sub(r: ResourceQuota, y: ResourceQuota)
    requires r.Distinct() && r.Apart(y)
    modifies r.cpu, r.gpu, r.memory
    ensures r.Value() == Minus(old(r.Value()), old(y.Value()))
  {
    if r.cpu != null && y.cpu != null {
      r.cpu.Sub(y.cpu.value);
    }
    if r.gpu != null && y.gpu != null {
      r.gpu.Sub(y.gpu.value);
    }
    if r.memory != null && y.memory != null {
      r.memory.Sub(y.memory.value);
    }
  }

  /** ResourceQuota.Add, stated by what Sub undoes. */
  method Add(r: ResourceQuota, y: ResourceQuota)
    requires r.Distinct() && r.Apart(y)
    modifies r.cpu, r.gpu, r.memory
    ensures Minus(r.Value(), old(y.Value())) == old(r.Value())
  {
    if r.cpu != null && y.cpu != null {
      r.cpu.Add(y.cpu.value);
    }
    if r.gpu != null && y.gpu != null {
      r.gpu.Add(y.gpu.value);
    }
    if r.memory != null && y.memory != null {
      r.memory.Add(y.memory.value);
    }
  }

  /** True unless some dimension that both sides have is short. */
  predicate ValidateResource(requested: ResourceQuota, quota: ResourceQuota)
    reads requested.cpu, requested.gpu, requested.memory, quota.cpu, quota.gpu, quota.memory
    ensures ValidateResource(requested, quota) <==> Fits(requested.Value(), quota.Value())
  {
    !((quota.cpu != null && requested.cpu != null && quota.cpu.value < requested.cpu.value)
      || (quota.gpu != null && requested.gpu != null && quota.gpu.value < requested.gpu.value)
      || (quota.memory != null && requested.memory != null
          && quota.memory.value < requested.memory.value))
  }

  // ---- group and instance type data ----

  /** A memory text: absent, a quantity, or one that does not parse. */
  datatype MemoryText = Unset | Parsed(quantity: int) | Malformed

  /** Limits as the API returns them, in integer units; a negative number means no limit. */
  datatype Limits = Limits(cpu: int, gpu: int, memory: MemoryText)

  /** What ConvertToResourceQuota makes of l; an error when the memory text does not parse. */
  function Converted(l: Limits): (r: Result<Amounts>) {
    if l.memory.Malformed? then Err
    else Ok(Amounts(
              if l.cpu < 0 then None else Some(l.cpu),
              if l.gpu < 0 then None else Some(l.gpu),
              match l.memory case Parsed(q) => Some(q) case _ => None))
  }

  method ConvertToResourceQuota(l: Limits) returns (r: Result<ResourceQuota>)
    ensures r.Ok? <==> Converted(l).Ok?
    ensures r.Ok? ==> r.value.Distinct() && fresh(r.value.Cells())
                      && Converted(l) == Ok(r.value.Value())
    ensures r.Err? <==> l.memory.Malformed?
    ensures r.Ok? ==>
      && (if l.cpu < 0 then r.value.cpu == null else r.value.cpu != null && r.value.cpu.value == l.cpu)
      && (if l.gpu < 0 then r.value.gpu == null else r.value.gpu != null && r.value.gpu.value == l.gpu)
      && (if l.memory.Unset? then r.value.memory == null
          else r.value.memory != null && r.value.memory.value == l.memory.quantity)
  {
    var cpu: Quantity? := new Quantity(0);
    var gpu: Quantity? := new Quantity(0);
    var memory: Quantity? := new Quantity(0);
    if l.cpu < 0 {
      cpu := null;
    } else {
      cpu.value := l.cpu;
    }
    if l.gpu < 0 {
      gpu := null;
    } else {
      gpu.value := l.gpu;
    }
    match l.memory {
      case Unset => memory := null;
      case Parsed(q) => memory := new Quantity(q);
      case Malformed => return Err;
    }
    r := Ok(ResourceQuota(cpu, gpu, memory));
  }

  /** A group: its name, the quota of the whole group, and the quota of each of its users. */
  datatype Group = Group(name: Text, project: Limits, user: Limits)

  // ---- usage ----

  /** The limits of one container; an absent limit counts zero. */
  datatype Container = Container(cpu: int, gpu: int, memory: int) {
    function At(d: Dim): int {
      match d
      case Cpu => cpu
      case Gpu => gpu
      case Memory => memory
    }
  }

  /** A job's pod as usage sees it: whose it is, by label or by name, and its limits. */
  datatype Pod = Pod(group: Text, user: Text, phase: PodPhase, containers: seq<Container>)

  function ContainersUse(cs: seq<Container>, d: Dim): int {
    if cs == [] then 0 else ContainersUse(cs[..|cs| - 1], d) + cs[|cs| - 1].At(d)
  }

  lemma {:induction false} ContainersNonNegative(cs: seq<Container>, d: Dim)
    requires forall c :: c in cs ==> c.At(d) >= 0
    ensures ContainersUse(cs, d) >= 0
  {
    if cs != [] {
      ContainersNonNegative(cs[..|cs| - 1], d);
    }
  }

  function PodUse(p: Pod, d: Dim): int {
    if Live(p.phase) then ContainersUse(p.containers, d) else 0
  }

  /** What the active pods among `pods` use of dimension d. */
  function Use(pods: seq<Pod>, d: Dim): int {
    if pods == [] then 0 else Use(pods[..|pods| - 1], d) + PodUse(pods[|pods| - 1], d)
  }

  function Usage(pods: seq<Pod>): Amounts {
    Amounts(Some(Use(pods, Cpu)), Some(Use(pods, Gpu)), Some(Use(pods, Memory)))
  }

  /** What is left of limit once the pods are paid for. */
  function Left(limit: Amounts, pods: seq<Pod>): Amounts {
    Minus(limit, Usage(pods))
  }

  lemma {:induction false} ContainersAdd(a: seq<Container>, b: seq<Container>, d: Dim)
    ensures ContainersUse(a + b, d) == ContainersUse(a, d) + ContainersUse(b, d)
  {
    if b == [] {
      assert a + b == a;
    } else {
      ContainersAdd(a, b[..|b| - 1], d);
      assert (a + b)[..|a + b| - 1] == a + b[..|b| - 1];
    }
  }

  /** Usage is a sum over pods, and over the containers of those that are pending or running. */
  lemma {:induction false} UseAdds(a: seq<Pod>, b: seq<Pod>, p: Pod, c: Container, d: Dim)
    ensures Use(a + b, d) == Use(a, d) + Use(b, d) && Use([], d) == 0
    ensures p.phase in {KubePending, KubeRunning} ==>
              Use([p.(containers := p.containers + [c])], d) == Use([p], d) + c.At(d)
    ensures p.phase !in {KubePending, KubeRunning} || p.containers == [] ==> Use([p], d) == 0
  {
    var q := p.(containers := p.containers + [c]);
    assert [p][..0] == [] && [q][..0] == [];
    assert Use([p], d) == PodUse(p, d) && Use([q], d) == PodUse(q, d);
    ContainersAdd(p.containers, [c], d);
    assert [c][..0] == [];
    if b == [] {
      assert a + b == a;
    } else {
      UseAdds(a, b[..|b| - 1], p, c, d);
      assert (a + b)[..|a + b| - 1] == a + b[..|b| - 1];
    }
  }

  /** Adds up the limits of the active pods into three fresh cells. */
  method CurrentResourceUsage(pods: seq<Pod>) returns (usage: ResourceQuota)
    ensures usage.Distinct() && fresh(usage.Cells())
    ensures usage.Value() == Usage(pods)
  {
    var cpu := new Quantity(0);
    var gpu := new Quantity(0);
    var memory := new Quantity(0);
    usage := ResourceQuota(cpu, gpu, memory);
    for i := 0 to |pods|
      invariant usage.Value() == Usage(pods[..i])
    {
      var pod := pods[i];
      assert pods[..i + 1][..i] == pods[..i];
      if pod.phase == KubePending || pod.phase == KubeRunning {
        ghost var before := Usage(pods[..i]);
        for c := 0 to |pod.containers|
          invariant usage.Value() == Amounts(
                      Some(before.cpu.value + ContainersUse(pod.containers[..c], Cpu)),
                      Some(before.gpu.value + ContainersUse(pod.containers[..c], Gpu)),
                      Some(before.memory.value + ContainersUse(pod.containers[..c], Memory)))
        {
          var container := pod.containers[c];
          assert pod.containers[..c + 1][..c] == pod.containers[..c];
          cpu.Add(container.cpu);
          gpu.Add(container.gpu);
          memory.Add(container.memory);
        }
        assert pod.containers[..|pod.containers|] == pod.containers;
      }
    }
    assert pods[..|pods|] == pods;
  }

  // ---- one tick's view of the cluster ----

  /**
   * What the lookups of one scheduler tick return: each may fail, and each answers the same
   * throughout the tick. `labelOf` is the escaping that turns a name into a label value.
   */
  datatype Book = Book(instances: Text -> Result<Limits>,
                       groups: Text -> Result<Group>,
                       pods: Result<seq<Pod>>,
                       labelOf: Text -> Text) {

    /** FetchInstanceType and InstanceTypeRequestedQuota. */
    function Request(instance: Text): Result<Amounts> {
      match instances(instance)
      case Ok(l) => Converted(l)
      case Err => Err
    }

    function GroupPods(name: Text): seq<Pod>
      requires pods.Ok?
    {
      Filter(pods.value, (p: Pod) => p.group == labelOf(name))
    }

    /** CalculateUserRemainingResourceQuota leaves a name that looks like a label alone. */
    function UserLabel(user: Text): Text {
      if PREFIX <= user then user else labelOf(user)
    }

    function UserPods(name: Text, user: Text): seq<Pod>
      requires pods.Ok?
    {
      Filter(pods.value, (p: Pod) => p.group == labelOf(name) && p.user == UserLabel(user))
    }

    /** What the group may still take, or an error. */
    function GroupLeft(groupId: Text): Result<Amounts> {
      match groups(groupId)
      case Err => Err
      case Ok(g) =>
        if pods.Err? || Converted(g.project).Err? || Converted(g.user).Err? then Err
        else Ok(Left(Converted(g.project).value, GroupPods(g.name)))
    }

    /** What the user may still take in the group, or an error. */
    function UserLeft(groupId: Text, user: Text): Result<Amounts> {
      match groups(groupId)
      case Err => Err
      case Ok(g) =>
        if pods.Err? || Converted(g.project).Err? || Converted(g.user).Err? then Err
        else Ok(Left(Converted(g.user).value, UserPods(g.name, user)))
    }
  }

  /** The four guarded debits that end both Calculate functions. */
  method DebitUsage(remaining: ResourceQuota, usage: ResourceQuota, ghost pods: seq<Pod>)
    requires remaining.Distinct() && remaining.Apart(usage)
    requires usage.Value() == Usage(pods)
    modifies remaining.cpu, remaining.gpu, remaining.memory
    ensures remaining.Value() == Left(old(remaining.Value()), pods)
  {
    if remaining.cpu != null {
      remaining.cpu.Sub(usage.cpu.value);
    }
    if remaining.gpu != null {
      remaining.gpu.Sub(usage.gpu.value);
    }
    if remaining.memory != null {
      remaining.memory.Sub(usage.memory.value);
    }
  }

  method CalculateGroupRemainingResourceQuota(book: Book, groupId: Text)
    returns (r: Result<ResourceQuota>)
    ensures r.Ok? <==> book.GroupLeft(groupId).Ok?
    ensures r.Ok? ==> r.value.Distinct() && fresh(r.value.Cells())
                      && book.GroupLeft(groupId) == Ok(r.value.Value())
  {
    var group := book.groups(groupId);
    if group.Err? || book.pods.Err? {
      return Err;
    }
    var pods := book.GroupPods(group.value.name);
    var usage := CurrentResourceUsage(pods);
    var project := ConvertToResourceQuota(group.value.project);
    var user := ConvertToResourceQuota(group.value.user);
    if project.Err? || user.Err? {
      return Err;
    }
    DebitUsage(project.value, usage, pods);
    r := project;
  }

  method CalculateUserRemainingResourceQuota(book: Book, groupId: Text, user: Text)
    returns (r: Result<ResourceQuota>)
    ensures r.Ok? <==> book.UserLeft(groupId, user).Ok?
    ensures r.Ok? ==> r.value.Distinct() && fresh(r.value.Cells())
                      && book.UserLeft(groupId, user) == Ok(r.value.Value())
  {
    var group := book.groups(groupId);
    if group.Err? || book.pods.Err? {
      return Err;
    }
    var pods := book.UserPods(group.value.name, user);
    var usage := CurrentResourceUsage(pods);
    var project := ConvertToResourceQuota(group.value.project);
    var each := ConvertToResourceQuota(group.value.user);
    if project.Err? || each.Err? {
      return Err;
    }
    DebitUsage(each.value, usage, pods);
    r := each;
  }
}
