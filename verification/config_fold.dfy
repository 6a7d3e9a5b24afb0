/** Folding the framework's half of the configuration block. */
module ConfigFold {
  // Layers are folded lowest first: every leaf is the one of the highest layer that states it, and an
  // affinity is replaced as a whole.

  import opened Wrappers
  import opened ProductLogging

  // ---------------------------------------------------------------------------------------------
  // The configuration block
  // ---------------------------------------------------------------------------------------------

  type Quantity = string

  datatype CPUResource = CPUResource(min: Option<Quantity>, max: Option<Quantity>)
  datatype MemoryResource = MemoryResource(limit: Option<Quantity>)
  datatype StorageResource = StorageResource(capacity: Option<Quantity>, storageClass: Option<string>)

  datatype ResourcesSpec = ResourcesSpec(
    cpu: Option<CPUResource>,
    memory: Option<MemoryResource>,
    storage: Option<StorageResource>)

  /** Scheduling terms are opaque strings; a node affinity has at most one required selector. */
  datatype NodeAffinity = NodeAffinity(required: Option<string>, preferred: seq<string>)
  datatype PodTerms = PodTerms(required: seq<string>, preferred: seq<string>)

  datatype Affinity = Affinity(
    nodeAffinity: Option<NodeAffinity>,
    podAffinity: Option<PodTerms>,
    podAntiAffinity: Option<PodTerms>)

  /** The schema-free field as a decoder sees it: empty, not decodable, or an affinity. */
  datatype RawAffinity = Unstated | Malformed | Stated(affinity: Affinity)

  datatype RoleGroupConfig = RoleGroupConfig(
    affinity: RawAffinity,
    gracefulShutdownTimeout: Option<string>,
    logging: Option<LoggingSpec>,
    resources: Option<ResourcesSpec>)

  type Layers = seq<Option<RoleGroupConfig>>

  // ---------------------------------------------------------------------------------------------
  // Leaves
  // ---------------------------------------------------------------------------------------------

  /** Everything a layer can state apart from its affinity; a block counts as stated when it is present. */
  datatype Leaf =
    | Timeout
    | Resources | CpuBlock | CpuMin | CpuMax | MemoryBlock | MemoryLimit | StorageBlock | Capacity | StorageClass
    | Logging | VectorAgentFlag | Container(container: string)
    | ConsoleLevel(container: string) | FileLevel(container: string) | Logger(container: string, logger: string)

  datatype Value = Present | Text(text: string) | Flag(flag: bool)

  function Block(present: bool): Option<Value> {
    if present then Some(Present) else None
  }

  function AsText(text: Option<string>): Option<Value> {
    if text.Some? then Some(Value.Text(text.value)) else None
  }

  function ResourceLeaf(resources: Option<ResourcesSpec>, leaf: Leaf): Option<Value> {
    if resources.None? then None else
    var r := resources.value;
    match leaf
    case Resources => Some(Present)
    case CpuBlock => Block(r.cpu.Some?)
    case CpuMin => if r.cpu.Some? then AsText(r.cpu.value.min) else None
    case CpuMax => if r.cpu.Some? then AsText(r.cpu.value.max) else None
    case MemoryBlock => Block(r.memory.Some?)
    case MemoryLimit => if r.memory.Some? then AsText(r.memory.value.limit) else None
    case StorageBlock => Block(r.storage.Some?)
    case Capacity => if r.storage.Some? then AsText(r.storage.value.capacity) else None
    case StorageClass => if r.storage.Some? then AsText(r.storage.value.storageClass) else None
    case _ => None
  }

  function LoggingLeaf(logging: Option<LoggingSpec>, leaf: Leaf): Option<Value> {
    match leaf
    case Logging => Block(logging.Some?)
    case VectorAgentFlag => var flag := VectorAgent(logging); if flag.Some? then Some(Flag(flag.value)) else None
    case Container(name) => Block(name in ContainersOf(logging))
    case ConsoleLevel(name) => AsText(Level(ContainerOf(logging, name).console))
    case FileLevel(name) => AsText(Level(ContainerOf(logging, name).file))
    case Logger(name, logger) => AsText(LoggerLevel(ContainerOf(logging, name), logger))
    case _ => None
  }

  function StatedBy(config: RoleGroupConfig, leaf: Leaf): Option<Value> {
    if leaf == Timeout then AsText(config.gracefulShutdownTimeout)
    else Upper(ResourceLeaf(config.resources, leaf), LoggingLeaf(config.logging, leaf))
  }

  /** The leaves leave nothing out: blocks that state the same resources and the same timeout at every leaf
      are the same there. */
  lemma LeavesTell(a: RoleGroupConfig, b: RoleGroupConfig)
    requires forall leaf :: StatedBy(a, leaf) == StatedBy(b, leaf)
    ensures a.gracefulShutdownTimeout == b.gracefulShutdownTimeout && a.resources == b.resources
  {
    assert StatedBy(a, Timeout) == StatedBy(b, Timeout) && StatedBy(a, Resources) == StatedBy(b, Resources);
    assert StatedBy(a, CpuBlock) == StatedBy(b, CpuBlock) && StatedBy(a, CpuMin) == StatedBy(b, CpuMin);
    assert StatedBy(a, CpuMax) == StatedBy(b, CpuMax) && StatedBy(a, MemoryBlock) == StatedBy(b, MemoryBlock);
    assert StatedBy(a, MemoryLimit) == StatedBy(b, MemoryLimit) && StatedBy(a, StorageBlock) == StatedBy(b, StorageBlock);
    assert StatedBy(a, Capacity) == StatedBy(b, Capacity) && StatedBy(a, StorageClass) == StatedBy(b, StorageClass);
  }

  predicate States(layer: Option<RoleGroupConfig>, leaf: Leaf) {
    layer.Some? && StatedBy(layer.value, leaf).Some?
  }

  /** What the highest of the first `n` layers that state `leaf` says. */
  function Highest(layers: Layers, n: nat, leaf: Leaf): Option<Value>
    requires n <= |layers|
  {
    if n == 0 then None
    else if States(layers[n - 1], leaf) then StatedBy(layers[n - 1].value, leaf)
    else Highest(layers, n - 1, leaf)
  }

  lemma {:induction false} HighestAt(layers: Layers, n: nat, k: nat, leaf: Leaf)
    requires k < n <= |layers| && States(layers[k], leaf)
    requires forall i :: k < i < n ==> !States(layers[i], leaf)
    ensures Highest(layers, n, leaf) == StatedBy(layers[k].value, leaf)
  {
    if k < n - 1 {
      HighestAt(layers, n - 1, k, leaf);
    }
  }

  lemma {:induction false} HighestNone(layers: Layers, n: nat, leaf: Leaf)
    requires n <= |layers|
    ensures Highest(layers, n, leaf).None? <==> forall i :: 0 <= i < n ==> !States(layers[i], leaf)
  {
    if n > 0 {
      HighestNone(layers, n - 1, leaf);
    }
  }

  // ---------------------------------------------------------------------------------------------
  // Resources
  // ---------------------------------------------------------------------------------------------

  /** Leaf by leaf: an empty block states nothing, so whatever the lower layer says below it stays. */
  method FoldResources(lower: Option<ResourcesSpec>, upper: Option<ResourcesSpec>) returns (merged: Option<ResourcesSpec>)
    ensures forall leaf :: ResourceLeaf(merged, leaf) == Upper(ResourceLeaf(lower, leaf), ResourceLeaf(upper, leaf))
  {
    if lower.None? {
      return upper;
    }
    if upper.None? {
      return lower;
    }
    var cpu, memory, storage := upper.value.cpu, upper.value.memory, upper.value.storage;
    if cpu.None? {
      cpu := lower.value.cpu;
    } else if lower.value.cpu.Some? {
      if cpu.value.min.None? {
        cpu := Some(cpu.value.(min := lower.value.cpu.value.min));
      }
      if cpu.value.max.None? {
        cpu := Some(cpu.value.(max := lower.value.cpu.value.max));
      }
    }
    if memory.None? {
      memory := lower.value.memory;
    } else if lower.value.memory.Some? {
      if memory.value.limit.None? {
        memory := Some(memory.value.(limit := lower.value.memory.value.limit));
      }
    }
    if storage.None? {
      storage := lower.value.storage;
    } else if lower.value.storage.Some? {
      if storage.value.capacity.None? {
        storage := Some(storage.value.(capacity := lower.value.storage.value.capacity));
      }
      if storage.value.storageClass.None? {
        storage := Some(storage.value.(storageClass := lower.value.storage.value.storageClass));
      }
    }
    merged := Some(ResourcesSpec(cpu, memory, storage));
  }

  // ---------------------------------------------------------------------------------------------
  // Affinity
  // ---------------------------------------------------------------------------------------------

  datatype Member = NodeMember | PodMember | PodAntiMember

  predicate StatesMember(a: Affinity, m: Member) {
    match m
    case NodeMember => a.nodeAffinity.Some?
    case PodMember => a.podAffinity.Some?
    case PodAntiMember => a.podAntiAffinity.Some?
  }

  /** The terms a member carries, required ones first; a member that is absent carries none. */
  function Terms(a: Option<Affinity>, m: Member): (seq<string>, seq<string>) {
    if a.None? || !StatesMember(a.value, m) then ([], [])
    else match m
      case NodeMember =>
        (if a.value.nodeAffinity.value.required.Some? then [a.value.nodeAffinity.value.required.value] else [],
         a.value.nodeAffinity.value.preferred)
      case PodMember => (a.value.podAffinity.value.required, a.value.podAffinity.value.preferred)
      case PodAntiMember => (a.value.podAntiAffinity.value.required, a.value.podAntiAffinity.value.preferred)
  }

  predicate Carries(a: Option<Affinity>, m: Member) {
    Terms(a, m) != ([], [])
  }

  predicate CarriesAny(a: Option<Affinity>) {
    Carries(a, NodeMember) || Carries(a, PodMember) || Carries(a, PodAntiMember)
  }

  ghost predicate SameTerms(a: Option<Affinity>, b: Option<Affinity>) {
    forall m :: Terms(a, m) == Terms(b, m)
  }

  /** No member is stated without a term, and an affinity without a member does not exist. */
  ghost predicate Normal(a: Option<Affinity>) {
    a.Some? ==> CarriesAny(a) && forall m :: StatesMember(a.value, m) ==> Carries(a, m)
  }

  /** What was cleared reads the same as what never existed. */
  method NormalizeAffinity(a: Option<Affinity>) returns (out: Option<Affinity>)
    ensures Normal(out)
    ensures SameTerms(out, a)
    ensures out.None? <==> !CarriesAny(a)
    ensures out.Some? ==> forall m :: StatesMember(out.value, m) <==> Carries(a, m)
  {
    if a.None? {
      return None;
    }
    var copy := a.value;
    if copy.nodeAffinity.Some? && copy.nodeAffinity.value.required.None? && |copy.nodeAffinity.value.preferred| == 0 {
      copy := copy.(nodeAffinity := None);
    }
    if copy.podAffinity.Some? && |copy.podAffinity.value.required| == 0 && |copy.podAffinity.value.preferred| == 0 {
      copy := copy.(podAffinity := None);
    }
    if copy.podAntiAffinity.Some? && |copy.podAntiAffinity.value.required| == 0 && |copy.podAntiAffinity.value.preferred| == 0 {
      copy := copy.(podAntiAffinity := None);
    }
    if copy.nodeAffinity.None? && copy.podAffinity.None? && copy.podAntiAffinity.None? {
      return None;
    }
    out := Some(copy);
  }

  /** Affinities of the same terms have one normal form, so a cleared member cannot show up as a change. */
  lemma NormalIsUnique(a: Option<Affinity>, b: Option<Affinity>)
    requires Normal(a) && Normal(b) && SameTerms(a, b)
    ensures a == b
  {
    assert Terms(a, NodeMember) == Terms(b, NodeMember);
    assert Terms(a, PodMember) == Terms(b, PodMember);
    assert Terms(a, PodAntiMember) == Terms(b, PodAntiMember);
    if a.Some? && b.Some? {
      forall m: Member
        ensures StatesMember(a.value, m) == StatesMember(b.value, m)
      {
      }
      assert StatesMember(a.value, NodeMember) == StatesMember(b.value, NodeMember);
      assert StatesMember(a.value, PodMember) == StatesMember(b.value, PodMember);
      assert StatesMember(a.value, PodAntiMember) == StatesMember(b.value, PodAntiMember);
    }
  }

  /** `upper` takes away the terms `lower` carries in `m` without so much as mentioning the member. */
  predicate Drops(lower: Option<Affinity>, upper: Affinity, m: Member) {
    Carries(lower, m) && !StatesMember(upper, m)
  }

  function DroppedMembers(lower: Option<Affinity>, upper: Affinity): (dropped: seq<Member>)
    ensures forall m :: m in dropped <==> Drops(lower, upper, m)
    ensures |dropped| <= 3
  {
    (if Drops(lower, upper, NodeMember) then [NodeMember] else [])
    + (if Drops(lower, upper, PodMember) then [PodMember] else [])
    + (if Drops(lower, upper, PodAntiMember) then [PodAntiMember] else [])
  }

  method DroppedAffinityMembers(lower: Option<Affinity>, upper: Affinity) returns (dropped: seq<Member>)
    ensures dropped == DroppedMembers(lower, upper)
  {
    dropped := [];
    var normal := NormalizeAffinity(lower);
    if normal.None? {
      return;
    }
    assert Terms(normal, NodeMember) == Terms(lower, NodeMember);
    assert Terms(normal, PodMember) == Terms(lower, PodMember);
    assert Terms(normal, PodAntiMember) == Terms(lower, PodAntiMember);
    if normal.value.nodeAffinity.Some? && upper.nodeAffinity.None? {
      dropped := dropped + [NodeMember];
    }
    if normal.value.podAffinity.Some? && upper.podAffinity.None? {
      dropped := dropped + [PodMember];
    }
    if normal.value.podAntiAffinity.Some? && upper.podAntiAffinity.None? {
      dropped := dropped + [PodAntiMember];
    }
  }

  function Replaced(lower: Option<Affinity>, upper: Option<Affinity>): Option<Affinity> {
    if upper.None? then lower else if CarriesAny(upper) then upper else None
  }

  function LostTo(lower: Option<Affinity>, upper: Option<Affinity>): seq<Member> {
    if upper.None? || !CarriesAny(upper) then [] else DroppedMembers(lower, upper.value)
  }

  /** The upper layer's affinity replaces the lower one's as a whole; one without a term clears it, and a
      clear drops nothing that has to be reported. */
  method FoldAffinity(lower: Option<Affinity>, upper: Option<Affinity>)
    returns (folded: Option<Affinity>, dropped: seq<Member>)
    ensures folded == Replaced(lower, upper)
    ensures dropped == LostTo(lower, upper)
  {
    if upper.None? {
      return lower, [];
    }
    var normal := NormalizeAffinity(upper);
    if normal.None? {
      return None, [];
    }
    folded := upper;
    dropped := DroppedAffinityMembers(lower, upper.value);
  }

  /** The field holds the terms of `a` in normal form. */
  ghost predicate Encodes(raw: RawAffinity, a: Option<Affinity>) {
    var stated := if raw.Stated? then Some(raw.affinity) else None;
    !raw.Malformed? && Normal(stated) && SameTerms(stated, a)
  }

  method EncodeNormalized(affinity: Option<Affinity>) returns (raw: RawAffinity)
    ensures Encodes(raw, affinity)
  {
    var normal := NormalizeAffinity(affinity);
    raw := if normal.Some? then Stated(normal.value) else Unstated;
  }

  // ---------------------------------------------------------------------------------------------
  // Affinity over all the layers
  // ---------------------------------------------------------------------------------------------

  function AffinityOf(layer: Option<RoleGroupConfig>): RawAffinity {
    if layer.Some? then layer.value.affinity else Unstated
  }

  /** The layer states an affinity without a single term. */
  predicate Clears(layer: Option<RoleGroupConfig>) {
    AffinityOf(layer).Stated? && !CarriesAny(Some(AffinityOf(layer).affinity))
  }

  /** The affinity of the highest of the first `n` layers that states one, or none when that layer clears
      it. */
  function AffinityBelow(layers: Layers, n: nat): (a: Option<Affinity>)
    requires n <= |layers|
    ensures a.Some? ==> CarriesAny(a)
  {
    if n == 0 then None
    else if !AffinityOf(layers[n - 1]).Stated? then AffinityBelow(layers, n - 1)
    else if Clears(layers[n - 1]) then None
    else Some(AffinityOf(layers[n - 1]).affinity)
  }

  lemma {:induction false} HighestAffinity(layers: Layers, n: nat, k: nat)
    requires k < n <= |layers| && AffinityOf(layers[k]).Stated?
    requires forall i :: k < i < n ==> !AffinityOf(layers[i]).Stated?
    ensures AffinityBelow(layers, n) == if Clears(layers[k]) then None else Some(AffinityOf(layers[k]).affinity)
  {
    if k < n - 1 {
      HighestAffinity(layers, n - 1, k);
    }
  }

  function LostAt(layers: Layers, i: nat): seq<Member>
    requires i < |layers|
  {
    if AffinityOf(layers[i]).Stated? && !Clears(layers[i])
    then DroppedMembers(AffinityBelow(layers, i), AffinityOf(layers[i]).affinity) else []
  }

  datatype AffinityReplacement = AffinityReplacement(layer: nat, dropped: seq<Member>)

  function Losses(layers: Layers): (losses: seq<seq<Member>>)
    ensures |losses| == |layers|
    ensures forall i :: 0 <= i < |layers| ==> losses[i] == LostAt(layers, i)
  {
    seq(|layers|, i requires 0 <= i < |layers| => LostAt(layers, i))
  }

  /** One report for each of the first `n` layers that loses something, lowest first. */
  function Reports(losses: seq<seq<Member>>, n: nat): seq<AffinityReplacement>
    requires n <= |losses|
  {
    if n == 0 then []
    else if losses[n - 1] == [] then Reports(losses, n - 1)
    else Reports(losses, n - 1) + [AffinityReplacement(n - 1, losses[n - 1])]
  }

  predicate Ascending(reports: seq<AffinityReplacement>) {
    forall j, k :: 0 <= j < k < |reports| ==> reports[j].layer < reports[k].layer
  }

  /** A layer is in the reports exactly if it loses something, and with just what it loses. */
  lemma {:induction false} ReportsExactly(losses: seq<seq<Member>>, n: nat, report: AffinityReplacement)
    requires n <= |losses|
    ensures report in Reports(losses, n) <==>
      report.layer < n && report.dropped != [] && report.dropped == losses[report.layer]
  {
    if n > 0 {
      ReportsExactly(losses, n - 1, report);
    }
  }

  /** No layer is reported twice. */
  lemma {:induction false} ReportsAscend(losses: seq<seq<Member>>, n: nat)
    requires n <= |losses|
    ensures Ascending(Reports(losses, n))
  {
    if n > 0 {
      ReportsAscend(losses, n - 1);
      var before := Reports(losses, n - 1);
      forall k | 0 <= k < |before|
        ensures before[k].layer < n - 1
      {
        ReportsExactly(losses, n - 1, before[k]);
      }
    }
  }

  /** The affinity no longer carries the terms of a layer: the layer at `j` says so. */
  ghost predicate Answers(layers: Layers, j: nat, m: Member)
    requires j < |layers|
  {
    || m in LostAt(layers, j)
    || Clears(layers[j])
    || (AffinityOf(layers[j]).Stated? && StatesMember(AffinityOf(layers[j]).affinity, m))
  }

  /** Terms a layer gives a member never vanish unnoticed: the outcome is that member's terms of this
      layer unless a higher layer states the member itself, clears the affinity, or is reported as losing
      it. */
  lemma {:induction false} NothingVanishesSilently(layers: Layers, n: nat, i: nat, m: Member)
    requires i < n <= |layers|
    requires AffinityOf(layers[i]).Stated? && Carries(Some(AffinityOf(layers[i]).affinity), m)
    ensures Terms(AffinityBelow(layers, n), m) == Terms(Some(AffinityOf(layers[i]).affinity), m) ||
            exists j :: i < j < n && Answers(layers, j, m)
  {
    if i < n - 1 {
      NothingVanishesSilently(layers, n - 1, i, m);
      if !(exists j :: i < j < n - 1 && Answers(layers, j, m)) && AffinityOf(layers[n - 1]).Stated? {
        assert Answers(layers, n - 1, m);
      }
    }
  }

  /** A report is never a false alarm: the lost terms stood in the highest stating layer underneath. */
  lemma {:induction false} LostWasThere(layers: Layers, j: nat, m: Member)
    requires j < |layers| && m in LostAt(layers, j)
    ensures exists i :: 0 <= i < j && AffinityOf(layers[i]).Stated? && Carries(Some(AffinityOf(layers[i]).affinity), m)
    ensures !StatesMember(AffinityOf(layers[j]).affinity, m) && !Clears(layers[j])
  {
    CarriedFromBelow(layers, j, m);
  }

  lemma {:induction false} CarriedFromBelow(layers: Layers, n: nat, m: Member)
    requires n <= |layers| && Carries(AffinityBelow(layers, n), m)
    ensures exists i :: 0 <= i < n && AffinityOf(layers[i]).Stated? && Carries(Some(AffinityOf(layers[i]).affinity), m)
  {
    if n > 0 {
      if AffinityOf(layers[n - 1]).Stated? {
        assert Carries(Some(AffinityOf(layers[n - 1]).affinity), m);
      } else {
        CarriedFromBelow(layers, n - 1, m);
      }
    }
  }

  // ---------------------------------------------------------------------------------------------
  // The fold
  // ---------------------------------------------------------------------------------------------

  ghost predicate LeafMerged(lower: RoleGroupConfig, upper: RoleGroupConfig, merged: RoleGroupConfig, leaf: Leaf) {
    StatedBy(merged, leaf) == Upper(StatedBy(lower, leaf), StatedBy(upper, leaf))
  }

  ghost predicate LeavesMerged(lower: RoleGroupConfig, upper: RoleGroupConfig, merged: RoleGroupConfig) {
    forall leaf :: LeafMerged(lower, upper, merged, leaf)
  }

  lemma LoggingLeafMerged(lower: Option<LoggingSpec>, upper: Option<LoggingSpec>, merged: Option<LoggingSpec>, leaf: Leaf)
    requires merged.None? <==> lower.None? && upper.None?
    requires VectorAgent(merged) == Upper(VectorAgent(lower), VectorAgent(upper))
    requires forall name :: ContainerMerged(lower, upper, merged, name)
    ensures LoggingLeaf(merged, leaf) == Upper(LoggingLeaf(lower, leaf), LoggingLeaf(upper, leaf))
  {
    match leaf
    case Container(name) => assert ContainerMerged(lower, upper, merged, name);
    case ConsoleLevel(name) => assert ContainerMerged(lower, upper, merged, name);
    case FileLevel(name) => assert ContainerMerged(lower, upper, merged, name);
    case Logger(name, logger) =>
      assert ContainerMerged(lower, upper, merged, name);
      assert LoggerLevel(ContainerOf(merged, name), logger)
          == Upper(LoggerLevel(ContainerOf(lower, name), logger), LoggerLevel(ContainerOf(upper, name), logger));
    case _ =>
  }

  /** All the leaves a layer folds in on top of what is below. */
  method FoldLeaves(lower: RoleGroupConfig, upper: RoleGroupConfig) returns (merged: RoleGroupConfig)
    ensures LeavesMerged(lower, upper, merged)
    ensures merged.affinity == lower.affinity
  {
    var timeout := lower.gracefulShutdownTimeout;
    if upper.gracefulShutdownTimeout.Some? {
      timeout := upper.gracefulShutdownTimeout;
    }
    var resources := FoldResources(lower.resources, upper.resources);
    var logging := MergeLoggingSpec(lower.logging, upper.logging);
    merged := RoleGroupConfig(lower.affinity, timeout, logging, resources);
    forall leaf
      ensures LeafMerged(lower, upper, merged, leaf)
    {
      LoggingLeafMerged(lower.logging, upper.logging, logging, leaf);
      assert ResourceLeaf(resources, leaf) == Upper(ResourceLeaf(lower.resources, leaf), ResourceLeaf(upper.resources, leaf));
    }
  }

  datatype Folded = Folded(config: RoleGroupConfig, replaced: seq<AffinityReplacement>)

  datatype FoldError = AffinityNotDecodable

  /** All that a block states. */
  ghost function LeavesOf(config: RoleGroupConfig): imap<Leaf, Option<Value>> {
    imap leaf: Leaf | true :: StatedBy(config, leaf)
  }

  ghost function HighestLeaves(layers: Layers, n: nat): imap<Leaf, Option<Value>>
    requires n <= |layers|
  {
    imap leaf: Leaf | true :: Highest(layers, n, leaf)
  }

  ghost predicate LeavesFolded(layers: Layers, n: nat, config: RoleGroupConfig)
    requires n <= |layers|
  {
    LeavesOf(config) == HighestLeaves(layers, n)
  }

  lemma LeavesStep(layers: Layers, n: nat, before: RoleGroupConfig, after: RoleGroupConfig)
    requires n < |layers| && LeavesFolded(layers, n, before)
    requires layers[n].None? ==> after == before
    requires layers[n].Some? ==> LeavesMerged(before, layers[n].value, after)
    ensures LeavesFolded(layers, n + 1, after)
  {
    var next := n + 1;
    forall leaf: Leaf
      ensures StatedBy(after, leaf) == Highest(layers, next, leaf)
    {
      assert LeavesOf(before)[leaf] == HighestLeaves(layers, n)[leaf];
      if layers[n].Some? {
        assert LeafMerged(before, layers[n].value, after, leaf);
      }
    }
  }

  lemma AffinityStep(layers: Layers, i: nat, decoded: Option<Affinity>)
    requires i < |layers| && !AffinityOf(layers[i]).Malformed?
    requires decoded == if AffinityOf(layers[i]).Stated? then Some(AffinityOf(layers[i]).affinity) else None
    ensures Replaced(AffinityBelow(layers, i), decoded) == AffinityBelow(layers, i + 1)
    ensures LostTo(AffinityBelow(layers, i), decoded) == LostAt(layers, i)
  {
  }

  /** Where the fold stands after the first `n` layers. */
  ghost predicate FoldedSoFar(layers: Layers, n: nat, out: RoleGroupConfig, affinity: Option<Affinity>,
                              replaced: seq<AffinityReplacement>)
    requires n <= |layers|
  {
    && AllDecodable(layers, n)
    && LeavesFolded(layers, n, out)
    && affinity == AffinityBelow(layers, n)
    && replaced == Reports(Losses(layers), n)
  }

  /** The first `n` layers can be decoded. */
  predicate AllDecodable(layers: Layers, n: nat)
    requires n <= |layers|
  {
    n == 0 || (AllDecodable(layers, n - 1) && !AffinityOf(layers[n - 1]).Malformed?)
  }

  lemma {:induction false} AllDecodableEach(layers: Layers, n: nat)
    requires n <= |layers|
    ensures AllDecodable(layers, n) <==> forall i :: 0 <= i < n ==> !AffinityOf(layers[i]).Malformed?
  {
    if n > 0 {
      AllDecodableEach(layers, n - 1);
    }
  }

  lemma SkipLayer(layers: Layers, n: nat, out: RoleGroupConfig, affinity: Option<Affinity>, replaced: seq<AffinityReplacement>)
    requires n < |layers| && layers[n].None? && FoldedSoFar(layers, n, out, affinity, replaced)
    ensures FoldedSoFar(layers, n + 1, out, affinity, replaced)
  {
    LeavesStep(layers, n, out, out);
    AffinityStep(layers, n, None);
  }

  lemma TakeLayer(layers: Layers, n: nat, before: RoleGroupConfig, out: RoleGroupConfig, affinity: Option<Affinity>,
                  replaced: seq<AffinityReplacement>, decoded: Option<Affinity>)
    requires n < |layers| && layers[n].Some? && FoldedSoFar(layers, n, before, affinity, replaced)
    requires LeavesMerged(before, layers[n].value, out)
    requires !layers[n].value.affinity.Malformed?
    requires decoded == if layers[n].value.affinity.Stated? then Some(layers[n].value.affinity.affinity) else None
    ensures var lost := LostTo(affinity, decoded);
      FoldedSoFar(layers, n + 1, out, Replaced(affinity, decoded),
                  if lost == [] then replaced else replaced + [AffinityReplacement(n, lost)])
  {
    LeavesStep(layers, n, before, out);
    AffinityStep(layers, n, decoded);
  }

  lemma AffinityIsNoLeaf(layers: Layers, config: RoleGroupConfig, raw: RawAffinity)
    requires LeavesFolded(layers, |layers|, config)
    ensures LeavesFolded(layers, |layers|, config.(affinity := raw))
  {
    var stated := config.(affinity := raw);
    forall leaf: Leaf
      ensures LeavesOf(stated)[leaf] == LeavesOf(config)[leaf]
    {
      assert StatedBy(stated, leaf) == StatedBy(config, leaf);
    }
    assert LeavesOf(stated) == LeavesOf(config);
  }

  /** One layer on top of those below it. */
  method FoldLayer(layers: Layers, i: nat, out: RoleGroupConfig, affinity: Option<Affinity>, replaced: seq<AffinityReplacement>)
    returns (next: Result<RoleGroupConfig, FoldError>, nextAffinity: Option<Affinity>, reports: seq<AffinityReplacement>)
    requires i < |layers| && layers[i].Some? && FoldedSoFar(layers, i, out, affinity, replaced)
    ensures next.Failure? <==> AffinityOf(layers[i]).Malformed?
    ensures next.Success? ==> FoldedSoFar(layers, i + 1, next.value, nextAffinity, reports)
  {
    nextAffinity, reports := affinity, replaced;
    var layer := layers[i].value;
    var folded := FoldLeaves(out, layer);
    if layer.affinity.Malformed? {
      return Failure(AffinityNotDecodable), nextAffinity, reports;
    }
    var decoded := if layer.affinity.Stated? then Some(layer.affinity.affinity) else None;
    var dropped;
    nextAffinity, dropped := FoldAffinity(affinity, decoded);
    if |dropped| > 0 {
      reports := reports + [AffinityReplacement(i, dropped)];
    }
    next := Success(folded);
    TakeLayer(layers, i, out, folded, affinity, replaced, decoded);
  }

  /** Every leaf, the affinity and the reports of the outcome are those of the layers. */
  ghost predicate FoldOf(layers: Layers, folded: Folded) {
    && LeavesFolded(layers, |layers|, folded.config)
    && Encodes(folded.config.affinity, AffinityBelow(layers, |layers|))
    && folded.replaced == Reports(Losses(layers), |layers|)
  }

  lemma Encoded(layers: Layers, out: RoleGroupConfig, affinity: Option<Affinity>, replaced: seq<AffinityReplacement>,
                folded: Folded)
    requires FoldedSoFar(layers, |layers|, out, affinity, replaced)
    requires folded.replaced == replaced && folded.config == out.(affinity := folded.config.affinity)
    requires Encodes(folded.config.affinity, affinity)
    ensures FoldOf(layers, folded)
  {
    AffinityIsNoLeaf(layers, out, folded.config.affinity);
  }

  lemma NothingFolded(layers: Layers)
    ensures FoldedSoFar(layers, 0, RoleGroupConfig(Unstated, None, None, None), None, [])
  {
  }

  /** Fails exactly when some layer's affinity cannot be decoded. */
  method FoldCommonConfig(layers: Layers) returns (r: Result<Folded, FoldError>)
    ensures r.Failure? <==> exists i :: 0 <= i < |layers| && AffinityOf(layers[i]).Malformed?
    ensures r.Success? ==> FoldOf(layers, r.value)
  {
    var out := RoleGroupConfig(Unstated, None, None, None);
    var affinity: Option<Affinity> := None;
    var replaced: seq<AffinityReplacement> := [];
    NothingFolded(layers);
    for i := 0 to |layers|
      invariant FoldedSoFar(layers, i, out, affinity, replaced)
    {
      if layers[i].None? {
        SkipLayer(layers, i, out, affinity, replaced);
        continue;
      }
      var next;
      next, affinity, replaced := FoldLayer(layers, i, out, affinity, replaced);
      if next.Failure? {
        return Failure(next.error);
      }
      out := next.value;
    }
    var encoded := EncodeNormalized(affinity);
    var folded := Folded(out.(affinity := encoded), replaced);
    Encoded(layers, out, affinity, replaced, folded);
    AllDecodableEach(layers, |layers|);
    r := Success(folded);
  }
}
