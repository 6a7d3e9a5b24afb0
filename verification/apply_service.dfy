/** Applying a Service: the allocated fields stay, and every port keeps its node port. */
module ApplyService {
  import opened Wrappers

  datatype Port = Port(name: string, number: nat, nodePort: nat, rest: string)

  /** What the API server allocates or declares immutable. */
  datatype Granted = Granted(
    clusterIP: string,
    clusterIPs: seq<string>,
    ipFamilies: seq<string>,
    ipFamilyPolicy: Option<string>,
    healthCheckNodePort: nat,
    loadBalancerClass: Option<string>)

  function ByName(ports: seq<Port>, name: string): (found: Option<Port>)
    ensures found.Some? ==> found.value in ports && found.value.name == name
    ensures found.None? ==> forall p :: p in ports ==> p.name != name
  {
    if ports == [] then None else if ports[0].name == name then Some(ports[0]) else ByName(ports[1..], name)
  }

  function ByNumber(ports: seq<Port>, number: nat): (found: Option<Port>)
    ensures found.Some? ==> found.value in ports && found.value.number == number
    ensures found.None? ==> forall p :: p in ports ==> p.number != number
  {
    if ports == [] then None else if ports[0].number == number then Some(ports[0]) else ByNumber(ports[1..], number)
  }

  /** The live port a desired one corresponds to. */
  function Counterpart(live: seq<Port>, desired: Port): Option<Port> {
    if desired.name != "" && ByName(live, desired.name).Some? then ByName(live, desired.name)
    else ByNumber(live, desired.number)
  }

  function CarriedOver(live: seq<Port>, desired: Port): Port {
    if desired.nodePort != 0 || Counterpart(live, desired).None? then desired
    else desired.(nodePort := Counterpart(live, desired).value.nodePort)
  }

  function AllCarriedOver(live: seq<Port>, desired: seq<Port>): (ports: seq<Port>)
    ensures |ports| == |desired|
    ensures forall i :: 0 <= i < |desired| ==> ports[i] == CarriedOver(live, desired[i])
  {
    seq(|desired|, i requires 0 <= i < |desired| => CarriedOver(live, desired[i]))
  }

  method FindServicePort(live: seq<Port>, desired: Port) returns (found: Option<Port>)
    ensures found == Counterpart(live, desired)
  {
    assert live[0..] == live;
    if desired.name != "" {
      for i := 0 to |live|
        invariant ByName(live, desired.name) == ByName(live[i..], desired.name)
      {
        assert live[i..][1..] == live[i + 1..];
        if live[i].name == desired.name {
          return Some(live[i]);
        }
      }
    }
    for i := 0 to |live|
      invariant ByNumber(live, desired.number) == ByNumber(live[i..], desired.number)
    {
      assert live[i..][1..] == live[i + 1..];
      if live[i].number == desired.number {
        return Some(live[i]);
      }
    }
    return None;
  }

  class Service {
    var granted: Granted
    var ports: seq<Port>
    var rest: string

    constructor (granted: Granted, ports: seq<Port>, rest: string)
      ensures this.granted == granted && this.ports == ports && this.rest == rest
    {
      this.granted, this.ports, this.rest := granted, ports, rest;
    }

    /** Applies the desired Service to this live one; reports a clusterIP that was asked for in vain. */
    method CopyServiceState(desired: Service) returns (ignored: seq<string>)
      requires desired != this
      modifies this
      ensures granted == old(granted)
      ensures rest == desired.rest
      ensures ports == AllCarriedOver(old(ports), desired.ports)
      ensures |ports| == |desired.ports| && forall i :: 0 <= i < |ports| ==>
        && ports[i] == desired.ports[i].(nodePort := ports[i].nodePort)
        && (desired.ports[i].nodePort != 0 ==> ports[i].nodePort == desired.ports[i].nodePort)
      ensures ignored ==
        if desired.granted.clusterIP != "" && desired.granted.clusterIP != granted.clusterIP then ["spec.clusterIP"] else []
    {
      var livePorts := ports;
      ignored := [];
      if desired.granted.clusterIP != "" && desired.granted.clusterIP != granted.clusterIP {
        ignored := ["spec.clusterIP"];
      }
      rest := desired.rest;
      ports := desired.ports;
      for i := 0 to |ports|
        invariant |ports| == |desired.ports|
        invariant granted == old(granted) && rest == desired.rest
        invariant forall j :: 0 <= j < i ==> ports[j] == CarriedOver(livePorts, desired.ports[j])
        invariant forall j :: i <= j < |ports| ==> ports[j] == desired.ports[j]
      {
        if ports[i].nodePort != 0 {
          continue;
        }
        var found := FindServicePort(livePorts, ports[i]);
        if found.Some? {
          ports := ports[i := ports[i].(nodePort := found.value.nodePort)];
        }
      }
    }
  }

  // ---------------------------------------------------------------------------------------------
  // Applying again
  // ---------------------------------------------------------------------------------------------

  /** Ports as the API server takes them: named and told apart by their names, or a single one. */
  predicate Admitted(ports: seq<Port>) {
    && (forall i, j :: 0 <= i < j < |ports| ==> ports[i].name != ports[j].name)
    && (|ports| > 1 ==> forall i :: 0 <= i < |ports| ==> ports[i].name != "")
  }

  lemma {:induction false} NamedFound(ports: seq<Port>, i: nat)
    requires i < |ports| && (forall a, b :: 0 <= a < b < |ports| ==> ports[a].name != ports[b].name)
    ensures ByName(ports, ports[i].name) == Some(ports[i])
  {
    if i > 0 {
      assert ports[0].name != ports[i].name;
      NamedFound(ports[1..], i - 1);
    }
  }

  /** Applying the same Service again changes no port. */
  lemma PortsFixedPoint(desired: seq<Port>, live: seq<Port>)
    requires Admitted(desired)
    ensures AllCarriedOver(AllCarriedOver(live, desired), desired) == AllCarriedOver(live, desired)
  {
    var once := AllCarriedOver(live, desired);
    forall i | 0 <= i < |desired|
      ensures CarriedOver(once, desired[i]) == once[i]
    {
      if desired[i].name != "" {
        assert once[i].name == desired[i].name;
        NamedFound(once, i);
      } else {
        assert once[0] in once && once == [once[0]];
      }
    }
  }

  // ---------------------------------------------------------------------------------------------
  // Renaming ports
  // ---------------------------------------------------------------------------------------------

  predicate DistinctNumbers(ports: seq<Port>) {
    forall i, j :: 0 <= i < j < |ports| ==> ports[i].number != ports[j].number
  }

  lemma {:induction false} NumberFound(ports: seq<Port>, p: Port)
    requires DistinctNumbers(ports) && p in ports
    ensures ByNumber(ports, p.number) == Some(p)
  {
    if ports[0] != p {
      assert p in ports[1..];
      var j :| 0 <= j < |ports[1..]| && ports[1..][j] == p;
      assert ports[j + 1] == p && ports[0].number != p.number;
      NumberFound(ports[1..], p);
    }
  }

  /** The node port allocated for a port number; 0 when there is none. */
  function NodePortOf(ports: seq<Port>, number: nat): nat {
    match ByNumber(ports, number)
    case None => 0
    case Some(p) => p.nodePort
  }

  /** The name means the same port, or one with the same node port, in the live Service. */
  predicate NameKept(live: seq<Port>, d: Port) {
    d.name != "" && ByName(live, d.name).Some? ==> ByName(live, d.name).value.nodePort == NodePortOf(live, d.number)
  }

  /** A desired port without a node port of its own keeps the one its number had, exactly when its name
      does not belong to a live port with another node port. */
  lemma KeepsNodePort(live: seq<Port>, d: Port)
    requires d.nodePort == 0
    ensures CarriedOver(live, d).nodePort == NodePortOf(live, d.number) <==> NameKept(live, d)
  {
  }

  /** A desired port that states a node port keeps it; one that states none gets that of the live port of
      its name or, failing that, of its number, and none if there is no such port. */
  lemma NodePortExactly(live: seq<Port>, d: Port)
    ensures var got := CarriedOver(live, d).nodePort;
      && (d.nodePort != 0 ==> got == d.nodePort)
      && (d.nodePort == 0 && d.name != "" && (exists p :: p in live && p.name == d.name) ==>
            exists p :: p in live && p.name == d.name && p.nodePort == got)
      && (d.nodePort == 0 && !(d.name != "" && exists p :: p in live && p.name == d.name) ==>
            if exists p :: p in live && p.number == d.number
            then exists p :: p in live && p.number == d.number && p.nodePort == got
            else got == 0)
  {
  }

  predicate DistinctNodePorts(ports: seq<Port>) {
    forall i, j :: 0 <= i < j < |ports| ==> ports[i].nodePort == 0 || ports[i].nodePort != ports[j].nodePort
  }

  /** A rename that reuses no name keeps every allocated node port, and keeps them distinct. */
  lemma RenameKeepsAll(live: seq<Port>, desired: seq<Port>)
    requires DistinctNumbers(live) && DistinctNumbers(desired) && DistinctNodePorts(live)
    requires forall i :: 0 <= i < |desired| ==> desired[i].nodePort == 0 && NameKept(live, desired[i])
    ensures var ports := AllCarriedOver(live, desired);
      && (forall i :: 0 <= i < |desired| ==> ports[i].nodePort == NodePortOf(live, desired[i].number))
      && DistinctNodePorts(ports)
  {
    var ports := AllCarriedOver(live, desired);
    forall i | 0 <= i < |desired|
      ensures ports[i].nodePort == NodePortOf(live, desired[i].number)
    {
      KeepsNodePort(live, desired[i]);
    }
    forall i, j | 0 <= i < j < |ports| && ports[i].nodePort != 0
      ensures ports[i].nodePort != ports[j].nodePort
    {
      var a, b := ByNumber(live, desired[i].number), ByNumber(live, desired[j].number);
      assert desired[i].number != desired[j].number;
      if a.Some? && b.Some? {
        var x :| 0 <= x < |live| && live[x] == a.value;
        var y :| 0 <= y < |live| && live[y] == b.value;
        assert x < y || y < x;
      }
    }
  }

  /** When a name is reused for another number, two ports can end up with one node port: swapping in a
      new name for the port that gave its name away. */
  lemma ReusedNameCollides()
    ensures var live := [Port("a", 80, 30001, ""), Port("b", 81, 30002, "")];
      var desired := [Port("b", 80, 0, ""), Port("c", 81, 0, "")];
      var ports := AllCarriedOver(live, desired);
      ports[0].nodePort == ports[1].nodePort == 30002
  {
    var live := [Port("a", 80, 30001, ""), Port("b", 81, 30002, "")];
    assert live[1..] == [Port("b", 81, 30002, "")] && live[1..][1..] == [];
    assert ByName(live, "b") == Some(live[1]);
    assert ByName(live, "c") == None;
    assert ByNumber(live, 81) == Some(live[1]);
  }
}
