/** The deployment-awareness store: it keeps the current topology of the
    connected deployment (type, replica set name and servers) and the kind
    of environment the deployment runs in, and announces each change of
    topology type on the app registry. */
module DeploymentAwareness {
  import opened Base

  datatype Env = Atlas | Adl | OnPrem

  /** The instance id substring that marks an Atlas deployment. */
  const ATLAS: string := "atlas"

  /** A server as the driver describes it. `roundTripTime` stands for the
      descriptor fields the store does not copy. */
  datatype ServerDescription = ServerDescription(
    address: string,
    serverType: string,
    tags: map<string, string>,
    roundTripTime: int)

  /** A server as the store keeps it. */
  datatype Server = Server(address: string, serverType: string, tags: map<string, string>)

  /** A topology description; `servers` lists the description's server map
      in its iteration order. */
  datatype TopologyDescription = TopologyDescription(
    topologyType: string,
    setName: string,
    servers: seq<ServerDescription>)

  datatype AwarenessState = AwarenessState(
    topologyType: string,
    setName: string,
    servers: seq<Server>,
    isDataLake: bool,
    env: Env)

  /** The payload of `compass:deployment-awareness:topology-changed`. */
  datatype TopologyChanged = TopologyChanged(
    topologyType: string,
    setName: string,
    servers: seq<Server>,
    env: Env)

  /** `getInitialState`. */
  const INITIAL_STATE: AwarenessState := AwarenessState("Unknown", "", [], false, OnPrem)

  function ServerOf(d: ServerDescription): Server {
    Server(d.address, d.serverType, d.tags)
  }

  /** The server list built by pushing one entry per described server. */
  function ServersOf(ds: seq<ServerDescription>): (r: seq<Server>)
    ensures |r| == |ds|
    decreases |ds|
  {
    if |ds| == 0 then [] else ServersOf(ds[..|ds| - 1]) + [ServerOf(ds[|ds| - 1])]
  }

  /** The server list has the i-th described server at position i. */
  lemma {:induction false} ServersOfAt(ds: seq<ServerDescription>, i: nat)
    requires i < |ds|
    ensures ServersOf(ds)[i] == ServerOf(ds[i])
    decreases |ds|
  {
    if i < |ds| - 1 {
      ServersOfAt(ds[..|ds| - 1], i);
    }
  }

  /** The state after a topology description arrives. */
  function Applied(s: AwarenessState, d: TopologyDescription): (t: AwarenessState)
    ensures t.topologyType == d.topologyType && t.setName == d.setName
    ensures |t.servers| == |d.servers|
    ensures t.env == s.env && t.isDataLake == s.isDataLake
  {
    s.(topologyType := d.topologyType, setName := d.setName, servers := ServersOf(d.servers))
  }

  /** The event a topology description causes: one exactly when the
      topology type changes, carrying the environment held before. */
  function EventFor(s: AwarenessState, d: TopologyDescription): (e: Option<TopologyChanged>)
    ensures e.Some? <==> s.topologyType != d.topologyType
    ensures e.Some? ==> e.value == TopologyChanged(d.topologyType, d.setName, Applied(s, d).servers, s.env)
  {
    if s.topologyType != d.topologyType
    then Some(TopologyChanged(d.topologyType, d.setName, ServersOf(d.servers), s.env))
    else None
  }

  function AsList(e: Option<TopologyChanged>): seq<TopologyChanged> {
    if e.Some? then [e.value] else []
  }

  /** After a description the store holds its type and set name, and one
      server per described server, in order; environment and data-lake flag
      are untouched. */
  lemma AppliedReflectsDescription(s: AwarenessState, d: TopologyDescription)
    ensures var t := Applied(s, d);
      t.topologyType == d.topologyType && t.setName == d.setName &&
      |t.servers| == |d.servers| &&
      (forall i :: 0 <= i < |d.servers| ==> t.servers[i] == ServerOf(d.servers[i])) &&
      t.env == s.env && t.isDataLake == s.isDataLake
  {
    forall i | 0 <= i < |d.servers|
      ensures ServersOf(d.servers)[i] == ServerOf(d.servers[i])
    {
      ServersOfAt(d.servers, i);
    }
  }

  /** The same description applied twice: the second time changes nothing
      and announces nothing, so the pair emits at most one event. */
  lemma ReapplyIsSilent(s: AwarenessState, d: TopologyDescription)
    ensures Applied(Applied(s, d), d) == Applied(s, d)
    ensures EventFor(Applied(s, d), d).None?
    ensures |AsList(EventFor(s, d)) + AsList(EventFor(Applied(s, d), d))| <= 1
  {
  }

  /** The state after an `instance-refreshed` event. */
  function Refreshed(s: AwarenessState, instanceId: string, isDataLake: bool): (t: AwarenessState)
    ensures t.env == (if isDataLake then Adl else if Contains(instanceId, ATLAS) then Atlas else s.env)
    ensures t.isDataLake == (if isDataLake || Contains(instanceId, ATLAS) then isDataLake else s.isDataLake)
    ensures t.topologyType == s.topologyType && t.setName == s.setName && t.servers == s.servers
  {
    if Contains(instanceId, ATLAS) && !isDataLake then s.(isDataLake := false, env := Atlas)
    else if isDataLake then s.(isDataLake := true, env := Adl)
    else s
  }

  /** Environment classification: a data lake is `adl` whatever its id; an
      id containing "atlas" is `atlas`; otherwise nothing changes. */
  lemma RefreshedClassifies(s: AwarenessState, instanceId: string, isDataLake: bool)
    ensures var t := Refreshed(s, instanceId, isDataLake);
      (isDataLake ==> t == s.(isDataLake := true, env := Adl)) &&
      (!isDataLake && Contains(instanceId, ATLAS) ==> t == s.(isDataLake := false, env := Atlas)) &&
      (!isDataLake && !Contains(instanceId, ATLAS) ==> t == s) &&
      t.topologyType == s.topologyType && t.setName == s.setName && t.servers == s.servers
  {
  }

  /** An id with "atlas" anywhere in it, e.g. a host name under an Atlas
      domain, classifies a deployment that is not a data lake as `atlas`. */
  lemma AtlasIdIsAtlas(s: AwarenessState, before: string, after: string)
    ensures Refreshed(s, before + ATLAS + after, false).env == Atlas
  {
    var id := before + ATLAS + after;
    assert id[|before|..|before| + |ATLAS|] == ATLAS;
    ContainsAt(id, ATLAS, |before|);
  }

  /** Refreshing the instance and changing the topology touch disjoint
      parts of the state, so their order does not matter to the state. */
  lemma RefreshAndTopologyCommute(s: AwarenessState, instanceId: string, isDataLake: bool, d: TopologyDescription)
    ensures Applied(Refreshed(s, instanceId, isDataLake), d) == Refreshed(Applied(s, d), instanceId, isDataLake)
  {
  }

  class DeploymentAwarenessStore {
    var state: AwarenessState
    /** The `topology-changed` events emitted so far, oldest first. */
    var emitted: seq<TopologyChanged>

    constructor ()
      ensures state == INITIAL_STATE && emitted == []
    {
      state := INITIAL_STATE;
      emitted := [];
    }

    /** The `instance-refreshed` handler. */
    method InstanceRefreshed(instanceId: string, isDataLake: bool)
      modifies this
      ensures state == Refreshed(old(state), instanceId, isDataLake)
      ensures emitted == old(emitted)
    {
      var isAtlas := Contains(instanceId, ATLAS);
      if isAtlas && !isDataLake {
        state := state.(isDataLake := false, env := Atlas);
      } else if isDataLake {
        state := state.(isDataLake := true, env := Adl);
      }
    }

    /** `topologyDescriptionChanged`: rebuild the server list, announce a
      change of topology type, then store type, set name and servers. */
    method TopologyDescriptionChanged(d: TopologyDescription)
      modifies this
      ensures state == Applied(old(state), d)
      ensures emitted == old(emitted) + AsList(EventFor(old(state), d))
    {
      var servers: seq<Server> := [];
      var i := 0;
      while i < |d.servers|
        invariant 0 <= i <= |d.servers|
        invariant servers == ServersOf(d.servers[..i])
      {
        assert d.servers[..i + 1][..i] == d.servers[..i];
        servers := servers + [ServerOf(d.servers[i])];
        i := i + 1;
      }
      assert d.servers[..i] == d.servers;
      if state.topologyType != d.topologyType {
        emitted := emitted + [TopologyChanged(d.topologyType, d.setName, servers, state.env)];
      }
      state := state.(topologyType := d.topologyType, setName := d.setName, servers := servers);
    }
  }
}
