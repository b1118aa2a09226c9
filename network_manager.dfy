/**
 * The registry of core/network_manager.py: the loaded configurations, the
 * factory and the connector of every network being connected, and the
 * address each one aims at, all keyed by network id.
 *
 * The reactor is an output log: `connectTCP`/`connectSSL` and
 * `connector.disconnect()` are `ReactorCall`s, and a connector is an opaque
 * token.  Store reads (`get_networks`) arrive as sequences of configurations.
 */
module NetworkManager {
  import opened Wrappers
  import opened Text
  import opened NetworkConfig
  import Factory
  import Protocol

  /** The handle `reactor.connect*` returns. */
  datatype Connector = Connector(serial: nat)

  datatype ReactorCall =
    | ConnectTcp(address: string, port: int)
    | ConnectSsl(address: string, port: int)
    | Disconnect(connector: Connector)

  /** Python's `xs[i]`: negative indices count from the end; anything else raises IndexError. */
  function PyIndex<T>(xs: seq<T>, i: int): (r: Option<T>)
    ensures 0 <= i < |xs| ==> r == Some(xs[i])
    ensures r.None? <==> !(-|xs| <= i < |xs|)
  {
    if 0 <= i < |xs| then Some(xs[i])
    else if -|xs| <= i < 0 then Some(xs[|xs| + i])
    else None
  }

  /**
   * The address and port `connect_network` dials: an index at or past the end
   * of its list becomes 0, and the TLS port list is used iff `enable_ssl`;
   * None where the indexing raises.
   */
  function ConnectTarget(c: Config, addressIdx: int, portIdx: int): Option<(string, int)> {
    var a := if addressIdx >= |c.addresses| then 0 else addressIdx;
    var ps := ActivePorts(c);
    var p := if portIdx >= |ps| then 0 else portIdx;
    match PyIndex(c.addresses, a)
    case None => None
    case Some(address) =>
      match PyIndex(ps, p)
      case None => None
      case Some(port) => Some((address, port))
  }

  /**
   * Index clamping: in-range indices select those entries, indices past the
   * end select the first entry, and the default (0, 0) dials the same primary
   * target a new factory aims at.  Dialing fails iff a list in use is empty
   * or an index is negative beyond its length.
   */
  lemma ConnectTargetFacts(c: Config, addressIdx: int, portIdx: int)
    ensures ConnectTarget(c, addressIdx, portIdx).None? <==>
      (c.addresses == [] || ActivePorts(c) == [] || addressIdx < -|c.addresses| || portIdx < -|ActivePorts(c)|)
    ensures 0 <= addressIdx < |c.addresses| && 0 <= portIdx < |ActivePorts(c)| ==>
      ConnectTarget(c, addressIdx, portIdx) == Some((c.addresses[addressIdx], ActivePorts(c)[portIdx]))
    ensures c.addresses != [] && ActivePorts(c) != [] && addressIdx >= |c.addresses| && portIdx >= |ActivePorts(c)| ==>
      ConnectTarget(c, addressIdx, portIdx) == Some((c.addresses[0], ActivePorts(c)[0]))
    ensures c.addresses != [] && ActivePorts(c) != [] ==>
      ConnectTarget(c, 0, 0) == Some((PrimaryAddress(c), PrimaryPort(c)))
  {
  }

  /** `load_networks`: each configuration overwrites the entry of its id, in order. */
  function Loaded(networks: map<int, Config>, rows: seq<Config>): (r: map<int, Config>)
    ensures r.Keys == networks.Keys + set k | 0 <= k < |rows| :: rows[k].id
    decreases |rows|
  {
    if rows == [] then networks
    else
      var last := rows[|rows| - 1];
      var init := rows[..|rows| - 1];
      var r := Loaded(networks, init);
      assert forall k :: 0 <= k < |init| ==> init[k] == rows[k];
      assert (set k | 0 <= k < |rows| :: rows[k].id) == (set k | 0 <= k < |init| :: init[k].id) + {last.id};
      r[last.id := last]
  }

  /** Row `k` is the last of `rows` that carries `id`. */
  predicate LastWithId(rows: seq<Config>, id: int, k: int) {
    0 <= k < |rows| && rows[k].id == id && forall j :: k < j < |rows| ==> rows[j].id != id
  }

  /** An id no row carries keeps its old configuration. */
  lemma {:induction false} LoadedUntouched(networks: map<int, Config>, rows: seq<Config>, id: int)
    requires id in networks && forall k :: 0 <= k < |rows| ==> rows[k].id != id
    ensures Loaded(networks, rows)[id] == networks[id]
    decreases |rows|
  {
    if rows != [] {
      var init := rows[..|rows| - 1];
      assert forall k :: 0 <= k < |init| ==> init[k] == rows[k];
      LoadedUntouched(networks, init, id);
    }
  }

  /** An id some row carries ends up with the LAST row of that id. */
  lemma {:induction false} LoadedLastWins(networks: map<int, Config>, rows: seq<Config>, id: int, k: int)
    requires LastWithId(rows, id, k)
    ensures Loaded(networks, rows)[id] == rows[k]
    decreases |rows|
  {
    var n := |rows| - 1;
    if k < n {
      var init := rows[..n];
      assert LastWithId(init, id, k);
      LoadedLastWins(networks, init, id, k);
    }
  }

  /** Row `k` is the first of `rows` that carries `id`. */
  predicate FirstWithId(rows: seq<Config>, id: int, k: int) {
    0 <= k < |rows| && rows[k].id == id && forall j :: 0 <= j < k ==> rows[j].id != id
  }

  /** What `get_network_status` reports about a live session. */
  datatype SessionInfo = SessionInfo(nickname: string, channels: seq<string>, saslAuthenticated: bool)

  /** The status dictionary; the optional keys are the Option fields. */
  datatype NetworkStatus = NetworkStatus(
    id: int, name: string, addresses: seq<string>, ports: seq<int>, sslPorts: seq<int>,
    ssl: bool, autoConnect: bool, autoReconnect: bool, connected: bool, authMechanism: int,
    connectedTo: Option<(string, int)>,
    session: Option<SessionInfo>)

  /** The first configuration, in insertion order, whose name equals `name` ignoring case. */
  function ByName(order: seq<int>, networks: map<int, Config>, name: string): (r: Option<Config>)
    requires forall k :: 0 <= k < |order| ==> order[k] in networks
    ensures r.Some? ==> exists k :: 0 <= k < |order| && networks[order[k]] == r.value && Lower(r.value.name) == Lower(name)
    ensures r.None? <==> forall k :: 0 <= k < |order| ==> Lower(networks[order[k]].name) != Lower(name)
    decreases |order|
  {
    if order == [] then None
    else if Lower(networks[order[0]].name) == Lower(name) then Some(networks[order[0]])
    else
      var r := ByName(order[1..], networks, name);
      assert forall k :: 0 < k < |order| ==> order[k] == order[1..][k - 1];
      r
  }

  /** The ids among the first `i` entries of `ids`. */
  ghost function Done(ids: seq<int>, i: nat): set<int>
    requires i <= |ids|
  {
    set k | 0 <= k < i :: ids[k]
  }

  lemma DoneNext(ids: seq<int>, i: nat)
    requires i < |ids|
    ensures Done(ids, i + 1) == Done(ids, i) + {ids[i]}
  {
  }

  /** In a list without repeats, the entry at `i` is not among the first `i`. */
  lemma DistinctNotDone(ids: seq<int>, i: nat)
    requires Distinct(ids) && i < |ids|
    ensures ids[i] !in Done(ids, i)
  {
  }

  /** A network `connect_all` hands to `connect_network`, which then makes it a new factory. */
  predicate Attempts(networks: map<int, Config>, before: map<int, Connector>, id: int) {
    id in networks && id !in before && networks[id].autoConnect
  }

  /** A network `connect_all` dials successfully: attempted, and dialable at (0, 0). */
  predicate Dials(networks: map<int, Config>, before: map<int, Connector>, id: int) {
    Attempts(networks, before, id) && ConnectTarget(networks[id], 0, 0).Some?
  }

  /** The reactor call that dials `target`: SSL iff the network enables it. */
  function DialCall(c: Config, target: (string, int)): ReactorCall {
    if c.enableSsl then ConnectSsl(target.0, target.1) else ConnectTcp(target.0, target.1)
  }

  /**
   * The dials `connect_all` makes, in the order it visits `ids`: one per
   * auto-connect network that was not connected before and has a target.
   */
  function DialCalls(ids: seq<int>, networks: map<int, Config>, before: map<int, Connector>): (r: seq<ReactorCall>)
    ensures |r| <= |ids|
    decreases |ids|
  {
    if ids == [] then []
    else
      var id := ids[|ids| - 1];
      var rest := DialCalls(ids[..|ids| - 1], networks, before);
      if Dials(networks, before, id) then
        rest + [DialCall(networks[id], ConnectTarget(networks[id], 0, 0).value)]
      else rest
  }

  /** Visiting one more network appends its dial, if it makes one. */
  lemma DialCallsNext(ids: seq<int>, i: nat, networks: map<int, Config>, before: map<int, Connector>)
    requires i < |ids|
    ensures DialCalls(ids[..i + 1], networks, before) == DialCalls(ids[..i], networks, before) +
      if Dials(networks, before, ids[i]) then [DialCall(networks[ids[i]], ConnectTarget(networks[ids[i]], 0, 0).value)] else []
  {
    assert ids[..i + 1][..i] == ids[..i];
  }

  /** The networks among `ids` that `connect_all` hands to `connect_network`. */
  ghost function AttemptSet(ids: seq<int>, networks: map<int, Config>, before: map<int, Connector>): (r: set<int>)
    ensures forall id :: id in r <==> id in ids && Attempts(networks, before, id)
  {
    set id | id in ids && Attempts(networks, before, id)
  }

  /** The networks among `ids` that `connect_all` dials. */
  ghost function DialSet(ids: seq<int>, networks: map<int, Config>, before: map<int, Connector>): (r: set<int>)
    ensures forall id :: id in r <==> id in ids && Dials(networks, before, id)
  {
    set id | id in ids && Dials(networks, before, id)
  }

  /**
   * The connectors after `connect_all` has visited `ids`, starting from
   * `before`: each network it dials gets a connector with the next serial,
   * and the others keep theirs.
   */
  function Dialed(ids: seq<int>, networks: map<int, Config>, before: map<int, Connector>, serial: nat): (r: map<int, Connector>)
    ensures r.Keys == before.Keys + DialSet(ids, networks, before)
    ensures forall id :: id in before ==> r[id] == before[id]
    decreases |ids|
  {
    if ids == [] then before
    else
      var id := ids[|ids| - 1];
      var init := ids[..|ids| - 1];
      assert ids == init + [id];
      var m := Dialed(init, networks, before, serial);
      if Dials(networks, before, id) then m[id := Connector(serial + |DialCalls(init, networks, before)|)] else m
  }

  /**
   * The recorded targets after `connect_all` has visited `ids`: each network
   * it dials is recorded at its first address and port, the others keep
   * theirs.
   */
  function Targets(ids: seq<int>, networks: map<int, Config>, before: map<int, Connector>,
    targets: map<int, (string, int)>): (r: map<int, (string, int)>)
    ensures r.Keys == targets.Keys + DialSet(ids, networks, before)
    ensures forall id :: id in DialSet(ids, networks, before) ==> r[id] == ConnectTarget(networks[id], 0, 0).value
    ensures forall id :: id in targets && id !in DialSet(ids, networks, before) ==> r[id] == targets[id]
    decreases |ids|
  {
    if ids == [] then targets
    else
      var id := ids[|ids| - 1];
      var init := ids[..|ids| - 1];
      assert ids == init + [id];
      var m := Targets(init, networks, before, targets);
      if Dials(networks, before, id) then m[id := ConnectTarget(networks[id], 0, 0).value] else m
  }

  /** Visiting one more network appends its disconnect, if it is connected. */
  lemma DisconnectCallsNext(ids: seq<int>, i: nat, connectors: map<int, Connector>)
    requires i < |ids|
    ensures DisconnectCalls(ids[..i + 1], connectors) ==
      DisconnectCalls(ids[..i], connectors) + if ids[i] in connectors then [Disconnect(connectors[ids[i]])] else []
  {
    assert ids[..i + 1][..i] == ids[..i];
  }

  /**
   * The maps after `disconnect_all` has visited the first `i` networks of
   * `ids`, from the connectors `c0`, factories `f0`, targets `a0` and call
   * log `k0` it started with.
   */
  ghost predicate Dropped(ids: seq<int>, i: nat, c0: map<int, Connector>, f0: map<int, Factory.ClientFactory>,
    a0: map<int, (string, int)>, k0: seq<ReactorCall>,
    c: map<int, Connector>, f: map<int, Factory.ClientFactory>, a: map<int, (string, int)>, log: seq<ReactorCall>)
  {
    i <= |ids| &&
    c == c0 - Done(ids, i) &&
    f == f0 - (c0.Keys * Done(ids, i)) &&
    a == a0 - (c0.Keys * Done(ids, i)) &&
    log == k0 + DisconnectCalls(ids[..i], c0)
  }

  /** What one visit of `disconnect_all` leaves, according as the network is connected. */
  lemma DropStep(ids: seq<int>, i: nat, c0: map<int, Connector>, f0: map<int, Factory.ClientFactory>,
    a0: map<int, (string, int)>, k0: seq<ReactorCall>,
    c: map<int, Connector>, f: map<int, Factory.ClientFactory>, a: map<int, (string, int)>, log: seq<ReactorCall>)
    requires i < |ids| && ids[i] !in Done(ids, i)
    requires Dropped(ids, i, c0, f0, a0, k0, c, f, a, log)
    ensures ids[i] in c <==> ids[i] in c0
    ensures ids[i] in c ==> c[ids[i]] == c0[ids[i]] && (ids[i] in f <==> ids[i] in f0) && (ids[i] in f ==> f[ids[i]] == f0[ids[i]])
    ensures ids[i] in c ==> Dropped(ids, i + 1, c0, f0, a0, k0, c - {ids[i]}, f - {ids[i]}, a - {ids[i]}, log + [Disconnect(c[ids[i]])])
    ensures ids[i] !in c ==> Dropped(ids, i + 1, c0, f0, a0, k0, c, f, a, log)
  {
    DoneNext(ids, i);
    DisconnectCallsNext(ids, i, c0);
  }

  /** Visiting one more network updates the connectors, the targets and the attempts by that network alone. */
  lemma VisitedNext(ids: seq<int>, i: nat, networks: map<int, Config>, before: map<int, Connector>, serial: nat,
    targets: map<int, (string, int)>)
    requires i < |ids|
    ensures Dialed(ids[..i + 1], networks, before, serial) ==
      if Dials(networks, before, ids[i]) then
        Dialed(ids[..i], networks, before, serial)[ids[i] := Connector(serial + |DialCalls(ids[..i], networks, before)|)]
      else Dialed(ids[..i], networks, before, serial)
    ensures Targets(ids[..i + 1], networks, before, targets) ==
      if Dials(networks, before, ids[i]) then
        Targets(ids[..i], networks, before, targets)[ids[i] := ConnectTarget(networks[ids[i]], 0, 0).value]
      else Targets(ids[..i], networks, before, targets)
    ensures AttemptSet(ids[..i + 1], networks, before) ==
      AttemptSet(ids[..i], networks, before) + if Attempts(networks, before, ids[i]) then {ids[i]} else {}
  {
    DialedNext(ids, i, networks, before, serial);
    TargetsNext(ids, i, networks, before, targets);
    AttemptSetNext(ids, i, networks, before);
  }

  lemma DialedNext(ids: seq<int>, i: nat, networks: map<int, Config>, before: map<int, Connector>, serial: nat)
    requires i < |ids|
    ensures Dialed(ids[..i + 1], networks, before, serial) ==
      if Dials(networks, before, ids[i]) then
        Dialed(ids[..i], networks, before, serial)[ids[i] := Connector(serial + |DialCalls(ids[..i], networks, before)|)]
      else Dialed(ids[..i], networks, before, serial)
  {
    assert ids[..i + 1][..i] == ids[..i];
  }

  lemma TargetsNext(ids: seq<int>, i: nat, networks: map<int, Config>, before: map<int, Connector>,
    targets: map<int, (string, int)>)
    requires i < |ids|
    ensures Targets(ids[..i + 1], networks, before, targets) ==
      if Dials(networks, before, ids[i]) then
        Targets(ids[..i], networks, before, targets)[ids[i] := ConnectTarget(networks[ids[i]], 0, 0).value]
      else Targets(ids[..i], networks, before, targets)
  {
    assert ids[..i + 1][..i] == ids[..i];
  }

  lemma AttemptSetNext(ids: seq<int>, i: nat, networks: map<int, Config>, before: map<int, Connector>)
    requires i < |ids|
    ensures AttemptSet(ids[..i + 1], networks, before) ==
      AttemptSet(ids[..i], networks, before) + if Attempts(networks, before, ids[i]) then {ids[i]} else {}
  {
    assert ids[..i + 1] == ids[..i] + [ids[i]];
  }

  /**
   * The state after `connect_all` has visited the first `i` networks of
   * `order`, from the connectors `c0`, factories `f0`, targets `a0`, call
   * log `k0` and serial `s0` it started with; `made` holds the factories it
   * created.
   */
  ghost predicate Progress(order: seq<int>, networks: map<int, Config>, i: nat, connected: nat,
    c0: map<int, Connector>, f0: map<int, Factory.ClientFactory>, a0: map<int, (string, int)>,
    k0: seq<ReactorCall>, s0: nat, made: set<Factory.ClientFactory>,
    c: map<int, Connector>, serial: nat, a: map<int, (string, int)>, log: seq<ReactorCall>,
    f: map<int, Factory.ClientFactory>, registry: Factory.AddressRegistry)
  {
    i <= |order| &&
    Visited(order, networks, i, connected, c0, a0, k0, s0, c, serial, a, log) &&
    Created(order, networks, i, c0, f0, made, f, registry)
  }

  /** The connectors, serial, targets, call log and count after visiting the first `i` networks. */
  ghost predicate Visited(order: seq<int>, networks: map<int, Config>, i: nat, connected: nat,
    c0: map<int, Connector>, a0: map<int, (string, int)>, k0: seq<ReactorCall>, s0: nat,
    c: map<int, Connector>, serial: nat, a: map<int, (string, int)>, log: seq<ReactorCall>)
    requires i <= |order|
  {
    c == Dialed(order[..i], networks, c0, s0) &&
    serial == s0 + |DialCalls(order[..i], networks, c0)| &&
    a == Targets(order[..i], networks, c0, a0) &&
    log == k0 + DialCalls(order[..i], networks, c0) &&
    connected == |DialCalls(order[..i], networks, c0)|
  }

  /** The factories after visiting the first `i` networks: one made per attempt, the rest as they were. */
  ghost predicate Created(order: seq<int>, networks: map<int, Config>, i: nat,
    c0: map<int, Connector>, f0: map<int, Factory.ClientFactory>, made: set<Factory.ClientFactory>,
    f: map<int, Factory.ClientFactory>, registry: Factory.AddressRegistry)
    requires i <= |order|
  {
    f.Keys == f0.Keys + AttemptSet(order[..i], networks, c0) &&
    (forall id :: id in f0 && id !in AttemptSet(order[..i], networks, c0) ==> f[id] == f0[id]) &&
    (forall id :: id in AttemptSet(order[..i], networks, c0) ==>
      f[id] in made && f[id].config == networks[id] && f[id].registry == registry)
  }

  /** One visit, with the effect `connect_network` has on the `i`-th network, keeps `Progress`. */
  lemma ProgressNext(order: seq<int>, networks: map<int, Config>, i: nat, connected: nat,
    c0: map<int, Connector>, f0: map<int, Factory.ClientFactory>, a0: map<int, (string, int)>,
    k0: seq<ReactorCall>, s0: nat, made: set<Factory.ClientFactory>,
    c: map<int, Connector>, serial: nat, a: map<int, (string, int)>, log: seq<ReactorCall>,
    f: map<int, Factory.ClientFactory>,
    ok: bool, c': map<int, Connector>, serial': nat, a': map<int, (string, int)>, log': seq<ReactorCall>,
    f': map<int, Factory.ClientFactory>, registry: Factory.AddressRegistry)
    requires Distinct(order) && i < |order|
    requires Progress(order, networks, i, connected, c0, f0, a0, k0, s0, made, c, serial, a, log, f, registry)
    requires order[i] in c <==> order[i] in c0
    requires ok <==> Dials(networks, c, order[i])
    requires serial' == if ok then serial + 1 else serial
    requires !Attempts(networks, c, order[i]) ==> f' == f && c' == c && a' == a
    requires Attempts(networks, c, order[i]) ==>
      order[i] in f' && f'[order[i]].config == networks[order[i]] && f'[order[i]].registry == registry &&
      f'.Keys == f.Keys + {order[i]} && (forall k :: k in f && k != order[i] ==> f'[k] == f[k])
    requires Attempts(networks, c, order[i]) && !ok ==> c' == c && a' == a
    requires ok ==>
      c' == c[order[i] := Connector(serial)] && a' == a[order[i] := ConnectTarget(networks[order[i]], 0, 0).value]
    requires log' == log + if ok then [DialCall(networks[order[i]], ConnectTarget(networks[order[i]], 0, 0).value)] else []
    ensures Progress(order, networks, i + 1, if ok then connected + 1 else connected, c0, f0, a0, k0, s0,
      if Attempts(networks, c0, order[i]) then made + {f'[order[i]]} else made, c', serial', a', log', f', registry)
  {
    DistinctNotDone(order, i);
    DialCallsNext(order, i, networks, c0);
    VisitedNext(order, i, networks, c0, s0, a0);
    VisitedStep(order, networks, i, connected, c0, a0, k0, s0, c, serial, a, log, ok, c', serial', a', log');
    CreatedStep(order, networks, i, c0, f0, made, c, f, f', registry);
  }

  lemma VisitedStep(order: seq<int>, networks: map<int, Config>, i: nat, connected: nat,
    c0: map<int, Connector>, a0: map<int, (string, int)>, k0: seq<ReactorCall>, s0: nat,
    c: map<int, Connector>, serial: nat, a: map<int, (string, int)>, log: seq<ReactorCall>,
    ok: bool, c': map<int, Connector>, serial': nat, a': map<int, (string, int)>, log': seq<ReactorCall>)
    requires i < |order| && Visited(order, networks, i, connected, c0, a0, k0, s0, c, serial, a, log)
    requires Dials(networks, c, order[i]) == Dials(networks, c0, order[i])
    requires ok <==> Dials(networks, c, order[i])
    requires serial' == if ok then serial + 1 else serial
    requires !ok ==> c' == c && a' == a
    requires ok ==>
      c' == c[order[i] := Connector(serial)] && a' == a[order[i] := ConnectTarget(networks[order[i]], 0, 0).value]
    requires log' == log + if ok then [DialCall(networks[order[i]], ConnectTarget(networks[order[i]], 0, 0).value)] else []
    requires DialCalls(order[..i + 1], networks, c0) == DialCalls(order[..i], networks, c0) +
      if Dials(networks, c0, order[i]) then [DialCall(networks[order[i]], ConnectTarget(networks[order[i]], 0, 0).value)] else []
    requires Dialed(order[..i + 1], networks, c0, s0) ==
      if Dials(networks, c0, order[i]) then
        Dialed(order[..i], networks, c0, s0)[order[i] := Connector(s0 + |DialCalls(order[..i], networks, c0)|)]
      else Dialed(order[..i], networks, c0, s0)
    requires Targets(order[..i + 1], networks, c0, a0) ==
      if Dials(networks, c0, order[i]) then
        Targets(order[..i], networks, c0, a0)[order[i] := ConnectTarget(networks[order[i]], 0, 0).value]
      else Targets(order[..i], networks, c0, a0)
    ensures Visited(order, networks, i + 1, if ok then connected + 1 else connected, c0, a0, k0, s0, c', serial', a', log')
  {
  }

  lemma CreatedStep(order: seq<int>, networks: map<int, Config>, i: nat,
    c0: map<int, Connector>, f0: map<int, Factory.ClientFactory>, made: set<Factory.ClientFactory>,
    c: map<int, Connector>, f: map<int, Factory.ClientFactory>, f': map<int, Factory.ClientFactory>,
    registry: Factory.AddressRegistry)
    requires i < |order| && Created(order, networks, i, c0, f0, made, f, registry)
    requires order[i] !in order[..i]
    requires Attempts(networks, c, order[i]) == Attempts(networks, c0, order[i])
    requires !Attempts(networks, c, order[i]) ==> f' == f
    requires Attempts(networks, c, order[i]) ==>
      order[i] in f' && f'[order[i]].config == networks[order[i]] && f'[order[i]].registry == registry &&
      f'.Keys == f.Keys + {order[i]} && (forall k :: k in f && k != order[i] ==> f'[k] == f[k])
    requires AttemptSet(order[..i + 1], networks, c0) ==
      AttemptSet(order[..i], networks, c0) + if Attempts(networks, c0, order[i]) then {order[i]} else {}
    ensures Created(order, networks, i + 1, c0, f0,
      if Attempts(networks, c0, order[i]) then made + {f'[order[i]]} else made, f', registry)
  {
  }

  /** Over a list without repeats, there is one dial per network dialed. */
  lemma {:induction false} DialCountIsDialSet(ids: seq<int>, networks: map<int, Config>, before: map<int, Connector>)
    requires Distinct(ids)
    ensures |DialCalls(ids, networks, before)| == |DialSet(ids, networks, before)|
    decreases |ids|
  {
    if ids != [] {
      var n := |ids| - 1;
      var init := ids[..n];
      assert ids == init + [ids[n]];
      assert Distinct(init);
      DialCountIsDialSet(init, networks, before);
      assert ids[n] !in init;
      if Dials(networks, before, ids[n]) {
        assert DialSet(ids, networks, before) == DialSet(init, networks, before) + {ids[n]};
      } else {
        assert DialSet(ids, networks, before) == DialSet(init, networks, before);
      }
    }
  }

  /** So the number of dials `connect_all` makes is the number of connectors it adds. */
  lemma NewConnections(ids: seq<int>, networks: map<int, Config>, before: map<int, Connector>, serial: nat)
    requires Distinct(ids)
    ensures |Dialed(ids, networks, before, serial).Keys| == |before.Keys| + |DialCalls(ids, networks, before)|
  {
    DialCountIsDialSet(ids, networks, before);
    assert before.Keys !! DialSet(ids, networks, before);
  }

  /** The disconnects `disconnect_all` makes: one per connected network, visiting `ids` in order. */
  function DisconnectCalls(ids: seq<int>, connectors: map<int, Connector>): (r: seq<ReactorCall>)
    ensures |r| <= |ids|
    ensures forall k :: 0 <= k < |r| ==> r[k].Disconnect? && r[k].connector in connectors.Values
    decreases |ids|
  {
    if ids == [] then []
    else
      var id := ids[|ids| - 1];
      var rest := DisconnectCalls(ids[..|ids| - 1], connectors);
      if id in connectors then rest + [Disconnect(connectors[id])] else rest
  }

  class Manager {
    var networks: map<int, Config>
    /** The keys of `networks` in insertion order, as a Python dict iterates them. */
    var order: seq<int>
    var factories: map<int, Factory.ClientFactory>
    var connectors: map<int, Connector>
    /** `connected_addresses`; the factories write into it too. */
    const addresses: Factory.AddressRegistry
    var calls: seq<ReactorCall>
    var nextSerial: nat

    ghost predicate Valid()
      reads this
    {
      Distinct(order) && (forall id :: id in networks <==> id in order) &&
      (forall k :: 0 <= k < |order| ==> order[k] in networks) &&
      connectors.Keys <= networks.Keys &&
      (forall a, b :: a in factories && b in factories && a != b ==> factories[a] != factories[b])
    }

    constructor ()
      ensures Valid() && fresh(addresses)
      ensures networks == map[] && order == [] && factories == map[] && connectors == map[]
      ensures addresses.connected == map[] && calls == []
    {
      networks := map[];
      order := [];
      factories := map[];
      connectors := map[];
      addresses := new Factory.AddressRegistry();
      calls := [];
      nextSerial := 0;
    }

    /** Insert or overwrite one configuration, keeping the insertion order. */
    method Put(c: Config)
      requires Valid()
      modifies this`networks, this`order
      ensures Valid()
      ensures networks == old(networks)[c.id := c]
      ensures order == if c.id in old(networks) then old(order) else old(order) + [c.id]
    {
      if c.id !in networks {
        order := order + [c.id];
      }
      networks := networks[c.id := c];
    }

    /** `load_networks`. */
    method LoadNetworks(rows: seq<Config>) returns (loaded: seq<Config>)
      requires Valid()
      modifies this`networks, this`order
      ensures Valid()
      ensures loaded == rows
      ensures networks == Loaded(old(networks), rows)
      ensures old(order) <= order
    {
      var i := 0;
      while i < |rows|
        invariant 0 <= i <= |rows|
        invariant Valid()
        invariant networks == Loaded(old(networks), rows[..i])
        invariant old(order) <= order
      {
        assert rows[..i + 1][..i] == rows[..i];
        Put(rows[i]);
        i := i + 1;
      }
      assert rows[..i] == rows;
      loaded := rows;
    }

    /** `connect_network`. */
    method ConnectNetwork(id: int, addressIdx: int, portIdx: int) returns (ok: bool)
      requires Valid()
      modifies this`factories, this`connectors, this`calls, this`nextSerial, addresses
      ensures Valid()
      ensures nextSerial == if ok then old(nextSerial) + 1 else old(nextSerial)
      ensures id !in networks || id in old(connectors) || !networks[id].autoConnect ==>
        !ok && factories == old(factories) && connectors == old(connectors) &&
        addresses.connected == old(addresses.connected) && calls == old(calls)
      ensures id in networks && id !in old(connectors) && networks[id].autoConnect ==>
        id in factories && fresh(factories[id]) && factories[id].config == networks[id] &&
        factories[id].registry == addresses && factories.Keys == old(factories).Keys + {id} &&
        (forall k :: k in old(factories) && k != id ==> factories[k] == old(factories)[k])
      ensures id in networks && id !in old(connectors) && networks[id].autoConnect ==>
        match ConnectTarget(networks[id], addressIdx, portIdx)
        case None =>
          !ok && connectors == old(connectors) && addresses.connected == old(addresses.connected) && calls == old(calls)
        case Some(target) =>
          ok && connectors == old(connectors)[id := Connector(old(nextSerial))] &&
          addresses.connected == old(addresses.connected)[id := target] &&
          calls == old(calls) + [if networks[id].enableSsl then ConnectSsl(target.0, target.1) else ConnectTcp(target.0, target.1)]
    {
      if id !in networks {
        return false;
      }
      if id in connectors {
        return false;
      }
      var config := networks[id];
      if !config.autoConnect {
        return false;
      }
      var factory := new Factory.ClientFactory(config, addresses);
      factories := factories[id := factory];
      var a := if addressIdx >= |config.addresses| then 0 else addressIdx;
      var address := PyIndex(config.addresses, a);
      if address.None? {
        return false;
      }
      var call;
      var port: int;
      if config.enableSsl {
        var p := if portIdx >= |config.sslPorts| then 0 else portIdx;
        var found := PyIndex(config.sslPorts, p);
        if found.None? {
          return false;
        }
        port := found.value;
        call := ConnectSsl(address.value, port);
      } else {
        var p := if portIdx >= |config.ports| then 0 else portIdx;
        var found := PyIndex(config.ports, p);
        if found.None? {
          return false;
        }
        port := found.value;
        call := ConnectTcp(address.value, port);
      }
      calls := calls + [call];
      connectors := connectors[id := Connector(nextSerial)];
      nextSerial := nextSerial + 1;
      addresses.connected := addresses.connected[id := (address.value, port)];
      ok := true;
    }

    /** `disconnect_network`. */
    method DisconnectNetwork(id: int, reconnect: bool) returns (ok: bool)
      requires Valid()
      modifies this`factories, this`connectors, this`calls, addresses
      modifies if id in factories then {factories[id]} else {}
      ensures Valid()
      ensures ok <==> id in old(connectors)
      ensures !ok ==>
        factories == old(factories) && connectors == old(connectors) &&
        addresses.connected == old(addresses.connected) && calls == old(calls)
      ensures ok ==> calls == old(calls) + [Disconnect(old(connectors)[id])]
      ensures ok && !reconnect ==>
        connectors == old(connectors) - {id} && factories == old(factories) - {id} &&
        addresses.connected == old(addresses.connected) - {id}
      ensures ok && reconnect ==>
        connectors == old(connectors) && factories == old(factories) && addresses.connected == old(addresses.connected)
      ensures id in old(factories) ==>
        old(factories)[id].shouldReconnect ==
          if ok && !reconnect && !networks[id].autoReconnect then false else old(factories[id].shouldReconnect)
    {
      if id !in connectors {
        return false;
      }
      var connector := connectors[id];
      var config := networks[id];
      if !reconnect && !config.autoReconnect {
        if id in factories {
          factories[id].shouldReconnect := false;
        }
      }
      calls := calls + [Disconnect(connector)];
      if !reconnect {
        connectors := connectors - {id};
        factories := factories - {id};
        addresses.connected := addresses.connected - {id};
      }
      ok := true;
    }

    /**
     * `reconnect_network` as written: the disconnect it asks for keeps the
     * connector entry, so on a network that is connected the following
     * connect stops at its already-connected guard.
     */
    method ReconnectNetwork(id: int) returns (ok: bool)
      requires Valid()
      modifies this`factories, this`connectors, this`calls, this`nextSerial, addresses
      modifies if id in factories then {factories[id]} else {}
      ensures Valid()
      ensures id in old(connectors) ==>
        !ok && connectors == old(connectors) && factories == old(factories) &&
        addresses.connected == old(addresses.connected) && calls == old(calls) + [Disconnect(old(connectors)[id])]
      ensures id !in old(connectors) && id in networks && networks[id].autoConnect ==>
        (ok <==> ConnectTarget(networks[id], 0, 0).Some?)
      ensures id !in old(connectors) && !(id in networks && networks[id].autoConnect) ==> !ok
    {
      if id in connectors {
        var disconnected := DisconnectNetwork(id, true);
        if !disconnected {
          return false;
        }
      }
      ok := ConnectNetwork(id, 0, 0);
    }

    /**
     * `reconnect_network` as evidently intended: a connected network is
     * disconnected for good and dialed again.
     */
    method ReconnectNetworkCorrected(id: int) returns (ok: bool)
      requires Valid()
      modifies this`factories, this`connectors, this`calls, this`nextSerial, addresses
      modifies if id in factories then {factories[id]} else {}
      ensures Valid()
      ensures id in networks && networks[id].autoConnect ==>
        (ok <==> ConnectTarget(networks[id], 0, 0).Some?) &&
        (ok ==> id in connectors && id in addresses.connected && addresses.connected[id] == ConnectTarget(networks[id], 0, 0).value)
      ensures !(id in networks && networks[id].autoConnect) ==> !ok
    {
      if id in connectors {
        var disconnected := DisconnectNetwork(id, false);
      }
      ok := ConnectNetwork(id, 0, 0);
    }

    /** `get_network_status`. */
    function Status(id: int): (r: Option<NetworkStatus>)
      reads this, addresses, factories.Values
      reads set f | f in factories.Values && f.protocol != null :: f.protocol
      ensures r.None? <==> id !in networks
      ensures r.Some? ==> r.value.id == networks[id].id && r.value.name == networks[id].name
      ensures r.Some? ==> (r.value.connected <==> id in connectors)
      ensures r.Some? ==>
        r.value.connectedTo == if id in connectors && id in addresses.connected then Some(addresses.connected[id]) else None
      ensures r.Some? ==> (r.value.session.Some? <==> id in connectors && id in factories && factories[id].protocol != null)
      ensures r.Some? && r.value.session.Some? ==>
        r.value.session.value.channels == factories[id].protocol.joinedChannels &&
        r.value.session.value.nickname == factories[id].protocol.nickname &&
        r.value.session.value.saslAuthenticated == factories[id].protocol.saslAuthenticated
    {
      if id !in networks then None
      else
        var n := networks[id];
        var connected := id in connectors;
        var at := if connected && id in addresses.connected then Some(addresses.connected[id]) else None;
        var session :=
          if connected && id in factories && factories[id].protocol != null then
            var p := factories[id].protocol;
            Some(SessionInfo(p.nickname, p.joinedChannels, p.saslAuthenticated))
          else None;
        Some(NetworkStatus(n.id, n.name, n.addresses, n.ports, n.sslPorts, n.enableSsl, n.autoConnect,
          n.autoReconnect, connected, n.authMechanism, at, session))
    }

    /** `list_networks`: one status per network, in insertion order, none missing. */
    method ListNetworks() returns (r: seq<NetworkStatus>)
      requires Valid()
      ensures |r| == |order|
      ensures forall k :: 0 <= k < |order| ==> Some(r[k]) == Status(order[k])
      ensures forall k :: 0 <= k < |order| ==> r[k].id == networks[order[k]].id
    {
      r := [];
      var i := 0;
      while i < |order|
        invariant 0 <= i <= |order|
        invariant |r| == i
        invariant forall k :: 0 <= k < i ==> Some(r[k]) == Status(order[k])
      {
        assert order[i] in networks;
        r := r + [Status(order[i]).value];
        i := i + 1;
      }
    }

    /** One step of `connect_all`: dial the network if it is marked auto-connect. */
    method DialIfAutomatic(id: int) returns (ok: bool)
      requires Valid() && id in networks
      modifies this`factories, this`connectors, this`calls, this`nextSerial, addresses
      ensures Valid() && networks == old(networks) && order == old(order)
      ensures ok <==> Dials(networks, old(connectors), id)
      ensures nextSerial == if ok then old(nextSerial) + 1 else old(nextSerial)
      ensures !Attempts(networks, old(connectors), id) ==>
        factories == old(factories) && connectors == old(connectors) && addresses.connected == old(addresses.connected)
      ensures Attempts(networks, old(connectors), id) ==>
        id in factories && fresh(factories[id]) && factories[id].config == networks[id] &&
        factories[id].registry == addresses && factories.Keys == old(factories).Keys + {id} &&
        (forall k :: k in old(factories) && k != id ==> factories[k] == old(factories)[k])
      ensures Attempts(networks, old(connectors), id) && !ok ==>
        connectors == old(connectors) && addresses.connected == old(addresses.connected)
      ensures ok ==>
        connectors == old(connectors)[id := Connector(old(nextSerial))] &&
        addresses.connected == old(addresses.connected)[id := ConnectTarget(networks[id], 0, 0).value]
      ensures calls == old(calls) + if ok then [DialCall(networks[id], ConnectTarget(networks[id], 0, 0).value)] else []
    {
      ok := false;
      if networks[id].autoConnect {
        ok := ConnectNetwork(id, 0, 0);
      }
    }

    /**
     * `connect_all`: every auto-connect network that is not connected yet is
     * handed to `connect_network` once, in insertion order; connections that
     * existed are left as they were.
     */
    method ConnectAll() returns (connected: nat)
      requires Valid()
      modifies this`factories, this`connectors, this`calls, this`nextSerial, addresses
      ensures Valid() && networks == old(networks) && order == old(order)
      ensures connectors == Dialed(order, networks, old(connectors), old(nextSerial))
      ensures forall id :: id in connectors <==> id in old(connectors) || Dials(networks, old(connectors), id)
      ensures addresses.connected == Targets(order, networks, old(connectors), old(addresses.connected))
      ensures factories.Keys == old(factories).Keys + AttemptSet(order, networks, old(connectors))
      ensures forall id :: id in AttemptSet(order, networks, old(connectors)) ==>
        fresh(factories[id]) && factories[id].config == networks[id] && factories[id].registry == addresses
      ensures forall id :: id in old(factories) && id !in AttemptSet(order, networks, old(connectors)) ==>
        factories[id] == old(factories)[id]
      ensures calls == old(calls) + DialCalls(order, networks, old(connectors))
      ensures connected == |DialCalls(order, networks, old(connectors))|
    {
      connected := 0;
      ghost var c0, f0, a0, k0, s0 := connectors, factories, addresses.connected, calls, nextSerial;
      ghost var made: set<Factory.ClientFactory> := {};
      var i := 0;
      while i < |order|
        invariant 0 <= i <= |order|
        invariant Valid() && networks == old(networks) && order == old(order)
        invariant Progress(order, networks, i, connected, c0, f0, a0, k0, s0, made,
          connectors, nextSerial, addresses.connected, calls, factories, addresses)
        invariant forall x :: x in made ==> fresh(x)
      {
        connected, made := Visit(i, connected, c0, f0, a0, k0, s0, made);
        i := i + 1;
      }
      assert order[..i] == order;
      forall id | Dials(networks, c0, id)
        ensures id in order
      {
      }
    }

    /** The visit of `connect_all` to the `i`-th network. */
    method Visit(i: nat, connected: nat, ghost c0: map<int, Connector>, ghost f0: map<int, Factory.ClientFactory>,
        ghost a0: map<int, (string, int)>, ghost k0: seq<ReactorCall>, ghost s0: nat, ghost made: set<Factory.ClientFactory>)
      returns (connected': nat, ghost made': set<Factory.ClientFactory>)
      requires Valid() && i < |order|
      requires Progress(order, networks, i, connected, c0, f0, a0, k0, s0, made,
        connectors, nextSerial, addresses.connected, calls, factories, addresses)
      modifies this`factories, this`connectors, this`calls, this`nextSerial, addresses
      ensures Valid() && networks == old(networks) && order == old(order)
      ensures Progress(order, networks, i + 1, connected', c0, f0, a0, k0, s0, made',
        connectors, nextSerial, addresses.connected, calls, factories, addresses)
      ensures forall x :: x in made' ==> x in made || fresh(x)
    {
      var id := order[i];
      ghost var c, serial, a, log, f := connectors, nextSerial, addresses.connected, calls, factories;
      DistinctNotDone(order, i);
      assert id in connectors <==> id in c0;
      var ok := DialIfAutomatic(id);
      connected' := if ok then connected + 1 else connected;
      made' := if Attempts(networks, c0, id) then made + {factories[id]} else made;
      ProgressNext(order, networks, i, connected, c0, f0, a0, k0, s0, made, c, serial, a, log, f,
        ok, connectors, nextSerial, addresses.connected, calls, factories, addresses);
    }

    /** One step of `disconnect_all`: a connected network is disconnected and dropped from the three maps. */
    method Drop(id: int)
      requires Valid() && id in connectors
      modifies this`factories, this`connectors, this`calls, addresses
      modifies if id in factories then {factories[id]} else {}
      ensures Valid() && networks == old(networks) && order == old(order)
      ensures connectors == old(connectors) - {id} && factories == old(factories) - {id}
      ensures addresses.connected == old(addresses.connected) - {id}
      ensures calls == old(calls) + [Disconnect(old(connectors)[id])]
      ensures id in old(factories) ==>
        old(factories)[id].shouldReconnect == (networks[id].autoReconnect && old(factories[id].shouldReconnect))
    {
      var ok := DisconnectNetwork(id, false);
    }

    /**
     * `disconnect_all`: afterwards no network has a connector; each connected
     * network was disconnected once, and its factory stops reconnecting
     * unless the network is set to auto-reconnect.
     */
    method DisconnectAll()
      requires Valid()
      modifies this`factories, this`connectors, this`calls, addresses
      modifies factories.Values
      ensures Valid() && networks == old(networks) && order == old(order)
      ensures connectors == map[]
      ensures factories == old(factories) - old(connectors).Keys
      ensures addresses.connected == old(addresses.connected) - old(connectors).Keys
      ensures calls == old(calls) + DisconnectCalls(order, old(connectors))
      ensures forall id :: id in old(factories) ==>
        old(factories)[id].shouldReconnect ==
          (old(factories[id].shouldReconnect) && (id !in old(connectors) || networks[id].autoReconnect))
    {
      var ids := order;
      ghost var c0, f0, a0, k0 := connectors, factories, addresses.connected, calls;
      var i := 0;
      while i < |ids|
        invariant 0 <= i <= |ids|
        invariant Valid() && networks == old(networks) && order == old(order) && ids == order
        invariant Dropped(ids, i, c0, f0, a0, k0, connectors, factories, addresses.connected, calls)
        invariant forall a, b :: a in f0 && b in f0 && a != b ==> f0[a] != f0[b]
        invariant forall k :: k in f0 ==>
          f0[k].shouldReconnect == (old(f0[k].shouldReconnect) && (k !in c0 || k !in Done(ids, i) || networks[k].autoReconnect))
      {
        DropVisit(i, c0, f0, a0, k0);
        i := i + 1;
      }
      assert ids[..i] == ids;
      forall x | x in c0
        ensures x in Done(ids, |ids|)
      {
        assert x in ids;
        var k :| 0 <= k < |ids| && ids[k] == x;
      }
    }

    /** The visit of `disconnect_all` to the `i`-th network. */
    method DropVisit(i: nat, ghost c0: map<int, Connector>, ghost f0: map<int, Factory.ClientFactory>,
        ghost a0: map<int, (string, int)>, ghost k0: seq<ReactorCall>)
      requires Valid() && i < |order|
      requires Dropped(order, i, c0, f0, a0, k0, connectors, factories, addresses.connected, calls)
      requires forall a, b :: a in f0 && b in f0 && a != b ==> f0[a] != f0[b]
      modifies this`factories, this`connectors, this`calls, addresses
      modifies if order[i] in c0 && order[i] in f0 then {f0[order[i]]} else {}
      ensures Valid() && networks == old(networks) && order == old(order)
      ensures Dropped(order, i + 1, c0, f0, a0, k0, connectors, factories, addresses.connected, calls)
      ensures order[i] in c0 && order[i] in f0 ==>
        f0[order[i]].shouldReconnect == (networks[order[i]].autoReconnect && old(f0[order[i]].shouldReconnect))
    {
      var id := order[i];
      DistinctNotDone(order, i);
      DropStep(order, i, c0, f0, a0, k0, connectors, factories, addresses.connected, calls);
      if id in connectors {
        Drop(id);
      }
    }

    /** `reload_network_config`: only the entry of that id changes, from the first row carrying it. */
    method ReloadNetworkConfig(id: int, rows: seq<Config>) returns (ok: bool)
      requires Valid()
      modifies this`networks, this`order
      ensures Valid()
      ensures ok <==> exists k :: 0 <= k < |rows| && rows[k].id == id
      ensures !ok ==> networks == old(networks) && order == old(order)
      ensures ok ==>
        exists k :: FirstWithId(rows, id, k) && networks == old(networks)[id := rows[k]]
    {
      var i := 0;
      while i < |rows|
        invariant 0 <= i <= |rows|
        invariant forall j :: 0 <= j < i ==> rows[j].id != id
      {
        if rows[i].id == id {
          assert FirstWithId(rows, id, i);
          Put(rows[i]);
          return true;
        }
        i := i + 1;
      }
      ok := false;
    }

    /** `get_network_by_name`. */
    method GetNetworkByName(name: string) returns (r: Option<Config>)
      requires Valid()
      ensures r == ByName(order, networks, name)
      ensures r.Some? ==> Lower(r.value.name) == Lower(name)
    {
      var i := 0;
      while i < |order|
        invariant 0 <= i <= |order|
        invariant ByName(order[i..], networks, name) == ByName(order, networks, name)
      {
        assert order[i..][1..] == order[i + 1..];
        if Lower(networks[order[i]].name) == Lower(name) {
          return Some(networks[order[i]]);
        }
        i := i + 1;
      }
      r := None;
    }
  }

  /**
   * A connected, auto-connecting network cannot be reconnected as written,
   * while the corrected reconnect dials it again.
   */
  method ReconnectExample(c: Config) returns (written: bool, corrected: bool)
    requires c.autoConnect && c.addresses != [] && ActivePorts(c) != []
    ensures !written && corrected
  {
    written := ReconnectAsWritten(c);
    corrected := ReconnectCorrected(c);
  }

  method ReconnectAsWritten(c: Config) returns (written: bool)
    requires c.autoConnect && c.addresses != [] && ActivePorts(c) != []
    ensures !written
  {
    var m := new Manager();
    m.Put(c);
    var first := m.ConnectNetwork(c.id, 0, 0);
    written := m.ReconnectNetwork(c.id);
  }

  method ReconnectCorrected(c: Config) returns (corrected: bool)
    requires c.autoConnect && c.addresses != [] && ActivePorts(c) != []
    ensures corrected
  {
    var n := new Manager();
    n.Put(c);
    var first := n.ConnectNetwork(c.id, 0, 0);
    corrected := n.ReconnectNetworkCorrected(c.id);
  }
}
