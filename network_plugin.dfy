/**
 * The `network` command of the network plugin (plugins/network/init.py):
 * the one-line renderings of a network's status and of the network list, the
 * decoding of the `add` and `modify` options, and the nine subcommands.
 *
 * The plugin keeps no state of its own.  A command is modelled as the
 * sequence of effects it has: the calls it makes on the network manager and
 * on the database, in order, and the replies it sends.  What those calls
 * answer is an input (`Answers`), and so is what getopt makes of the
 * arguments.
 */
module NetworkPlugin {
  import opened Wrappers
  import opened Text
  import NetworkConfig
  import NetworkManager
  import DatabaseManager
  import opened NetworkOptions

  type Status = NetworkManager.NetworkStatus

  // ---------------------------------------------------------------------------
  // format_network_info

  function YesNo(b: bool): string { if b then "Yes" else "No" }

  const AuthNames: seq<string> := ["None", "SASL", "NickServ", "Custom"]

  /** `auth_names.get(mechanism, 'Unknown')`. */
  function AuthName(mechanism: int): string {
    if 0 <= mechanism < |AuthNames| then AuthNames[mechanism] else "Unknown"
  }

  /** The four named mechanisms are exactly the configuration's constants. */
  lemma AuthNamesMatchConfig()
    ensures AuthName(NetworkConfig.AuthNone) == "None"
    ensures AuthName(NetworkConfig.AuthSasl) == "SASL"
    ensures AuthName(NetworkConfig.AuthNickServ) == "NickServ"
    ensures AuthName(NetworkConfig.AuthCustom) == "Custom"
    ensures forall m :: AuthName(m) == "Unknown" <==> m < 0 || m > 3
  {
  }

  /** `', '.join(map(str, ports))`, the same text the database stores. */
  function PortList(ports: seq<int>): string {
    DatabaseManager.EncodePorts(ports)
  }

  /** The address the status reports as connected to, "" when it has none. */
  function ConnectedAddress(s: Status): string {
    if s.connectedTo.Some? then s.connectedTo.value.0 else ""
  }

  function Nickname(s: Status): string {
    if s.session.Some? then s.session.value.nickname else ""
  }

  function Channels(s: Status): seq<string> {
    if s.session.Some? then s.session.value.channels else []
  }

  predicate SaslAuthenticated(s: Status) {
    s.session.Some? && s.session.value.saslAuthenticated
  }

  /** Identity, addresses and the two port lists, each list only when it is non-empty. */
  function IdentityParts(s: Status): seq<string> {
    ["ID: " + IntToString(s.id), "Name: " + s.name, "Addresses: " + Join(s.addresses, ", ")]
    + Optional(s.ports != [], "Standard Ports: " + PortList(s.ports))
    + Optional(s.sslPorts != [], "SSL Ports: " + PortList(s.sslPorts))
  }

  /** The three settings, the connection state and, when known, the server connected to. */
  function StateParts(s: Status): seq<string> {
    ["SSL: " + YesNo(s.ssl), "Auto-connect: " + YesNo(s.autoConnect),
     "Auto-reconnect: " + YesNo(s.autoReconnect),
     "Connection Status: " + (if s.connected then "Connected" else "Disconnected")]
    + Optional(ConnectedAddress(s) != "",
        "Connected to: " + ConnectedAddress(s) + ":" + IntToString(if s.connectedTo.Some? then s.connectedTo.value.1 else 0))
  }

  /** The authentication mechanism, then what the live session reports. */
  function SessionParts(s: Status): seq<string> {
    ["Authentication Mechanism: " + AuthName(s.authMechanism)]
    + Optional(Nickname(s) != "", "Nickname: " + Nickname(s))
    + Optional(SaslAuthenticated(s), "SASL: Authenticated")
    + Optional(Channels(s) != [], "Channels: " + Join(Channels(s), ", "))
  }

  function InfoParts(s: Status): seq<string> {
    IdentityParts(s) + StateParts(s) + SessionParts(s)
  }

  /** `format_network_info`: the parts joined by ", ". */
  function FormatNetworkInfo(s: Status): string {
    Join(InfoParts(s), ", ")
  }

  /** Where each part sits: the optional parts shift the later ones by one each. */
  lemma InfoLayout(s: Status)
    ensures var parts, ports, ssl := InfoParts(s), Present(s.ports != []), Present(s.sslPorts != []);
      var at := Present(ConnectedAddress(s) != "");
      |parts| == 8 + ports + ssl + at + Present(Nickname(s) != "") + Present(SaslAuthenticated(s)) + Present(Channels(s) != [])
      && parts[0] == "ID: " + IntToString(s.id)
      && parts[1] == "Name: " + s.name
      && parts[2] == "Addresses: " + Join(s.addresses, ", ")
      && (s.ports != [] ==> parts[3] == "Standard Ports: " + PortList(s.ports))
      && parts[3 + ports + ssl] == "SSL: " + YesNo(s.ssl)
      && parts[6 + ports + ssl] == "Connection Status: " + (if s.connected then "Connected" else "Disconnected")
      && parts[7 + ports + ssl + at] == "Authentication Mechanism: " + AuthName(s.authMechanism)
  {
    var id, st, se := IdentityParts(s), StateParts(s), SessionParts(s);
    assert InfoParts(s) == id + st + se;
    assert |id| == 3 + Present(s.ports != []) + Present(s.sslPorts != []);
    assert |st| == 4 + Present(ConnectedAddress(s) != "");
    assert InfoParts(s)[|id|] == st[0];
    assert InfoParts(s)[|id| + 3] == st[3];
    assert InfoParts(s)[|id| + |st|] == se[0];
  }

  /** The rendering names the connection state and the mechanism whatever else it shows. */
  lemma InfoMentions(s: Status)
    ensures Contains(FormatNetworkInfo(s), "Connection Status: " + (if s.connected then "Connected" else "Disconnected"))
    ensures Contains(FormatNetworkInfo(s), "Authentication Mechanism: " + AuthName(s.authMechanism))
    ensures s.ports != [] ==> Contains(FormatNetworkInfo(s), "Standard Ports: " + PortList(s.ports))
  {
    InfoLayout(s);
    var ports, ssl := Present(s.ports != []), Present(s.sslPorts != []);
    JoinContains(InfoParts(s), ", ", 6 + ports + ssl);
    JoinContains(InfoParts(s), ", ", 7 + ports + ssl + Present(ConnectedAddress(s) != ""));
    if s.ports != [] {
      JoinContains(InfoParts(s), ", ", 3);
    }
  }

  // ---------------------------------------------------------------------------
  // format_network_list

  const NoNetworks := "No networks configured"
  const ItemSep := " -- "

  function ConnectionState(connected: bool): string {
    if connected then "Connected" else "Disconnected"
  }

  /** One bracketed entry of the list. */
  function ListItem(s: Status): string {
    ItemHead(s) + ItemTail(s.connected)
  }

  function ItemHead(s: Status): string {
    "[ ID: " + IntToString(s.id) + ", Name: " + s.name + ", "
  }

  function ItemTail(connected: bool): (r: string)
    ensures r == "Status: " + ConnectionState(connected) + " ]"
  {
    if connected then "Status: Connected ]" else "Status: Disconnected ]"
  }

  function ListItems(ns: seq<Status>): (r: seq<string>)
    ensures |r| == |ns| && forall k :: 0 <= k < |ns| ==> r[k] == ListItem(ns[k])
  {
    seq(|ns|, k requires 0 <= k < |ns| => ListItem(ns[k]))
  }

  lemma ListItemsStep(ns: seq<Status>, i: nat)
    requires i < |ns|
    ensures ListItems(ns[..i + 1]) == ListItems(ns[..i]) + [ListItem(ns[i])]
  {
    assert ns[..i + 1] == ns[..i] + [ns[i]];
  }

  /** What `format_network_list` returns. */
  function NetworkList(ns: seq<Status>): string {
    if ns == [] then NoNetworks else Join(ListItems(ns), ItemSep)
  }

  /** `format_network_list`: one entry per network, in the order given, joined by " -- ". */
  method FormatNetworkList(networks: seq<Status>) returns (text: string)
    ensures text == NetworkList(networks)
  {
    if networks == [] {
      return NoNetworks;
    }
    var parts: seq<string> := [];
    var i := 0;
    while i < |networks|
      invariant 0 <= i <= |networks|
      invariant parts == ListItems(networks[..i])
    {
      var entry := ListItem(networks[i]);
      ListItemsStep(networks, i);
      parts := parts + [entry];
      i := i + 1;
    }
    assert networks[..i] == networks;
    text := Join(parts, ItemSep);
  }

  lemma EndsWithTail(head: string, tail: string, p: string)
    requires |p| <= |tail|
    ensures EndsWith(head + tail, p) <==> EndsWith(tail, p)
  {
    assert (head + tail)[|head + tail| - |p|..] == tail[|tail| - |p|..];
  }

  lemma TailState(connected: bool)
    ensures EndsWith(ItemTail(connected), " Connected ]") <==> connected
    ensures EndsWith(ItemTail(connected), "Disconnected ]") <==> !connected
  {
    var tail := ItemTail(connected);
    if connected {
      assert tail[7..] == " Connected ]";
      assert tail[5] == 's';
    } else {
      assert tail[8..] == "Disconnected ]";
      assert tail[10] == 's';
    }
  }

  /** An entry ends in the connected marker exactly when its network is connected. */
  lemma ItemState(s: Status)
    ensures EndsWith(ListItem(s), " Connected ]") <==> s.connected
    ensures EndsWith(ListItem(s), "Disconnected ]") <==> !s.connected
  {
    TailState(s.connected);
    EndsWithTail(ItemHead(s), ItemTail(s.connected), " Connected ]");
    EndsWithTail(ItemHead(s), ItemTail(s.connected), "Disconnected ]");
  }

  /** Every network has its entry in a non-empty list. */
  lemma ListShowsEvery(ns: seq<Status>, k: nat)
    requires k < |ns|
    ensures Contains(NetworkList(ns), ListItem(ns[k]))
  {
    JoinContains(ListItems(ns), ItemSep, k);
  }

  // ---------------------------------------------------------------------------
  // The subcommands

  /** What the network manager and the database answer during one command. */
  datatype Answers = Answers(
    networks: seq<Status>,  // list_networks()
    status: Option<Status>, // get_network_status(...)
    accepted: bool,         // connect_network / disconnect_network / reconnect_network
    name: string,           // networks[network_id].name after an accepted call
    connected: set<int>,    // the keys of the manager's connectors
    currentId: int,         // the id of the network the command arrived on
    addedId: int,           // the row id add_network returns
    addFailure: Option<string>,  // the message of the exception add_network raised, if it raised
    loadFailure: Option<string>, // the message of the exception the reload after add, remove or modify raised, if it raised
    removed: bool,          // remove_network
    rowsMatched: bool)      // the UPDATE of update_network changed a row

  datatype Effect =
    | Reply(text: string)
    | InvalidValue(literal: string) // "Error: invalid value: " and the message of `int(literal)`
    | ListNetworks
    | GetStatus(id: int)
    | ConnectNetwork(id: int)
    | DisconnectNetwork(id: int)
    | ReconnectNetwork(id: int)
    | AddNetwork(network: DatabaseManager.NewNetwork)
    | RemoveNetwork(id: int)
    | UpdateNetwork(id: int, updates: seq<(string, DatabaseManager.PyValue)>)
    | LoadNetworks

  /** The effects that change a connection or the stored networks. */
  predicate Changes(e: Effect) {
    e.ConnectNetwork? || e.DisconnectNetwork? || e.ReconnectNetwork? || e.AddNetwork? || e.RemoveNetwork? || e.UpdateNetwork?
  }

  function NotFound(id: int): string {
    "Error: network not found: " + IntToString(id)
  }

  /** The first argument as a network id, or the reply that ends the command. */
  function ParseId(args: seq<string>, usage: string): (r: Result<int, string>)
    ensures r.Ok? <==> args != [] && ParseInt(args[0]).Some?
    ensures r.Ok? ==> r.value == ParseInt(args[0]).value
    ensures args == [] ==> r == Err(usage)
  {
    if args == [] then Err(usage)
    else match ParseInt(args[0])
      case None => Err("Error: invalid network ID: " + args[0])
      case Some(id) => Ok(id)
  }

  /** `handle_list`. */
  function List(ans: Answers): seq<Effect> {
    [ListNetworks, Reply(NetworkList(ans.networks))]
  }

  /** `handle_info`; `ans.status` is the status of the parsed id. */
  function Info(args: seq<string>, ans: Answers): seq<Effect> {
    match ParseId(args, "Usage: network info NETWORK_ID")
    case Err(text) => [Reply(text)]
    case Ok(id) =>
      [GetStatus(id), Reply(if ans.status.None? then NotFound(id) else FormatNetworkInfo(ans.status.value))]
  }

  /** `handle_current`: the status of the network the command arrived on. */
  function Current(ans: Answers): seq<Effect> {
    [GetStatus(ans.currentId),
     Reply(if ans.status.None? then "Error: current network not found" else FormatNetworkInfo(ans.status.value))]
  }

  datatype Transition = Connect | Disconnect | Reconnect

  function TransitionCall(t: Transition, id: int): Effect {
    match t
    case Connect => ConnectNetwork(id)
    case Disconnect => DisconnectNetwork(id)
    case Reconnect => ReconnectNetwork(id)
  }

  /** What the reply says after "Success: " when the manager accepts the transition. */
  function SuccessWords(t: Transition): string {
    match t
    case Connect => "connecting to network: "
    case Disconnect => "disconnected from network: "
    case Reconnect => "reconnecting to network: "
  }

  /** What the reply says after "Error: " when the manager refuses it. */
  function FailureWords(t: Transition): string {
    match t
    case Connect => "failed to connect to network: "
    case Disconnect => "failed to disconnect from network: "
    case Reconnect => "failed to reconnect to network: "
  }

  function TransitionReply(t: Transition, accepted: bool, id: int, name: string): string {
    if accepted then "Success: " + SuccessWords(t) + name else "Error: " + FailureWords(t) + IntToString(id)
  }

  function TransitionUsage(t: Transition): string {
    match t
    case Connect => "Usage: network connect NETWORK_ID"
    case Disconnect => "Usage: network disconnect NETWORK_ID"
    case Reconnect => "Usage: network reconnect NETWORK_ID"
  }

  /** `handle_connect`, `handle_disconnect` and `handle_reconnect`. */
  function Transit(t: Transition, args: seq<string>, ans: Answers): seq<Effect> {
    match ParseId(args, TransitionUsage(t))
    case Err(text) => [Reply(text)]
    case Ok(id) => [TransitionCall(t, id), Reply(TransitionReply(t, ans.accepted, id, ans.name))]
  }

  lemma StartsWithConcat(a: string, b: string, p: string)
    requires StartsWith(a, p)
    ensures StartsWith(a + b, p)
  {
    assert (a + b)[..|p|] == a[..|p|];
  }

  lemma SuccessNames(t: Transition, name: string)
    ensures StartsWith("Success: " + SuccessWords(t) + name, "Success: ")
    ensures EndsWith("Success: " + SuccessWords(t) + name, name)
  {
    var text := "Success: " + SuccessWords(t) + name;
    assert text == "Success: " + (SuccessWords(t) + name);
    StartsWithConcat("Success: ", SuccessWords(t) + name, "Success: ");
    assert text[|text| - |name|..] == name;
  }

  lemma FailureIsNoSuccess(t: Transition, id: int)
    ensures !StartsWith("Error: " + FailureWords(t) + IntToString(id), "Success: ")
  {
    assert ("Error: " + FailureWords(t) + IntToString(id))[0] == 'E';
  }

  /** The reply reports success, naming the network, exactly when the manager accepted the transition. */
  lemma TransitionReplyReports(t: Transition, accepted: bool, id: int, name: string)
    ensures StartsWith(TransitionReply(t, accepted, id, name), "Success: ") <==> accepted
    ensures accepted ==> EndsWith(TransitionReply(t, accepted, id, name), name)
  {
    if accepted {
      SuccessNames(t, name);
    } else {
      FailureIsNoSuccess(t, id);
    }
  }

  /** A transition with a valid id asks the manager for it, then replies as the manager answered. */
  lemma TransitionReports(t: Transition, args: seq<string>, ans: Answers)
    requires args != [] && ParseInt(args[0]).Some?
    ensures var id, effects := ParseInt(args[0]).value, Transit(t, args, ans);
      |effects| == 2 && effects[0] == TransitionCall(t, id)
      && (StartsWith(effects[1].text, "Success: ") <==> ans.accepted)
      && (ans.accepted ==> EndsWith(effects[1].text, ans.name))
  {
    TransitionReplyReports(t, ans.accepted, ParseInt(args[0]).value, ans.name);
  }

  // handle_add

  const AddUsage := "Usage: network add <network_name> <flags>"
  const AddressesRequired := "Error: server address(es) required (-a ADDRESSES)"

  function StrOr(a: Assignment, f: Field, default: string): string {
    match Lookup(a, f)
    case Some(Str(s)) => s
    case _ => default
  }

  predicate FlagOr(a: Assignment, f: Field, default: bool) {
    match Lookup(a, f)
    case Some(Flag(b)) => b
    case _ => default
  }

  function NumberOr(a: Assignment, f: Field, default: int): int {
    match Lookup(a, f)
    case Some(Number(n)) => n
    case _ => default
  }

  function ItemsOr(a: Assignment, f: Field, default: seq<string>): seq<string> {
    match Lookup(a, f)
    case Some(Items(xs)) => xs
    case _ => default
  }

  function NumbersOr(a: Assignment, f: Field, default: seq<int>): seq<int> {
    match Lookup(a, f)
    case Some(Numbers(ns)) => ns
    case _ => default
  }

  /** The arguments `handle_add` passes to `add_network`: each setting or its default. */
  function NewNetworkOf(name: string, a: Assignment): DatabaseManager.NewNetwork {
    DatabaseManager.NewNetwork(name, ItemsOr(a, Addresses, []),
      Some(NumbersOr(a, Ports, DatabaseManager.DefaultPorts)), Some(NumbersOr(a, SslPorts, DatabaseManager.DefaultSslPorts)),
      FlagOr(a, Ssl, true), FlagOr(a, AutoConnect, true), FlagOr(a, AutoReconnect, true),
      Some(ItemsOr(a, Nicks, DatabaseManager.DefaultNicknames)),
      StrOr(a, Ident, DatabaseManager.DefaultIdent), StrOr(a, Realname, DatabaseManager.DefaultRealname),
      NumberOr(a, AuthMech, NetworkConfig.AuthSasl), NumberOr(a, SaslMech, NetworkConfig.SaslPlain),
      StrOr(a, AuthUser, ""), StrOr(a, AuthPass, ""),
      FlagOr(a, Oper, false), StrOr(a, OperUser, ""), StrOr(a, OperPass, ""), StrOr(a, Prefix, DatabaseManager.DefaultPrefix))
  }

  function AddFailed(msg: string): string {
    "Error: failed to add network: " + msg
  }

  /**
   * After the options are accepted: the insert, then the reload and the
   * success reply; an exception from either call ends the command with
   * its message.
   */
  function Store(n: DatabaseManager.NewNetwork, ans: Answers): seq<Effect> {
    if ans.addFailure.Some? then [AddNetwork(n), Reply(AddFailed(ans.addFailure.value))]
    else if ans.loadFailure.Some? then [AddNetwork(n), LoadNetworks, Reply(AddFailed(ans.loadFailure.value))]
    else [AddNetwork(n), LoadNetworks, Reply(Added(ans.addedId))]
  }

  function Added(id: int): string {
    "Success: added network ID '" + IntToString(id) + "' to database. Use 'network connect " + IntToString(id) + "' to connect."
  }

  /** `handle_add`; `parsed` is what getopt makes of the arguments after the name. */
  function Add(args: seq<string>, parsed: Result<(seq<Opt>, seq<string>), string>, ans: Answers): seq<Effect> {
    if args == [] then [Reply(AddUsage)]
    else if parsed.Err? then [Reply("Error: invalid option: " + parsed.error)]
    else match Assignments(parsed.value.0, false)
      case Err(literal) => [InvalidValue(literal)]
      case Ok(a) =>
        if ItemsOr(a, Addresses, []) == [] then [Reply(AddressesRequired)]
        else Store(NewNetworkOf(args[0], a), ans)
  }

  method HandleAdd(args: seq<string>, parsed: Result<(seq<Opt>, seq<string>), string>, ans: Answers)
    returns (effects: seq<Effect>)
    ensures effects == Add(args, parsed, ans)
  {
    if args == [] {
      return [Reply(AddUsage)];
    }
    var name := args[0];
    if parsed.Err? {
      return [Reply("Error: invalid option: " + parsed.error)];
    }
    var decoded := DecodeOptions(parsed.value.0, false);
    if decoded.Err? {
      return [InvalidValue(decoded.error)];
    }
    var addresses := ItemsOr(decoded.value, Addresses, []);
    if addresses == [] {
      return [Reply(AddressesRequired)];
    }
    var network := NewNetworkOf(name, decoded.value);
    assert Add(args, parsed, ans) == Store(network, ans);
    if ans.addFailure.Some? {
      effects := [AddNetwork(network), Reply(AddFailed(ans.addFailure.value))];
    } else if ans.loadFailure.Some? {
      effects := [AddNetwork(network), LoadNetworks, Reply(AddFailed(ans.loadFailure.value))];
    } else {
      effects := [AddNetwork(network), LoadNetworks, Reply(Added(ans.addedId))];
    }
  }

  /** A network is added only with an address: the `-a` requirement refuses exactly the runs without one. */
  lemma AddNeedsAddresses(args: seq<string>, opts: seq<Opt>, rest: seq<string>, ans: Answers)
    requires args != [] && Assignments(opts, false).Ok?
    ensures Add(args, Ok((opts, rest)), ans) == [Reply(AddressesRequired)] <==> LastFor(opts, Addresses, false).None?
    ensures LastFor(opts, Addresses, false).Some? ==>
      Add(args, Ok((opts, rest)), ans)[0].network.addresses == CsvItems(LastFor(opts, Addresses, false).value)
  {
    LastOptionWins(opts, false, Addresses);
  }

  /** A text setting is the last option's argument, or the default. */
  lemma AddText(opts: seq<Opt>, f: Field, default: string)
    requires Assignments(opts, false).Ok?
    requires f in {Ident, Realname, AuthUser, AuthPass, OperUser, OperPass, Prefix}
    ensures StrOr(Assignments(opts, false).value, f, default) == LastFor(opts, f, false).GetOr(default)
  {
    LastOptionWins(opts, false, f);
  }

  /** A switch is on when its last option's argument is truthy, or by default when none is given. */
  lemma AddSwitch(opts: seq<Opt>, f: Field, default: bool)
    requires Assignments(opts, false).Ok?
    requires f in {Ssl, AutoConnect, AutoReconnect}
    ensures FlagOr(Assignments(opts, false).value, f, default) ==
      match LastFor(opts, f, false) case Some(arg) => Truthy(arg) case None => default
  {
    LastOptionWins(opts, false, f);
  }

  /** `--oper` takes no argument in `add`: the flag is on exactly when the option appears. */
  lemma AddOper(opts: seq<Opt>)
    requires Assignments(opts, false).Ok?
    ensures FlagOr(Assignments(opts, false).value, Oper, false) <==> LastFor(opts, Oper, false).Some?
  {
    LastOptionWins(opts, false, Oper);
  }

  /** A list setting is the last option's comma-separated items, or the default. */
  lemma AddItems(opts: seq<Opt>, f: Field, default: seq<string>)
    requires Assignments(opts, false).Ok?
    requires f in {Addresses, Nicks}
    ensures ItemsOr(Assignments(opts, false).value, f, default) ==
      match LastFor(opts, f, false) case Some(arg) => CsvItems(arg) case None => default
  {
    LastOptionWins(opts, false, f);
  }

  lemma NumbersOfLookup(a: Assignment, f: Field, ns: seq<int>, default: seq<int>)
    requires Lookup(a, f) == Some(Numbers(ns))
    ensures NumbersOr(a, f, default) == ns
  {
  }

  /** A port list is what the last option's items parse to, or the default. */
  lemma AddPorts(opts: seq<Opt>, f: Field, default: seq<int>)
    requires Assignments(opts, false).Ok?
    requires f in {Ports, SslPorts}
    ensures LastFor(opts, f, false).Some? ==>
      ParseNumbers(CsvItems(LastFor(opts, f, false).value)) == Ok(NumbersOr(Assignments(opts, false).value, f, default))
    ensures LastFor(opts, f, false).None? ==> NumbersOr(Assignments(opts, false).value, f, default) == default
  {
    if LastFor(opts, f, false).Some? {
      var arg := LastFor(opts, f, false).value;
      LastDecodes(opts, false, f);
      DecodePorts(f, arg, false);
      NumbersOfLookup(Assignments(opts, false).value, f, Decode(f, arg, false).value.ns, default);
    } else {
      LastOptionWins(opts, false, f);
    }
  }

  lemma NumberOfLookup(a: Assignment, f: Field, n: int, default: int)
    requires Lookup(a, f) == Some(Number(n))
    ensures NumberOr(a, f, default) == n
  {
  }

  /** A mechanism number is what the last option's argument parses to, or the default. */
  lemma AddMechanism(opts: seq<Opt>, f: Field, default: int)
    requires Assignments(opts, false).Ok?
    requires f in {AuthMech, SaslMech}
    ensures LastFor(opts, f, false).Some? ==>
      ParseInt(LastFor(opts, f, false).value) == Some(NumberOr(Assignments(opts, false).value, f, default))
    ensures LastFor(opts, f, false).None? ==> NumberOr(Assignments(opts, false).value, f, default) == default
  {
    if LastFor(opts, f, false).Some? {
      var arg := LastFor(opts, f, false).value;
      LastDecodes(opts, false, f);
      DecodeMechanism(f, arg, false);
      NumberOfLookup(Assignments(opts, false).value, f, Decode(f, arg, false).value.n, default);
    } else {
      LastOptionWins(opts, false, f);
    }
  }

  lemma LookupSingle(f: Field, v: Value, g: Field)
    ensures Lookup([(f, v)], g) == if g == f then Some(v) else None
  {
    assert [(f, v)][1..] == [];
  }

  /** With only an address list, the network gets the same defaults as a row the database fills in. */
  lemma AddDefaults(name: string, addresses: seq<string>)
    ensures NewNetworkOf(name, [(Addresses, Items(addresses))]) ==
      DatabaseManager.NewNetworkDefaults(name, addresses).(
        ports := Some(DatabaseManager.DefaultPorts), sslPorts := Some(DatabaseManager.DefaultSslPorts),
        nicknames := Some(DatabaseManager.DefaultNicknames))
  {
    LookupSingle(Addresses, Items(addresses), Addresses);
    LookupSingle(Addresses, Items(addresses), Ports);
    LookupSingle(Addresses, Items(addresses), SslPorts);
    LookupSingle(Addresses, Items(addresses), Ssl);
    LookupSingle(Addresses, Items(addresses), AutoConnect);
    LookupSingle(Addresses, Items(addresses), AutoReconnect);
    LookupSingle(Addresses, Items(addresses), Nicks);
    LookupSingle(Addresses, Items(addresses), Ident);
    LookupSingle(Addresses, Items(addresses), Realname);
    LookupSingle(Addresses, Items(addresses), AuthMech);
    LookupSingle(Addresses, Items(addresses), SaslMech);
    LookupSingle(Addresses, Items(addresses), AuthUser);
    LookupSingle(Addresses, Items(addresses), AuthPass);
    LookupSingle(Addresses, Items(addresses), Oper);
    LookupSingle(Addresses, Items(addresses), OperUser);
    LookupSingle(Addresses, Items(addresses), OperPass);
    LookupSingle(Addresses, Items(addresses), Prefix);
  }

  // handle_remove

  const RemoveUsage := "Usage: network remove <channel_id>"

  /** `handle_remove`. */
  function Remove(args: seq<string>, ans: Answers): seq<Effect> {
    match ParseId(args, RemoveUsage)
    case Err(text) => [Reply(text)]
    case Ok(id) =>
      if id in ans.connected then
        [Reply("Error: cannot remove connected network. Disconnect first with 'network disconnect " + IntToString(id) + "'")]
      else if ans.removed then
        [RemoveNetwork(id), LoadNetworks,
         Reply(if ans.loadFailure.Some? then RemoveFailed(ans.loadFailure.value) else Removed(id))]
      else [RemoveNetwork(id), Reply("Error: network " + IntToString(id) + " not found")]
  }

  function Removed(id: int): string {
    "Success: removed network ID '" + IntToString(id) + "' from database"
  }

  function RemoveFailed(msg: string): string {
    "Error: failed to remove network: " + msg
  }

  /**
   * A connected network is never removed, and any other valid id is, with a
   * reload when a row went; the reply after the reload is the success, or
   * the failure with the message of the exception the reload raised.
   */
  lemma RemoveGuard(args: seq<string>, ans: Answers)
    ensures Remove(args, ans)[0].RemoveNetwork? <==>
      args != [] && ParseInt(args[0]).Some? && ParseInt(args[0]).value !in ans.connected
    ensures Remove(args, ans)[0].RemoveNetwork? ==>
      Remove(args, ans)[0].id == ParseInt(args[0]).value && |Remove(args, ans)| in {2, 3}
      && (Remove(args, ans)[1] == LoadNetworks <==> ans.removed)
      && Remove(args, ans)[|Remove(args, ans)| - 1].Reply?
    ensures Remove(args, ans)[0].RemoveNetwork? && ans.removed ==>
      Remove(args, ans)[2] == Reply(if ans.loadFailure.Some? then RemoveFailed(ans.loadFailure.value) else Removed(ParseInt(args[0]).value))
    ensures !Remove(args, ans)[0].RemoveNetwork? ==> |Remove(args, ans)| == 1 && Remove(args, ans)[0].Reply?
  {
  }

  // handle_modify

  const ModifyUsage := "Usage: network modify NETWORK_ID [OPTIONS]"
  const NoModifications := "Error: no modifications specified"

  function ConnectedWarning(id: int, ans: Answers): seq<Effect> {
    if id in ans.connected then
      [Reply("Warning: network " + IntToString(id) + " is currently connected. Changes will take effect after reconnect.")]
    else []
  }

  /**
   * The end of a modification: the database call, then the reload and the
   * success reply, or the failure reply when the reload raised; or the
   * not-found error when no row was updated.
   */
  function Update(id: int, a: Assignment, updated: bool, loadFailure: Option<string>): seq<Effect> {
    [UpdateNetwork(id, Updates(a))]
    + (if updated then [LoadNetworks] else [])
    + [Reply(UpdateReply(id, updated, loadFailure))]
  }

  function UpdateReply(id: int, updated: bool, loadFailure: Option<string>): string {
    if !updated then NotFound(id)
    else if loadFailure.Some? then ModifyFailed(loadFailure.value)
    else Modified(id)
  }

  /** The three closing replies of a modification, and the no-modification reply, are told apart. */
  lemma UpdateRepliesDistinct(id: int, updated: bool, loadFailure: Option<string>)
    ensures UpdateReply(id, updated, loadFailure) == NotFound(id) <==> !updated
    ensures UpdateReply(id, updated, loadFailure) == Modified(id) <==> updated && loadFailure.None?
    ensures UpdateReply(id, updated, loadFailure) != NoModifications
  {
    NotFoundIsNotNoModifications(id);
    assert Modified(id)[0] == 'S' && NotFound(id)[0] == 'E' && NoModifications[0] == 'E' && NoModifications[7] == 'n';
    if loadFailure.Some? {
      var failed := ModifyFailed(loadFailure.value);
      assert failed[0] == 'E' && failed[7] == 'f' && NotFound(id)[7] == 'n';
    }
  }

  function Modified(id: int): string {
    "Success: modified network: " + IntToString(id)
  }

  function ModifyFailed(msg: string): string {
    "Error: failed to modify network: " + msg
  }

  /**
   * `handle_modify` as written.  The empty-arguments guard looks only at the
   * words after the id, so when getopt yields no option (`modify 3 foo`, or
   * `modify 3 -- -n x`) the empty dict reaches `update_network`, which returns
   * False without touching the table, and the reply says the network is not
   * found.
   */
  function ModifyAsWritten(args: seq<string>, parsed: Result<seq<Opt>, string>, ans: Answers): seq<Effect> {
    match ParseId(args, ModifyUsage)
    case Err(text) => [Reply(text)]
    case Ok(id) =>
      if args[1..] == [] then [Reply(NoModifications)]
      else if parsed.Err? then [Reply("Error: invalid option: " + parsed.error)]
      else match Assignments(parsed.value, true)
        case Err(_) => [Reply("Error: invalid value for numeric field")]
        case Ok(a) => ConnectedWarning(id, ans) + Update(id, a, a != [] && ans.rowsMatched, ans.loadFailure)
  }

  /** `handle_modify` with the emptiness check made on the decoded options. */
  function Modify(args: seq<string>, parsed: Result<seq<Opt>, string>, ans: Answers): seq<Effect> {
    match ParseId(args, ModifyUsage)
    case Err(text) => [Reply(text)]
    case Ok(id) =>
      if args[1..] == [] then [Reply(NoModifications)]
      else if parsed.Err? then [Reply("Error: invalid option: " + parsed.error)]
      else match Assignments(parsed.value, true)
        case Err(_) => [Reply("Error: invalid value for numeric field")]
        case Ok(a) => if a == [] then [Reply(NoModifications)] else ConnectedWarning(id, ans) + Update(id, a, ans.rowsMatched, ans.loadFailure)
  }

  /** `handle_modify`, corrected; `parsed` is the options getopt finds after the id. */
  method HandleModify(args: seq<string>, parsed: Result<seq<Opt>, string>, ans: Answers) returns (effects: seq<Effect>)
    ensures effects == Modify(args, parsed, ans)
  {
    var id := ParseId(args, ModifyUsage);
    if id.Err? {
      return [Reply(id.error)];
    }
    if args[1..] == [] {
      return [Reply(NoModifications)];
    }
    if parsed.Err? {
      return [Reply("Error: invalid option: " + parsed.error)];
    }
    var decoded := DecodeOptions(parsed.value, true);
    if decoded.Err? {
      return [Reply("Error: invalid value for numeric field")];
    }
    var a := decoded.value;
    if a == [] {
      return [Reply(NoModifications)];
    }
    FoldFits([], parsed.value, true);
    UpdatesConvert(a);
    var outcome := DatabaseManager.UpdateNetwork(id.value, Updates(a));
    assert !outcome.Raised?;
    assert outcome.Execute?;
    effects := ConnectedWarning(id.value, ans) + Update(id.value, a, outcome.Execute? && ans.rowsMatched, ans.loadFailure);
  }

  /** The two agree whenever getopt yields at least one option the loop keeps. */
  lemma ModifyAgrees(args: seq<string>, parsed: Result<seq<Opt>, string>, ans: Answers)
    requires parsed.Ok? ==> Assignments(parsed.value, true).Ok? ==> Assignments(parsed.value, true).value != []
    ensures Modify(args, parsed, ans) == ModifyAsWritten(args, parsed, ans)
  {
  }

  lemma NotFoundIsNotNoModifications(id: int)
    ensures NotFound(id) != NoModifications
  {
    assert NotFound(id)[8] == 'e';
  }

  /** As written, `network modify 3 foo` says an existing network is not found. */
  lemma ModifyWithoutOptionsAsWritten(ans: Answers)
    ensures ModifyAsWritten(["3", "foo"], Ok([]), ans) == ConnectedWarning(3, ans) + [UpdateNetwork(3, []), Reply(NotFound(3))]
  {
    ParseIntToString(3);
    assert IntToString(3) == "3";
  }

  /** Corrected, "not found" is said only after an UPDATE with at least one column matched no row. */
  lemma ModifyNotFoundMeansNoRow(args: seq<string>, opts: seq<Opt>, ans: Answers)
    requires args != [] && |args| > 1 && ParseInt(args[0]).Some?
    requires Assignments(opts, true).Ok?
    ensures var id, effects := ParseInt(args[0]).value, Modify(args, Ok(opts), ans);
      (effects[|effects| - 1] == Reply(NotFound(id)) <==> Assignments(opts, true).value != [] && !ans.rowsMatched)
      && (effects == [Reply(NoModifications)] <==> Assignments(opts, true).value == [])
      && (effects[|effects| - 1] == Reply(Modified(id)) <==>
            Assignments(opts, true).value != [] && ans.rowsMatched && ans.loadFailure.None?)
      && (Assignments(opts, true).value != [] && ans.rowsMatched && ans.loadFailure.Some? ==>
            effects[|effects| - 1] == Reply(ModifyFailed(ans.loadFailure.value)))
  {
    var id := ParseInt(args[0]).value;
    ModifyEnds(args, opts, ans);
    UpdateRepliesDistinct(id, ans.rowsMatched, ans.loadFailure);
    NotFoundIsNotNoModifications(id);
    assert Modified(id)[0] == 'S' && NoModifications[0] == 'E';
  }

  /** The corrected handler ends with the no-modification reply alone, or with UpdateReply after the update. */
  lemma ModifyEnds(args: seq<string>, opts: seq<Opt>, ans: Answers)
    requires args != [] && |args| > 1 && ParseInt(args[0]).Some?
    requires Assignments(opts, true).Ok?
    ensures var effects := Modify(args, Ok(opts), ans);
      (Assignments(opts, true).value == [] ==> effects == [Reply(NoModifications)])
      && (Assignments(opts, true).value != [] ==>
            |effects| >= 2 && effects[|effects| - 1] == Reply(UpdateReply(ParseInt(args[0]).value, ans.rowsMatched, ans.loadFailure)))
  {
    var id, a := ParseInt(args[0]).value, Assignments(opts, true).value;
    assert ParseId(args, ModifyUsage) == Ok(id);
    assert args[1..] != [];
    if a != [] {
      var u := Update(id, a, ans.rowsMatched, ans.loadFailure);
      assert Modify(args, Ok(opts), ans) == ConnectedWarning(id, ans) + u;
      assert u[|u| - 1] == Reply(UpdateReply(id, ans.rowsMatched, ans.loadFailure));
    }
  }

  /** As written, the same reply also follows an empty dict, whatever the table holds. */
  lemma ModifyNotFoundAsWritten(args: seq<string>, opts: seq<Opt>, ans: Answers)
    requires args != [] && |args| > 1 && ParseInt(args[0]).Some?
    requires Assignments(opts, true).Ok?
    ensures var id, effects := ParseInt(args[0]).value, ModifyAsWritten(args, Ok(opts), ans);
      effects[|effects| - 1] == Reply(NotFound(id)) <==> Assignments(opts, true).value == [] || !ans.rowsMatched
  {
    var id := ParseInt(args[0]).value;
    var a := Assignments(opts, true).value;
    UpdateRepliesDistinct(id, a != [] && ans.rowsMatched, ans.loadFailure);
  }

  // ---------------------------------------------------------------------------
  // command_network

  const Subcommands: seq<string> := ["list", "info", "connect", "disconnect", "reconnect", "current", "add", "remove", "modify"]

  function SubcommandList(): string {
    Join(Subcommands, ", ")
  }

  function Unknown(sub: string): string {
    "Error: unknown subcommand: " + sub + " - available: " + SubcommandList()
  }

  /**
   * `command_network`: `available` says whether the bot's factory has a
   * network manager; the subcommand is matched in lower case; `parsed` is
   * what getopt makes of the subcommand's arguments (after the name for
   * `add`, after the id for `modify`).
   */
  function Network(available: bool, args: seq<string>, parsed: Result<(seq<Opt>, seq<string>), string>, ans: Answers)
    : seq<Effect>
  {
    if !available then [Reply("Error: network manager not available")]
    else if args == [] then [Reply("Usage: requires a subcommand: " + SubcommandList())]
    else
      var sub, rest := Lower(args[0]), args[1..];
      if sub == "list" then List(ans)
      else if sub == "info" then Info(rest, ans)
      else if sub == "connect" then Transit(Connect, rest, ans)
      else if sub == "disconnect" then Transit(Disconnect, rest, ans)
      else if sub == "reconnect" then Transit(Reconnect, rest, ans)
      else if sub == "current" then Current(ans)
      else if sub == "add" then Add(rest, parsed, ans)
      else if sub == "remove" then Remove(rest, ans)
      else if sub == "modify" then Modify(rest, if parsed.Ok? then Ok(parsed.value.0) else Err(parsed.error), ans)
      else [Reply(Unknown(sub))]
  }

  method CommandNetwork(available: bool, args: seq<string>, parsed: Result<(seq<Opt>, seq<string>), string>, ans: Answers)
    returns (effects: seq<Effect>)
    ensures effects == Network(available, args, parsed, ans)
  {
    if !available {
      return [Reply("Error: network manager not available")];
    }
    if args == [] {
      return [Reply("Usage: requires a subcommand: " + SubcommandList())];
    }
    var sub, rest := Lower(args[0]), args[1..];
    if sub == "list" {
      var text := FormatNetworkList(ans.networks);
      effects := [ListNetworks, Reply(text)];
    } else if sub == "info" {
      effects := Info(rest, ans);
    } else if sub == "connect" {
      effects := Transit(Connect, rest, ans);
    } else if sub == "disconnect" {
      effects := Transit(Disconnect, rest, ans);
    } else if sub == "reconnect" {
      effects := Transit(Reconnect, rest, ans);
    } else if sub == "current" {
      effects := Current(ans);
    } else if sub == "add" {
      effects := HandleAdd(rest, parsed, ans);
    } else if sub == "remove" {
      effects := Remove(rest, ans);
    } else if sub == "modify" {
      effects := HandleModify(rest, if parsed.Ok? then Ok(parsed.value.0) else Err(parsed.error), ans);
    } else {
      effects := [Reply(Unknown(sub))];
    }
  }

  /** The subcommand is matched without regard to letter case. */
  lemma DispatchIgnoresCase(available: bool, word: string, rest: seq<string>,
                            parsed: Result<(seq<Opt>, seq<string>), string>, ans: Answers)
    ensures Network(available, [Upper(word)] + rest, parsed, ans) == Network(available, [word] + rest, parsed, ans)
  {
    LowerOfUpper(word);
    assert ([Upper(word)] + rest)[1..] == rest && ([word] + rest)[1..] == rest;
  }

  /** Only the nine names run a handler; any other word is reported back with the list. */
  lemma UnknownSubcommand(available: bool, args: seq<string>, parsed: Result<(seq<Opt>, seq<string>), string>, ans: Answers)
    requires available && args != [] && Lower(args[0]) !in Subcommands
    ensures Network(available, args, parsed, ans) == [Reply(Unknown(Lower(args[0])))]
  {
    var sub := Lower(args[0]);
    assert Subcommands[0] == "list" && Subcommands[1] == "info" && Subcommands[2] == "connect";
    assert Subcommands[3] == "disconnect" && Subcommands[4] == "reconnect" && Subcommands[5] == "current";
    assert Subcommands[6] == "add" && Subcommands[7] == "remove" && Subcommands[8] == "modify";
  }

  /** `list`, `info` and `current` only read: they connect, disconnect and store nothing. */
  lemma QueriesChangeNothing(args: seq<string>, parsed: Result<(seq<Opt>, seq<string>), string>, ans: Answers)
    requires args != [] && Lower(args[0]) in {"list", "info", "current"}
    ensures forall k :: 0 <= k < |Network(true, args, parsed, ans)| ==> !Changes(Network(true, args, parsed, ans)[k])
  {
  }

  /**
   * An attempted insert is followed by a reload of the manager's networks
   * and the success reply, unless the insert or the reload raised, in which
   * case the last effect is the failure reply with the exception's message
   * and no reload follows a failed insert.
   */
  lemma AddReloads(args: seq<string>, parsed: Result<(seq<Opt>, seq<string>), string>, ans: Answers)
    ensures Add(args, parsed, ans)[0].AddNetwork? && ans.addFailure.None? && ans.loadFailure.None? ==>
      Add(args, parsed, ans) == [Add(args, parsed, ans)[0], LoadNetworks, Reply(Added(ans.addedId))]
    ensures Add(args, parsed, ans)[0].AddNetwork? && ans.addFailure.Some? ==>
      Add(args, parsed, ans) == [Add(args, parsed, ans)[0], Reply(AddFailed(ans.addFailure.value))]
    ensures Add(args, parsed, ans)[0].AddNetwork? && ans.addFailure.None? && ans.loadFailure.Some? ==>
      Add(args, parsed, ans) == [Add(args, parsed, ans)[0], LoadNetworks, Reply(AddFailed(ans.loadFailure.value))]
    ensures !Add(args, parsed, ans)[0].AddNetwork? ==> |Add(args, parsed, ans)| == 1
    ensures forall k :: 0 <= k < |Add(args, parsed, ans)| ==> (Add(args, parsed, ans)[k].LoadNetworks? <==> k == 1 && Add(args, parsed, ans)[0].AddNetwork? && ans.addFailure.None?)
  {
  }
}
