/**
 * The column codec of core/database_manager.py: how network rows store list
 * and boolean fields, how they are read back into a configuration record,
 * the defaults `add_network` fills in, the value conversions the `update_*`
 * operations apply, and the RPL column allow-list.  SQL execution is not
 * modelled; an update is described by the statement it would execute.
 */
module DatabaseManager {
  import opened Wrappers
  import opened Text
  import opened NetworkConfig

  // ---------------------------------------------------------------------------
  // Python values handed to the store

  /** A scalar Python value as sqlite receives it. */
  datatype Scalar = SNone | SBool(b: bool) | SInt(i: int) | SStr(s: string)

  /** A value in an `updates` dict: a scalar or a list of scalars. */
  datatype PyValue = Atom(a: Scalar) | List(items: seq<Scalar>)

  /** The exception a conversion raises (`', '.join` over a non-string, `int()` over a non-number). */
  datatype PyError = TypeError | ValueError

  predicate ScalarTruthy(a: Scalar) {
    match a
    case SNone => false
    case SBool(b) => b
    case SInt(i) => i != 0
    case SStr(s) => s != ""
  }

  predicate Truthy(v: PyValue) {
    match v
    case Atom(a) => ScalarTruthy(a)
    case List(items) => items != []
  }

  /** `str(x)` for a scalar. */
  function Str(a: Scalar): string {
    match a
    case SNone => "None"
    case SBool(b) => if b then "True" else "False"
    case SInt(i) => IntToString(i)
    case SStr(s) => s
  }

  // ---------------------------------------------------------------------------
  // List and boolean columns

  const ListSep: string := ", "

  /** `', '.join(xs)`. */
  function EncodeList(xs: seq<string>): string {
    Join(xs, ListSep)
  }

  /** `', '.join(map(str, ports))`. */
  function EncodePorts(ports: seq<int>): string {
    Join(IntStrings(ports), ListSep)
  }

  function IntStrings(ports: seq<int>): (r: seq<string>)
    ensures |r| == |ports|
    ensures forall k :: 0 <= k < |ports| ==> r[k] == IntToString(ports[k])
  {
    seq(|ports|, k requires 0 <= k < |ports| => IntToString(ports[k]))
  }

  /** `column.split(', ') if column else []`. */
  function DecodeList(column: Option<string>): (r: seq<string>)
    ensures column.None? || column == Some("") ==> r == []
  {
    if column.None? || column.value == "" then [] else Split(column.value, ListSep)
  }

  /** `[int(p) for p in column.split(', ')] if column else []`; None where `int()` raises ValueError. */
  function DecodePorts(column: Option<string>): (r: Option<seq<int>>)
    ensures r.Some? ==> |r.value| == |DecodeList(column)|
    ensures r.Some? ==> forall k :: 0 <= k < |r.value| ==> ParseInt(DecodeList(column)[k]) == Some(r.value[k])
    ensures r.None? ==> exists k :: 0 <= k < |DecodeList(column)| && ParseInt(DecodeList(column)[k]).None?
  {
    ParseAll(DecodeList(column))
  }

  function ParseAll(xs: seq<string>): (r: Option<seq<int>>)
    ensures r.Some? ==> |r.value| == |xs| && forall k :: 0 <= k < |xs| ==> ParseInt(xs[k]) == Some(r.value[k])
    ensures r.None? ==> exists k :: 0 <= k < |xs| && ParseInt(xs[k]).None?
    decreases |xs|
  {
    if xs == [] then Some([])
    else
      var head := ParseInt(xs[0]);
      var rest := ParseAll(xs[1..]);
      assert forall k :: 0 < k < |xs| ==> xs[k] == xs[1..][k - 1];
      if head.None? then None
      else if rest.None? then None
      else Some([head.value] + rest.value)
  }

  /** `1 if b else 0`. */
  function EncodeFlag(b: bool): int {
    if b then 1 else 0
  }

  /** `column == 1`. */
  predicate DecodeFlag(column: Option<int>) {
    column == Some(1)
  }

  lemma FlagRoundTrip(b: bool)
    ensures DecodeFlag(Some(EncodeFlag(b))) == b
    ensures !DecodeFlag(None)
  {
  }

  lemma SeparatorUnbordered()
    ensures Unbordered(ListSep)
  {
    assert ListSep[1..] == " " && ListSep[..1] == ",";
  }

  /**
   * A stored list reads back as the list that was written, except that the
   * one-element list [""] reads back as []; no element may contain ", ".
   */
  lemma ListRoundTrip(xs: seq<string>)
    requires forall k :: 0 <= k < |xs| ==> !Contains(xs[k], ListSep)
    requires xs != [""]
    ensures DecodeList(Some(EncodeList(xs))) == xs
  {
    if xs != [] {
      if |xs| == 1 {
        assert EncodeList(xs) == xs[0];
      } else {
        assert EncodeList(xs) == xs[0] + ListSep + Join(xs[1..], ListSep);
        assert |EncodeList(xs)| >= 2;
      }
      assert EncodeList(xs) != "";
      SeparatorUnbordered();
      SplitJoin(xs, ListSep);
    }
  }

  /** The text of an integer never contains the list separator. */
  lemma IntStringHasNoSeparator(i: int)
    ensures !Contains(IntToString(i), ListSep)
    ensures IntToString(i) != ""
  {
    var s := IntToString(i);
    IntStringChars(i);
    forall j | 0 <= j <= |s| - |ListSep| ensures !OccursAt(s, ListSep, j) {
      assert s[j] != ',';
      assert s[j..j + 2][0] == s[j];
    }
  }

  lemma IntStringChars(i: int)
    ensures |IntToString(i)| > 0
    ensures forall k :: 0 <= k < |IntToString(i)| ==> IsDigit(IntToString(i)[k]) || IntToString(i)[k] == '-'
  {
  }

  /** Every list of ports reads back exactly. */
  lemma PortsRoundTrip(ports: seq<int>)
    ensures DecodePorts(Some(EncodePorts(ports))) == Some(ports)
  {
    var strs := IntStrings(ports);
    forall k | 0 <= k < |strs| ensures !Contains(strs[k], ListSep) {
      IntStringHasNoSeparator(ports[k]);
    }
    if |strs| == 1 {
      IntStringHasNoSeparator(ports[0]);
    }
    ListRoundTrip(strs);
    assert DecodeList(Some(EncodePorts(ports))) == strs;
    var r := DecodePorts(Some(EncodePorts(ports)));
    forall k | 0 <= k < |ports| ensures ParseInt(strs[k]) == Some(ports[k]) {
      ParseIntToString(ports[k]);
    }
    assert r.Some? by {
      if r.None? {
        var k :| 0 <= k < |strs| && ParseInt(strs[k]).None?;
        ParseIntToString(ports[k]);
      }
    }
    assert r.value == ports;
  }

  // ---------------------------------------------------------------------------
  // Network rows

  /** One `irc_networks` row; columns the reader tests for NULL or `== 1` are options. */
  datatype NetworkRow = NetworkRow(
    id: int,
    name: string,
    addresses: Option<string>,
    ports: Option<string>,
    sslPorts: Option<string>,
    enableSsl: Option<int>,
    autoConnect: Option<int>,
    autoReconnect: Option<int>,
    nicknames: Option<string>,
    ident: string,
    realname: string,
    authMechanism: int,
    saslMechanism: int,
    authUsername: string,
    authPassword: string,
    operAuth: Option<int>,
    operUsername: string,
    operPassword: string,
    commandPrefix: string,
    rplWelcome: Option<string>,
    rplYourhost: Option<string>,
    rplCreated: Option<string>,
    rplMyinfo: Option<string>,
    rplIsupport: Option<string>,
    rplVisiblehost: Option<string>)

  /** One row of `get_networks`; a port column that `int()` rejects raises ValueError. */
  function DecodeNetwork(row: NetworkRow): (r: Result<Config, PyError>)
    ensures r.Ok? <==> DecodePorts(row.ports).Some? && DecodePorts(row.sslPorts).Some?
    ensures r.Ok? ==> r.value.addresses == DecodeList(row.addresses) && r.value.nicknames == DecodeList(row.nicknames)
    ensures r.Ok? ==> r.value.enableSsl == (row.enableSsl == Some(1)) && r.value.operAuth == (row.operAuth == Some(1))
  {
    match (DecodePorts(row.ports), DecodePorts(row.sslPorts))
    case (Some(ports), Some(sslPorts)) =>
      Ok(Config(
        row.id, row.name, DecodeList(row.addresses), ports, sslPorts,
        DecodeFlag(row.enableSsl), DecodeFlag(row.autoConnect), DecodeFlag(row.autoReconnect),
        DecodeList(row.nicknames), row.ident, row.realname, row.authMechanism, row.saslMechanism,
        row.authUsername, row.authPassword, DecodeFlag(row.operAuth), row.operUsername, row.operPassword,
        row.commandPrefix, row.rplWelcome, row.rplYourhost, row.rplCreated, row.rplMyinfo,
        row.rplIsupport, row.rplVisiblehost))
    case _ => Err(ValueError)
  }

  /** `[f(x) for x in xs]` where `f` may raise: the results, or the first error. */
  function MapOk<X, Y, E>(f: X -> Result<Y, E>, xs: seq<X>): (r: Result<seq<Y>, E>)
    ensures r.Ok? ==> |r.value| == |xs| && forall k :: 0 <= k < |xs| ==> f(xs[k]) == Ok(r.value[k])
    ensures r.Err? ==> exists k :: 0 <= k < |xs| && f(xs[k]) == Err(r.error)
    decreases |xs|
  {
    if xs == [] then Ok([])
    else match f(xs[0])
      case Err(e) => Err(e)
      case Ok(y) =>
        var rest := MapOk(f, xs[1..]);
        assert forall k :: 0 < k < |xs| ==> xs[k] == xs[1..][k - 1];
        if rest.Err? then Err(rest.error) else Ok([y] + rest.value)
  }

  /** `get_networks`: rows in table order; the first bad port column raises. */
  function DecodeNetworks(rows: seq<NetworkRow>): (r: Result<seq<Config>, PyError>)
    ensures r.Ok? ==> |r.value| == |rows| && forall k :: 0 <= k < |rows| ==> DecodeNetwork(rows[k]) == Ok(r.value[k])
    ensures r.Err? ==> exists k :: 0 <= k < |rows| && DecodeNetwork(rows[k]).Err?
  {
    MapOk(DecodeNetwork, rows)
  }

  /** The arguments of `add_network`; the three list arguments may be `None`. */
  datatype NewNetwork = NewNetwork(
    name: string,
    addresses: seq<string>,
    ports: Option<seq<int>>,
    sslPorts: Option<seq<int>>,
    enableSsl: bool,
    autoConnect: bool,
    autoReconnect: bool,
    nicknames: Option<seq<string>>,
    ident: string,
    realname: string,
    authMechanism: int,
    saslMechanism: int,
    authUsername: string,
    authPassword: string,
    operAuth: bool,
    operUsername: string,
    operPassword: string,
    commandPrefix: string)

  const DefaultNicknames: seq<string> := ["Dunamis", "Dunamis_", "Dunamis__"]
  const DefaultPorts: seq<int> := [6667]
  const DefaultSslPorts: seq<int> := [6697]

  const DefaultIdent := "dunamis"
  const DefaultRealname := "Dunamis IRC Bot"
  const DefaultPrefix := "!"

  /** The keyword defaults of `add_network` other than the three lists. */
  function NewNetworkDefaults(name: string, addresses: seq<string>): NewNetwork {
    NewNetwork(name, addresses, None, None, true, true, true, None, DefaultIdent, DefaultRealname,
      1, 1, "", "", false, "", "", DefaultPrefix)
  }

  /** The column text of the default nicknames. */
  lemma DefaultNicknamesColumn()
    ensures EncodeList(DefaultNicknames) == "Dunamis, Dunamis_, Dunamis__"
  {
    assert Join(DefaultNicknames[2..], ListSep) == "Dunamis__";
    assert DefaultNicknames[1..][1..] == DefaultNicknames[2..];
  }

  /** The column texts of the default port lists. */
  lemma DefaultPortColumns()
    ensures EncodePorts(DefaultPorts) == "6667" && EncodePorts(DefaultSslPorts) == "6697"
  {
    assert IntStrings([6667]) == [IntToString(6667)];
    assert IntStrings([6697]) == [IntToString(6697)];
  }

  /** The row `add_network` inserts, with `id` the row id sqlite assigns. */
  function AddNetworkRow(id: int, n: NewNetwork): (row: NetworkRow)
    ensures n.nicknames.None? ==> row.nicknames == Some("Dunamis, Dunamis_, Dunamis__")
    ensures n.ports.None? ==> row.ports == Some("6667")
    ensures n.sslPorts.None? ==> row.sslPorts == Some("6697")
    ensures row.rplWelcome.None? && row.rplIsupport.None?
  {
    var nicknames := n.nicknames.GetOr(DefaultNicknames);
    var ports := n.ports.GetOr(DefaultPorts);
    var sslPorts := n.sslPorts.GetOr(DefaultSslPorts);
    DefaultNicknamesColumn();
    DefaultPortColumns();
    NetworkRow(
      id, n.name, Some(EncodeList(n.addresses)), Some(EncodePorts(ports)), Some(EncodePorts(sslPorts)),
      Some(EncodeFlag(n.enableSsl)), Some(EncodeFlag(n.autoConnect)), Some(EncodeFlag(n.autoReconnect)),
      Some(EncodeList(nicknames)), n.ident, n.realname, n.authMechanism, n.saslMechanism,
      n.authUsername, n.authPassword, Some(EncodeFlag(n.operAuth)), n.operUsername, n.operPassword,
      n.commandPrefix, None, None, None, None, None, None)
  }

  predicate StorableList(xs: seq<string>) {
    xs != [""] && forall k :: 0 <= k < |xs| ==> !Contains(xs[k], ListSep)
  }

  lemma DefaultNicknamesStorable()
    ensures StorableList(DefaultNicknames)
  {
    forall k | 0 <= k < 3 ensures !Contains(DefaultNicknames[k], ListSep) {
      var w := DefaultNicknames[k];
      assert forall j :: 0 <= j < |w| ==> w[j] != ',';
      forall j | 0 <= j <= |w| - 2 ensures !OccursAt(w, ListSep, j) {
        assert w[j..j + 2][0] == w[j];
      }
    }
  }

  /**
   * Reading back a freshly added network gives the configuration that was
   * added, with the defaults in place of the omitted lists and no RPL data.
   */
  lemma AddThenRead(id: int, n: NewNetwork)
    requires StorableList(n.addresses)
    requires n.nicknames.Some? ==> StorableList(n.nicknames.value)
    ensures DecodeNetwork(AddNetworkRow(id, n)) == Ok(Config(
      id, n.name, n.addresses, n.ports.GetOr([6667]), n.sslPorts.GetOr([6697]),
      n.enableSsl, n.autoConnect, n.autoReconnect, n.nicknames.GetOr(["Dunamis", "Dunamis_", "Dunamis__"]),
      n.ident, n.realname, n.authMechanism, n.saslMechanism, n.authUsername, n.authPassword,
      n.operAuth, n.operUsername, n.operPassword, n.commandPrefix, None, None, None, None, None, None))
  {
    var row := AddNetworkRow(id, n);
    var nicknames := n.nicknames.GetOr(DefaultNicknames);
    var ports := n.ports.GetOr(DefaultPorts);
    var sslPorts := n.sslPorts.GetOr(DefaultSslPorts);
    ListRoundTrip(n.addresses);
    DefaultNicknamesStorable();
    ListRoundTrip(nicknames);
    PortsRoundTrip(ports);
    PortsRoundTrip(sslPorts);
    DecodeFields(row, ports, sslPorts);
  }

  lemma DecodeFields(row: NetworkRow, ports: seq<int>, sslPorts: seq<int>)
    requires DecodePorts(row.ports) == Some(ports) && DecodePorts(row.sslPorts) == Some(sslPorts)
    ensures DecodeNetwork(row) == Ok(Config(
        row.id, row.name, DecodeList(row.addresses), ports, sslPorts,
        DecodeFlag(row.enableSsl), DecodeFlag(row.autoConnect), DecodeFlag(row.autoReconnect),
        DecodeList(row.nicknames), row.ident, row.realname, row.authMechanism, row.saslMechanism,
        row.authUsername, row.authPassword, DecodeFlag(row.operAuth), row.operUsername, row.operPassword,
        row.commandPrefix, row.rplWelcome, row.rplYourhost, row.rplCreated, row.rplMyinfo,
        row.rplIsupport, row.rplVisiblehost))
  {
  }

  // ---------------------------------------------------------------------------
  // Channel records

  /** One dict of `get_channels`; NULL-able text columns are options, flags are already decoded. */
  datatype ChannelRecord = ChannelRecord(
    id: int,
    networkId: int,
    name: string,
    password: Option<string>,
    autoJoin: bool,
    autoRejoin: bool,
    enableLogging: bool,
    commandPrefix: Option<string>,
    lastTopic: Option<string>,
    lastModes: Option<string>)

  /** Python truthiness of a NULL-able text column. */
  predicate TextTruthy(v: Option<string>) {
    v.Some? && v.value != ""
  }

  // ---------------------------------------------------------------------------
  // Updates

  /** A parameterised statement the update would execute. */
  datatype Statement = Statement(sql: string, params: seq<Scalar>)

  datatype UpdateOutcome =
    | NothingToUpdate          // the empty-updates guard: returns False, executes nothing
    | Execute(stmt: Statement) // the UPDATE that runs; its row count decides the boolean
    | BindFailed               // a list reached `execute`, which raises sqlite3.Error; caught, the call returns False
    | Raised(error: PyError)   // a conversion raised before anything ran

  const NetworkListKeys: set<string> := {"addresses", "nicknames"}
  const NetworkPortKeys: set<string> := {"ports", "ssl_ports"}
  const NetworkFlagKeys: set<string> := {"enable_ssl", "auto_connect", "auto_reconnect", "oper_auth"}
  const ChannelFlagKeys: set<string> := {"auto_join", "auto_rejoin", "enable_logging"}
  const TaskFlagKeys: set<string> := {"periodic", "auto_start", "persistent"}

  /** `', '.join(items)`, which raises TypeError unless every item is a string. */
  function JoinStrings(items: seq<Scalar>): (r: Result<string, PyError>)
    ensures r.Ok? <==> forall k :: 0 <= k < |items| ==> items[k].SStr?
    decreases |items|
  {
    if items == [] then Ok("")
    else if !items[0].SStr? then Err(TypeError)
    else if |items| == 1 then Ok(items[0].s)
    else match JoinStrings(items[1..])
      case Ok(rest) => Ok(items[0].s + ListSep + rest)
      case Err(e) => assert forall k :: 0 <= k < |items| - 1 ==> items[1..][k] == items[k + 1]; Err(e)
  }

  function StrAll(items: seq<Scalar>): (r: seq<string>)
    ensures |r| == |items| && forall k :: 0 <= k < |items| ==> r[k] == Str(items[k])
  {
    seq(|items|, k requires 0 <= k < |items| => Str(items[k]))
  }

  /**
   * The conversion `update_network` applies to one value. A list under a key
   * it does not convert passes through as a list, which sqlite then refuses
   * to bind.
   */
  function NetworkValue(key: string, v: PyValue): (r: Result<PyValue, PyError>)
    ensures r.Err? <==> key in NetworkListKeys && v.List? && exists k :: 0 <= k < |v.items| && !v.items[k].SStr?
    ensures r.Ok? && (key in NetworkListKeys + NetworkPortKeys + NetworkFlagKeys) ==> r.value.Atom?
    ensures key in NetworkFlagKeys && key !in NetworkListKeys + NetworkPortKeys ==>
      r == Ok(Atom(SInt(if Truthy(v) then 1 else 0)))
    ensures key !in NetworkListKeys + NetworkPortKeys + NetworkFlagKeys ==> r == Ok(v)
  {
    if key in NetworkListKeys && v.List? then
      match JoinStrings(v.items)
      case Ok(s) => Ok(Atom(SStr(s)))
      case Err(e) => Err(e)
    else if key in NetworkPortKeys && v.List? then Ok(Atom(SStr(Join(StrAll(v.items), ListSep))))
    else if key in NetworkFlagKeys then Ok(Atom(SInt(EncodeFlag(Truthy(v)))))
    else Ok(v)
  }

  /** The conversion `update_channel` / `update_task` apply: flags become 1/0, the rest pass through. */
  function FlagValue(flagKeys: set<string>, key: string, v: PyValue): (r: PyValue)
    ensures key in flagKeys ==> r == Atom(SInt(if Truthy(v) then 1 else 0))
    ensures key !in flagKeys ==> r == v
  {
    if key in flagKeys then Atom(SInt(EncodeFlag(Truthy(v)))) else v
  }

  /** The statement text: one `key=?` clause per entry, joined by ", ". */
  function UpdateSql(table: string, clauses: seq<string>, whereClause: string): string {
    "UPDATE " + table + " SET " + Join(clauses, ", ") + " WHERE " + whereClause
  }

  function Clauses(updates: seq<(string, PyValue)>): (r: seq<string>)
    ensures |r| == |updates| && forall k :: 0 <= k < |updates| ==> r[k] == updates[k].0 + "=?"
  {
    seq(|updates|, k requires 0 <= k < |updates| => updates[k].0 + "=?")
  }

  /** What `execute` does with the converted values: it binds scalars and refuses a list. */
  method Bind(sql: string, values: seq<PyValue>, tail: seq<Scalar>) returns (r: UpdateOutcome)
    ensures r.BindFailed? <==> exists k :: 0 <= k < |values| && values[k].List?
    ensures !r.BindFailed? ==> r.Execute? && r.stmt.sql == sql && |r.stmt.params| == |values| + |tail|
    ensures r.Execute? ==> forall k :: 0 <= k < |values| ==> values[k] == Atom(r.stmt.params[k])
    ensures r.Execute? ==> r.stmt.params[|values|..] == tail
  {
    var params: seq<Scalar> := [];
    var i := 0;
    while i < |values|
      invariant 0 <= i <= |values| && |params| == i
      invariant forall k :: 0 <= k < i ==> values[k] == Atom(params[k])
    {
      if values[i].List? {
        return BindFailed;
      }
      params := params + [values[i].a];
      i := i + 1;
    }
    r := Execute(Statement(sql, params + tail));
    assert r.stmt.params[|values|..] == tail;
  }

  /**
   * The loop of `update_network`: a `key=?` clause and a converted value per
   * entry, in dict order; the empty dict executes nothing.
   */
  method UpdateNetwork(networkId: int, updates: seq<(string, PyValue)>) returns (r: UpdateOutcome)
    ensures r.Raised? <==> exists k :: 0 <= k < |updates| && NetworkValue(updates[k].0, updates[k].1).Err?
    ensures r == NothingToUpdate <==> updates == []
    ensures r.BindFailed? <==> (updates != [] && (forall k :: 0 <= k < |updates| ==> NetworkValue(updates[k].0, updates[k].1).Ok?)
      && exists k :: 0 <= k < |updates| && updates[k].1.List? && NetworkValue(updates[k].0, updates[k].1) == Ok(updates[k].1))
    ensures r.Execute? ==> r.stmt.sql == UpdateSql("irc_networks", Clauses(updates), "id=?")
    ensures r.Execute? ==> |r.stmt.params| == |updates| + 1 && r.stmt.params[|updates|] == SInt(networkId)
    ensures r.Execute? ==> forall k :: 0 <= k < |updates| ==> NetworkValue(updates[k].0, updates[k].1) == Ok(Atom(r.stmt.params[k]))
  {
    var clauses: seq<string> := [];
    var values: seq<PyValue> := [];
    var i := 0;
    while i < |updates|
      invariant 0 <= i <= |updates|
      invariant clauses == Clauses(updates[..i])
      invariant |values| == i
      invariant forall k :: 0 <= k < i ==> NetworkValue(updates[k].0, updates[k].1) == Ok(values[k])
    {
      var (key, value) := updates[i];
      var converted := NetworkValue(key, value);
      if converted.Err? {
        return Raised(converted.error);
      }
      clauses := clauses + [key + "=?"];
      values := values + [converted.value];
      i := i + 1;
    }
    if clauses == [] {
      return NothingToUpdate;
    }
    assert updates[..i] == updates;
    r := Bind(UpdateSql("irc_networks", clauses, "id=?"), values, [SInt(networkId)]);
  }

  /** The loop shared by `update_channel` and `update_task`, over their own flag keys. */
  method UpdateWithFlags(flagKeys: set<string>, updates: seq<(string, PyValue)>) returns (clauses: seq<string>, values: seq<PyValue>)
    ensures clauses == Clauses(updates)
    ensures |values| == |updates|
    ensures forall k :: 0 <= k < |updates| ==> values[k] == FlagValue(flagKeys, updates[k].0, updates[k].1)
  {
    clauses := [];
    values := [];
    var i := 0;
    while i < |updates|
      invariant 0 <= i <= |updates|
      invariant clauses == Clauses(updates[..i])
      invariant |values| == i && forall k :: 0 <= k < i ==> values[k] == FlagValue(flagKeys, updates[k].0, updates[k].1)
    {
      var (key, value) := updates[i];
      clauses := clauses + [key + "=?"];
      values := values + [FlagValue(flagKeys, key, value)];
      i := i + 1;
    }
    assert updates[..i] == updates;
  }

  /** `update_channel`: keyed by channel name and network id; the empty dict executes nothing. */
  method UpdateChannel(networkId: int, channelName: string, updates: seq<(string, PyValue)>) returns (r: UpdateOutcome)
    ensures !r.Raised?
    ensures updates == [] <==> r == NothingToUpdate
    ensures r.BindFailed? <==> exists k :: 0 <= k < |updates| && updates[k].0 !in ChannelFlagKeys && updates[k].1.List?
    ensures r.Execute? ==> r.stmt.sql == UpdateSql("irc_channels", Clauses(updates), "name=? AND network_id=?")
    ensures r.Execute? ==> |r.stmt.params| == |updates| + 2
    ensures r.Execute? ==> r.stmt.params[|updates|..] == [SStr(channelName), SInt(networkId)]
    ensures r.Execute? ==> forall k :: 0 <= k < |updates| ==>
      FlagValue(ChannelFlagKeys, updates[k].0, updates[k].1) == Atom(r.stmt.params[k])
  {
    var clauses, values := UpdateWithFlags(ChannelFlagKeys, updates);
    if clauses == [] {
      return NothingToUpdate;
    }
    r := Bind(UpdateSql("irc_channels", clauses, "name=? AND network_id=?"), values, [SStr(channelName), SInt(networkId)]);
  }

  /** `update_task`: keyed by task id; the empty dict executes nothing. */
  method UpdateTask(taskId: int, updates: seq<(string, PyValue)>) returns (r: UpdateOutcome)
    ensures !r.Raised?
    ensures updates == [] <==> r == NothingToUpdate
    ensures r.BindFailed? <==> exists k :: 0 <= k < |updates| && updates[k].0 !in TaskFlagKeys && updates[k].1.List?
    ensures r.Execute? ==> r.stmt.sql == UpdateSql("tasks", Clauses(updates), "id=?")
    ensures r.Execute? ==> |r.stmt.params| == |updates| + 1 && r.stmt.params[|updates|] == SInt(taskId)
    ensures r.Execute? ==> forall k :: 0 <= k < |updates| ==>
      FlagValue(TaskFlagKeys, updates[k].0, updates[k].1) == Atom(r.stmt.params[k])
  {
    var clauses, values := UpdateWithFlags(TaskFlagKeys, updates);
    if clauses == [] {
      return NothingToUpdate;
    }
    r := Bind(UpdateSql("tasks", clauses, "id=?"), values, [SInt(taskId)]);
  }

  /** A list written through `update_network` reads back as written. */
  lemma UpdatedListReadsBack(key: string, xs: seq<string>)
    requires key in NetworkListKeys
    requires StorableList(xs)
    ensures var v := NetworkValue(key, List(seq(|xs|, k requires 0 <= k < |xs| => SStr(xs[k]))));
      v.Ok? && v.value.Atom? && v.value.a.SStr? && DecodeList(Some(v.value.a.s)) == xs
  {
    var items := seq(|xs|, k requires 0 <= k < |xs| => SStr(xs[k]));
    JoinStringsIsJoin(items, xs);
    ListRoundTrip(xs);
  }

  lemma {:induction false} JoinStringsIsJoin(items: seq<Scalar>, xs: seq<string>)
    requires |items| == |xs| && forall k :: 0 <= k < |xs| ==> items[k] == SStr(xs[k])
    ensures JoinStrings(items) == Ok(EncodeList(xs))
    decreases |xs|
  {
    if |xs| > 1 {
      JoinStringsIsJoin(items[1..], xs[1..]);
    }
  }

  // ---------------------------------------------------------------------------
  // RPL columns

  const RplTypes: seq<string> := ["rpl_welcome", "rpl_yourhost", "rpl_created", "rpl_myinfo", "rpl_isupport", "rpl_visiblehost"]

  /** Sets one RPL column of a row. */
  function SetRpl(row: NetworkRow, rplType: string, value: string): NetworkRow
    requires rplType in RplTypes
  {
    if rplType == "rpl_welcome" then row.(rplWelcome := Some(value))
    else if rplType == "rpl_yourhost" then row.(rplYourhost := Some(value))
    else if rplType == "rpl_created" then row.(rplCreated := Some(value))
    else if rplType == "rpl_myinfo" then row.(rplMyinfo := Some(value))
    else if rplType == "rpl_isupport" then row.(rplIsupport := Some(value))
    else row.(rplVisiblehost := Some(value))
  }

  /** Reads one RPL column of a row. */
  function RplColumn(row: NetworkRow, rplType: string): Option<string>
    requires rplType in RplTypes
  {
    if rplType == "rpl_welcome" then row.rplWelcome
    else if rplType == "rpl_yourhost" then row.rplYourhost
    else if rplType == "rpl_created" then row.rplCreated
    else if rplType == "rpl_myinfo" then row.rplMyinfo
    else if rplType == "rpl_isupport" then row.rplIsupport
    else row.rplVisiblehost
  }

  /** A row with its RPL columns blanked: what an RPL update must leave alone. */
  function NonRpl(row: NetworkRow): NetworkRow {
    row.(rplWelcome := None, rplYourhost := None, rplCreated := None, rplMyinfo := None,
      rplIsupport := None, rplVisiblehost := None)
  }

  lemma SetRplEffect(row: NetworkRow, rplType: string, value: string)
    requires rplType in RplTypes
    ensures RplColumn(SetRpl(row, rplType, value), rplType) == Some(value)
    ensures forall t :: t in RplTypes && t != rplType ==> RplColumn(SetRpl(row, rplType, value), t) == RplColumn(row, t)
    ensures NonRpl(SetRpl(row, rplType, value)) == NonRpl(row)
  {
  }

  /**
   * `update_network_rpl` over a table of rows: an unknown column name is
   * refused and leaves the table alone; a known one is written into the rows
   * with the given id, touching no other column, and reported as success even
   * when no row has that id.
   */
  function UpdateNetworkRpl(table: seq<NetworkRow>, networkId: int, rplType: string, value: string): (r: (bool, seq<NetworkRow>))
    ensures r.0 <==> rplType in RplTypes
    ensures !r.0 ==> r.1 == table
    ensures |r.1| == |table|
    ensures forall k :: 0 <= k < |table| && table[k].id != networkId ==> r.1[k] == table[k]
    ensures r.0 ==> forall k :: 0 <= k < |table| && table[k].id == networkId ==>
      RplColumn(r.1[k], rplType) == Some(value) && NonRpl(r.1[k]) == NonRpl(table[k])
  {
    if rplType !in RplTypes then (false, table)
    else
      var updated := seq(|table|, k requires 0 <= k < |table| =>
        if table[k].id == networkId then SetRpl(table[k], rplType, value) else table[k]);
      assert forall k :: 0 <= k < |table| && table[k].id == networkId ==> updated[k] == SetRpl(table[k], rplType, value);
      forall k | 0 <= k < |table| && table[k].id == networkId
        ensures RplColumn(updated[k], rplType) == Some(value) && NonRpl(updated[k]) == NonRpl(table[k])
      {
        SetRplEffect(table[k], rplType, value);
      }
      (true, updated)
  }

  /** Reading the row back after an RPL update shows the value in the configuration record. */
  lemma RplReadsBack(row: NetworkRow, rplType: string, value: string)
    requires rplType in RplTypes
    ensures DecodeNetwork(SetRpl(row, rplType, value)).Ok? == DecodeNetwork(row).Ok?
    ensures var c := DecodeNetwork(SetRpl(row, rplType, value));
      c.Ok? ==> (rplType == "rpl_welcome" ==> c.value.rplWelcome == Some(value)) &&
                (rplType == "rpl_isupport" ==> c.value.rplIsupport == Some(value)) &&
                (rplType == "rpl_visiblehost" ==> c.value.rplVisiblehost == Some(value))
  {
    SetRplEffect(row, rplType, value);
  }
}
