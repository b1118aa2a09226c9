/**
 * The option values of `network add` and `network modify`
 * (plugins/network/init.py): booleans, comma-separated lists, numbers, and the
 * option loop that collects them.
 */
module NetworkOptions {
  import opened Wrappers
  import opened Text
  import DatabaseManager

  type Opt = (string, string)

  // ---------------------------------------------------------------------------
  // Decoding option values

  const TruthyWords: set<string> := {"true", "yes", "1"}

  /** `arg.lower() in ('true', 'yes', '1')`. */
  predicate Truthy(arg: string) {
    Lower(arg) in TruthyWords
  }

  lemma LowerOfUpper(s: string)
    ensures Lower(Upper(s)) == Lower(s)
  {
  }

  /** The words are recognised in any letter case, and nothing else is. */
  lemma TruthyIgnoresCase(arg: string)
    ensures Truthy(Upper(arg)) == Truthy(arg)
    ensures Truthy("YES") && Truthy("True") && Truthy("1")
    ensures !Truthy("on") && !Truthy("0") && !Truthy(" true") && !Truthy("")
  {
    LowerOfUpper(arg);
    assert Lower("YES") == "yes";
    assert Lower("True") == "true";
    assert Lower("1") == "1";
    assert Lower("0") == "0";
    assert Lower(" true")[0] == ' ';
    assert Lower("on") == "on";
  }

  /** `[x.strip() for x in arg.split(',')]`. */
  function CsvItems(arg: string): (r: seq<string>)
    ensures |r| >= 1
    ensures forall k :: 0 <= k < |r| ==> ',' !in r[k]
  {
    var pieces := Split(arg, ",");
    forall k | 0 <= k < |pieces| ensures ',' !in Strip(pieces[k]) {
      ContainsChar(pieces[k], ',');
      StripKeeps(pieces[k], ',');
    }
    seq(|pieces|, k requires 0 <= k < |pieces| => Strip(pieces[k]))
  }

  /** Items without commas or surrounding whitespace come back out of their comma join. */
  lemma CsvOfJoin(items: seq<string>)
    requires |items| >= 1
    requires forall k :: 0 <= k < |items| ==> ',' !in items[k] && Strip(items[k]) == items[k]
    ensures CsvItems(Join(items, ",")) == items
  {
    forall k | 0 <= k < |items| ensures !Contains(items[k], ",") {
      ContainsChar(items[k], ',');
    }
    SplitJoin(items, ",");
    var r := CsvItems(Join(items, ","));
    assert |r| == |items|;
    forall k | 0 <= k < |items| ensures r[k] == items[k] {
      assert r[k] == Strip(items[k]);
    }
  }

  /** The values of a list of options, or the index of its first `None`. */
  function Collect<X>(xs: seq<Option<X>>): (r: Result<seq<X>, nat>)
    ensures r.Ok? ==> |r.value| == |xs| && forall k :: 0 <= k < |xs| ==> xs[k] == Some(r.value[k])
    ensures r.Err? ==> r.error < |xs| && xs[r.error].None? && forall j :: 0 <= j < r.error ==> xs[j].Some?
  {
    if xs == [] then Ok([])
    else
      var rest := Collect(xs[1..]);
      assert forall k :: 0 < k < |xs| ==> xs[k] == xs[1..][k - 1];
      if xs[0].None? then Err(0)
      else if rest.Err? then Err(rest.error + 1)
      else Ok([xs[0].value] + rest.value)
  }

  function ParseEach(items: seq<string>): (r: seq<Option<int>>)
    ensures |r| == |items| && forall k :: 0 <= k < |items| ==> r[k] == ParseInt(items[k])
  {
    seq(|items|, k requires 0 <= k < |items| => ParseInt(items[k]))
  }

  /** `[int(x) for x in items]`: the numbers, or the first item `int` refuses. */
  function ParseNumbers(items: seq<string>): (r: Result<seq<int>, string>)
    ensures r.Ok? ==> |r.value| == |items| && forall k :: 0 <= k < |items| ==> ParseInt(items[k]) == Some(r.value[k])
    ensures r.Err? ==> exists k :: (0 <= k < |items| && items[k] == r.error && ParseInt(items[k]).None?
      && forall j :: 0 <= j < k ==> ParseInt(items[j]).Some?)
  {
    match Collect(ParseEach(items))
    case Ok(ns) => Ok(ns)
    case Err(i) => Err(items[i])
  }

  /** The text of any port list is read back as the same numbers. */
  lemma NumbersOfInts(ports: seq<int>)
    ensures ParseNumbers(DatabaseManager.IntStrings(ports)) == Ok(ports)
  {
    var strs := DatabaseManager.IntStrings(ports);
    forall k | 0 <= k < |ports| ensures ParseInt(strs[k]) == Some(ports[k]) {
      ParseIntToString(ports[k]);
    }
    var r := ParseNumbers(strs);
    assert r.Ok?;
    assert r.value == ports;
  }

  /** A port list typed with commas reads back as the same numbers. */
  lemma PortsOfJoin(ports: seq<int>)
    requires |ports| >= 1
    ensures ParseNumbers(CsvItems(Join(DatabaseManager.IntStrings(ports), ","))) == Ok(ports)
  {
    var strs := DatabaseManager.IntStrings(ports);
    forall k | 0 <= k < |strs| ensures ',' !in strs[k] && Strip(strs[k]) == strs[k] {
      DatabaseManager.IntStringChars(ports[k]);
      StripUnchanged(strs[k]);
    }
    CsvOfJoin(strs);
    NumbersOfInts(ports);
  }

  // ---------------------------------------------------------------------------
  // The options of `add` and `modify`

  /** What an option sets; `modify` stores each under its column name. */
  datatype Field =
    | Name | Addresses | Ports | SslPorts | Ssl | AutoConnect | AutoReconnect | Nicks
    | Ident | Realname | AuthUser | AuthPass | AuthMech | SaslMech | Oper | OperUser | OperPass | Prefix

  datatype Value = Str(s: string) | Flag(b: bool) | Number(n: int) | Items(xs: seq<string>) | Numbers(ns: seq<int>)

  /** The branch of the option loop an option takes; `-n`/`--name` exist only for `modify`. */
  function FieldOf(flag: string, editing: bool): Option<Field> {
    if editing && (flag == "-n" || flag == "--name") then Some(Name)
    else if flag == "-a" || flag == "--addresses" then Some(Addresses)
    else if flag == "-p" || flag == "--ports" then Some(Ports)
    else if flag == "--ssl-ports" then Some(SslPorts)
    else if flag == "-s" || flag == "--ssl" then Some(Ssl)
    else if flag == "--auto-connect" then Some(AutoConnect)
    else if flag == "--auto-reconnect" then Some(AutoReconnect)
    else if flag == "--nick" then Some(Nicks)
    else if flag == "--ident" then Some(Ident)
    else if flag == "--realname" then Some(Realname)
    else if flag == "--auth-user" then Some(AuthUser)
    else if flag == "--auth-pass" then Some(AuthPass)
    else if flag == "--auth-mech" then Some(AuthMech)
    else if flag == "--sasl-mech" then Some(SaslMech)
    else if flag == "--oper" then Some(Oper)
    else if flag == "--oper-user" then Some(OperUser)
    else if flag == "--oper-pass" then Some(OperPass)
    else if flag == "--prefix" then Some(Prefix)
    else None
  }

  /** The shape of value each field holds. */
  predicate Fits(f: Field, v: Value) {
    match f
    case Addresses | Nicks => v.Items?
    case Ports | SslPorts => v.Numbers?
    case Ssl | AutoConnect | AutoReconnect | Oper => v.Flag?
    case AuthMech | SaslMech => v.Number?
    case _ => v.Str?
  }

  /**
   * The value an option's argument gives its field, or the literal `int`
   * refuses.  `--oper` takes no argument in `add` and sets the flag.
   */
  function Decode(f: Field, arg: string, editing: bool): (r: Result<Value, string>)
    ensures r.Ok? ==> Fits(f, r.value)
    ensures r.Err? ==> f in {Ports, SslPorts, AuthMech, SaslMech}
  {
    match f
    case Addresses | Nicks => Ok(Items(CsvItems(arg)))
    case Ports | SslPorts =>
      (match ParseNumbers(CsvItems(arg))
       case Ok(ns) => Ok(Numbers(ns))
       case Err(e) => Err(e))
    case Ssl | AutoConnect | AutoReconnect => Ok(Flag(Truthy(arg)))
    case Oper => Ok(Flag(if editing then Truthy(arg) else true))
    case AuthMech | SaslMech =>
      (match ParseInt(arg)
       case Some(n) => Ok(Number(n))
       case None => Err(arg))
    case _ => Ok(Str(arg))
  }

  /** A port list decodes to the numbers its comma-separated items parse to. */
  lemma DecodePorts(f: Field, arg: string, editing: bool)
    requires f in {Ports, SslPorts} && Decode(f, arg, editing).Ok?
    ensures Decode(f, arg, editing).value.Numbers?
    ensures ParseNumbers(CsvItems(arg)) == Ok(Decode(f, arg, editing).value.ns)
  {
  }

  /** A mechanism decodes to the number its argument parses to. */
  lemma DecodeMechanism(f: Field, arg: string, editing: bool)
    requires f in {AuthMech, SaslMech} && Decode(f, arg, editing).Ok?
    ensures Decode(f, arg, editing).value.Number?
    ensures ParseInt(arg) == Some(Decode(f, arg, editing).value.n)
  {
  }

  /** Fields with the values set so far, each field once, first setting first: a Python dict. */
  type Assignment = seq<(Field, Value)>

  /** `updates[f]`, if set. */
  function Lookup(a: Assignment, f: Field): Option<Value> {
    if a == [] then None
    else if a[0].0 == f then Some(a[0].1)
    else Lookup(a[1..], f)
  }

  /** `updates[f] = v`: a field already set keeps its place, a new one goes last. */
  function Assign(a: Assignment, f: Field, v: Value): (r: Assignment)
    ensures forall g :: Lookup(r, g) == if g == f then Some(v) else Lookup(a, g)
    ensures |r| == if Lookup(a, f).Some? then |a| else |a| + 1
    ensures forall k :: 0 <= k < |a| ==> r[k].0 == a[k].0
    ensures forall k :: 0 <= k < |r| ==> r[k] == (f, v) || (k < |a| && r[k] == a[k])
    decreases |a|
  {
    if a == [] then [(f, v)]
    else if a[0].0 == f then [(f, v)] + a[1..]
    else
      var rest := Assign(a[1..], f, v);
      assert forall g :: Lookup([a[0]] + rest, g) == if g == a[0].0 then Some(a[0].1) else Lookup(rest, g);
      [a[0]] + rest
  }

  predicate AllFit(a: Assignment) {
    forall k :: 0 <= k < |a| ==> Fits(a[k].0, a[k].1)
  }

  /** One pass of the loop body. */
  function Step(a: Assignment, o: Opt, editing: bool): Result<Assignment, string> {
    match FieldOf(o.0, editing)
    case None => Ok(a)
    case Some(f) =>
      match Decode(f, o.1, editing)
      case Err(e) => Err(e)
      case Ok(v) => Ok(Assign(a, f, v))
  }

  /** The option loop from `a` on: the first value `int` refuses ends it. */
  function Fold(a: Assignment, opts: seq<Opt>, editing: bool): Result<Assignment, string>
    decreases |opts|
  {
    if opts == [] then Ok(a)
    else match Step(a, opts[0], editing)
      case Err(e) => Err(e)
      case Ok(b) => Fold(b, opts[1..], editing)
  }

  function Assignments(opts: seq<Opt>, editing: bool): Result<Assignment, string> {
    Fold([], opts, editing)
  }

  /** The option loop of `handle_add` (`editing` false) and `handle_modify` (`editing` true). */
  method DecodeOptions(opts: seq<Opt>, editing: bool) returns (r: Result<Assignment, string>)
    ensures r == Assignments(opts, editing)
  {
    var a: Assignment := [];
    var i := 0;
    while i < |opts|
      invariant 0 <= i <= |opts|
      invariant Fold(a, opts[i..], editing) == Assignments(opts, editing)
    {
      var (opt, arg) := opts[i];
      assert opts[i..][1..] == opts[i + 1..];
      var field := FieldOf(opt, editing);
      if field.Some? {
        var value := Decode(field.value, arg, editing);
        if value.Err? {
          return Err(value.error);
        }
        a := Assign(a, field.value, value.value);
      }
      i := i + 1;
    }
    return Ok(a);
  }

  /** The argument of the last option that sets `f`. */
  function LastFor(opts: seq<Opt>, f: Field, editing: bool): Option<string>
    decreases |opts|
  {
    if opts == [] then None
    else match LastFor(opts[1..], f, editing)
      case Some(arg) => Some(arg)
      case None => if FieldOf(opts[0].0, editing) == Some(f) then Some(opts[0].1) else None
  }

  /** The loop keeps every field's value in its own shape. */
  lemma {:induction false} FoldFits(a: Assignment, opts: seq<Opt>, editing: bool)
    requires AllFit(a)
    requires Fold(a, opts, editing).Ok?
    ensures AllFit(Fold(a, opts, editing).value)
    decreases |opts|
  {
    if opts != [] {
      var b := Step(a, opts[0], editing).value;
      assert AllFit(b) by {
        match FieldOf(opts[0].0, editing)
        case None =>
        case Some(f) =>
      }
      FoldFits(b, opts[1..], editing);
    }
  }

  /** The value the last option that sets `f` decodes to. */
  function LastValue(opts: seq<Opt>, f: Field, editing: bool): Option<Value> {
    match LastFor(opts, f, editing)
    case None => None
    case Some(arg) =>
      match Decode(f, arg, editing)
      case Ok(v) => Some(v)
      case Err(_) => None
  }

  lemma {:induction false} FoldLast(a: Assignment, opts: seq<Opt>, editing: bool, f: Field)
    requires Fold(a, opts, editing).Ok?
    ensures Lookup(Fold(a, opts, editing).value, f) ==
      if LastFor(opts, f, editing).None? then Lookup(a, f) else LastValue(opts, f, editing)
    ensures LastFor(opts, f, editing).Some? ==> Decode(f, LastFor(opts, f, editing).value, editing).Ok?
    decreases |opts|
  {
    if opts != [] {
      var b := Step(a, opts[0], editing).value;
      FoldLast(b, opts[1..], editing, f);
    }
  }

  /** Whatever the earlier options said, a field holds what its last option decodes to. */
  lemma LastOptionWins(opts: seq<Opt>, editing: bool, f: Field)
    requires Assignments(opts, editing).Ok?
    ensures Lookup(Assignments(opts, editing).value, f) == LastValue(opts, f, editing)
  {
    FoldLast([], opts, editing, f);
  }

  /** The last option for a field is one the loop decoded, since the loop went to the end. */
  lemma LastDecodes(opts: seq<Opt>, editing: bool, f: Field)
    requires Assignments(opts, editing).Ok?
    requires LastFor(opts, f, editing).Some?
    ensures Decode(f, LastFor(opts, f, editing).value, editing).Ok?
    ensures Lookup(Assignments(opts, editing).value, f) == Some(Decode(f, LastFor(opts, f, editing).value, editing).value)
  {
    FoldLast([], opts, editing, f);
  }

  /** The option's argument is one that `int` refuses. */
  predicate Refused(o: Opt, editing: bool) {
    FieldOf(o.0, editing).Some? && Decode(FieldOf(o.0, editing).value, o.1, editing).Err?
  }

  /** The loop stops at the first refused option, with its literal, and only there. */
  lemma {:induction false} FoldOutcome(a: Assignment, opts: seq<Opt>, editing: bool)
    ensures Fold(a, opts, editing).Ok? <==> forall k :: 0 <= k < |opts| ==> !Refused(opts[k], editing)
    ensures Fold(a, opts, editing).Err? ==> exists k :: (0 <= k < |opts| && Refused(opts[k], editing)
      && Fold(a, opts, editing).error == Decode(FieldOf(opts[k].0, editing).value, opts[k].1, editing).error
      && forall j :: 0 <= j < k ==> !Refused(opts[j], editing))
    decreases |opts|
  {
    if opts != [] {
      assert forall k :: 0 < k < |opts| ==> opts[k] == opts[1..][k - 1];
      if !Refused(opts[0], editing) {
        var b := Step(a, opts[0], editing).value;
        FoldOutcome(b, opts[1..], editing);
        if Fold(a, opts, editing).Err? {
          var k :| 0 <= k < |opts| - 1 && Refused(opts[1..][k], editing)
            && Fold(b, opts[1..], editing).error == Decode(FieldOf(opts[1..][k].0, editing).value, opts[1..][k].1, editing).error
            && forall j :: 0 <= j < k ==> !Refused(opts[1..][j], editing);
          assert forall j :: 0 <= j < k + 1 ==> !Refused(opts[j], editing);
          assert Refused(opts[k + 1], editing);
        }
      }
    }
  }

  // ---------------------------------------------------------------------------
  // The `updates` dict of `modify`

  /** The `irc_networks` column `modify` stores a field under. */
  function Column(f: Field): string {
    match f
    case Name => "name"
    case Addresses => "addresses"
    case Ports => "ports"
    case SslPorts => "ssl_ports"
    case Ssl => "enable_ssl"
    case AutoConnect => "auto_connect"
    case AutoReconnect => "auto_reconnect"
    case Nicks => "nicknames"
    case Ident => "ident"
    case Realname => "realname"
    case AuthUser => "auth_username"
    case AuthPass => "auth_password"
    case AuthMech => "auth_mechanism"
    case SaslMech => "sasl_mechanism"
    case Oper => "oper_auth"
    case OperUser => "oper_username"
    case OperPass => "oper_password"
    case Prefix => "command_prefix"
  }

  /** The field stored under a column, if any. */
  function FieldOfColumn(c: string): Option<Field> {
    if c == "name" then Some(Name)
    else if c == "addresses" then Some(Addresses)
    else if c == "ports" then Some(Ports)
    else if c == "ssl_ports" then Some(SslPorts)
    else if c == "enable_ssl" then Some(Ssl)
    else if c == "auto_connect" then Some(AutoConnect)
    else if c == "auto_reconnect" then Some(AutoReconnect)
    else if c == "nicknames" then Some(Nicks)
    else if c == "ident" then Some(Ident)
    else if c == "realname" then Some(Realname)
    else if c == "auth_username" then Some(AuthUser)
    else if c == "auth_password" then Some(AuthPass)
    else if c == "auth_mechanism" then Some(AuthMech)
    else if c == "sasl_mechanism" then Some(SaslMech)
    else if c == "oper_auth" then Some(Oper)
    else if c == "oper_username" then Some(OperUser)
    else if c == "oper_password" then Some(OperPass)
    else if c == "command_prefix" then Some(Prefix)
    else None
  }

  /** Each field has a column of its own, so keying the dict by column loses nothing. */
  lemma ColumnRoundTrip(f: Field)
    ensures FieldOfColumn(Column(f)) == Some(f)
  {
    match f
    case Name =>
    case Addresses =>
    case Ports =>
    case SslPorts =>
    case Ssl =>
    case AutoConnect =>
    case AutoReconnect =>
    case Nicks =>
    case Ident =>
    case Realname =>
    case AuthUser =>
    case AuthPass =>
    case AuthMech =>
    case SaslMech =>
    case Oper =>
    case OperUser =>
    case OperPass =>
    case Prefix =>
  }

  lemma ColumnsDistinct(f: Field, g: Field)
    requires Column(f) == Column(g)
    ensures f == g
  {
    ColumnRoundTrip(f);
    ColumnRoundTrip(g);
  }

  /** The database treats exactly the list, port and flag fields as such. */
  lemma ColumnKinds(f: Field)
    ensures Column(f) in DatabaseManager.NetworkListKeys <==> f == Addresses || f == Nicks
    ensures Column(f) in DatabaseManager.NetworkPortKeys <==> f == Ports || f == SslPorts
    ensures Column(f) in DatabaseManager.NetworkFlagKeys <==> f == Ssl || f == AutoConnect || f == AutoReconnect || f == Oper
  {
  }

  /** A decoded value as the Python object put in the dict. */
  function PyOf(v: Value): DatabaseManager.PyValue {
    match v
    case Str(s) => DatabaseManager.Atom(DatabaseManager.SStr(s))
    case Flag(b) => DatabaseManager.Atom(DatabaseManager.SBool(b))
    case Number(n) => DatabaseManager.Atom(DatabaseManager.SInt(n))
    case Items(xs) => DatabaseManager.List(seq(|xs|, k requires 0 <= k < |xs| => DatabaseManager.SStr(xs[k])))
    case Numbers(ns) => DatabaseManager.List(seq(|ns|, k requires 0 <= k < |ns| => DatabaseManager.SInt(ns[k])))
  }

  /** The dict passed to `update_network`, in insertion order. */
  function Updates(a: Assignment): (r: seq<(string, DatabaseManager.PyValue)>)
    ensures |r| == |a| && forall k :: 0 <= k < |a| ==> r[k] == (Column(a[k].0), PyOf(a[k].1))
  {
    seq(|a|, k requires 0 <= k < |a| => (Column(a[k].0), PyOf(a[k].1)))
  }

  /** The column value the database writes for a field's value. */
  function Stored(v: Value): DatabaseManager.Scalar {
    match v
    case Str(s) => DatabaseManager.SStr(s)
    case Flag(b) => DatabaseManager.SInt(DatabaseManager.EncodeFlag(b))
    case Number(n) => DatabaseManager.SInt(n)
    case Items(xs) => DatabaseManager.SStr(DatabaseManager.EncodeList(xs))
    case Numbers(ns) => DatabaseManager.SStr(DatabaseManager.EncodePorts(ns))
  }

  /** Every value `modify` decodes converts without error, to the text or number the database keeps. */
  lemma StoredValue(f: Field, v: Value)
    requires Fits(f, v)
    ensures DatabaseManager.NetworkValue(Column(f), PyOf(v)) == Ok(DatabaseManager.Atom(Stored(v)))
  {
    ColumnKinds(f);
    match v
    case Items(xs) =>
      var items := PyOf(v).items;
      var r := DatabaseManager.JoinStrings(items);
      assert r.Ok?;
      assert r.value == DatabaseManager.EncodeList(xs) by { JoinedStrings(xs); }
    case Numbers(ns) =>
      assert DatabaseManager.StrAll(PyOf(v).items) == DatabaseManager.IntStrings(ns);
    case _ =>
  }

  lemma {:induction false} JoinedStrings(xs: seq<string>)
    ensures DatabaseManager.JoinStrings(seq(|xs|, k requires 0 <= k < |xs| => DatabaseManager.SStr(xs[k])))
      == Ok(Join(xs, DatabaseManager.ListSep))
    decreases |xs|
  {
    var items := seq(|xs|, k requires 0 <= k < |xs| => DatabaseManager.SStr(xs[k]));
    if |xs| > 1 {
      JoinedStrings(xs[1..]);
      assert items[1..] == seq(|xs[1..]|, k requires 0 <= k < |xs[1..]| => DatabaseManager.SStr(xs[1..][k]));
    }
  }

  /** So every entry of the dict converts: `update_network` never raises on what `modify` builds. */
  lemma UpdatesConvert(a: Assignment)
    requires AllFit(a)
    ensures forall k :: 0 <= k < |a| ==> DatabaseManager.NetworkValue(Updates(a)[k].0, Updates(a)[k].1) == Ok(DatabaseManager.Atom(Stored(a[k].1)))
  {
    forall k | 0 <= k < |a|
      ensures DatabaseManager.NetworkValue(Updates(a)[k].0, Updates(a)[k].1) == Ok(DatabaseManager.Atom(Stored(a[k].1)))
    {
      StoredValue(a[k].0, a[k].1);
    }
  }
}
