/**
 * The IRC session of core/protocol.py: what it sends at connect, during the
 * IRCv3 SASL exchange and on sign-on, how it records registration numerics,
 * how it tracks channel membership, and how it turns a PRIVMSG into a
 * command dispatch or a reply.
 *
 * The wire (Twisted's line framing, `join`/`leave`/`msg` formatting) is an
 * output log of `Outbound` events; store writes are a log of `StoreWrite`s;
 * store reads arrive as sequences of channel records; the plugin manager is
 * the set of command names it knows, and a dispatch is logged.
 */
module Protocol {
  import opened Wrappers
  import opened Text
  import opened NetworkConfig
  import DatabaseManager
  import Sasl
  import Shlex

  type ChannelRecord = DatabaseManager.ChannelRecord

  /** What the session puts on the wire. */
  datatype Outbound =
    | Line(text: string)                      // sendLine
    | Privmsg(target: string, text: string)   // msg
    | JoinCommand(channel: string, key: Option<string>)
    | Part(channel: string)                   // leave
    | Register(nickname: string)              // the base client's registration at connect

  /** What the session asks the store to write. */
  datatype StoreWrite =
    | RplWrite(networkId: int, rplType: string, value: string)
    | ChannelUpdate(networkId: int, channel: string, column: string, value: string)
    | ChannelAdd(networkId: int, name: string, password: Option<string>)

  /** A call of the plugin manager's `execute_command`. */
  datatype CommandCall = CommandCall(command: string, target: string, nickname: string, args: seq<string>)

  /** How `join_channel` / `part_channel` look a record up; a name never equals an integer id. */
  datatype ChannelKey = ById(id: int) | ByName(name: string)

  predicate Matches(ch: ChannelRecord, key: ChannelKey) {
    key.ById? && ch.id == key.id
  }

  // ---------------------------------------------------------------------------
  // Connection and SASL

  /** `CAP REQ :sasl` is sent iff SASL is selected with PLAIN or EXTERNAL. */
  predicate RequestsSasl(c: Config) {
    c.authMechanism == AuthSasl && (c.saslMechanism == SaslPlain || c.saslMechanism == SaslExternal)
  }

  /** The lines `connectionMade` sends before the base registration. */
  function CapRequest(c: Config): (r: seq<Outbound>)
    ensures r != [] <==> RequestsSasl(c)
    ensures r != [] ==> r == [Line("CAP REQ :sasl")]
  {
    if c.authMechanism == AuthSasl then
      if c.saslMechanism == SaslPlain then [Line("CAP REQ :sasl")]
      else if c.saslMechanism == SaslExternal then [Line("CAP REQ :sasl")]
      else []
    else []
  }

  /** A positive `CAP * ACK :...sasl...` reply; shorter parameter lists raise and send nothing. */
  predicate SaslAcknowledged(params: seq<string>) {
    |params| >= 3 && params[1] == "ACK" && Contains(params[2], "sasl")
  }

  /** The reply to a CAP message. */
  function CapReply(c: Config, params: seq<string>): (r: seq<Outbound>)
    ensures r != [] <==> SaslAcknowledged(params) && (c.saslMechanism == SaslPlain || c.saslMechanism == SaslExternal)
    ensures r != [] && c.saslMechanism == SaslPlain ==> r == [Line("AUTHENTICATE PLAIN")]
    ensures r != [] && c.saslMechanism == SaslExternal ==> r == [Line("AUTHENTICATE EXTERNAL")]
  {
    if |params| < 2 || params[1] != "ACK" || |params| < 3 then []
    else if !Contains(params[2], "sasl") then []
    else if c.saslMechanism == SaslPlain then [Line("AUTHENTICATE PLAIN")]
    else if c.saslMechanism == SaslExternal then [Line("AUTHENTICATE EXTERNAL")]
    else []
  }

  const AuthenticatePrefix: string := "AUTHENTICATE "

  /** The reply to a server `AUTHENTICATE`: the PLAIN credentials after a `+` challenge. */
  function AuthenticateReply(c: Config, params: seq<string>): seq<Outbound> {
    if |params| >= 1 && params[0] == "+" && c.saslMechanism == SaslPlain then
      [Line(AuthenticatePrefix + Sasl.PlainPayload(c.authUsername, c.authPassword))]
    else []
  }

  /**
   * Exactly one line answers a `+` challenge under PLAIN and none otherwise;
   * the line's payload decodes to authzid = authcid = the configured user and
   * the configured password.
   */
  lemma AuthenticateReplyDecodes(c: Config, params: seq<string>)
    requires '\0' !in c.authUsername
    ensures |AuthenticateReply(c, params)| == (if |params| >= 1 && params[0] == "+" && c.saslMechanism == SaslPlain then 1 else 0)
    ensures AuthenticateReply(c, params) != [] ==>
      AuthenticateReply(c, params)[0].Line? &&
      StartsWith(AuthenticateReply(c, params)[0].text, AuthenticatePrefix) &&
      Sasl.Decode(AuthenticateReply(c, params)[0].text[13..]) == Some(Sasl.PlainMessage(c.authUsername, c.authPassword)) &&
      Sasl.ParsePlain(Sasl.PlainMessage(c.authUsername, c.authPassword)) ==
        Some((Sasl.Utf8(c.authUsername), Sasl.Utf8(c.authUsername), Sasl.Utf8(c.authPassword)))
  {
    if AuthenticateReply(c, params) != [] {
      var payload := Sasl.PlainPayload(c.authUsername, c.authPassword);
      var text := AuthenticatePrefix + payload;
      assert text[13..] == payload;
      assert text[..13] == AuthenticatePrefix;
      Sasl.PlainPayloadRecovers(c.authUsername, c.authPassword);
    }
  }

  // ---------------------------------------------------------------------------
  // Registration numerics

  /** The six numerics whose text is stored: 001-004 (section 5.1 of RFC 2812), 005 and 396. */
  datatype Numeric = Welcome | YourHost | Created | MyInfo | ISupport | VisibleHost

  /** The column each numeric writes. */
  function RplType(n: Numeric): string {
    match n
    case Welcome => "rpl_welcome"
    case YourHost => "rpl_yourhost"
    case Created => "rpl_created"
    case MyInfo => "rpl_myinfo"
    case ISupport => "rpl_isupport"
    case VisibleHost => "rpl_visiblehost"
  }

  /** 004 and 005 keep all their parameters after the target; the others keep one. */
  predicate JoinsParams(n: Numeric) {
    n == MyInfo || n == ISupport
  }

  /** The stored text: `params[1]`, or `' '.join(params[1:])`, or "" without a second parameter. */
  function RplText(n: Numeric, params: seq<string>): string {
    if |params| <= 1 then ""
    else if JoinsParams(n) then Join(params[1..], " ")
    else params[1]
  }

  /** Every numeric writes a column the store accepts, and no two numerics share a column. */
  lemma RplTypesAccepted(n: Numeric, m: Numeric)
    ensures RplType(n) in DatabaseManager.RplTypes
    ensures DatabaseManager.UpdateNetworkRpl([], 0, RplType(n), "").0
    ensures n != m ==> RplType(n) != RplType(m)
  {
  }

  /**
   * The joined text of 004/005 splits back into the parameters after the
   * target when none of them contains a space; the single-parameter numerics
   * keep exactly the second parameter.
   */
  lemma RplTextRecoversParams(n: Numeric, params: seq<string>)
    requires |params| > 1
    requires forall k :: 1 <= k < |params| ==> !Contains(params[k], " ")
    ensures JoinsParams(n) ==> Split(RplText(n, params), " ") == params[1..]
    ensures !JoinsParams(n) ==> RplText(n, params) == params[1]
  {
    if JoinsParams(n) {
      assert forall k :: 0 <= k < |params[1..]| ==> params[1..][k] == params[k + 1];
      SplitJoin(params[1..], " ");
    }
  }

  // ---------------------------------------------------------------------------
  // Sign-on and modes

  /** The NickServ identification `signedOn` sends when auth_mechanism is 2. */
  function IdentifyMessages(c: Config): seq<Outbound> {
    if c.authMechanism == AuthNickServ then [Privmsg("NickServ", "IDENTIFY " + c.authUsername + " " + c.authPassword)] else []
  }

  /** The OPER line `signedOn` sends when oper_auth is set. */
  function OperLines(c: Config): seq<Outbound> {
    if c.operAuth then [Line("OPER " + c.operUsername + " " + c.operPassword)] else []
  }

  /** The text `modeChanged` stores: sign, modes, then the non-None arguments after one space. */
  function ModeString(adding: bool, modes: string, args: seq<Option<string>>): (r: string)
    ensures |r| >= 1 + |modes| && r[0] == (if adding then '+' else '-') && r[1..1 + |modes|] == modes
  {
    var present := PresentArgs(args);
    (if adding then "+" else "-") + modes + (if present == [] then "" else " " + Join(present, " "))
  }

  /** The arguments that are not None, in order. */
  function PresentArgs(args: seq<Option<string>>): (r: seq<string>)
    ensures |r| <= |args|
    ensures forall x :: x in r <==> Some(x) in args
    decreases |args|
  {
    if args == [] then []
    else
      assert forall k :: 0 < k < |args| ==> args[k] == args[1..][k - 1];
      (if args[0].Some? then [args[0].value] else []) + PresentArgs(args[1..])
  }

  /**
   * The arguments can be read back from the stored mode text: with no
   * non-None argument the text is sign and modes alone; otherwise what follows
   * the space after the modes splits into the non-None arguments, provided
   * none of them contains a space.
   */
  lemma ModeStringArgs(adding: bool, modes: string, args: seq<Option<string>>)
    requires forall k :: 0 <= k < |args| && args[k].Some? ==> !Contains(args[k].value, " ")
    ensures PresentArgs(args) == [] ==> |ModeString(adding, modes, args)| == 1 + |modes|
    ensures PresentArgs(args) != [] ==>
      |ModeString(adding, modes, args)| > 1 + |modes| &&
      ModeString(adding, modes, args)[1 + |modes|] == ' ' &&
      Split(ModeString(adding, modes, args)[2 + |modes|..], " ") == PresentArgs(args)
  {
    var present := PresentArgs(args);
    if present != [] {
      var r := ModeString(adding, modes, args);
      var head := (if adding then "+" else "-") + modes;
      assert r == head + " " + Join(present, " ");
      assert r[2 + |modes|..] == Join(present, " ");
      forall k | 0 <= k < |present| ensures !Contains(present[k], " ") {
        assert present[k] in present;
        var j :| 0 <= j < |args| && args[j] == Some(present[k]);
      }
      SplitJoin(present, " ");
    }
  }

  // ---------------------------------------------------------------------------
  // Channel lookups and membership

  /** The first record the key matches. */
  function FirstIndex(channels: seq<ChannelRecord>, key: ChannelKey): (r: Option<nat>)
    ensures r.Some? ==> r.value < |channels| && Matches(channels[r.value], key)
    ensures r.Some? ==> forall j :: 0 <= j < r.value ==> !Matches(channels[j], key)
    ensures r.None? ==> forall j :: 0 <= j < |channels| ==> !Matches(channels[j], key)
    decreases |channels|
  {
    if channels == [] then None
    else if Matches(channels[0], key) then Some(0)
    else match FirstIndex(channels[1..], key)
      case None => None
      case Some(i) => Some(i + 1)
  }

  lemma FirstIndexUnique(channels: seq<ChannelRecord>, key: ChannelKey, i: nat)
    requires i < |channels| && Matches(channels[i], key)
    requires forall j :: 0 <= j < i ==> !Matches(channels[j], key)
    ensures FirstIndex(channels, key) == Some(i)
  {
  }

  /** Python truthiness of the stored password decides whether the JOIN carries a key. */
  function JoinFor(name: string, password: Option<string>): Outbound {
    if DatabaseManager.TextTruthy(password) then JoinCommand(name, password) else JoinCommand(name, None)
  }

  /** What `join_channel` sends. */
  function JoinSends(channels: seq<ChannelRecord>, key: ChannelKey, joined: seq<string>): (r: seq<Outbound>)
    ensures |r| <= 1
  {
    match FirstIndex(channels, key)
    case None => []
    case Some(i) =>
      if channels[i].name in joined then [] else [JoinFor(channels[i].name, channels[i].password)]
  }

  /**
   * The guards of `join_channel`: nothing is sent for an unknown id or a
   * channel already joined; otherwise one JOIN for the first record with that
   * id, carrying a key iff its password is non-empty.  A key by name never
   * matches, so it never sends anything.
   */
  lemma JoinSendsGuards(channels: seq<ChannelRecord>, key: ChannelKey, joined: seq<string>)
    ensures (forall j :: 0 <= j < |channels| ==> !Matches(channels[j], key)) ==> JoinSends(channels, key, joined) == []
    ensures key.ByName? ==> JoinSends(channels, key, joined) == []
    ensures forall i :: (0 <= i < |channels| && Matches(channels[i], key) &&
      (forall j :: 0 <= j < i ==> !Matches(channels[j], key))) ==>
        JoinSends(channels, key, joined) ==
          (if channels[i].name in joined then []
           else if DatabaseManager.TextTruthy(channels[i].password) then [JoinCommand(channels[i].name, channels[i].password)]
           else [JoinCommand(channels[i].name, None)])
  {
    forall i | 0 <= i < |channels| && Matches(channels[i], key) && (forall j :: 0 <= j < i ==> !Matches(channels[j], key))
      ensures JoinSends(channels, key, joined) ==
          (if channels[i].name in joined then []
           else if DatabaseManager.TextTruthy(channels[i].password) then [JoinCommand(channels[i].name, channels[i].password)]
           else [JoinCommand(channels[i].name, None)])
    {
      FirstIndexUnique(channels, key, i);
    }
  }

  /** What `part_channel` sends. */
  function PartSends(channels: seq<ChannelRecord>, id: int, joined: seq<string>): (r: seq<Outbound>)
    ensures |r| <= 1
    ensures r != [] ==> FirstIndex(channels, ById(id)).Some? && r[0].Part? && r[0].channel in joined
  {
    match FirstIndex(channels, ById(id))
    case None => []
    case Some(i) => if channels[i].name in joined then [Part(channels[i].name)] else []
  }

  /** What the sign-on loop sends for the channels from `rest` marked auto_join. */
  function AutoJoinSends(channels: seq<ChannelRecord>, rest: seq<ChannelRecord>, joined: seq<string>): seq<Outbound>
    decreases |rest|
  {
    if rest == [] then []
    else
      var head := if rest[0].autoJoin then JoinSends(channels, ById(rest[0].id), joined) else [];
      head + AutoJoinSends(channels, rest[1..], joined)
  }

  lemma AutoJoinSendsAppend(channels: seq<ChannelRecord>, a: seq<ChannelRecord>, b: seq<ChannelRecord>, joined: seq<string>)
    ensures AutoJoinSends(channels, a + b, joined) == AutoJoinSends(channels, a, joined) + AutoJoinSends(channels, b, joined)
    decreases |a|
  {
    if a == [] {
      assert a + b == b;
    } else {
      assert (a + b)[1..] == a[1..] + b;
      AutoJoinSendsAppend(channels, a[1..], b, joined);
    }
  }

  /**
   * Every auto-join JOIN names a channel of the store that is not yet joined
   * and marked auto_join; channels without the flag are never joined.
   */
  lemma {:induction false} AutoJoinSendsSound(channels: seq<ChannelRecord>, rest: seq<ChannelRecord>, joined: seq<string>)
    requires forall k :: 0 <= k < |rest| ==> rest[k] in channels
    requires forall a, b :: 0 <= a < |channels| && 0 <= b < |channels| && channels[a].id == channels[b].id ==> a == b
    ensures forall o :: o in AutoJoinSends(channels, rest, joined) ==>
      o.JoinCommand? && o.channel !in joined &&
      exists k :: 0 <= k < |rest| && rest[k].autoJoin && rest[k].name == o.channel
    decreases |rest|
  {
    if rest != [] {
      AutoJoinSendsSound(channels, rest[1..], joined);
      var head := if rest[0].autoJoin then JoinSends(channels, ById(rest[0].id), joined) else [];
      if head != [] {
        var i := FirstIndex(channels, ById(rest[0].id)).value;
        var p :| 0 <= p < |channels| && channels[p] == rest[0];
        FirstIndexUnique(channels, ById(rest[0].id), p);
        assert channels[i] == rest[0];
      }
      forall o | o in AutoJoinSends(channels, rest[1..], joined)
        ensures exists k :: 0 <= k < |rest| && rest[k].autoJoin && rest[k].name == o.channel
      {
        var k :| 0 <= k < |rest[1..]| && rest[1..][k].autoJoin && rest[1..][k].name == o.channel;
        assert rest[k + 1] == rest[1..][k];
      }
    }
  }

  /** `joined`: record a channel once. */
  function Added(joined: seq<string>, ch: string): (r: seq<string>)
    ensures ch in r
    ensures forall x :: x in r <==> x in joined || x == ch
    ensures Distinct(joined) ==> Distinct(r)
  {
    if ch in joined then joined else joined + [ch]
  }

  /** `list.remove(ch)`: drop the first occurrence. */
  function RemoveFirst(joined: seq<string>, ch: string): (r: seq<string>)
    ensures ch !in joined ==> r == joined
    ensures ch in joined ==> |r| == |joined| - 1
    ensures forall x :: x in r ==> x in joined
    ensures forall x :: x in joined && x != ch ==> x in r
    decreases |joined|
  {
    if joined == [] then []
    else if joined[0] == ch then joined[1..]
    else [joined[0]] + RemoveFirst(joined[1..], ch)
  }

  lemma {:induction false} RemoveFirstDistinct(joined: seq<string>, ch: string)
    requires Distinct(joined)
    ensures Distinct(RemoveFirst(joined, ch))
    ensures ch !in RemoveFirst(joined, ch)
    decreases |joined|
  {
    if joined != [] {
      assert Distinct(joined[1..]) by {
        forall i, j | 0 <= i < j < |joined[1..]| ensures joined[1..][i] != joined[1..][j] {
          assert joined[1..][i] == joined[i + 1] && joined[1..][j] == joined[j + 1];
        }
      }
      if joined[0] != ch {
        RemoveFirstDistinct(joined[1..], ch);
        var rest := RemoveFirst(joined[1..], ch);
        assert joined[0] !in joined[1..];
        assert joined[0] !in rest;
        var r := [joined[0]] + rest;
        forall i, j | 0 <= i < j < |r| ensures r[i] != r[j] {
          if i == 0 {
            assert r[j] == rest[j - 1];
            assert r[j] in rest;
          } else {
            assert r[i] == rest[i - 1] && r[j] == rest[j - 1];
          }
        }
      } else {
        assert joined[0] !in joined[1..];
      }
    }
  }

  /** A channel joined and then left leaves the membership list as it was. */
  lemma JoinedThenLeft(joined: seq<string>, ch: string)
    requires ch !in joined
    ensures RemoveFirst(Added(joined, ch), ch) == joined
  {
    RemoveAppended(joined, ch);
  }

  lemma {:induction false} RemoveAppended(joined: seq<string>, ch: string)
    requires ch !in joined
    ensures RemoveFirst(joined + [ch], ch) == joined
    decreases |joined|
  {
    if joined == [] {
    } else {
      assert (joined + [ch])[1..] == joined[1..] + [ch];
      RemoveAppended(joined[1..], ch);
      assert [joined[0]] + joined[1..] == joined;
    }
  }

  // ---------------------------------------------------------------------------
  // Messages and commands

  /** `send_message`: the optional nickname prefix, then one PRIVMSG per '\n'-separated piece. */
  function MessageText(message: string, prefixNick: Option<string>): string {
    if DatabaseManager.TextTruthy(prefixNick) then prefixNick.value + ": " + message else message
  }

  function Privmsgs(target: string, pieces: seq<string>): (r: seq<Outbound>)
    ensures |r| == |pieces|
    ensures forall k :: 0 <= k < |pieces| ==> r[k] == Privmsg(target, pieces[k])
  {
    seq(|pieces|, k requires 0 <= k < |pieces| => Privmsg(target, pieces[k]))
  }

  /** The pieces sent, rejoined with '\n', are the whole text; no piece holds a newline. */
  lemma SendMessagePieces(message: string, prefixNick: Option<string>)
    ensures var pieces := Split(MessageText(message, prefixNick), "\n");
      |pieces| >= 1 && Join(pieces, "\n") == MessageText(message, prefixNick) &&
      forall k :: 0 <= k < |pieces| ==> '\n' !in pieces[k]
  {
    var pieces := Split(MessageText(message, prefixNick), "\n");
    forall k | 0 <= k < |pieces| ensures '\n' !in pieces[k] {
      if '\n' in pieces[k] {
        var j :| 0 <= j < |pieces[k]| && pieces[k][j] == '\n';
        assert pieces[k][j..j + 1] == "\n";
        assert OccursAt(pieces[k], "\n", j);
      }
    }
  }

  /** `user.split('!')` and then `user_info.split('@')` into exactly two parts each. */
  function ParseSender(user: string): Option<(string, string, string)> {
    var bang := Split(user, "!");
    if |bang| != 2 then None
    else
      var at := Split(bang[1], "@");
      if |at| != 2 then None else Some((bang[0], at[0], at[1]))
  }

  /** A well-formed `nick!ident@host` parses into its three parts ... */
  lemma ParseSenderComplete(nick: string, ident: string, host: string)
    requires '!' !in nick && '!' !in ident && '!' !in host
    requires '@' !in ident && '@' !in host
    ensures ParseSender(nick + "!" + ident + "@" + host) == Some((nick, ident, host))
  {
    var info := ident + "@" + host;
    ContainsChar(ident, '@');
    ContainsChar(host, '@');
    assert Join([ident, host], "@") == info;
    SplitJoin([ident, host], "@");
    assert '!' !in info;
    ContainsChar(nick, '!');
    ContainsChar(info, '!');
    assert Join([nick, info], "!") == nick + "!" + ident + "@" + host;
    SplitJoin([nick, info], "!");
  }

  /** ... and whatever parses is rebuilt from its parts. */
  lemma ParseSenderSound(user: string)
    ensures match ParseSender(user)
      case Some((nick, ident, host)) => user == nick + "!" + ident + "@" + host
      case None => true
  {
    var bang := Split(user, "!");
    if |bang| == 2 {
      var at := Split(bang[1], "@");
      if |at| == 2 {
        assert Join(bang, "!") == bang[0] + "!" + bang[1];
        assert Join(at, "@") == at[0] + "@" + at[1];
      }
    }
  }

  /** The record's non-empty prefix override for that channel, if any. */
  function PrefixOverride(ch: ChannelRecord, channel: string): Option<string> {
    if ch.name == channel && DatabaseManager.TextTruthy(ch.commandPrefix) then ch.commandPrefix else None
  }

  /** The command prefix: the first record of that channel with a non-empty override, else the network default. */
  function ResolvePrefix(channels: seq<ChannelRecord>, channel: string, default: string): (r: string)
    ensures r == default || exists k :: 0 <= k < |channels| && PrefixOverride(channels[k], channel) == Some(r)
    ensures (forall k :: 0 <= k < |channels| ==> !(channels[k].name == channel && DatabaseManager.TextTruthy(channels[k].commandPrefix))) ==> r == default
    decreases |channels|
  {
    if channels == [] then default
    else if channels[0].name == channel && DatabaseManager.TextTruthy(channels[0].commandPrefix) then channels[0].commandPrefix.value
    else
      var r := ResolvePrefix(channels[1..], channel, default);
      assert forall k :: 0 < k < |channels| ==> channels[k] == channels[1..][k - 1];
      r
  }

  /** What `_handle_command` does with a message. */
  datatype Decision =
    | Ignore                               // blank command line or a tokenizer error other than a quote
    | Reply(text: string)                  // sent to the target, prefixed with the sender's nick
    | Dispatch(command: string, args: seq<string>)

  /** `"closing quotation" in str(e).lower()`. */
  predicate MentionsClosingQuotation(e: Shlex.Error) {
    Contains(Lower(Shlex.Message(e)), "closing quotation")
  }

  lemma LowerNoClosing()
    ensures Lower(Shlex.Message(Shlex.NoClosingQuotation))[3..] == "closing quotation"
  {
    var m := Shlex.Message(Shlex.NoClosingQuotation);
    assert m[3..] == "closing quotation";
    forall i | 3 <= i < |m| ensures Lower(m)[i] == m[i] {
      assert m[i] == m[3..][i - 3];
    }
  }

  lemma LowerNoEscaped()
    ensures Lower(Shlex.Message(Shlex.NoEscapedCharacter))[..4] == "no e"
  {
    var m := Shlex.Message(Shlex.NoEscapedCharacter);
    assert m[0] == 'N' && m[1] == 'o' && m[2] == ' ' && m[3] == 'e';
  }

  lemma ClosingQuotationOnly(e: Shlex.Error)
    ensures MentionsClosingQuotation(e) <==> e == Shlex.NoClosingQuotation
  {
    var m := Lower(Shlex.Message(e));
    if e == Shlex.NoClosingQuotation {
      LowerNoClosing();
      assert m[3..3 + 17] == "closing quotation";
      assert OccursAt(m, "closing quotation", 3);
    } else {
      LowerNoEscaped();
      assert |m| == 20;
      forall j: nat | j <= |m| - 17 ensures !OccursAt(m, "closing quotation", j) {
        assert m[j] == m[..4][j];
        assert m[j..j + 17][0] == m[j];
      }
    }
  }

  /** The command line `_handle_command` tokenizes: the prefix is cut only for channel messages. */
  function CommandLine(message: string, isPm: bool, prefix: string): string {
    if isPm then message else message[if |prefix| <= |message| then |prefix| else |message|..]
  }

  function Decide(line: string, known: set<string>): Decision {
    match Shlex.Split(line)
    case Err(e) => if MentionsClosingQuotation(e) then Reply("Missing closing quotation mark") else Ignore
    case Ok(parts) =>
      if parts == [] then Ignore
      else if parts[0] in known then Dispatch(parts[0], parts[1..])
      else Reply("Command not found")
  }

  /**
   * The reply rules of `_handle_command`: an unclosed quote is reported, a
   * dangling escape and an empty line are ignored, a known first token is
   * dispatched with the rest as arguments, an unknown one is reported.
   */
  lemma DecideRules(line: string, known: set<string>)
    ensures Shlex.Split(line) == Err(Shlex.NoClosingQuotation) ==> Decide(line, known) == Reply("Missing closing quotation mark")
    ensures Shlex.Split(line) == Err(Shlex.NoEscapedCharacter) ==> Decide(line, known) == Ignore
    ensures Shlex.Split(line) == Ok([]) ==> Decide(line, known) == Ignore
    ensures Decide(line, known).Dispatch? <==>
      Shlex.Split(line).Ok? && Shlex.Split(line).value != [] && Shlex.Split(line).value[0] in known
    ensures Decide(line, known).Dispatch? ==>
      [Decide(line, known).command] + Decide(line, known).args == Shlex.Split(line).value
  {
    ClosingQuotationOnly(Shlex.NoClosingQuotation);
    ClosingQuotationOnly(Shlex.NoEscapedCharacter);
  }

  /** For example, `!reply "first second" third` reaches `reply` with two arguments. */
  lemma DecideExample()
    ensures Decide(CommandLine("!a \"b c\"", false, "!"), {"a"}) == Dispatch("a", ["b c"])
    ensures Decide("\"a", {"a"}) == Reply("Missing closing quotation mark")
  {
    assert CommandLine("!a \"b c\"", false, "!") == "a \"b c\"";
    Shlex.QuotingExample();
    Shlex.ErrorExamples();
    ClosingQuotationOnly(Shlex.NoClosingQuotation);
    assert ["a", "b c"][1..] == ["b c"];
  }

  // ---------------------------------------------------------------------------
  // The session

  class Session {
    const config: Config
    var nickname: string
    var username: string
    var realname: string
    var joinedChannels: seq<string>
    var saslAuthenticated: bool
    /** Everything sent, in order. */
    var sent: seq<Outbound>
    /** Every store write, in order. */
    var store: seq<StoreWrite>
    /** Every `execute_command` call, in order. */
    var commands: seq<CommandCall>
    /** How many times the scheduler was told to stop all tasks. */
    var stopRequests: nat

    ghost predicate Valid()
      reads this
    {
      Distinct(joinedChannels)
    }

    constructor (config: Config, nickname: string, username: string, realname: string)
      ensures Valid()
      ensures this.config == config && this.nickname == nickname && this.username == username && this.realname == realname
      ensures joinedChannels == [] && !saslAuthenticated
      ensures sent == [] && store == [] && commands == [] && stopRequests == 0
    {
      this.config := config;
      this.nickname := nickname;
      this.username := username;
      this.realname := realname;
      joinedChannels := [];
      saslAuthenticated := false;
      sent := [];
      store := [];
      commands := [];
      stopRequests := 0;
    }

    /** `connectionMade`: the SASL capability request first, then the registration. */
    method ConnectionMade()
      modifies this`sent
      ensures sent == old(sent) + CapRequest(config) + [Register(nickname)]
    {
      if config.authMechanism == AuthSasl {
        if config.saslMechanism == SaslPlain {
          sent := sent + [Line("CAP REQ :sasl")];
        } else if config.saslMechanism == SaslExternal {
          sent := sent + [Line("CAP REQ :sasl")];
        }
      }
      sent := sent + [Register(nickname)];
    }

    /** `connectionLost`: stop every scheduled task. */
    method ConnectionLost()
      modifies this`stopRequests
      ensures stopRequests == old(stopRequests) + 1
    {
      stopRequests := stopRequests + 1;
    }

    method IrcCap(params: seq<string>)
      modifies this`sent
      ensures sent == old(sent) + CapReply(config, params)
    {
      sent := sent + CapReply(config, params);
    }

    method IrcAuthenticate(params: seq<string>)
      modifies this`sent
      ensures sent == old(sent) + AuthenticateReply(config, params)
    {
      if |params| >= 1 && params[0] == "+" && config.saslMechanism == SaslPlain {
        var payload := Sasl.Encode(Sasl.PlainMessage(config.authUsername, config.authPassword));
        sent := sent + [Line(AuthenticatePrefix + payload)];
      }
    }

    /** 903 (RPL_SASLSUCCESS): authenticated, end capability negotiation. */
    method Irc903()
      modifies this`saslAuthenticated, this`sent
      ensures saslAuthenticated
      ensures sent == old(sent) + [Line("CAP END")]
    {
      saslAuthenticated := true;
      sent := sent + [Line("CAP END")];
    }

    /** 904 (ERR_SASLFAIL): end capability negotiation, the flag stays as it was. */
    method Irc904()
      modifies this`sent
      ensures sent == old(sent) + [Line("CAP END")]
    {
      sent := sent + [Line("CAP END")];
    }

    /** `irc_001` ... `irc_005`, `irc_396`: one write of the numeric's text into its column. */
    method OnNumeric(n: Numeric, params: seq<string>)
      modifies this`store
      ensures store == old(store) + [RplWrite(config.id, RplType(n), RplText(n, params))]
    {
      var text := if |params| > 1 then (if JoinsParams(n) then Join(params[1..], " ") else params[1]) else "";
      store := store + [RplWrite(config.id, RplType(n), text)];
    }

    /** `signedOn`: NickServ identification, OPER, then a join for each auto-join channel. */
    method SignedOn(channels: seq<ChannelRecord>)
      modifies this`sent
      ensures sent == old(sent) + IdentifyMessages(config) + OperLines(config) + AutoJoinSends(channels, channels, joinedChannels)
    {
      if config.authMechanism == AuthNickServ {
        sent := sent + [Privmsg("NickServ", "IDENTIFY " + config.authUsername + " " + config.authPassword)];
      }
      if config.operAuth {
        sent := sent + [Line("OPER " + config.operUsername + " " + config.operPassword)];
      }
      ghost var before := sent;
      var i := 0;
      while i < |channels|
        invariant 0 <= i <= |channels|
        invariant sent == before + AutoJoinSends(channels, channels[..i], joinedChannels)
      {
        var ch := channels[i];
        AutoJoinSendsAppend(channels, channels[..i], [ch], joinedChannels);
        assert channels[..i + 1] == channels[..i] + [ch];
        if ch.autoJoin {
          JoinChannel(ById(ch.id), channels);
        }
        i := i + 1;
      }
      assert channels[..i] == channels;
    }

    /** `alterCollidedNick`: the next configured nickname. */
    method AlterCollidedNick(collided: string) returns (next: string)
      ensures next == GetNextNickname(config, collided)
      ensures config.nicknames != [] ==> next in config.nicknames
    {
      next := GetNextNickname(config, collided);
    }

    method Joined(channel: string)
      requires Valid()
      modifies this`joinedChannels
      ensures Valid()
      ensures joinedChannels == Added(old(joinedChannels), channel)
    {
      if channel !in joinedChannels {
        joinedChannels := joinedChannels + [channel];
      }
    }

    method Left(channel: string)
      requires Valid()
      modifies this`joinedChannels
      ensures Valid() && channel !in joinedChannels
      ensures joinedChannels == RemoveFirst(old(joinedChannels), channel)
    {
      RemoveFirstDistinct(joinedChannels, channel);
      if channel in joinedChannels {
        joinedChannels := RemoveFirst(joinedChannels, channel);
      }
    }

    /** The search loop of `join_channel`, `part_channel`: the first record the key matches. */
    static method Lookup(channels: seq<ChannelRecord>, key: ChannelKey) returns (found: Option<nat>)
      ensures found == FirstIndex(channels, key)
    {
      found := None;
      var i := 0;
      while i < |channels|
        invariant 0 <= i <= |channels|
        invariant forall j :: 0 <= j < i ==> !Matches(channels[j], key)
      {
        if Matches(channels[i], key) {
          found := Some(i);
          FirstIndexUnique(channels, key, i);
          return;
        }
        i := i + 1;
      }
    }

    /** `join_channel`. */
    method JoinChannel(key: ChannelKey, channels: seq<ChannelRecord>)
      modifies this`sent
      ensures sent == old(sent) + JoinSends(channels, key, joinedChannels)
    {
      var found := Lookup(channels, key);
      if found.None? {
        return;
      }
      var ch := channels[found.value];
      if ch.name in joinedChannels {
        return;
      }
      if DatabaseManager.TextTruthy(ch.password) {
        sent := sent + [JoinCommand(ch.name, ch.password)];
      } else {
        sent := sent + [JoinCommand(ch.name, None)];
      }
    }

    /** `part_channel`. */
    method PartChannel(id: int, channels: seq<ChannelRecord>)
      modifies this`sent
      ensures sent == old(sent) + PartSends(channels, id, joinedChannels)
    {
      var found := Lookup(channels, ById(id));
      if found.None? {
        return;
      }
      var ch := channels[found.value];
      if ch.name !in joinedChannels {
        return;
      }
      sent := sent + [Part(ch.name)];
    }

    /**
     * `join_channel_by_name`: `stored` is what the store holds under the first
     * word of the name.  A name of whitespace only raises IndexError (false).
     */
    method JoinChannelByName(name: string, saveToDb: bool, password: string, stored: Option<ChannelRecord>) returns (ok: bool)
      modifies this`sent, this`store
      ensures ok <==> !(name != "" && Words(name) == [])
      ensures name == "" || Words(name) == [] ==> sent == old(sent) && store == old(store)
      ensures name != "" && Words(name) != [] ==>
        var channel := Words(name)[0];
        var key := if stored.Some? && password == "" then stored.value.password else Some(password);
        if channel in old(joinedChannels) || (stored.None? && !saveToDb) then sent == old(sent) && store == old(store)
        else sent == old(sent) + [JoinFor(channel, key)] &&
             store == old(store) + (if saveToDb then [ChannelAdd(config.id, channel, key)] else [])
    {
      if name == "" {
        return true;
      }
      var words := Words(name);
      if words == [] {
        return false;
      }
      var channel := words[0];
      if channel in joinedChannels {
        return true;
      }
      if stored.None? && !saveToDb {
        return true;
      }
      var key := Some(password);
      if stored.Some? && password == "" {
        key := stored.value.password;
      }
      sent := sent + [JoinFor(channel, key)];
      if saveToDb {
        store := store + [ChannelAdd(config.id, channel, key)];
      }
      ok := true;
    }

    /**
     * `kickedFrom` as written: finds the auto-rejoin record by name, then
     * hands the NAME to the id-based `join_channel`, whose lookup never matches.
     */
    method KickedFromAsWritten(channel: string, channels: seq<ChannelRecord>)
      modifies this`sent
      ensures sent == old(sent) + KickRejoinAsWritten(channels, channel, joinedChannels)
    {
      var i := 0;
      while i < |channels|
        invariant 0 <= i <= |channels|
      {
        if channels[i].name == channel && channels[i].autoRejoin {
          JoinChannel(ByName(channel), channels);
          return;
        }
        i := i + 1;
      }
    }

    /**
     * `kickedFrom` as intended: the kick ends membership, and the first
     * auto-rejoin record of that name is joined again by its id.
     */
    method KickedFrom(channel: string, channels: seq<ChannelRecord>)
      requires Valid()
      modifies this`sent, this`joinedChannels
      ensures Valid()
      ensures joinedChannels == RemoveFirst(old(joinedChannels), channel)
      ensures sent == old(sent) + KickRejoin(channels, channel, joinedChannels)
    {
      Left(channel);
      var i := 0;
      while i < |channels|
        invariant 0 <= i <= |channels|
        invariant forall j :: 0 <= j < i ==> !RejoinRecord(channels[j], channel)
        invariant sent == old(sent)
      {
        if RejoinRecord(channels[i], channel) {
          FirstRejoinUnique(channels, channel, i);
          JoinChannel(ById(channels[i].id), channels);
          return;
        }
        i := i + 1;
      }
      FirstRejoinNone(channels, channel);
    }

    method TopicUpdated(channel: string, topic: string)
      modifies this`store
      ensures store == old(store) + [ChannelUpdate(config.id, channel, "last_topic", topic)]
    {
      store := store + [ChannelUpdate(config.id, channel, "last_topic", topic)];
    }

    method ModeChanged(channel: string, adding: bool, modes: string, args: seq<Option<string>>)
      modifies this`store
      ensures store == old(store) + [ChannelUpdate(config.id, channel, "last_modes", ModeString(adding, modes, args))]
    {
      var text := (if adding then "+" else "-") + modes;
      var present := [];
      var i := 0;
      while i < |args|
        invariant 0 <= i <= |args|
        invariant present == PresentArgs(args[..i])
        invariant store == old(store)
      {
        PresentArgsAppend(args[..i], [args[i]]);
        assert args[..i + 1] == args[..i] + [args[i]];
        if args[i].Some? {
          present := present + [args[i].value];
        }
        i := i + 1;
      }
      assert args[..i] == args;
      var suffix := if present == [] then "" else " " + Join(present, " ");
      text := text + suffix;
      assert text == ModeString(adding, modes, args);
      store := store + [ChannelUpdate(config.id, channel, "last_modes", text)];
    }

    /** `send_message`. */
    method SendMessage(target: string, message: string, prefixNick: Option<string>)
      modifies this`sent
      ensures sent == old(sent) + Privmsgs(target, Split(MessageText(message, prefixNick), "\n"))
    {
      var text := MessageText(message, prefixNick);
      var pieces := Split(text, "\n");
      var i := 0;
      while i < |pieces|
        invariant 0 <= i <= |pieces|
        invariant sent == old(sent) + Privmsgs(target, pieces[..i])
      {
        assert Privmsgs(target, pieces[..i + 1]) == Privmsgs(target, pieces[..i]) + [Privmsg(target, pieces[i])];
        sent := sent + [Privmsg(target, pieces[i])];
        i := i + 1;
      }
      assert pieces[..i] == pieces;
    }

    /** `_handle_command`. */
    method HandleCommand(target: string, nick: string, message: string, isPm: bool, prefix: string, known: set<string>)
      modifies this`sent, this`commands
      ensures match Decide(CommandLine(message, isPm, prefix), known)
        case Ignore => sent == old(sent) && commands == old(commands)
        case Reply(text) => sent == old(sent) + Privmsgs(target, Split(MessageText(text, Some(nick)), "\n")) && commands == old(commands)
        case Dispatch(command, args) => sent == old(sent) && commands == old(commands) + [CommandCall(command, target, nick, args)]
    {
      var line := CommandLine(message, isPm, prefix);
      var decision := Decide(line, known);
      match decision {
        case Ignore =>
        case Reply(text) =>
          SendMessage(target, text, Some(nick));
        case Dispatch(command, args) =>
          commands := commands + [CommandCall(command, target, nick, args)];
      }
    }

    /** `privmsg`: sender parsing, blank-message drop, PM detection, prefix resolution, gating. */
    method OnPrivmsg(user: string, channel: string, message: string, channels: seq<ChannelRecord>, known: set<string>)
      modifies this`sent, this`commands
      ensures ParseSender(user).None? || Strip(message) == "" ==> sent == old(sent) && commands == old(commands)
      ensures ParseSender(user).Some? && Strip(message) != "" ==>
        var nick := ParseSender(user).value.0;
        var isPm := channel == nickname;
        var prefix := if isPm then config.commandPrefix else ResolvePrefix(channels, channel, config.commandPrefix);
        if isPm || StartsWith(Strip(message), prefix) then
          match Decide(CommandLine(Strip(message), isPm, prefix), known)
          case Ignore => sent == old(sent) && commands == old(commands)
          case Reply(text) => sent == old(sent) + Privmsgs(if isPm then nick else channel, Split(MessageText(text, Some(nick)), "\n")) && commands == old(commands)
          case Dispatch(command, args) => sent == old(sent) && commands == old(commands) + [CommandCall(command, if isPm then nick else channel, nick, args)]
        else sent == old(sent) && commands == old(commands)
    {
      var sender := ParseSender(user);
      if sender.None? {
        return;
      }
      var nick := sender.value.0;
      var text := Strip(message);
      if text == "" {
        return;
      }
      var isPm := channel == nickname;
      var target := if isPm then nick else channel;
      var prefix := config.commandPrefix;
      if !isPm {
        var i := 0;
        while i < |channels|
          invariant 0 <= i <= |channels|
          invariant ResolvePrefix(channels[i..], channel, config.commandPrefix) == ResolvePrefix(channels, channel, config.commandPrefix)
        {
          if channels[i].name == channel && DatabaseManager.TextTruthy(channels[i].commandPrefix) {
            prefix := channels[i].commandPrefix.value;
            break;
          }
          assert channels[i..][1..] == channels[i + 1..];
          i := i + 1;
        }
        assert i == |channels| ==> channels[i..] == [];
      }
      if isPm || StartsWith(text, prefix) {
        HandleCommand(target, nick, text, isPm, prefix, known);
      }
    }
  }

  /** What `kickedFrom` sends as written: nothing, whatever the store holds. */
  function KickRejoinAsWritten(channels: seq<ChannelRecord>, channel: string, joined: seq<string>): seq<Outbound> {
    []
  }

  predicate RejoinRecord(ch: ChannelRecord, channel: string) {
    ch.name == channel && ch.autoRejoin
  }

  /** The first auto-rejoin record of that name. */
  function FirstRejoin(channels: seq<ChannelRecord>, channel: string): (r: Option<nat>)
    ensures r.Some? ==> r.value < |channels| && RejoinRecord(channels[r.value], channel)
    ensures r.Some? ==> forall j :: 0 <= j < r.value ==> !RejoinRecord(channels[j], channel)
    ensures r.None? ==> forall j :: 0 <= j < |channels| ==> !RejoinRecord(channels[j], channel)
    decreases |channels|
  {
    if channels == [] then None
    else if RejoinRecord(channels[0], channel) then Some(0)
    else match FirstRejoin(channels[1..], channel)
      case None => None
      case Some(i) => Some(i + 1)
  }

  lemma FirstRejoinUnique(channels: seq<ChannelRecord>, channel: string, i: nat)
    requires i < |channels| && RejoinRecord(channels[i], channel)
    requires forall j :: 0 <= j < i ==> !RejoinRecord(channels[j], channel)
    ensures FirstRejoin(channels, channel) == Some(i)
  {
  }

  lemma FirstRejoinNone(channels: seq<ChannelRecord>, channel: string)
    requires forall j :: 0 <= j < |channels| ==> !RejoinRecord(channels[j], channel)
    ensures FirstRejoin(channels, channel) == None
  {
  }

  /** What the corrected `kickedFrom` sends, given the membership after the kick. */
  function KickRejoin(channels: seq<ChannelRecord>, channel: string, joined: seq<string>): seq<Outbound> {
    match FirstRejoin(channels, channel)
    case None => []
    case Some(i) => JoinSends(channels, ById(channels[i].id), joined)
  }

  /**
   * As written, a kick never produces a JOIN, even from a channel whose only
   * record asks for auto-rejoin: the name is compared with integer ids.
   */
  lemma KickNeverRejoins(channel: string, record: ChannelRecord, joined: seq<string>)
    requires record.name == channel && record.autoRejoin && channel !in joined
    ensures JoinSends([record], ByName(channel), joined) == []
    ensures KickRejoinAsWritten([record], channel, joined) == []
  {
  }

  /**
   * Corrected, that kick sends exactly one JOIN for the channel, with the
   * stored key when it has one.
   */
  lemma KickRejoinsOnce(channel: string, record: ChannelRecord, joined: seq<string>)
    requires record.name == channel && record.autoRejoin && channel !in joined
    ensures KickRejoin([record], channel, joined) == [JoinFor(channel, record.password)]
  {
    FirstRejoinUnique([record], channel, 0);
    FirstIndexUnique([record], ById(record.id), 0);
  }

  lemma PresentArgsAppend(a: seq<Option<string>>, b: seq<Option<string>>)
    ensures PresentArgs(a + b) == PresentArgs(a) + PresentArgs(b)
    decreases |a|
  {
    if a == [] {
      assert a + b == b;
    } else {
      assert (a + b)[1..] == a[1..] + b;
      PresentArgsAppend(a[1..], b);
    }
  }
}
