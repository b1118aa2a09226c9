/**
 * The `channel` command of plugins/channel/init.py: the sentence naming the
 * bot's channels, the subcommand dispatch, the search for a channel id across
 * the stored networks, the listing sorted by id, and the handlers that join,
 * part, cycle, describe, add, remove and modify stored channels.
 */
module ChannelPlugin {
  import opened Wrappers
  import opened Text
  import DatabaseManager
  import NetworkOptions

  type Opt = NetworkOptions.Opt
  type Channel = DatabaseManager.ChannelRecord

  // ---------------------------------------------------------------------------
  // format_channel_list

  const NotInAny := "I am not in any channels on this IRC network."

  function Plural(total: int): string {
    if total != 1 then "s" else ""
  }

  /** The closing clause of the sentence for several channels. */
  function Total(n: int): string {
    "a total of " + IntToString(n) + " channel" + Plural(n) + "."
  }

  /** `format_channel_list`. */
  function ChannelList(channels: seq<string>): string {
    if channels == [] then NotInAny
    else if |channels| == 1 then "I am just in " + channels[0] + " on this IRC network."
    else
      var n := |channels|;
      "I am in " + Join(channels[..n - 1], ", ") + " and " + channels[n - 1] + " on this IRC network, " + Total(n)
  }

  /** The three sentences are told apart by how they start. */
  lemma ChannelListShape(channels: seq<string>)
    ensures channels == [] <==> ChannelList(channels) == NotInAny
    ensures |channels| == 1 <==> StartsWith(ChannelList(channels), "I am just in ")
    ensures |channels| >= 2 <==> StartsWith(ChannelList(channels), "I am in ")
  {
    var r := ChannelList(channels);
    assert NotInAny[5] == 'n';
    assert "I am just in "[5] == 'j';
    assert "I am in "[5] == 'i';
    if |channels| == 1 {
      assert r[..13] == "I am just in ";
    } else if |channels| >= 2 {
      assert r[..8] == "I am in ";
    }
  }

  /** Several channels end in their count, always in the plural. */
  lemma ChannelListTotal(channels: seq<string>)
    requires |channels| >= 2
    ensures EndsWith(ChannelList(channels), "a total of " + IntToString(|channels|) + " channels.")
  {
    var n := |channels|;
    var head := "I am in " + Join(channels[..n - 1], ", ") + " and " + channels[n - 1] + " on this IRC network, ";
    assert Total(n) == "a total of " + IntToString(n) + " channels.";
    assert ChannelList(channels) == head + Total(n);
  }

  /** Every channel is named in the sentence. */
  lemma ChannelListMentions(channels: seq<string>, k: nat)
    requires k < |channels|
    ensures Contains(ChannelList(channels), channels[k])
  {
    var n := |channels|;
    if n == 1 {
      ContainsInfix("I am just in ", channels[0], " on this IRC network.");
    } else {
      var init := channels[..n - 1];
      var all := Join(init, ", ");
      var tail := " on this IRC network, ";
      if k == n - 1 {
        ContainsInfix("I am in " + all + " and ", channels[k], tail);
        ContainsPrefix("I am in " + all + " and " + channels[k] + tail, Total(n), channels[k]);
      } else {
        JoinContains(init, ", ", k);
        assert init[k] == channels[k];
        ContainsSuffix("I am in ", all, channels[k]);
        ContainsPrefix("I am in " + all, " and ", channels[k]);
        ContainsPrefix("I am in " + all + " and ", channels[n - 1], channels[k]);
        ContainsPrefix("I am in " + all + " and " + channels[n - 1], tail, channels[k]);
        ContainsPrefix("I am in " + all + " and " + channels[n - 1] + tail, Total(n), channels[k]);
      }
    }
  }

  // ---------------------------------------------------------------------------
  // What one command sees

  /** A row of `get_networks`, with the rows `get_channels(network.id)` returns for it. */
  datatype StoredNetwork = StoredNetwork(id: int, name: string, channels: seq<Channel>)

  /** What the bot, the network manager and the database answer during one command. */
  datatype Answers = Answers(
    networks: seq<StoredNetwork>,    // get_networks(), each with its get_channels(...)
    currentId: int,                  // bot.factory.config.id
    joined: seq<string>,             // bot.joined_channels
    manager: bool,                   // bot.factory.network_manager is set
    sessions: map<int, seq<string>>, // joined_channels of every network whose factory has a protocol
    added: bool,                     // add_channel
    removed: bool,                   // remove_channel
    rowsMatched: bool)               // the UPDATE of update_channel changed a row

  /** A row for `add_channel`. */
  datatype NewChannel = NewChannel(
    networkId: int, name: string, password: string,
    autoJoin: bool, autoRejoin: bool, enableLogging: bool, commandPrefix: Option<string>)

  datatype PyException = UnboundLocalError | AttributeError

  datatype Effect =
    | Reply(text: string)
    | InvalidValue(literal: string) // "Error: invalid value: " and the message of `int(literal)`
    | Raised(error: PyException)    // the handler stops with an uncaught exception
    | JoinChannel(id: int)          // bot.join_channel(id, save_to_db=False)
    | PartChannel(id: int)          // bot.part_channel(id, save_to_db=False)
    | AddChannel(row: NewChannel)
    | RemoveChannel(networkId: int, channelId: int)
    | UpdateChannel(networkId: int, name: string, updates: seq<(string, DatabaseManager.PyValue)>)
    | Leave(name: string)                         // bot.leave on this network
    | LeaveElsewhere(networkId: int, name: string) // protocol.leave on another network's session

  /** `name in protocol.joined_channels` for the live session of network `id`. */
  predicate JoinedVia(ans: Answers, id: int, name: string) {
    ans.manager && id in ans.sessions && name in ans.sessions[id]
  }

  function JoinedWord(joined: bool): string {
    if joined then "Joined" else "Not joined"
  }

  function YesNo(b: bool): string {
    if b then "Yes" else "No"
  }

  // ---------------------------------------------------------------------------
  // The search shared by cycle, info, remove and modify

  /** The loop condition; `cycle` also asks that the row's network id is the network's. */
  predicate Matches(n: StoredNetwork, ch: Channel, id: int, sameNetwork: bool) {
    ch.id == id && (!sameNetwork || ch.networkId == n.id)
  }

  /** The first matching channel of `n` at index `j` or later. */
  function FirstIn(n: StoredNetwork, id: int, sameNetwork: bool, j: nat): (r: Option<nat>)
    ensures r.Some? ==> j <= r.value < |n.channels|
    decreases |n.channels| - j
  {
    if j >= |n.channels| then None
    else if Matches(n, n.channels[j], id, sameNetwork) then Some(j)
    else FirstIn(n, id, sameNetwork, j + 1)
  }

  /** The first (network, channel) position in network `i` or later. */
  function FirstFrom(networks: seq<StoredNetwork>, id: int, sameNetwork: bool, i: nat): (r: Option<(nat, nat)>)
    ensures r.Some? ==> i <= r.value.0 < |networks| && r.value.1 < |networks[r.value.0].channels|
    decreases |networks| - i
  {
    if i >= |networks| then None
    else match FirstIn(networks[i], id, sameNetwork, 0)
      case Some(j) => Some((i, j))
      case None => FirstFrom(networks, id, sameNetwork, i + 1)
  }

  /** Where the nested loops stop: the first match, networks in order, then channels in order. */
  function Search(networks: seq<StoredNetwork>, id: int, sameNetwork: bool): (r: Option<(nat, nat)>)
    ensures r.Some? ==> r.value.0 < |networks| && r.value.1 < |networks[r.value.0].channels|
  {
    FirstFrom(networks, id, sameNetwork, 0)
  }

  /** The network and the channel the search finds. */
  function Located(networks: seq<StoredNetwork>, id: int, sameNetwork: bool): Option<(StoredNetwork, Channel)> {
    match Search(networks, id, sameNetwork)
    case None => None
    case Some((i, j)) => Some((networks[i], networks[i].channels[j]))
  }

  /** No channel of `n` before index `hi` matches. */
  predicate NoneIn(n: StoredNetwork, id: int, sameNetwork: bool, lo: nat, hi: nat)
    requires hi <= |n.channels|
  {
    forall k :: lo <= k < hi ==> !Matches(n, n.channels[k], id, sameNetwork)
  }

  /** No channel of the networks `lo` to `hi` matches. */
  predicate NoneBefore(networks: seq<StoredNetwork>, id: int, sameNetwork: bool, lo: nat, hi: nat)
    requires hi <= |networks|
  {
    forall i :: lo <= i < hi ==> NoneIn(networks[i], id, sameNetwork, 0, |networks[i].channels|)
  }

  lemma {:induction false} FirstInIsFirst(n: StoredNetwork, id: int, sameNetwork: bool, j: nat)
    requires j <= |n.channels|
    ensures FirstIn(n, id, sameNetwork, j).None? <==> NoneIn(n, id, sameNetwork, j, |n.channels|)
    ensures FirstIn(n, id, sameNetwork, j).Some? ==>
      var k := FirstIn(n, id, sameNetwork, j).value;
      Matches(n, n.channels[k], id, sameNetwork) && NoneIn(n, id, sameNetwork, j, k)
    decreases |n.channels| - j
  {
    if j < |n.channels| && !Matches(n, n.channels[j], id, sameNetwork) {
      FirstInIsFirst(n, id, sameNetwork, j + 1);
    }
  }

  lemma {:induction false} FirstFromIsFirst(networks: seq<StoredNetwork>, id: int, sameNetwork: bool, i: nat)
    requires i <= |networks|
    ensures FirstFrom(networks, id, sameNetwork, i).None? <==> NoneBefore(networks, id, sameNetwork, i, |networks|)
    ensures FirstFrom(networks, id, sameNetwork, i).Some? ==>
      var (a, b) := FirstFrom(networks, id, sameNetwork, i).value;
      Matches(networks[a], networks[a].channels[b], id, sameNetwork) &&
      NoneBefore(networks, id, sameNetwork, i, a) && NoneIn(networks[a], id, sameNetwork, 0, b)
    decreases |networks| - i
  {
    if i < |networks| {
      FirstInIsFirst(networks[i], id, sameNetwork, 0);
      if FirstIn(networks[i], id, sameNetwork, 0).None? {
        FirstFromIsFirst(networks, id, sameNetwork, i + 1);
      }
    }
  }

  /**
   * The search finds a channel exactly when one matches, and the one it finds
   * is the first: no channel of an earlier network and no earlier channel of
   * its own network matches.
   */
  lemma SearchIsFirst(networks: seq<StoredNetwork>, id: int, sameNetwork: bool)
    ensures Search(networks, id, sameNetwork).None? <==>
      forall i, j :: 0 <= i < |networks| && 0 <= j < |networks[i].channels| ==>
        !Matches(networks[i], networks[i].channels[j], id, sameNetwork)
    ensures Search(networks, id, sameNetwork).Some? ==>
      var (a, b) := Search(networks, id, sameNetwork).value;
      Matches(networks[a], networks[a].channels[b], id, sameNetwork) &&
      (forall i, j :: 0 <= i < a && 0 <= j < |networks[i].channels| ==>
        !Matches(networks[i], networks[i].channels[j], id, sameNetwork)) &&
      (forall j :: 0 <= j < b ==> !Matches(networks[a], networks[a].channels[j], id, sameNetwork))
  {
    FirstFromIsFirst(networks, id, sameNetwork, 0);
    var r := Search(networks, id, sameNetwork);
    if r.None? {
      forall i, j | 0 <= i < |networks| && 0 <= j < |networks[i].channels|
        ensures !Matches(networks[i], networks[i].channels[j], id, sameNetwork)
      {
        assert NoneIn(networks[i], id, sameNetwork, 0, |networks[i].channels|);
      }
    } else {
      var (a, b) := r.value;
      forall i, j | 0 <= i < a && 0 <= j < |networks[i].channels|
        ensures !Matches(networks[i], networks[i].channels[j], id, sameNetwork)
      {
        assert NoneIn(networks[i], id, sameNetwork, 0, |networks[i].channels|);
      }
    }
  }

  /** The nested `for` loops with their two `break`s. */
  method FindChannel(networks: seq<StoredNetwork>, id: int, sameNetwork: bool)
    returns (found: Option<(StoredNetwork, Channel)>)
    ensures found == Located(networks, id, sameNetwork)
  {
    found := None;
    var i := 0;
    while i < |networks|
      invariant 0 <= i <= |networks|
      invariant found == None
      invariant FirstFrom(networks, id, sameNetwork, i) == Search(networks, id, sameNetwork)
    {
      var network := networks[i];
      var channels := network.channels;
      var j := 0;
      while j < |channels|
        invariant 0 <= j <= |channels|
        invariant found == None
        invariant FirstIn(network, id, sameNetwork, j) == FirstIn(network, id, sameNetwork, 0)
      {
        var ch := channels[j];
        if ch.id == id && (!sameNetwork || ch.networkId == network.id) {
          found := Some((network, ch));
          break;
        }
        j := j + 1;
      }
      if found.Some? {
        break;
      }
      i := i + 1;
    }
  }

  // ---------------------------------------------------------------------------
  // join, part, cycle

  /** `int(args[0])`, where a missing and a malformed id both get the usage line. */
  function IdOrUsage(args: seq<string>, usage: string): (r: Result<int, string>)
    ensures r.Ok? <==> args != [] && ParseInt(args[0]).Some?
    ensures r.Ok? ==> r.value == ParseInt(args[0]).value
    ensures r.Err? ==> r.error == usage
  {
    if args == [] then Err(usage)
    else match ParseInt(args[0])
      case None => Err(usage)
      case Some(id) => Ok(id)
  }

  /** The acknowledgement of a join or a part of channel `id`. */
  function Acknowledge(verb: string, id: int): string {
    "Success: " + verb + " channel ID '" + IntToString(id) + "'"
  }

  /** `handle_join`. */
  function JoinById(args: seq<string>): seq<Effect> {
    match IdOrUsage(args, "Usage: channel join <channel_id>")
    case Err(usage) => [Reply(usage)]
    case Ok(id) => [JoinChannel(id), Reply(Acknowledge("joining", id))]
  }

  /** `handle_part` as written: it reports the part with the words of a join. */
  function PartAsWritten(args: seq<string>): seq<Effect> {
    match IdOrUsage(args, "Usage: channel part <channel_id>")
    case Err(usage) => [Reply(usage)]
    case Ok(id) => [PartChannel(id), Reply(Acknowledge("joining", id))]
  }

  /** `handle_part` with the reply it evidently means. */
  function PartById(args: seq<string>): seq<Effect> {
    match IdOrUsage(args, "Usage: channel part <channel_id>")
    case Err(usage) => [Reply(usage)]
    case Ok(id) => [PartChannel(id), Reply(Acknowledge("parting", id))]
  }

  /** As written, a part is acknowledged with exactly the reply a join of the same id gets. */
  lemma PartReplyAsWritten(args: seq<string>)
    requires args != [] && ParseInt(args[0]).Some?
    ensures PartAsWritten(args) == [PartChannel(ParseInt(args[0]).value), JoinById(args)[1]]
  {
  }

  /** An acknowledgement names its verb. */
  lemma VerbShown(verb: string, number: string)
    ensures Contains("Success: " + verb + " channel ID '" + number + "'", verb)
  {
    ContainsEnd("Success: ", verb);
    ContainsPrefix("Success: " + verb, " channel ID '", verb);
    ContainsPrefix("Success: " + verb + " channel ID '", number, verb);
    ContainsPrefix("Success: " + verb + " channel ID '" + number, "'", verb);
  }

  /** Two verbs of one length give two different acknowledgements. */
  lemma VerbsDiffer(verb: string, other: string, number: string)
    requires |verb| == |other| && verb != other
    ensures "Success: " + verb + " channel ID '" + number + "'" != "Success: " + other + " channel ID '" + number + "'"
  {
    var text := "Success: " + verb + " channel ID '" + number + "'";
    var alt := "Success: " + other + " channel ID '" + number + "'";
    assert text[9..9 + |verb|] == ("Success: " + verb)[9..];
    assert alt[9..9 + |verb|] == ("Success: " + other)[9..];
  }

  /** Corrected, the reply to a part names a part and differs from the reply to a join. */
  lemma PartReplyCorrected(args: seq<string>)
    requires args != [] && ParseInt(args[0]).Some?
    ensures PartById(args)[0] == PartChannel(ParseInt(args[0]).value)
    ensures PartById(args)[1].Reply? && Contains(PartById(args)[1].text, "parting")
    ensures PartById(args)[1] != JoinById(args)[1]
  {
    VerbShown("parting", IntToString(ParseInt(args[0]).value));
    VerbsDiffer("parting", "joining", IntToString(ParseInt(args[0]).value));
  }

  function CycleUsage(): string {
    "Usage: channel cycle <channel_id>"
  }

  /** What `handle_cycle` does once it holds an id. */
  function CycleId(id: int, ans: Answers): seq<Effect> {
    if Located(ans.networks, id, true).None? then
      [Reply("Error channel ID '" + IntToString(id) + "' not found in database")]
    else
      [Reply("Success: channel ID '" + IntToString(id) + "' cycled"), PartChannel(id), JoinChannel(id)]
  }

  /**
   * `handle_cycle` as written: without arguments `channel_id` is never bound,
   * and the search (or the not-found reply) reads it.
   */
  function CycleAsWritten(args: seq<string>, ans: Answers): seq<Effect> {
    if args == [] then [Raised(UnboundLocalError)]
    else match ParseInt(args[0])
      case None => [Reply(CycleUsage())]
      case Some(id) => CycleId(id, ans)
  }

  /** `handle_cycle` with the usage line for a missing id, as join and part have. */
  function Cycle(args: seq<string>, ans: Answers): seq<Effect> {
    match IdOrUsage(args, CycleUsage())
    case Err(usage) => [Reply(usage)]
    case Ok(id) => CycleId(id, ans)
  }

  /** As written, `channel cycle` with no id ends in an exception; corrected, it gets the usage line. */
  lemma CycleWithoutId(ans: Answers)
    ensures CycleAsWritten([], ans) == [Raised(UnboundLocalError)]
    ensures Cycle([], ans) == [Reply(CycleUsage())]
  {
  }

  /** With an id the two agree; a cycle parts and rejoins exactly a channel stored under its own network. */
  lemma CycleParts(args: seq<string>, ans: Answers)
    requires args != []
    ensures Cycle(args, ans) == CycleAsWritten(args, ans)
    ensures PartChannel(ParseInt(args[0]).GetOr(0)) in Cycle(args, ans) <==>
      ParseInt(args[0]).Some? &&
      exists i, j :: 0 <= i < |ans.networks| && 0 <= j < |ans.networks[i].channels| &&
        ans.networks[i].channels[j].id == ParseInt(args[0]).value &&
        ans.networks[i].channels[j].networkId == ans.networks[i].id
    ensures |Cycle(args, ans)| == 3 ==>
      Cycle(args, ans)[1] == PartChannel(ParseInt(args[0]).value) && Cycle(args, ans)[2] == JoinChannel(ParseInt(args[0]).value)
  {
    if ParseInt(args[0]).Some? {
      var id := ParseInt(args[0]).value;
      SearchIsFirst(ans.networks, id, true);
      if Search(ans.networks, id, true).Some? {
        var (a, b) := Search(ans.networks, id, true).value;
        assert Matches(ans.networks[a], ans.networks[a].channels[b], id, true);
      } else {
        var e := "Error channel ID '" + IntToString(id) + "' not found in database";
        assert Cycle(args, ans) == [Reply(e)];
        if exists i, j :: (0 <= i < |ans.networks| && 0 <= j < |ans.networks[i].channels| &&
          ans.networks[i].channels[j].id == id && ans.networks[i].channels[j].networkId == ans.networks[i].id)
        {
          var i, j :| 0 <= i < |ans.networks| && 0 <= j < |ans.networks[i].channels| &&
            ans.networks[i].channels[j].id == id && ans.networks[i].channels[j].networkId == ans.networks[i].id;
          assert Matches(ans.networks[i], ans.networks[i].channels[j], id, true);
        }
      }
    }
  }

  method HandleCycle(args: seq<string>, ans: Answers) returns (effects: seq<Effect>)
    ensures effects == Cycle(args, ans)
  {
    if args == [] {
      return [Reply(CycleUsage())];
    }
    var parsed := ParseInt(args[0]);
    if parsed.None? {
      return [Reply(CycleUsage())];
    }
    var id := parsed.value;
    var found := FindChannel(ans.networks, id, true);
    if found.None? {
      effects := [Reply("Error channel ID '" + IntToString(id) + "' not found in database")];
    } else {
      effects := [Reply("Success: channel ID '" + IntToString(id) + "' cycled"), PartChannel(id), JoinChannel(id)];
    }
  }

  // ---------------------------------------------------------------------------
  // list

  /** One element of `all_channels`. */
  datatype Entry = Entry(id: int, name: string, networkId: int, networkName: string, joined: bool)

  function EntryOf(n: StoredNetwork, ch: Channel, ans: Answers): Entry {
    Entry(ch.id, ch.name, n.id, n.name, JoinedVia(ans, n.id, ch.name))
  }

  /** The entries the inner loop appends for one network. */
  function NetworkEntries(n: StoredNetwork, ans: Answers): (r: seq<Entry>)
    ensures |r| == |n.channels|
    ensures forall k :: 0 <= k < |r| ==> r[k] == EntryOf(n, n.channels[k], ans)
  {
    seq(|n.channels|, k requires 0 <= k < |n.channels| => EntryOf(n, n.channels[k], ans))
  }

  /** `all_channels` once the outer loop has seen `networks`. */
  function AllEntries(networks: seq<StoredNetwork>, ans: Answers): seq<Entry>
    decreases |networks|
  {
    if networks == [] then []
    else AllEntries(networks[..|networks| - 1], ans) + NetworkEntries(networks[|networks| - 1], ans)
  }

  /** Every entry is a stored channel's. */
  lemma {:induction false} AllEntriesSound(networks: seq<StoredNetwork>, ans: Answers, e: Entry)
    requires e in AllEntries(networks, ans)
    ensures exists i, j ::
              0 <= i < |networks| && 0 <= j < |networks[i].channels| &&
              e == EntryOf(networks[i], networks[i].channels[j], ans)
    decreases |networks|
  {
    var m := |networks| - 1;
    var init := networks[..m];
    if e in AllEntries(init, ans) {
      AllEntriesSound(init, ans, e);
      var i, j :| 0 <= i < |init| && 0 <= j < |init[i].channels| && e == EntryOf(init[i], init[i].channels[j], ans);
      assert networks[i] == init[i];
    } else {
      var last := NetworkEntries(networks[m], ans);
      var j :| 0 <= j < |last| && last[j] == e;
      assert e == EntryOf(networks[m], networks[m].channels[j], ans);
    }
  }

  /** Every stored channel has its entry. */
  lemma {:induction false} AllEntriesComplete(networks: seq<StoredNetwork>, ans: Answers, i: nat, j: nat)
    requires i < |networks| && j < |networks[i].channels|
    ensures EntryOf(networks[i], networks[i].channels[j], ans) in AllEntries(networks, ans)
    decreases |networks|
  {
    var m := |networks| - 1;
    if i < m {
      var init := networks[..m];
      assert init[i] == networks[i];
      AllEntriesComplete(init, ans, i, j);
    } else {
      assert NetworkEntries(networks[m], ans)[j] == EntryOf(networks[i], networks[i].channels[j], ans);
    }
  }

  /** The loops that collect `all_channels`. */
  method CollectEntries(networks: seq<StoredNetwork>, ans: Answers) returns (entries: seq<Entry>)
    ensures entries == AllEntries(networks, ans)
  {
    entries := [];
    var i := 0;
    while i < |networks|
      invariant 0 <= i <= |networks|
      invariant entries == AllEntries(networks[..i], ans)
    {
      var network := networks[i];
      var j := 0;
      while j < |network.channels|
        invariant 0 <= j <= |network.channels|
        invariant entries == AllEntries(networks[..i], ans) + NetworkEntries(network, ans)[..j]
      {
        var ch := network.channels[j];
        var joined := false;
        if ans.manager && network.id in ans.sessions {
          joined := ch.name in ans.sessions[network.id];
        }
        entries := entries + [Entry(ch.id, ch.name, network.id, network.name, joined)];
        assert NetworkEntries(network, ans)[..j + 1] == NetworkEntries(network, ans)[..j] + [EntryOf(network, ch, ans)];
        j := j + 1;
      }
      assert networks[..i + 1][..i] == networks[..i];
      assert NetworkEntries(network, ans)[..j] == NetworkEntries(network, ans);
      i := i + 1;
    }
    assert networks[..i] == networks;
  }

  predicate SortedById(es: seq<Entry>) {
    forall a, b :: 0 <= a < b < |es| ==> es[a].id <= es[b].id
  }

  /** Inserts `e` after every entry whose id is not larger, which keeps equal ids in order. */
  function Insert(e: Entry, es: seq<Entry>): (r: seq<Entry>)
    ensures multiset(r) == multiset(es) + multiset{e}
    ensures |r| == |es| + 1
    ensures forall k :: 0 <= k < |r| ==> r[k] == e || r[k] in es
    decreases |es|
  {
    if es == [] then [e]
    else if e.id < es[0].id then [e] + es
    else
      var rest := Insert(e, es[1..]);
      assert es == [es[0]] + es[1..];
      [es[0]] + rest
  }

  lemma {:induction false} InsertSorted(e: Entry, es: seq<Entry>)
    requires SortedById(es)
    ensures SortedById(Insert(e, es))
    decreases |es|
  {
    if es != [] && e.id >= es[0].id {
      InsertSorted(e, es[1..]);
      var r := Insert(e, es);
      forall k | 0 < k < |r| ensures es[0].id <= r[k].id {
        assert r[k] == e || r[k] in es[1..];
      }
    }
  }

  /** `sorted(parts, key=lambda part: part['id'])`, a stable sort. */
  function SortById(es: seq<Entry>): (r: seq<Entry>)
    decreases |es|
  {
    if es == [] then [] else Insert(es[|es| - 1], SortById(es[..|es| - 1]))
  }

  /** The sort orders by id. */
  lemma {:induction false} SortByIdSorts(es: seq<Entry>)
    ensures SortedById(SortById(es))
    decreases |es|
  {
    if es != [] {
      var init := es[..|es| - 1];
      SortByIdSorts(init);
      InsertSorted(es[|es| - 1], SortById(init));
    }
  }

  /** The sort keeps every entry, as often as it occurs. */
  lemma {:induction false} SortByIdPermutes(es: seq<Entry>)
    ensures multiset(SortById(es)) == multiset(es)
    decreases |es|
  {
    if es != [] {
      var init := es[..|es| - 1];
      SortByIdPermutes(init);
      assert es == init + [es[|es| - 1]];
    }
  }

  /** One element of `formatted_parts`. */
  function EntryText(e: Entry): string {
    "[ ID: " + IntToString(e.id) + ", Name: " + e.name + ", Network ID: " + IntToString(e.networkId)
      + ", Status: " + JoinedWord(e.joined) + " ]"
  }

  function EntryTexts(es: seq<Entry>): (r: seq<string>)
    ensures |r| == |es|
    ensures forall k :: 0 <= k < |es| ==> r[k] == EntryText(es[k])
  {
    seq(|es|, k requires 0 <= k < |es| => EntryText(es[k]))
  }

  function Listing(entries: seq<Entry>): string {
    Join(EntryTexts(SortById(entries)), " -- ")
  }

  /** `handle_list`. */
  function List(ans: Answers): seq<Effect> {
    if ans.networks == [] then [Reply("No networks configured")]
    else
      var entries := AllEntries(ans.networks, ans);
      if entries == [] then [Reply("No channels configured in database")]
      else [Reply(Listing(entries))]
  }

  method HandleList(ans: Answers) returns (effects: seq<Effect>)
    ensures effects == List(ans)
  {
    if ans.networks == [] {
      return [Reply("No networks configured")];
    }
    var entries := CollectEntries(ans.networks, ans);
    if entries == [] {
      return [Reply("No channels configured in database")];
    }
    effects := [Reply(Listing(entries))];
  }

  /** An entry is "Joined" exactly when its own network's session has joined its name. */
  lemma ListJoinedStatus(ans: Answers, e: Entry)
    requires e in AllEntries(ans.networks, ans)
    ensures e.joined <==> JoinedVia(ans, e.networkId, e.name)
  {
    AllEntriesSound(ans.networks, ans, e);
  }

  /** The listing names every stored channel, with its status, in the order of the ids. */
  lemma ListMentionsEvery(ans: Answers, i: nat, j: nat)
    requires i < |ans.networks| && j < |ans.networks[i].channels|
    ensures var e := EntryOf(ans.networks[i], ans.networks[i].channels[j], ans);
      |List(ans)| == 1 && List(ans)[0].Reply? && Contains(List(ans)[0].text, EntryText(e))
    ensures SortedById(SortById(AllEntries(ans.networks, ans)))
  {
    var entries := AllEntries(ans.networks, ans);
    var e := EntryOf(ans.networks[i], ans.networks[i].channels[j], ans);
    AllEntriesComplete(ans.networks, ans, i, j);
    SortByIdSorts(entries);
    SortByIdPermutes(entries);
    var sorted := SortById(entries);
    assert e in multiset(sorted);
    var k :| 0 <= k < |sorted| && sorted[k] == e;
    JoinContains(EntryTexts(sorted), " -- ", k);
  }

  // ---------------------------------------------------------------------------
  // info

  /** `int(args[0])`, where a malformed id is named in the reply. */
  function ChannelId(args: seq<string>, usage: string): (r: Result<int, string>)
    ensures r.Ok? <==> args != [] && ParseInt(args[0]).Some?
    ensures r.Ok? ==> r.value == ParseInt(args[0]).value
  {
    if args == [] then Err(usage)
    else match ParseInt(args[0])
      case None => Err("Error: invalid channel ID: " + args[0])
      case Some(id) => Ok(id)
  }

  /** The status `handle_info` reports. */
  function InfoStatus(n: StoredNetwork, name: string, ans: Answers): string {
    if n.id == ans.currentId then JoinedWord(name in ans.joined)
    else if !ans.manager then "Unknown"
    else if n.id in ans.sessions then JoinedWord(name in ans.sessions[n.id])
    else "Network not connected"
  }

  /** `parts.append(title + value)` when the column is truthy. */
  function OptionalText(title: string, v: Option<string>): seq<string> {
    Optional(DatabaseManager.TextTruthy(v), title + v.GetOr(""))
  }

  function InfoParts(n: StoredNetwork, ch: Channel, ans: Answers): seq<string> {
    ["ID: " + IntToString(ch.id),
     "Name: " + ch.name,
     "Network ID: " + IntToString(n.id),
     "Status: " + InfoStatus(n, ch.name, ans),
     "Auto-Join: " + YesNo(ch.autoJoin),
     "Auto-Rejoin: " + YesNo(ch.autoRejoin),
     "Logging: " + YesNo(ch.enableLogging)]
    + OptionalText("Command Prefix: ", ch.commandPrefix)
    + OptionalText("Last Topic: ", ch.lastTopic)
    + OptionalText("Last Modes: ", ch.lastModes)
  }

  /** `handle_info`. */
  function Info(args: seq<string>, ans: Answers): seq<Effect> {
    match ChannelId(args, "Usage: channel info <channel_id>")
    case Err(text) => [Reply(text)]
    case Ok(id) =>
      match Located(ans.networks, id, false)
      case None => [Reply("Error: channel ID " + IntToString(id) + " not found in database")]
      case Some((n, ch)) => [Reply(Join(InfoParts(n, ch, ans), ", "))]
  }

  /**
   * The status is "Joined" exactly when the bot's own session has the channel
   * (for this network) or the network's live session has it (for another one);
   * without a manager another network's channel is "Unknown", and without a
   * session it is "Network not connected".
   */
  lemma InfoStatusMeaning(n: StoredNetwork, name: string, ans: Answers)
    ensures InfoStatus(n, name, ans) == "Joined" <==>
      if n.id == ans.currentId then name in ans.joined else JoinedVia(ans, n.id, name)
    ensures InfoStatus(n, name, ans) == "Unknown" <==> n.id != ans.currentId && !ans.manager
    ensures InfoStatus(n, name, ans) == "Network not connected" <==>
      n.id != ans.currentId && ans.manager && n.id !in ans.sessions
  {
  }

  /** For a connected network other than this one, `info` and `list` agree on the status. */
  lemma InfoAgreesWithList(n: StoredNetwork, ch: Channel, ans: Answers)
    requires n.id != ans.currentId && ans.manager && n.id in ans.sessions
    ensures InfoStatus(n, ch.name, ans) == JoinedWord(EntryOf(n, ch, ans).joined)
  {
  }

  /** Seven fields always, then one per truthy optional column. */
  lemma InfoPartsCount(n: StoredNetwork, ch: Channel, ans: Answers)
    ensures |InfoParts(n, ch, ans)| ==
      7 + Present(DatabaseManager.TextTruthy(ch.commandPrefix)) + Present(DatabaseManager.TextTruthy(ch.lastTopic))
        + Present(DatabaseManager.TextTruthy(ch.lastModes))
    ensures InfoParts(n, ch, ans)[3] == "Status: " + InfoStatus(n, ch.name, ans)
  {
  }

  method HandleInfo(args: seq<string>, ans: Answers) returns (effects: seq<Effect>)
    ensures effects == Info(args, ans)
  {
    if args == [] {
      return [Reply("Usage: channel info <channel_id>")];
    }
    var parsed := ParseInt(args[0]);
    if parsed.None? {
      return [Reply("Error: invalid channel ID: " + args[0])];
    }
    var id := parsed.value;
    var found := FindChannel(ans.networks, id, false);
    if found.None? {
      return [Reply("Error: channel ID " + IntToString(id) + " not found in database")];
    }
    var (network, ch) := found.value;
    effects := [Reply(Join(InfoParts(network, ch, ans), ", "))];
  }

  // ---------------------------------------------------------------------------
  // add

  /** The settings `handle_add` starts from and its option loop changes. */
  datatype Settings = Settings(
    network: Option<int>, password: string,
    autoJoin: bool, autoRejoin: bool, enableLogging: bool, commandPrefix: Option<string>)

  const Defaults := Settings(None, "", true, false, true, None)

  const NetworkNames: set<string> := {"-n", "--network"}

  /** A network option whose value `int` refuses. */
  predicate BadNetwork(o: Opt) {
    o.0 in NetworkNames && ParseInt(o.1).None?
  }

  /** One pass of the loop; `Err(arg)` is the ValueError of `int(arg)`. */
  function Setting(s: Settings, o: Opt): (r: Result<Settings, string>)
    ensures r.Err? <==> BadNetwork(o)
    ensures r.Err? ==> r.error == o.1
    ensures o.0 !in NetworkNames ==> r.Ok? && r.value.network == s.network
  {
    var (opt, arg) := o;
    if opt in NetworkNames then
      (match ParseInt(arg)
       case None => Err(arg)
       case Some(id) => Ok(s.(network := Some(id))))
    else if opt in {"-p", "--password"} then Ok(s.(password := arg))
    else if opt == "--auto-join" then Ok(s.(autoJoin := NetworkOptions.Truthy(arg)))
    else if opt == "--auto-rejoin" then Ok(s.(autoRejoin := NetworkOptions.Truthy(arg)))
    else if opt == "--logging" then Ok(s.(enableLogging := NetworkOptions.Truthy(arg)))
    else if opt == "--prefix" then Ok(s.(commandPrefix := Some(arg)))
    else Ok(s)
  }

  /** The option loop from `s` on. */
  function Settle(s: Settings, opts: seq<Opt>): Result<Settings, string>
    decreases |opts|
  {
    if opts == [] then Ok(s)
    else match Setting(s, opts[0])
      case Err(e) => Err(e)
      case Ok(t) => Settle(t, opts[1..])
  }

  /** `opts[k]` is the first network option whose value is not a number. */
  predicate FirstBad(opts: seq<Opt>, k: int) {
    0 <= k < |opts| && BadNetwork(opts[k]) && forall m :: 0 <= m < k ==> !BadNetwork(opts[m])
  }

  lemma FirstBadShift(opts: seq<Opt>, k: nat)
    requires opts != [] && !BadNetwork(opts[0]) && FirstBad(opts[1..], k)
    ensures FirstBad(opts, k + 1) && opts[k + 1] == opts[1..][k]
  {
    forall m | 0 <= m < k + 1 ensures !BadNetwork(opts[m]) {
      if m > 0 {
        assert opts[m] == opts[1..][m - 1];
      }
    }
  }

  /** The loop fails exactly when some network value is not a number, and then with the first such value. */
  lemma {:induction false} SettleFailure(s: Settings, opts: seq<Opt>)
    ensures Settle(s, opts).Err? <==> exists k :: 0 <= k < |opts| && BadNetwork(opts[k])
    ensures Settle(s, opts).Err? ==> exists k :: FirstBad(opts, k) && Settle(s, opts).error == opts[k].1
    decreases |opts|
  {
    if opts != [] && BadNetwork(opts[0]) {
      assert FirstBad(opts, 0);
    } else if opts != [] {
      var t := Setting(s, opts[0]).value;
      var rest := opts[1..];
      SettleFailure(t, rest);
      assert Settle(s, opts) == Settle(t, rest);
      if Settle(s, opts).Err? {
        var k :| FirstBad(rest, k) && Settle(t, rest).error == rest[k].1;
        FirstBadShift(opts, k);
      }
      if exists k :: 0 <= k < |opts| && BadNetwork(opts[k]) {
        var k :| 0 <= k < |opts| && BadNetwork(opts[k]);
        assert rest[k - 1] == opts[k];
      }
    }
  }

  /** Options other than the network one leave the network as it was. */
  lemma {:induction false} SettleKeepsNetwork(s: Settings, opts: seq<Opt>)
    requires forall k :: 0 <= k < |opts| ==> opts[k].0 !in NetworkNames
    ensures Settle(s, opts).Ok? && Settle(s, opts).value.network == s.network
    decreases |opts|
  {
    if opts != [] {
      var t := Setting(s, opts[0]).value;
      assert forall k :: 0 <= k < |opts[1..]| ==> opts[1..][k] == opts[k + 1];
      SettleKeepsNetwork(t, opts[1..]);
    }
  }

  /** The body of the option loop. */
  method SettleOne(s: Settings, o: Opt) returns (r: Result<Settings, string>)
    ensures r == Setting(s, o)
  {
    var (opt, arg) := o;
    if opt == "-n" || opt == "--network" {
      var id := ParseInt(arg);
      if id.None? {
        return Err(arg);
      }
      r := Ok(s.(network := Some(id.value)));
    } else if opt == "-p" || opt == "--password" {
      r := Ok(s.(password := arg));
    } else if opt == "--auto-join" {
      r := Ok(s.(autoJoin := NetworkOptions.Truthy(arg)));
    } else if opt == "--auto-rejoin" {
      r := Ok(s.(autoRejoin := NetworkOptions.Truthy(arg)));
    } else if opt == "--logging" {
      r := Ok(s.(enableLogging := NetworkOptions.Truthy(arg)));
    } else if opt == "--prefix" {
      r := Ok(s.(commandPrefix := Some(arg)));
    } else {
      r := Ok(s);
    }
  }

  /** The loop over `opts`; a network value `int` refuses ends it. */
  method SettleOptions(opts: seq<Opt>) returns (r: Result<Settings, string>)
    ensures r == Settle(Defaults, opts)
  {
    var s := Defaults;
    var i := 0;
    while i < |opts|
      invariant 0 <= i <= |opts|
      invariant Settle(Defaults, opts) == Settle(s, opts[i..])
    {
      assert opts[i..][0] == opts[i] && opts[i..][1..] == opts[i + 1..];
      var next := SettleOne(s, opts[i]);
      if next.Err? {
        return next;
      }
      s := next.value;
      i := i + 1;
    }
    r := Ok(s);
  }

  function NewChannelOf(name: string, s: Settings, currentId: int): NewChannel {
    NewChannel(s.network.GetOr(currentId), name, s.password, s.autoJoin, s.autoRejoin, s.enableLogging, s.commandPrefix)
  }

  function AddReply(name: string, networkId: int, added: bool): string {
    if added then "Success: channel '" + name + "' added to database under network ID '" + IntToString(networkId) + "'"
    else "Error: channel '" + name + "' already exists in database under network ID '" + IntToString(networkId) + "'"
  }

  /** The checks after the option loop and the insert. */
  function AddSettled(name: string, s: Settings, ans: Answers): seq<Effect> {
    if name == "" then [Reply("Error: channel name required (-c CHANNEL)")]
    else if !StartsWith(name, "#") then [Reply("Error: invalid channel name: " + name)]
    else
      var row := NewChannelOf(name, s, ans.currentId);
      [AddChannel(row), Reply(AddReply(name, row.networkId, ans.added))]
  }

  /** `handle_add`; `parsed` is what getopt makes of the arguments after the name. */
  function Add(args: seq<string>, parsed: Result<seq<Opt>, string>, ans: Answers): seq<Effect> {
    if args == [] then [Reply("Usage: channel add <channel_name> <flags>")]
    else match parsed
      case Err(e) => [Reply("Error: invalid option: " + e)]
      case Ok(opts) =>
        match Settle(Defaults, opts)
        case Err(literal) => [InvalidValue(literal)]
        case Ok(s) => AddSettled(args[0], s, ans)
  }

  method HandleAdd(args: seq<string>, parsed: Result<seq<Opt>, string>, ans: Answers) returns (effects: seq<Effect>)
    ensures effects == Add(args, parsed, ans)
  {
    if args == [] {
      return [Reply("Usage: channel add <channel_name> <flags>")];
    }
    var name := args[0];
    if parsed.Err? {
      return [Reply("Error: invalid option: " + parsed.error)];
    }
    var settled := SettleOptions(parsed.value);
    if settled.Err? {
      return [InvalidValue(settled.error)];
    }
    effects := AddSettled(name, settled.value, ans);
  }

  /**
   * A channel is inserted exactly when the name starts with '#', the options
   * parse and every network value is a number; it is inserted under the given
   * name.
   */
  lemma AddValidates(args: seq<string>, parsed: Result<seq<Opt>, string>, ans: Answers)
    ensures Add(args, parsed, ans)[0].AddChannel? <==>
      args != [] && StartsWith(args[0], "#") && parsed.Ok? &&
      forall k :: 0 <= k < |parsed.value| ==> !BadNetwork(parsed.value[k])
    ensures Add(args, parsed, ans)[0].AddChannel? ==> Add(args, parsed, ans)[0].row.name == args[0]
  {
    if args != [] && parsed.Ok? {
      SettleFailure(Defaults, parsed.value);
    }
  }

  /** Without a network option the channel goes under the network the command came from. */
  lemma AddDefaultNetwork(args: seq<string>, opts: seq<Opt>, ans: Answers)
    requires args != [] && StartsWith(args[0], "#")
    requires forall k :: 0 <= k < |opts| ==> opts[k].0 !in NetworkNames
    ensures Add(args, Ok(opts), ans)[0].AddChannel?
    ensures Add(args, Ok(opts), ans)[0].row.networkId == ans.currentId
  {
    SettleKeepsNetwork(Defaults, opts);
  }

  /** With no options at all the row holds the defaults of `handle_add`. */
  lemma AddWithDefaults(name: string, ans: Answers)
    requires StartsWith(name, "#")
    ensures Add([name], Ok([]), ans) ==
      [AddChannel(NewChannel(ans.currentId, name, "", true, false, true, None)),
       Reply(AddReply(name, ans.currentId, ans.added))]
  {
  }

  // ---------------------------------------------------------------------------
  // remove

  /** The channel a remove, info or modify command names, if the id parses and is stored. */
  function Target(args: seq<string>, ans: Answers): Option<(StoredNetwork, Channel)> {
    if args != [] && ParseInt(args[0]).Some? then Located(ans.networks, ParseInt(args[0]).value, false) else None
  }

  /** What follows a successful delete: leaving the channel where the bot is in it. */
  function Departure(networkId: int, name: string, ans: Answers): seq<Effect> {
    if networkId == ans.currentId && name in ans.joined then
      [Reply("Parting channel " + name + " (removed from database)"), Leave(name)]
    else if !ans.manager then [Raised(AttributeError)]
    else if networkId in ans.sessions && name in ans.sessions[networkId] then [LeaveElsewhere(networkId, name)]
    else []
  }

  /** `handle_remove`. */
  function Remove(args: seq<string>, ans: Answers): seq<Effect> {
    match ChannelId(args, "Usage: channel remove <channel_id>")
    case Err(text) => [Reply(text)]
    case Ok(id) =>
      match Located(ans.networks, id, false)
      case None => [Reply("Error: channel ID '" + IntToString(id) + "' not found in database")]
      case Some((n, ch)) =>
        if ans.removed then
          [RemoveChannel(n.id, id), Reply("Success: channel ID '" + IntToString(id) + "' removed from database")]
            + Departure(n.id, ch.name, ans)
        else [RemoveChannel(n.id, id), Reply("Error: failed to remove channel from database")]
  }

  method HandleRemove(args: seq<string>, ans: Answers) returns (effects: seq<Effect>)
    ensures effects == Remove(args, ans)
  {
    if args == [] {
      return [Reply("Usage: channel remove <channel_id>")];
    }
    var parsed := ParseInt(args[0]);
    if parsed.None? {
      return [Reply("Error: invalid channel ID: " + args[0])];
    }
    var id := parsed.value;
    var found := FindChannel(ans.networks, id, false);
    if found.None? {
      return [Reply("Error: channel ID '" + IntToString(id) + "' not found in database")];
    }
    var (network, ch) := found.value;
    effects := [RemoveChannel(network.id, id)];
    if ans.removed {
      effects := effects + [Reply("Success: channel ID '" + IntToString(id) + "' removed from database")];
      effects := effects + Departure(network.id, ch.name, ans);
    } else {
      effects := effects + [Reply("Error: failed to remove channel from database")];
    }
  }

  /**
   * A channel is left only after its row was deleted, only under its own name,
   * and only on a session that had joined it: this one's, or else another
   * network's live session.
   */
  lemma RemoveLeaves(args: seq<string>, ans: Answers, name: string, networkId: int)
    ensures Leave(name) in Remove(args, ans) ==>
      ans.removed && Target(args, ans).Some? && Target(args, ans).value.1.name == name &&
      Target(args, ans).value.0.id == ans.currentId && name in ans.joined
    ensures LeaveElsewhere(networkId, name) in Remove(args, ans) ==>
      ans.removed && Target(args, ans).Some? && Target(args, ans).value.1.name == name &&
      Target(args, ans).value.0.id == networkId && JoinedVia(ans, networkId, name) &&
      !(networkId == ans.currentId && name in ans.joined)
    ensures Target(args, ans).Some? ==>
      Remove(args, ans)[0] == RemoveChannel(Target(args, ans).value.0.id, ParseInt(args[0]).value)
  {
    if args != [] && ParseInt(args[0]).Some? && Target(args, ans).Some? {
      var id := ParseInt(args[0]).value;
      var (n, ch) := Target(args, ans).value;
      DepartureLeaves(n.id, ch.name, ans, name, networkId);
      var head := [RemoveChannel(n.id, id), Reply("Success: channel ID '" + IntToString(id) + "' removed from database")];
      if ans.removed {
        assert Remove(args, ans) == head + Departure(n.id, ch.name, ans);
        assert Leave(name) !in head && LeaveElsewhere(networkId, name) !in head;
      }
    }
  }

  /** The leave after a delete is for the deleted channel's name, on a session that has it. */
  lemma DepartureLeaves(networkId: int, channelName: string, ans: Answers, name: string, other: int)
    ensures Leave(name) in Departure(networkId, channelName, ans) ==>
      name == channelName && networkId == ans.currentId && name in ans.joined
    ensures LeaveElsewhere(other, name) in Departure(networkId, channelName, ans) ==>
      name == channelName && other == networkId && JoinedVia(ans, networkId, name) &&
      !(networkId == ans.currentId && name in ans.joined)
  {
  }

  // ---------------------------------------------------------------------------
  // modify

  type Updates = seq<(string, DatabaseManager.PyValue)>

  /** `updates.get(key)`. */
  function Get(d: Updates, key: string): (r: Option<DatabaseManager.PyValue>)
    ensures r.None? <==> forall k :: 0 <= k < |d| ==> d[k].0 != key
    decreases |d|
  {
    if d == [] then None
    else if d[0].0 == key then Some(d[0].1)
    else
      assert forall k :: 1 <= k < |d| ==> d[k] == d[1..][k - 1];
      Get(d[1..], key)
  }

  predicate DistinctKeys(d: Updates) {
    forall a, b :: 0 <= a < b < |d| ==> d[a].0 != d[b].0
  }

  /** `updates[key] = v`: a key already set keeps its place, a new one goes last. */
  function Put(d: Updates, key: string, v: DatabaseManager.PyValue): (r: Updates)
    ensures forall g :: Get(r, g) == if g == key then Some(v) else Get(d, g)
    ensures |r| == if Get(d, key).Some? then |d| else |d| + 1
    ensures forall k :: 0 <= k < |r| ==> r[k].0 == if k < |d| then d[k].0 else key
    decreases |d|
  {
    if d == [] then [(key, v)]
    else if d[0].0 == key then [(key, v)] + d[1..]
    else
      var rest := Put(d[1..], key, v);
      assert forall g :: Get([d[0]] + rest, g) == if g == d[0].0 then Some(d[0].1) else Get(rest, g);
      assert Get(d[1..], key).Some? <==> Get(d, key).Some?;
      [d[0]] + rest
  }

  lemma PutDistinct(d: Updates, key: string, v: DatabaseManager.PyValue)
    requires DistinctKeys(d)
    ensures DistinctKeys(Put(d, key, v))
  {
  }

  /** The dict key a `channel modify` option sets. */
  function KeyOf(opt: string): Option<string> {
    if opt in {"-p", "--password"} then Some("password")
    else if opt == "--auto-join" then Some("auto_join")
    else if opt == "--auto-rejoin" then Some("auto_rejoin")
    else if opt == "--logging" then Some("enable_logging")
    else if opt == "--prefix" then Some("command_prefix")
    else None
  }

  /** Flags are stored as booleans, the rest as the text given. */
  function ValueOf(key: string, arg: string): DatabaseManager.PyValue {
    if key in DatabaseManager.ChannelFlagKeys then DatabaseManager.Atom(DatabaseManager.SBool(NetworkOptions.Truthy(arg)))
    else DatabaseManager.Atom(DatabaseManager.SStr(arg))
  }

  /** `updates` once the option loop has seen `opts`. */
  function UpdatesOf(opts: seq<Opt>): Updates
    decreases |opts|
  {
    if opts == [] then []
    else
      var d := UpdatesOf(opts[..|opts| - 1]);
      var (opt, arg) := opts[|opts| - 1];
      match KeyOf(opt)
      case None => d
      case Some(key) => Put(d, key, ValueOf(key, arg))
  }

  /** The last option decides the key it sets and leaves every other key alone. */
  lemma UpdatesStep(opts: seq<Opt>, key: string)
    requires opts != []
    ensures Get(UpdatesOf(opts), key) ==
      if KeyOf(opts[|opts| - 1].0) == Some(key) then Some(ValueOf(key, opts[|opts| - 1].1))
      else Get(UpdatesOf(opts[..|opts| - 1]), key)
  {
  }

  /** Each key is set at most once. */
  lemma {:induction false} UpdatesDistinct(opts: seq<Opt>)
    ensures DistinctKeys(UpdatesOf(opts))
    decreases |opts|
  {
    if opts != [] {
      var (opt, arg) := opts[|opts| - 1];
      UpdatesDistinct(opts[..|opts| - 1]);
      if KeyOf(opt).Some? {
        PutDistinct(UpdatesOf(opts[..|opts| - 1]), KeyOf(opt).value, ValueOf(KeyOf(opt).value, arg));
      }
    }
  }

  /** `opts[k]` is the last option that sets `key`. */
  predicate LastSets(opts: seq<Opt>, key: string, k: int) {
    0 <= k < |opts| && KeyOf(opts[k].0) == Some(key) && forall m :: k < m < |opts| ==> KeyOf(opts[m].0) != Some(key)
  }

  lemma LastSetsGrow(opts: seq<Opt>, key: string, k: int)
    requires opts != [] && LastSets(opts[..|opts| - 1], key, k) && KeyOf(opts[|opts| - 1].0) != Some(key)
    ensures LastSets(opts, key, k) && opts[k] == opts[..|opts| - 1][k]
  {
    var n := |opts| - 1;
    forall m | k < m < |opts| ensures KeyOf(opts[m].0) != Some(key) {
      if m < n {
        assert opts[m] == opts[..n][m];
      }
    }
  }

  /** No option of `opts` sets `key`. */
  predicate Unset(opts: seq<Opt>, key: string) {
    forall k :: 0 <= k < |opts| ==> KeyOf(opts[k].0) != Some(key)
  }

  lemma UnsetGrow(opts: seq<Opt>, key: string)
    requires opts != [] && KeyOf(opts[|opts| - 1].0) != Some(key)
    ensures Unset(opts, key) <==> Unset(opts[..|opts| - 1], key)
  {
    var init := opts[..|opts| - 1];
    if Unset(init, key) {
      forall k | 0 <= k < |opts| ensures KeyOf(opts[k].0) != Some(key) {
        if k < |init| {
          assert opts[k] == init[k];
        }
      }
    }
    if Unset(opts, key) {
      forall k | 0 <= k < |init| ensures KeyOf(init[k].0) != Some(key) {
        assert opts[k] == init[k];
      }
    }
  }

  /** A key no option sets is absent, and a key some option sets is present. */
  lemma {:induction false} UpdatesAbsent(opts: seq<Opt>, key: string)
    ensures Get(UpdatesOf(opts), key).None? <==> Unset(opts, key)
    decreases |opts|
  {
    if opts != [] {
      var n := |opts| - 1;
      UpdatesStep(opts, key);
      if KeyOf(opts[n].0) != Some(key) {
        UpdatesAbsent(opts[..n], key);
        UnsetGrow(opts, key);
      }
    }
  }

  /** A key holds the value of the last option that sets it. */
  lemma {:induction false} UpdatesLastWins(opts: seq<Opt>, key: string)
    ensures Get(UpdatesOf(opts), key).Some? ==>
      exists k :: LastSets(opts, key, k) && Get(UpdatesOf(opts), key) == Some(ValueOf(key, opts[k].1))
    decreases |opts|
  {
    if opts != [] {
      var n := |opts| - 1;
      var init := opts[..n];
      UpdatesStep(opts, key);
      if KeyOf(opts[n].0) == Some(key) {
        assert LastSets(opts, key, n);
      } else if Get(UpdatesOf(opts), key).Some? {
        UpdatesLastWins(init, key);
        var k :| LastSets(init, key, k) && Get(UpdatesOf(init), key) == Some(ValueOf(key, init[k].1));
        LastSetsGrow(opts, key, k);
      }
    }
  }

  /** The loop that fills `updates`. */
  method BuildUpdates(opts: seq<Opt>) returns (updates: Updates)
    ensures updates == UpdatesOf(opts)
  {
    updates := [];
    var i := 0;
    while i < |opts|
      invariant 0 <= i <= |opts|
      invariant updates == UpdatesOf(opts[..i])
    {
      var (opt, arg) := opts[i];
      assert opts[..i + 1][..i] == opts[..i];
      if opt == "-p" || opt == "--password" {
        updates := Put(updates, "password", DatabaseManager.Atom(DatabaseManager.SStr(arg)));
      } else if opt == "--auto-join" {
        updates := Put(updates, "auto_join", DatabaseManager.Atom(DatabaseManager.SBool(NetworkOptions.Truthy(arg))));
      } else if opt == "--auto-rejoin" {
        updates := Put(updates, "auto_rejoin", DatabaseManager.Atom(DatabaseManager.SBool(NetworkOptions.Truthy(arg))));
      } else if opt == "--logging" {
        updates := Put(updates, "enable_logging", DatabaseManager.Atom(DatabaseManager.SBool(NetworkOptions.Truthy(arg))));
      } else if opt == "--prefix" {
        updates := Put(updates, "command_prefix", DatabaseManager.Atom(DatabaseManager.SStr(arg)));
      }
      i := i + 1;
    }
    assert opts[..i] == opts;
  }

  /**
   * The reply to the update; `update_channel` returns False for the empty dict
   * and otherwise says whether a row matched.
   */
  function UpdateReply(name: string, id: int, updates: Updates, rowsMatched: bool): string {
    if updates != [] && rowsMatched then "Success: modified channel '" + name + "' (ID: " + IntToString(id) + ")"
    else "Error: failed to update channel"
  }

  /** `handle_modify`; `parsed` is what getopt makes of the arguments after the id. */
  function Modify(args: seq<string>, parsed: Result<seq<Opt>, string>, ans: Answers): seq<Effect> {
    match ChannelId(args, "Usage: channel modify <channel_id> [OPTIONS]")
    case Err(text) => [Reply(text)]
    case Ok(id) =>
      if args[1..] == [] then [Reply("Error: no modifications specified")]
      else match Located(ans.networks, id, false)
        case None => [Reply("Error: channel ID " + IntToString(id) + " not found")]
        case Some((n, ch)) =>
          match parsed
          case Err(e) => [Reply("Error: invalid option: " + e)]
          case Ok(opts) =>
            var updates := UpdatesOf(opts);
            [UpdateChannel(n.id, ch.name, updates), Reply(UpdateReply(ch.name, id, updates, ans.rowsMatched))]
  }

  method HandleModify(args: seq<string>, parsed: Result<seq<Opt>, string>, ans: Answers) returns (effects: seq<Effect>)
    ensures effects == Modify(args, parsed, ans)
  {
    if args == [] {
      return [Reply("Usage: channel modify <channel_id> [OPTIONS]")];
    }
    var id := ParseInt(args[0]);
    if id.None? {
      return [Reply("Error: invalid channel ID: " + args[0])];
    }
    if args[1..] == [] {
      return [Reply("Error: no modifications specified")];
    }
    var found := FindChannel(ans.networks, id.value, false);
    if found.None? {
      return [Reply("Error: channel ID " + IntToString(id.value) + " not found")];
    }
    var (network, ch) := found.value;
    if parsed.Err? {
      return [Reply("Error: invalid option: " + parsed.error)];
    }
    var updates := BuildUpdates(parsed.value);
    effects := [UpdateChannel(network.id, ch.name, updates), Reply(UpdateReply(ch.name, id.value, updates, ans.rowsMatched))];
  }

  /**
   * An update is issued only for a stored channel, under its network and
   * name; the search runs before getopt, so an unknown id wins over a bad
   * option.
   */
  lemma ModifyTargets(args: seq<string>, parsed: Result<seq<Opt>, string>, ans: Answers)
    requires |args| >= 2 && ParseInt(args[0]).Some?
    ensures Target(args, ans).None? ==>
      Modify(args, parsed, ans) == [Reply("Error: channel ID " + IntToString(ParseInt(args[0]).value) + " not found")]
    ensures Modify(args, parsed, ans)[0].UpdateChannel? <==> Target(args, ans).Some? && parsed.Ok?
    ensures Modify(args, parsed, ans)[0].UpdateChannel? ==>
      Modify(args, parsed, ans)[0].networkId == Target(args, ans).value.0.id &&
      Modify(args, parsed, ans)[0].name == Target(args, ans).value.1.name
  {
  }

  /** Arguments after the id that set nothing reach the database as an empty dict and fail. */
  lemma ModifyWithoutSettings(args: seq<string>, opts: seq<Opt>, ans: Answers)
    requires |args| >= 2 && ParseInt(args[0]).Some? && Target(args, ans).Some?
    requires forall k :: 0 <= k < |opts| ==> KeyOf(opts[k].0).None?
    ensures Modify(args, Ok(opts), ans)[1] == Reply("Error: failed to update channel")
  {
    if UpdatesOf(opts) != [] {
      UpdatesAbsent(opts, UpdatesOf(opts)[0].0);
    }
  }

  // ---------------------------------------------------------------------------
  // command_channel

  const Subcommands: seq<string> := ["join", "part", "cycle", "list", "info", "add", "remove", "modify"]

  function SubcommandList(): string {
    Join(Subcommands, ", ")
  }

  function Unknown(sub: string): string {
    "Error: unknown subcommand: " + sub + " - available subcommands: " + SubcommandList()
  }

  /**
   * `command_channel`, with the corrected `part` and `cycle`; the subcommand is
   * matched in lower case, and `parsed` is what getopt makes of the arguments
   * after the name (for `add`) or the id (for `modify`).
   */
  function ChannelCommand(args: seq<string>, parsed: Result<seq<Opt>, string>, ans: Answers): seq<Effect> {
    if args == [] then [Reply("Usage: requires a subcommand: " + SubcommandList())]
    else
      var sub, rest := Lower(args[0]), args[1..];
      if sub == "join" then JoinById(rest)
      else if sub == "part" then PartById(rest)
      else if sub == "cycle" then Cycle(rest, ans)
      else if sub == "list" then List(ans)
      else if sub == "info" then Info(rest, ans)
      else if sub == "add" then Add(rest, parsed, ans)
      else if sub == "remove" then Remove(rest, ans)
      else if sub == "modify" then Modify(rest, parsed, ans)
      else [Reply(Unknown(sub))]
  }

  method CommandChannel(args: seq<string>, parsed: Result<seq<Opt>, string>, ans: Answers) returns (effects: seq<Effect>)
    ensures effects == ChannelCommand(args, parsed, ans)
  {
    if args == [] {
      return [Reply("Usage: requires a subcommand: " + SubcommandList())];
    }
    var sub, rest := Lower(args[0]), args[1..];
    if sub == "join" {
      effects := JoinById(rest);
    } else if sub == "part" {
      effects := PartById(rest);
    } else if sub == "cycle" {
      effects := HandleCycle(rest, ans);
    } else if sub == "list" {
      effects := HandleList(ans);
    } else if sub == "info" {
      effects := HandleInfo(rest, ans);
    } else if sub == "add" {
      effects := HandleAdd(rest, parsed, ans);
    } else if sub == "remove" {
      effects := HandleRemove(rest, ans);
    } else if sub == "modify" {
      effects := HandleModify(rest, parsed, ans);
    } else {
      effects := [Reply(Unknown(sub))];
    }
  }

  /** The subcommand is matched without regard to letter case. */
  lemma DispatchIgnoresCase(word: string, rest: seq<string>, parsed: Result<seq<Opt>, string>, ans: Answers)
    ensures ChannelCommand([Upper(word)] + rest, parsed, ans) == ChannelCommand([word] + rest, parsed, ans)
  {
    NetworkOptions.LowerOfUpper(word);
    assert ([Upper(word)] + rest)[1..] == rest && ([word] + rest)[1..] == rest;
  }

  /** Only the eight names run a handler; any other word is reported back with the list. */
  lemma UnknownSubcommand(args: seq<string>, parsed: Result<seq<Opt>, string>, ans: Answers)
    requires args != [] && Lower(args[0]) !in Subcommands
    ensures ChannelCommand(args, parsed, ans) == [Reply(Unknown(Lower(args[0])))]
  {
    NotASubcommand(Lower(args[0]));
  }

  lemma NotASubcommand(sub: string)
    requires sub !in Subcommands
    ensures sub != "join" && sub != "part" && sub != "cycle" && sub != "list"
    ensures sub != "info" && sub != "add" && sub != "remove" && sub != "modify"
  {
    assert Subcommands[0] == "join" && Subcommands[1] == "part" && Subcommands[2] == "cycle";
    assert Subcommands[3] == "list" && Subcommands[4] == "info" && Subcommands[5] == "add";
    assert Subcommands[6] == "remove" && Subcommands[7] == "modify";
  }
}
