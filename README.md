# Dunamis IRC client core, modelled in Dafny

This project models the core of Dunamis, a Twisted-based IRC bot. It covers
the client's connection bookkeeping and message handling, plus the pure
formatting and validation helpers of its plugins. Each source file becomes one
module:

- `NetworkConfig` (core/network_config.py): the per-network record and its
  "primary" and "next" lookups for nicknames, addresses and ports. Each
  "next" lookup is a successor modulo the list length, with a fallback to
  the primary value.
- `Factory` (core/factory.py): the reconnecting client factory, a class whose
  fields are the target address and port, the retry delay and count, the
  session and the reconnect switch. Backoff is `min(d * 1.5, 300)`. Rotation
  moves to the next port, and to the next address when the port list wraps.
  A retry is returned as the call the factory schedules on the reactor.
- `NetworkManager` (core/network_manager.py): the registry class. It keeps
  the configurations, factories and connectors of all networks, keyed by
  network id in insertion order, and the address each network aims at.
  Reactor calls (connect, disconnect) form an output log.
- `Protocol` (core/protocol.py): the IRC session class. It keeps the joined
  channels as a duplicate-free sequence, the SASL flag and the lines it sent.
  It covers capability negotiation and SASL PLAIN, the registration numerics
  (section 5.1 of RFC 2812), membership tracking, kicks, mode strings, nick
  collisions, and the turning of a PRIVMSG into a command dispatch.
- `DatabaseManager` (core/database_manager.py): the column codec only. Lists
  are stored comma-joined and flags as 0/1. It also covers the defaults of
  `add_network`, the value conversions of the `update_*` operations, their
  empty-update guards and the RPL column allow-list. An update is described
  by the statement it would execute.
- `SchedulerPlugin`, `FunPlugin`, `UtilitiesPlugin`, `NetworkPlugin`,
  `NetworkOptions`, `ChannelPlugin` (plugins/*/init.py): the formatters,
  option decoding and subcommand dispatch. A command is the sequence of
  effects it has: the calls it makes and the replies it sends, in order.
- Helper modules stand for the Python library behaviour the core relies on:
  - `Wrappers`: Option and Result.
  - `Text`: `str.join`, `split`, `strip`, `replace`, `lower`, `startswith`,
    and `int`/`str` conversion.
  - `Sasl`: UTF-8, base64 (section 4 of RFC 4648) and the PLAIN message
    (section 2 of RFC 4616).
  - `Shlex`: a simplified POSIX `shlex.split`.

The model follows these conventions:

- Python exceptions become explicit outcomes (`Raised`, `Err`) wherever the
  source lets them escape.
- An exception that Twisted catches and drops in an event handler (such as
  an empty parameter list in `irc_AUTHENTICATE`) is modelled as "nothing
  happens".
- Store reads (`get_networks`, `get_channels`, task lists) are injected
  sequences of records. What the database, the network manager and the task
  scheduler answer during one command is an input. So are getopt results,
  `randint` draws, clock readings and `platform` values.
- Text columns other than the list, flag and RPL columns are modelled as
  non-NULL strings.
- `connected_addresses` is written by both the factory and the manager. It
  lives in a small `Factory.AddressRegistry` class that the manager holds.

## Model

| member | source | states |
|---|---|---|
| NetworkConfig.IndexOf | core/network_config.py:70 | the first position holding the value, or none exactly when the value is absent (`list.index` with its `ValueError` caught) |
| NetworkConfig.GetNextAddress | core/network_config.py:66-73 | an address not in the list falls back to the primary address; otherwise the successor of its first occurrence, wrapping to the front; the result is always one of the addresses when there are any |
| NetworkConfig.GetNextPort | core/network_config.py:75-83 | the same over the active port list (SSL ports when SSL is enabled, plain ports otherwise) |
| NetworkConfig.GetNextNickname | core/network_config.py:85-92 | the same over the nicknames |
| NetworkConfig.NextInFacts | core/network_config.py:66-92 | the three lookups share one rule: fallback to the primary entry when absent, successor of the first occurrence otherwise |
| NetworkConfig.PrimaryIsFallback | core/network_config.py:53-92 | an unknown nickname, address or port yields the primary one; the primaries are the first entries, or "Dunamis", "localhost" and 6667 when the lists are empty |
| NetworkConfig.PortsIgnoreInactiveList | core/network_config.py:61-64 | with SSL on, the plain port list has no effect on port rotation, and with SSL off the SSL list has none |
| NetworkConfig.NextOnDistinct | core/network_config.py:66-92 | on a list without duplicates the successor of entry i is entry i+1, and the last entry is followed by the first |
| NetworkConfig.IterateCompose | core/network_config.py:66-92 | a+b successive lookups equal a lookups followed by b lookups |
| NetworkConfig.IterateForward | core/network_config.py:66-92 | on a list without duplicates, n lookups from entry i reach entry i+n while no wrap occurs |
| NetworkConfig.IterateWraps | core/network_config.py:66-92 | on a list without duplicates, the lookups from entry i reach the first entry after |xs|-i steps |
| NetworkConfig.CycleReturns | core/network_config.py:66-92 | on a list without duplicates, repeated lookups come back to the start after exactly |xs| steps and not sooner |
| NetworkConfig.CycleBack | core/network_config.py:66-92 | on a list without duplicates, |xs| lookups return to the starting entry |
| NetworkConfig.NotSooner | core/network_config.py:66-92 | on a list without duplicates, fewer than |xs| lookups never return to the starting entry |
| NetworkConfig.DuplicateHidesLaterEntries | core/network_config.py:70 | with a duplicated entry (["a","b","a","c"]) rotation from "a" never reaches "c" |
| NetworkConfig.DuplicateHidesLaterEntriesFrom | core/network_config.py:70 | the same for every start inside {"a","b"} |
| NetworkConfig.NicknameCycleExample | core/network_config.py:85-92 | nicknames X, X_, X__ rotate X → X_ → X__ → X, and an unknown nickname gives X |
| Factory.RotateIsLookups | core/factory.py:108-120 | the next target keeps the address and takes the next port, unless that port is the primary one or the current one, in which case it takes the next address and the primary port |
| Factory.StepsCompose | core/factory.py:108-127 | repeated rotation composes: a+b steps equal a steps then b steps |
| Factory.RotateNCompose | core/factory.py:108-127 | the same for rotation of connection targets |
| Factory.RotateNLast | core/factory.py:108-127 | n rotations are n-1 rotations followed by one more |
| Factory.RotatePortStep | core/factory.py:113-120 | with distinct ports, a target on port i moves to port i+1 on the same address |
| Factory.RotateAddressStep | core/factory.py:113-120 | with distinct ports, a target on the last port moves to the next address and the first port |
| Factory.RotateWithoutPorts | core/factory.py:113-120 | with no active ports every rotation moves to the next address on port 6667 |
| Factory.RotateAlongPorts | core/factory.py:108-127 | j rotations from the first port walk the address through ports 0..j |
| Factory.RotateRound | core/factory.py:108-127 | one full round over the ports moves to the next address on the first port |
| Factory.RotateRounds | core/factory.py:108-127 | k rounds move the address k steps along the address list |
| Factory.RotatePosition | core/factory.py:108-127 | after k rounds and j further steps the target is (k-th next address, port j) |
| Factory.RotationCycle | core/factory.py:108-127 | with distinct addresses and ports, starting from an address at the primary port, the rotation returns to the start after |addresses| rounds of the ports and not sooner, and within those rounds it stands at every configured address with every active port |
| Factory.RotationCovers | core/factory.py:108-127 | for any configured address and active port, it names the round and the port step at which the rotation from a given start stands at that pair |
| NetworkConfig.IterateReaches | core/network_config.py:66-92 | on a list without duplicates, the lookups from entry i reach every entry within fewer than |xs| steps |
| Factory.RotationBack | core/factory.py:108-127 | a full cycle of |addresses|·|ports| rotations returns to the start |
| Factory.RotationNotSooner | core/factory.py:108-127 | no shorter number of rotations returns to the start |
| Factory.RotationExample | core/factory.py:108-120 | addresses a,b,c and ports 1,2 rotate (a,1) → (a,2) → (b,1) → (b,2) → (c,1) → (c,2) → (a,1) |
| Factory.NextDelay | core/factory.py:95 | the next delay is 1.5 times the current one, capped at 300 seconds, and never shrinks below the current one unless capped |
| Factory.BackoffTable | core/factory.py:95 | after 1..10 consecutive failures the delays are 7.5, 11.25, …, 288.3251953125 seconds, and 300 from the eleventh (from the 5-second start of line 46) |
| Factory.BackoffCapped | core/factory.py:95 | from the eleventh failure on the delay stays at 300 seconds |
| Factory.BackoffBounds | core/factory.py:95 | every delay lies between 5 and 300 seconds and the sequence never decreases (the start and the cap are set at lines 46-47) |
| Factory.AddressRegistry.constructor | core/network_manager.py:36 | the registry of current connection targets starts empty |
| Factory.ClientFactory.constructor | core/factory.py:33-48 | a new factory has no protocol, wants to reconnect, targets the primary address and port, and starts with delay 5, maximum 300 and no retries |
| Factory.ClientFactory.BuildProtocol | core/factory.py:50-61 | builds a fresh session with the network's primary nickname, ident and real name, no channels and no SASL, and keeps it as the factory's protocol |
| Factory.ClientFactory.RotateConnectionTarget | core/factory.py:108-127 | the target becomes the rotation of the old one, and the manager's record of the current target is updated to it |
| Factory.ClientFactory.ClientConnectionFailed | core/factory.py:85-106 | when reconnecting is wanted and enabled: rotate the target and record the new one in the network manager, count one more retry, grow the delay and retry after it; otherwise change nothing and do not retry |
| Factory.ClientFactory.ClientConnectionLostAsWritten | core/factory.py:63-83 | the code as written: after a session it resets the retry state and retries after 5 seconds, but without a session the misspelt call at line 77 raises |
| Factory.ClientFactory.ClientConnectionLost | core/factory.py:63-83 | the corrected handler: after a session it resets to 5 seconds and retries; without one it rotates the target, records the new target in the registry and retries after the current delay; when no retry is due the registry is unchanged; it never raises |
| Factory.LostWithoutSessionNeverRetries | core/factory.py:76-81 | a connection lost before any session raises as written and retries after 5 seconds once corrected |
| Factory.FailuresFromFresh | core/factory.py:89-104 | n failures on a fresh factory give the delays BackoffAfter(1..n), each within 5..300 seconds |
| NetworkManager.PyIndex | core/network_manager.py:66-67 | Python list indexing: a valid index yields the element, negative indices count from the end, anything else is an IndexError |
| NetworkManager.ConnectTargetFacts | core/network_manager.py:66-92 | the target is absent exactly when the addresses or active ports are empty or an index is too negative; an index past the end falls back to the first entry; indices 0,0 give the primary address and port |
| NetworkManager.Loaded | core/network_manager.py:39-44 | loading keeps every network already loaded and adds one entry per row id |
| NetworkManager.LoadedUntouched | core/network_manager.py:39-44 | a network whose id no row carries keeps its old configuration |
| NetworkManager.LoadedLastWins | core/network_manager.py:39-44 | when several rows share an id, the last one is kept |
| NetworkManager.ByName | core/network_manager.py:216-220 | the result is a loaded network whose name matches ignoring case, and none exactly when no name matches |
| NetworkManager.DoneNext | core/network_manager.py:180-190 | the set of networks already visited grows by one per step of a loop |
| NetworkManager.Manager.constructor | core/network_manager.py:31-37 | a new manager has no networks, factories, connectors or recorded targets |
| NetworkManager.Manager.Put | core/network_manager.py:42 | storing a network replaces the entry with that id and appends new ids to the insertion order |
| NetworkManager.Manager.LoadNetworks | core/network_manager.py:39-44 | the rows are returned unchanged and merged into the loaded networks as Loaded says |
| NetworkManager.Manager.ConnectNetwork | core/network_manager.py:46-102 | an unknown, already connected or non-auto-connect network is refused with nothing changed; otherwise a factory is created, and if a target exists it is recorded and dialled over SSL or TCP, a new connector is made and the call succeeds |
| NetworkManager.Manager.DisconnectNetwork | core/network_manager.py:104-132 | succeeds exactly when the network is connected; it disconnects; without a reconnect it forgets the connector, factory and target and stops reconnection unless auto-reconnect is set |
| NetworkManager.Manager.ReconnectNetwork | core/network_manager.py:134-139 | as written: a connected network is disconnected but still connected in the manager's maps, so the reconnect fails; an unconnected one is connected as ConnectNetwork does |
| NetworkManager.Manager.ReconnectNetworkCorrected | core/network_manager.py:134-139 | the intended reconnect: it succeeds exactly when the network is auto-connect and has a target, and then records that target |
| NetworkManager.Manager.Status | core/network_manager.py:141-175 | unknown ids have no status; otherwise id, name, connected flag, current target and the session's channels, nickname and SASL state |
| NetworkManager.Manager.ListNetworks | core/network_manager.py:177-178 | one status per loaded network, in insertion order |
| NetworkManager.Manager.DialIfAutomatic | core/network_manager.py:182-185 | one step of connect-all: an auto-connect network that is not connected gets a fresh factory; it is connected, its target recorded and one dial made exactly when it has a target; any other network changes nothing |
| NetworkManager.Manager.ConnectAll | core/network_manager.py:180-186 | the connectors become Dialed (existing ones keep their values, exactly the dialable networks are added), the targets become Targets, every auto-connect network not yet connected gets a fresh factory and no other factory changes, the dials made are DialCalls in visiting order, and the count returned is the number of dials |
| NetworkManager.Manager.Visit | core/network_manager.py:181-184 | one iteration of connect-all keeps the loop's record of the visited networks: connectors, targets, factories, dials and count as after the networks visited so far |
| NetworkManager.AttemptSet | core/network_manager.py:182-183 | the networks connect-all hands to connect_network: those listed that are auto-connect and not connected before |
| NetworkManager.DialSet | core/network_manager.py:182-184 | the networks connect-all connects: those it attempts that have a target |
| NetworkManager.Dialed | core/network_manager.py:180-185 | the connectors after connect-all: the old ones unchanged plus one per network in DialSet |
| NetworkManager.Targets | core/network_manager.py:180-185 | the recorded targets after connect-all: each network in DialSet gets its primary address and port, every other record is kept |
| NetworkManager.DialCalls | core/network_manager.py:180-185 | at most one dial per network visited |
| NetworkManager.DialCountIsDialSet | core/network_manager.py:180-186 | over networks without repeats, there is exactly one dial per network in DialSet |
| NetworkManager.NewConnections | core/network_manager.py:180-186 | the number of dials connect-all counts equals the number of connectors it adds |
| NetworkManager.DisconnectCalls | core/network_manager.py:188-190 | at most one disconnect per network visited, each of a connector that was open |
| NetworkManager.Manager.DropVisit | core/network_manager.py:189-190 | one iteration of disconnect-all keeps the loop's record: the visited connected networks are dropped with their disconnect calls, and a dropped network's reconnection stays on only with auto-reconnect |
| NetworkManager.Manager.Drop | core/network_manager.py:190 | disconnecting one connected network records its disconnect call, removes its connector, factory and recorded target, and keeps reconnection on only when auto-reconnect is set |
| NetworkManager.Manager.DisconnectAll | core/network_manager.py:188-190 | no connector remains; the factories and targets of the networks that were connected are gone; one disconnect call per connected network, in visiting order; those networks keep reconnection on only when auto-reconnect is set and every other factory keeps its flag |
| NetworkManager.Manager.ReloadNetworkConfig | core/network_manager.py:201-214 | succeeds exactly when some row has the id, and then replaces that network with the first such row; otherwise nothing changes |
| NetworkManager.Manager.GetNetworkByName | core/network_manager.py:216-220 | the first loaded network whose name matches ignoring case |
| NetworkManager.ReconnectExample | core/network_manager.py:134-139 | for a connected auto-connect network with a target, the code as written fails to reconnect and the corrected one succeeds |
| NetworkManager.ReconnectAsWritten | core/network_manager.py:134-139 | the code as written fails to reconnect a connected network |
| NetworkManager.ReconnectCorrected | core/network_manager.py:134-139 | the corrected code reconnects it |
| Protocol.CapRequest | core/protocol.py:47-51 | on connect, `CAP REQ :sasl` is sent exactly when the authentication mechanism is SASL and the SASL mechanism is PLAIN or EXTERNAL |
| Protocol.CapReply | core/protocol.py:76-82 | an acknowledgement naming sasl starts AUTHENTICATE with the configured mechanism (PLAIN or EXTERNAL), and nothing is sent otherwise |
| Protocol.AuthenticateReplyDecodes | core/protocol.py:84-91 | the server's `+` under PLAIN is answered by one AUTHENTICATE line whose base64 payload decodes to the PLAIN message, which parses back to (username, username, password); nothing is sent in any other case |
| Protocol.RplTypesAccepted | core/protocol.py:102-125 | every stored welcome numeric has a distinct type name that the store's allow-list accepts |
| Protocol.RplTextRecoversParams | core/protocol.py:102-125 | the stored text of 004 and 005 splits back into the parameters after the nickname; the others store the second parameter |
| Protocol.ModeString | core/protocol.py:184 | the mode string starts with `+` or `-` followed by the modes |
| Protocol.PresentArgs | core/protocol.py:187 | the arguments kept are exactly those that are not None |
| Protocol.ModeStringArgs | core/protocol.py:183-195 | without present arguments the string is the sign and the modes; otherwise a space follows and the rest splits back into the present arguments |
| Protocol.PresentArgsAppend | core/protocol.py:187 | filtering distributes over concatenation |
| Protocol.FirstIndex | core/protocol.py:197-205 | the first stored channel record with the given id, or none when no record matches; a lookup by name never matches, because records are compared by id only |
| Protocol.FirstIndexUnique | core/protocol.py:197-205 | a matching record with no earlier match is the one found |
| Protocol.JoinSends | core/protocol.py:197-223 | joining a channel sends at most one command |
| Protocol.JoinSendsGuards | core/protocol.py:197-223 | nothing is sent when no record has the id, when a name is given where an id is expected, or when the channel is already joined; otherwise a JOIN with the stored password when it is set, without one otherwise |
| Protocol.PartSends | core/protocol.py:257-278 | parting sends at most one PART, and only for a stored channel that is joined |
| Protocol.AutoJoinSendsAppend | core/protocol.py:143-148 | the auto-join loop over two record lists is the loop over each in turn |
| Protocol.AutoJoinSendsSound | core/protocol.py:143-148 | every JOIN sent at sign-on is for an auto-join record not already joined |
| Protocol.Added | core/protocol.py:155-158 | after a join the channel is in the list, nothing else is added and no duplicate appears |
| Protocol.RemoveFirst | core/protocol.py:160-163 | `list.remove` after a membership test: an absent channel leaves the list unchanged; otherwise one entry goes and all other channels stay |
| Protocol.RemoveFirstDistinct | core/protocol.py:160-163 | on a list without duplicates, leaving removes the channel entirely and keeps the list free of duplicates |
| Protocol.JoinedThenLeft | core/protocol.py:155-163 | joining a new channel and then leaving it restores the list |
| Protocol.RemoveAppended | core/protocol.py:160-163 | removing a channel that was appended last restores the earlier list |
| Protocol.Privmsgs | core/protocol.py:280-286 | one PRIVMSG per piece, in order, to the same target |
| Protocol.SendMessagePieces | core/protocol.py:280-286 | a message is split on newlines into at least one piece, none holding a newline, that join back to the (prefixed) text |
| Protocol.ParseSenderComplete | core/protocol.py:290-293 | a well-formed `nick!ident@host` is parsed into its three parts |
| Protocol.ParseSenderSound | core/protocol.py:290-293 | every parse rebuilds the sender it came from |
| Protocol.ResolvePrefix | core/protocol.py:303-310 | the command prefix is the network default unless a stored record of this channel sets a non-empty prefix, and it is then one of those overrides |
| Protocol.ClosingQuotationOnly | core/protocol.py:329 | among the tokenizer errors, only the missing closing quotation mentions "closing quotation" |
| Protocol.DecideRules | core/protocol.py:315-349 | an unclosed quote is answered with "Missing closing quotation mark", other tokenizer errors and empty lines are ignored, and a command is dispatched exactly when the first token is a known command, with the remaining tokens as arguments |
| Protocol.DecideExample | core/protocol.py:315-349 | `!a "b c"` dispatches command a with the single argument "b c", and `"a` gets the quotation reply |
| Protocol.Session.constructor | core/protocol.py:36-43 | a new session has the given nickname, ident and real name, no joined channels, no SASL, and has sent and stored nothing |
| Protocol.Session.ConnectionMade | core/protocol.py:45-54 | sends the SASL capability request when configured, then registers the nickname |
| Protocol.Session.ConnectionLost | core/protocol.py:69-74 | asks the scheduler to stop its tasks once |
| Protocol.Session.IrcCap | core/protocol.py:76-82 | sends what CapReply gives |
| Protocol.Session.IrcAuthenticate | core/protocol.py:84-91 | sends what the PLAIN reply gives |
| Protocol.Session.Irc903 | core/protocol.py:93-96 | SASL success marks the session authenticated and ends capability negotiation |
| Protocol.Session.Irc904 | core/protocol.py:98-100 | SASL failure ends capability negotiation without authenticating |
| Protocol.Session.OnNumeric | core/protocol.py:102-125 | each welcome numeric stores one row of its type and text for this network |
| Protocol.Session.SignedOn | core/protocol.py:127-148 | sends the NickServ identify message(s), then the OPER line when configured, then one JOIN per auto-join channel not yet joined |
| Protocol.Session.AlterCollidedNick | core/protocol.py:150-153 | a collided nickname is replaced by the next configured one |
| Protocol.Session.Joined | core/protocol.py:155-158 | the joined list becomes Added(old, channel) |
| Protocol.Session.Left | core/protocol.py:160-163 | the joined list becomes RemoveFirst(old, channel), and the channel is no longer in it |
| Protocol.Session.Lookup | core/protocol.py:197-205 | the loop finds FirstIndex |
| Protocol.Session.JoinChannel | core/protocol.py:197-223 | sends what JoinSends gives |
| Protocol.Session.PartChannel | core/protocol.py:257-278 | sends what PartSends gives |
| Protocol.Session.JoinChannelByName | core/protocol.py:225-255 | a blank name is refused; the first word is the channel; an already joined channel, or one unknown to the store when not saving, sends nothing; otherwise one JOIN with the given password or the stored one, and a store row when saving |
| Protocol.Session.KickedFromAsWritten | core/protocol.py:165-174 | as written, a kick sends nothing, since the name is passed where an id is expected |
| Protocol.Session.KickedFrom | core/protocol.py:165-174 | the corrected handler ends membership of the channel and rejoins by id the first auto-rejoin record with that name |
| Protocol.FirstRejoin | core/protocol.py:169-174 | the first record with that name and auto-rejoin set, or none |
| Protocol.FirstRejoinUnique | core/protocol.py:169-174 | a matching record with no earlier match is the one found |
| Protocol.FirstRejoinNone | core/protocol.py:169-174 | with no matching record nothing is found |
| Protocol.KickNeverRejoins | core/protocol.py:173 | as written, even an auto-rejoin channel that is not joined gets no JOIN after a kick |
| Protocol.KickRejoinsOnce | core/protocol.py:165-174 | corrected, it gets exactly one JOIN with its stored password |
| Protocol.Session.TopicUpdated | core/protocol.py:176-181 | stores the new topic as the channel's last_topic |
| Protocol.Session.ModeChanged | core/protocol.py:183-195 | stores ModeString as the channel's last_modes |
| Protocol.Session.SendMessage | core/protocol.py:280-286 | sends one PRIVMSG per line of the (prefixed) message |
| Protocol.Session.HandleCommand | core/protocol.py:315-349 | ignored lines change nothing, replies go to the target addressed to the sender, and dispatched commands are recorded with target, sender and arguments |
| Protocol.Session.OnPrivmsg | core/protocol.py:288-313 | a malformed sender or blank message does nothing; a private message, or a channel message starting with the channel's prefix, is handled as a command, answered to the sender in private and to the channel otherwise |
| DatabaseManager.IntStrings | core/database_manager.py:117 | `map(str, ports)`: one decimal string per port, in order |
| DatabaseManager.DecodeList | core/database_manager.py:52-58 | a NULL or empty column decodes to the empty list |
| DatabaseManager.DecodePorts | core/database_manager.py:53-54 | a port column decodes to one integer per list item, or fails (Python's ValueError) exactly when some item is not an integer |
| DatabaseManager.ParseAll | core/database_manager.py:53-54 | every item parses to the matching integer, or some item does not parse |
| DatabaseManager.FlagRoundTrip | core/database_manager.py:55-121 | a boolean stored as 1/0 reads back as the same boolean, and a NULL flag reads as false |
| DatabaseManager.ListRoundTrip | core/database_manager.py:52-116 | a list joined with ", " and split again gives the list back, when no item holds the separator and the list is not [""] |
| DatabaseManager.IntStringHasNoSeparator | core/database_manager.py:117 | the decimal form of an integer is non-empty and holds no ", " |
| DatabaseManager.PortsRoundTrip | core/database_manager.py:53-117 | every port list, stored and read back, is the same list |
| DatabaseManager.DecodeNetwork | core/database_manager.py:48-76 | a row decodes unless a port column holds a non-integer; addresses and nicknames are the split columns and flags are true exactly when the column is 1 |
| DatabaseManager.MapOk | core/database_manager.py:48-78 | all rows decode, in order, or the first failure is one of the rows' errors |
| DatabaseManager.DecodeNetworks | core/database_manager.py:44-78 | every row decodes to the configuration at the same position, or some row fails |
| DatabaseManager.DefaultNicknamesColumn | core/database_manager.py:102-119 | default nicknames are stored as "Dunamis, Dunamis_, Dunamis__" |
| DatabaseManager.DefaultPortColumns | core/database_manager.py:104-118 | default ports are stored as "6667" and "6697" |
| DatabaseManager.AddNetworkRow | core/database_manager.py:80-122 | missing nicknames and ports take their defaults, and the welcome columns start NULL |
| DatabaseManager.DefaultNicknamesStorable | core/database_manager.py:102-103 | the default nicknames survive the list encoding |
| DatabaseManager.AddThenRead | core/database_manager.py:44-122 | a network added with storable lists reads back with the same fields, the defaults where none were given, and no welcome data |
| DatabaseManager.DecodeFields | core/database_manager.py:48-76 | every column of a decodable row lands in the configuration field of that name |
| DatabaseManager.JoinStrings | core/database_manager.py:181 | `', '.join(value)` succeeds exactly when every item is a string (TypeError otherwise) |
| DatabaseManager.StrAll | core/database_manager.py:183 | `map(str, value)` converts each item in order |
| DatabaseManager.NetworkValue | core/database_manager.py:179-188 | raises exactly when an address or nickname list holds a non-string; list, port and flag keys come out as one scalar (joined text, or 1 or 0 by truthiness); any other key keeps its value, a list included |
| DatabaseManager.FlagValue | core/database_manager.py:331-333 | in channel and task updates, flag keys become 1 or 0 and every other key keeps its value unchanged, a list included; nothing raises (the task update repeats it at lines 494-496) |
| DatabaseManager.Clauses | core/database_manager.py:190 | one `key=?` clause per update, in order |
| DatabaseManager.UpdateNetwork | core/database_manager.py:174-211 | raises exactly when some address or nickname list holds a non-string; otherwise no updates means nothing to do; otherwise a list left unconverted makes `execute` fail, which is caught and returns False; otherwise one UPDATE with the converted values followed by the id |
| DatabaseManager.Bind | core/database_manager.py:198-211 | `execute` binds the values in order followed by the key columns, and fails exactly when some value is a list: sqlite3 cannot bind one, and the error is caught and returns False (the channel and task updates execute at lines 343 and 505) |
| DatabaseManager.UpdateWithFlags | core/database_manager.py:325-338 | the shared loop: one clause per update and the converted values in order (the task update repeats it at lines 488-500) |
| DatabaseManager.UpdateChannel | core/database_manager.py:325-351 | never raises; nothing to do exactly when there are no updates; returns False through the caught bind error exactly when a non-flag key holds a list; otherwise the UPDATE with the converted values, then the channel name and the network id |
| DatabaseManager.UpdateTask | core/database_manager.py:488-513 | never raises; nothing to do exactly when there are no updates; returns False through the caught bind error exactly when a non-flag key holds a list; otherwise the UPDATE with the converted values, then the task id |
| DatabaseManager.UpdatedListReadsBack | core/database_manager.py:179-184 | an address or nickname list written through update_network reads back unchanged (read back at lines 52 and 58) |
| DatabaseManager.JoinStringsIsJoin | core/database_manager.py:179-182 | joining string items in update_network stores what add_network stores for the same list (add_network joins at line 116) |
| DatabaseManager.SetRplEffect | core/database_manager.py:222-223 | writing one welcome column sets it and leaves every other column unchanged |
| DatabaseManager.UpdateNetworkRpl | core/database_manager.py:213-229 | only the six welcome types are accepted; an accepted write sets that column on the row with the id and changes nothing else; a refused one changes nothing |
| DatabaseManager.RplReadsBack | core/database_manager.py:213-229 | after the write the row still decodes exactly when it did before, and reads back the value stored (decoded at lines 69-75) |
| Sasl.EncodeChar | core/protocol.py:88 | UTF-8 encodes one character in 1 to 4 bytes, a single zero byte exactly for NUL, and multi-byte forms without bytes below 0x80 |
| Sasl.Utf8Nul | core/protocol.py:87-88 | the encoding holds a zero byte exactly when the text holds NUL |
| Sasl.Utf8Append | core/protocol.py:87-88 | encoding distributes over concatenation |
| Sasl.PlainMessageLayout | core/protocol.py:87-88 | the PLAIN message is the username, NUL, the username, NUL, the password, each UTF-8 encoded (section 2 of RFC 4616) |
| Sasl.FindNul | core/protocol.py:87 | the first NUL byte, or none exactly when there is none |
| Sasl.ParseFields | core/protocol.py:87 | a message with two NUL separators splits into its three fields |
| Sasl.PlainRoundTrip | core/protocol.py:87-88 | when the username holds no NUL, the PLAIN message parses back to (username, username, password) |
| Sasl.SymbolIndex | core/protocol.py:89 | every base64 symbol maps back to its 6-bit value (section 4 of RFC 4648) |
| Sasl.Encode | core/protocol.py:89 | the encoding has 4 characters per 3 bytes rounded up, all from the base64 alphabet or `=` |
| Sasl.EncodeDecode | core/protocol.py:89 | decoding the encoding of any byte string gives it back |
| Sasl.PlainPayloadRecovers | core/protocol.py:87-90 | the AUTHENTICATE payload decodes to the PLAIN message, which parses back to the credentials |
| Sasl.PlainPayloadExample | core/protocol.py:87-90 | user "u" and password "p" give the payload "dQB1AHA=" |
| Shlex.SplitJoinPlain | core/protocol.py:325 | words without quotes, escapes or spaces, joined by single spaces, split back to the same words |
| Shlex.QuotingExample | core/protocol.py:325 | `a "b c"` splits into a and "b c" |
| Shlex.EmptyQuotesExample | core/protocol.py:325 | `''` splits into one empty word |
| Shlex.ErrorExamples | core/protocol.py:325-333 | an unclosed quote and a trailing backslash are the two errors |
| Text.Find | core/network_config.py:70 | the first occurrence of a pattern, or none when it does not occur |
| Text.Split | core/database_manager.py:52 | `str.split(sep)`: at least one piece, no piece holds the separator, and the pieces join back to the text |
| Text.SplitJoin | core/database_manager.py:52-116 | splitting a join gives the parts back when they do not hold an unbordered separator |
| Text.Words | core/protocol.py:229 | `str.split()` yields non-empty words |
| Text.JoinContains | core/protocol.py:280-286 | a joined text contains each of its parts |
| Text.JoinLength | plugins/utilities/init.py:58-64 | parts of equal width w joined give |parts|·w plus the separators |
| Text.MaxLength | plugins/utilities/init.py:52-56 | `max(len(x) for x in xs)` on a non-empty list: every length is at most the result, and one equals it |
| Text.TrimLeft | core/protocol.py:295 | the result is a suffix of the text and starts with a non-space |
| Text.TrimRight | core/protocol.py:295 | the result is a prefix of the text and ends with a non-space |
| Text.StripKeeps | core/protocol.py:295 | stripping adds no character |
| Text.StripUnchanged | core/protocol.py:295 | a text without surrounding spaces is already stripped |
| Text.Repeat | plugins/fun/init.py:116 | `c * n` is n copies of c, and empty for negative n |
| Text.LJust | plugins/utilities/init.py:58-64 | `str.ljust(w)` starts with the text and has length max(w, len) |
| Text.NatToString | core/database_manager.py:117 | the decimal form of a natural number is non-empty and all digits |
| Text.DigitsOfNat | core/database_manager.py:53 | the decimal digits of a natural number read back as that number |
| Text.UnderscoreSeparates | plugins/network/init.py:178 | as Python's `int()` does, a single underscore between digits is accepted and skipped, while a leading, trailing or doubled one is refused |
| Text.ParseIntToString | core/database_manager.py:53-117 | `int(str(i)) == i` for every integer |
| FunPlugin.Framed | plugins/fun/init.py:113-129 | the framed box has one line per text line plus a top and a bottom border |
| FunPlugin.FramedRow | plugins/fun/init.py:116-127 | each framed line has the longest line's width plus 4, starts with the side border and a space, then the original line |
| FunPlugin.FramedShape | plugins/fun/init.py:113-129 | every line of the box has the same width, each text line sits inside its side borders, and the box opens and closes with the corner characters |
| FunPlugin.AddBorder | plugins/fun/init.py:103-131 | no lines or an unknown style leave the lines unchanged; otherwise the lines are framed in that style |
| FunPlugin.Supported | plugins/fun/init.py:136-140 | the characters kept are exactly those of the text that the style can draw, in order |
| FunPlugin.Rendered | plugins/fun/init.py:142-153 | the art has as many lines as one glyph has rows |
| FunPlugin.RenderAsciiText | plugins/fun/init.py:134-153 | text with no drawable character renders as nothing; a glyph shorter than the first makes the row lookup raise; otherwise the glyph rows are joined line by line |
| FunPlugin.BlockGlyphs | plugins/fun/init.py:42-54 | every block digit glyph is 5 rows of width 6 |
| FunPlugin.BlockLineWidth | plugins/fun/init.py:142-153 | block art of n digits always renders: 5 lines, each 7n-1 characters wide (glyphs at lines 42-54) |
| FunPlugin.RollDice | plugins/fun/init.py:177-200 | dice are rolled exactly when 1..150 dice of 2..150 sides are asked for, one `randint(1, sides)` per die in order; the count check comes first, and a negative side count reaches `randint` and raises |
| FunPlugin.RollOrderExample | plugins/fun/init.py:182-198 | zero dice give the "thin air" reply, 151 dice the "too many" reply, and 3 dice of -4 sides raise |
| FunPlugin.RollStrings | plugins/fun/init.py:211 | each roll is shown as its decimal form |
| FunPlugin.DiceListMentions | plugins/fun/init.py:211-216 | the listing of several rolls mentions every roll |
| FunPlugin.TextListMentions | plugins/fun/init.py:211-216 | the "a, b and c" listing mentions every item |
| FunPlugin.FormatOneDie | plugins/fun/init.py:203-208 | a single die is reported as "You rolled a single die" with its value |
| FunPlugin.FormatSeveralTotal | plugins/fun/init.py:210-222 | several dice end with ". Total: " and their sum |
| FunPlugin.FormatSeveralForm | plugins/fun/init.py:210-222 | several dice never use the single-die wording |
| FunPlugin.FormatSeveralMentions | plugins/fun/init.py:210-222 | the report of several dice mentions every roll |
| FunPlugin.DigitsOf | plugins/fun/init.py:273 | the kept characters are exactly the digits of the text |
| FunPlugin.DigitsArgument | plugins/fun/init.py:262-281 | the argument is accepted exactly when some words remain and they hold 1..20 digits; "No valid digits provided" exactly when they hold none |
| FunPlugin.DigitsRenderBlock | plugins/fun/init.py:267-296 | accepted digits all render in the block style: 5 lines of width 7n-1 |
| FunPlugin.SupportedAll | plugins/fun/init.py:136-140 | a text the style can fully draw is kept whole |
| FunPlugin.CoinRefusal | plugins/fun/init.py:422-434 | a count is refused exactly when it is outside 1..100 |
| FunPlugin.Flips | plugins/fun/init.py:437 | one flip per coin |
| FunPlugin.TallyTotal | plugins/fun/init.py:439-442 | heads and tails add up to the number of flips |
| FunPlugin.CoinFacts | plugins/fun/init.py:405-453 | a refused count gets its refusal text; otherwise heads and tails add up to the count |
| UtilitiesPlugin.ChunkIndex | plugins/utilities/init.py:49 | `rows[i::columns]` holds exactly rows i, i+columns, i+2·columns, … |
| UtilitiesPlugin.Longest | plugins/utilities/init.py:56 | the number of grid lines is the longest column's length |
| UtilitiesPlugin.GridLineCount | plugins/utilities/init.py:55-64 | line r exists exactly when row r·columns exists; it joins its 1..columns cells with two spaces |
| UtilitiesPlugin.CellsPadded | plugins/utilities/init.py:52-62 | each cell is its item padded to its column's width |
| UtilitiesPlugin.ChunkShorter | plugins/utilities/init.py:49 | no column is longer than the first |
| UtilitiesPlugin.Columns | plugins/utilities/init.py:49 | there are exactly `columns` chunks |
| UtilitiesPlugin.Layout | plugins/utilities/init.py:55-66 | the nested loop produces the grid lines joined with newlines |
| UtilitiesPlugin.LayoutRow | plugins/utilities/init.py:57-64 | one pass over the columns produces that row's cells joined with two spaces |
| UtilitiesPlugin.Grid | plugins/utilities/init.py:44-66 | as written: no rows give ""; fewer rows than columns (or no columns) raise on `max()` of an empty column; otherwise the grid lines joined with newlines |
| UtilitiesPlugin.GridCorrected | plugins/utilities/init.py:44-66 | with empty columns skipped, every non-empty list with positive columns gives the grid |
| UtilitiesPlugin.ShortGridOneLine | plugins/utilities/init.py:44-66 | corrected, fewer items than columns form one line with one cell per item |
| UtilitiesPlugin.GridExample | plugins/utilities/init.py:52 | two commands in six columns raise as written and give one line once corrected |
| UtilitiesPlugin.EscapeHead | plugins/utilities/init.py:69-72 | an escaped text starting with "t" came from a text starting with "t" |
| UtilitiesPlugin.EscapeLeavesNone | plugins/utilities/init.py:69-72 | no literal `\t` remains after escaping |
| UtilitiesPlugin.ReplaceAbsent | plugins/utilities/init.py:71 | replacing a pattern that does not occur changes nothing |
| UtilitiesPlugin.EscapeIdempotent | plugins/utilities/init.py:69-72 | escaping twice is escaping once |
| UtilitiesPlugin.Description | plugins/utilities/init.py:130-138 | one command is described as "is 1 command from", more or none as "are …" |
| UtilitiesPlugin.CommandCountReadsBack | plugins/utilities/init.py:130-133 | for every count: the singular "is" form appears exactly for one command, and otherwise `int()` reads the command count back from the word after "are" |
| UtilitiesPlugin.PluginCountReadsBack | plugins/utilities/init.py:135-138 | for every count: "from a single plugin" appears exactly for one plugin, and otherwise `int()` reads the plugin count back from the word before "plugins" |
| UtilitiesPlugin.DescriptionExamples | plugins/utilities/init.py:130-138 | 1 command from 1 plugin and 12 commands from 3 plugins read as the source words them |
| UtilitiesPlugin.SeveralDescription | plugins/utilities/init.py:130-138 | 12 commands from 3 plugins are described with plural words |
| UtilitiesPlugin.Commands | plugins/utilities/init.py:112-144 | as written: no commands give "No commands available", one to five commands raise in the grid, six or more list the grid |
| UtilitiesPlugin.CommandsCorrected | plugins/utilities/init.py:112-144 | with the corrected grid every non-empty list is shown |
| UtilitiesPlugin.Fields | plugins/utilities/init.py:210-213 | uname has six fields |
| UtilitiesPlugin.SelectFlags | plugins/utilities/init.py:226-251 | field f is selected exactly when one of its flags (or -a) was given |
| UtilitiesPlugin.SelectOne | plugins/utilities/init.py:227-250 | one option adds the fields it names to the selection |
| UtilitiesPlugin.FlagsPick | plugins/utilities/init.py:226-251 | the fields chosen by the flags are those chosen by the options |
| UtilitiesPlugin.Assemble | plugins/utilities/init.py:226-251 | the selected fields are emitted in the fixed field order |
| UtilitiesPlugin.Uname | plugins/utilities/init.py:194-253 | a bad option is reported; no options print all fields; otherwise the selected fields in fixed order |
| UtilitiesPlugin.SelectedStep | plugins/utilities/init.py:227-250 | one more option selects what it names on top of the earlier ones |
| UtilitiesPlugin.PickFromSameOptions | plugins/utilities/init.py:226-251 | the output depends only on which options were given, not their order or repetition |
| UtilitiesPlugin.PickAll | plugins/utilities/init.py:227-228 | -a or --all selects every field |
| UtilitiesPlugin.UnameOrderExample | plugins/utilities/init.py:226-251 | `-m -s -m` prints the system then the machine, once each |
| UtilitiesPlugin.EchoPieces | plugins/utilities/init.py:282-288 | the pieces join back with `\n` to the escaped message, and none holds `\n` or `\t` |
| UtilitiesPlugin.SplitPieceInside | plugins/utilities/init.py:282-288 | a pattern absent from the joined text is absent from each piece |
| UtilitiesPlugin.Echo | plugins/utilities/init.py:256-288 | a bad option is reported; with -e the escaped message is sent in pieces split at `\n`; otherwise the joined words as one message |
| SchedulerPlugin.TaskInfoLayout | plugins/scheduler/init.py:36-63 | the Task, State and Type lines always come first; an Interval line follows only for periodic tasks; Delay, Max Runs, Last Run, Plugin and Description lines appear only when truthy; the unindented "Run Count:" line is the only other line that is not indented |
| SchedulerPlugin.DetailsIndented | plugins/scheduler/init.py:40-61 | every detail line is indented by two spaces |
| SchedulerPlugin.TaskInfoSplits | plugins/scheduler/init.py:36-63 | when no field holds a newline, the text splits back into exactly those lines |
| SchedulerPlugin.LinesSplit | plugins/scheduler/init.py:63 | lines without newlines, joined with newlines, split back into the same lines |
| SchedulerPlugin.TaskListLines | plugins/scheduler/init.py:66-77 | no tasks give "No tasks found"; otherwise exactly one line per task, in order |
| SchedulerPlugin.Fire | plugins/scheduler/init.py:80-105 | each callback sends one message to its target: the periodic message and the reminder contain their text, and the reminder starts with the nickname; the unbound countdown placeholder sends nothing |
| SchedulerPlugin.CountHolder.constructor | plugins/scheduler/init.py:412 | the mutable count cell starts at the count given |
| SchedulerPlugin.CountdownCallback | plugins/scheduler/init.py:86-93 | a positive count sends "Countdown: n" and decrements; zero sends "Countdown complete!" and stops the task; a count that starts non-negative never goes negative |
| SchedulerPlugin.Counting | plugins/scheduler/init.py:86-93 | a countdown from n ticks n times before completing |
| SchedulerPlugin.CountdownRuns | plugins/scheduler/init.py:86-93 | the n+1 runs a countdown from n is allowed are n ticks followed by one completion (the run limit is set at lines 412-420) |
| SchedulerPlugin.CountdownFromNothing | plugins/scheduler/init.py:86-93 | a countdown from zero or less completes on every run |
| SchedulerPlugin.LastArg | plugins/scheduler/init.py:315-331 | the value of an option is the last one given for any of its flags, or none when the flag never appears |
| SchedulerPlugin.LastArgStep | plugins/scheduler/init.py:315-331 | one more option overrides the value exactly when it is one of the flags |
| SchedulerPlugin.ScheduleOptionLoop | plugins/scheduler/init.py:315-331 | the option loop succeeds exactly when no option has a bad value, giving the settings the options describe; otherwise it reports the first bad value and whether `float` or `int` refused it |
| SchedulerPlugin.ScheduleOption | plugins/scheduler/init.py:316-331 | one option either fails on its bad value or updates the settings it names |
| SchedulerPlugin.ScheduleSettingsStep | plugins/scheduler/init.py:315-331 | the settings after one more option are the earlier settings updated by it |
| SchedulerPlugin.CommandSchedule | plugins/scheduler/init.py:264-442 | no arguments give the usage; a getopt error is reported; the first option whose value does not convert is reported alone, with the conversion (float or int) that refused it; otherwise the task type's effects with the settings from the options |
| SchedulerPlugin.ScheduleAddsOnce | plugins/scheduler/init.py:333-442 | at most one task is added, and first; it is added exactly for a known type with a message (heartbeat needs none) and, for a countdown, an integer count; an unknown type is reported |
| SchedulerPlugin.CountdownRequest | plugins/scheduler/init.py:397-420 | a countdown from n is periodic with interval 1, at most n+1 runs, not auto-started, and created with a placeholder callback |
| SchedulerPlugin.CountdownWiring | plugins/scheduler/init.py:420-432 | once created, its callback is bound to the new task's id, it is started only when auto-start is on, and the reply reports the outcome |
| SchedulerPlugin.ReminderOneShot | plugins/scheduler/init.py:357-379 | a reminder is one-shot with no run limit; its delay is the interval when no delay was given; its interval equals its delay; its callback carries the target, nickname and message |
| SchedulerPlugin.ScheduleNames | plugins/scheduler/init.py:336-355 | a message task takes the given name, or "periodic-msg-" plus the target when none (or an empty one) is given |
| SchedulerPlugin.ExampleLastArgs | plugins/scheduler/init.py:315-331 | `-i a -i b -m r` gives interval b, max runs r, and no delay, name or no-start |
| SchedulerPlugin.LastIntervalWins | plugins/scheduler/init.py:315-331 | the same options give the settings (b, no delay, r, no name, auto-start) |
| SchedulerPlugin.PositiveRuns | plugins/scheduler/init.py:484 | a max-runs value is kept only when positive |
| SchedulerPlugin.ModifyOptionLoop | plugins/scheduler/init.py:480-492 | the modify option loop succeeds exactly when no option has a bad value, giving the modification the options describe; otherwise the first bad value and the conversion that refused it |
| SchedulerPlugin.ModifyOption | plugins/scheduler/init.py:481-492 | one option either fails on its bad value or updates the modification |
| SchedulerPlugin.ModificationsStep | plugins/scheduler/init.py:480-492 | the modification after one more option is the earlier one updated by it |
| SchedulerPlugin.CommandModify | plugins/scheduler/init.py:445-506 | no arguments give the usage; a getopt error is reported; the first value that does not convert is reported alone with its conversion; otherwise the modification is applied to the task id given |
| SchedulerPlugin.ModifyOnlyWithChanges | plugins/scheduler/init.py:494-506 | the task is modified exactly when some field changes, with exactly those fields and a positive run limit; otherwise only "No modifications specified" is sent |
| SchedulerPlugin.ModificationRunsPositive | plugins/scheduler/init.py:484 | a modification never carries a run limit of zero or less |
| SchedulerPlugin.ZeroRunsChangeNothing | plugins/scheduler/init.py:484-496 | `-m 0` alone is no modification |
| SchedulerPlugin.PresetsListed | plugins/scheduler/init.py:527-545 | the unknown-preset reply lists exactly the preset names |
| SchedulerPlugin.CronName | plugins/scheduler/init.py:555-558 | the name is the last -n/--name value |
| SchedulerPlugin.CommandCron | plugins/scheduler/init.py:509-588 | no arguments give the usage; an unknown preset is rejected before options are read; a getopt error is reported; otherwise the preset's task |
| SchedulerPlugin.CronSchedules | plugins/scheduler/init.py:527-588 | an empty message adds nothing; otherwise one periodic, auto-started, unlimited task with the preset's interval (minutely 60, hourly 3600, daily 86400) sending the message |
| SchedulerPlugin.ListFilters | plugins/scheduler/init.py:145-160 | the list filters succeed exactly when every state named is a known state, giving the last plugin and state filters; otherwise the first bad state is reported |
| SchedulerPlugin.CommandTask | plugins/scheduler/init.py:108-261 | no arguments give the usage; the verbs need a task id; stopall stops everything; list reports bad options, or "Invalid state: " with the first state argument that is not a task state, and otherwise lists with the filters; other subcommands are reported as unknown |
| SchedulerPlugin.TaskVerbCalls | plugins/scheduler/init.py:182-255 | start, stop, pause, resume and remove call the scheduler with the id, and the reply reports failure exactly when the scheduler refused |
| SchedulerPlugin.TaskInfoReply | plugins/scheduler/init.py:168-180 | info asks for the task, answers "Task not found" when there is none, and otherwise the formatted lines |
| NetworkOptions.TruthyIgnoresCase | plugins/network/init.py:318 | a boolean option is true exactly for true, yes or 1 in any case; "on", "0", " true" and "" are false (modify repeats it at line 493) |
| NetworkOptions.CsvItems | plugins/network/init.py:312 | a comma list gives at least one item and no item holds a comma (modify repeats it at line 487) |
| NetworkOptions.CsvOfJoin | plugins/network/init.py:312 | stripped items without commas, joined with commas, are read back unchanged (modify repeats it at line 487) |
| NetworkOptions.Collect | plugins/network/init.py:314 | the list comprehension of `int(...)` succeeds with every value, or stops at the first item that fails (modify repeats it at line 489) |
| NetworkOptions.ParseNumbers | plugins/network/init.py:314 | a port list parses to one integer per item, or the first item that is not an integer is reported (modify repeats it at line 489) |
| NetworkOptions.NumbersOfInts | plugins/network/init.py:314 | the decimal forms of integers parse back to the integers (modify repeats it at line 489) |
| NetworkOptions.PortsOfJoin | plugins/network/init.py:314 | a port list written with commas is read back unchanged (modify repeats it at line 489) |
| NetworkOptions.Decode | plugins/network/init.py:310-344 | a decoded option value fits its field; only the port and mechanism options can fail (modify repeats it at lines 483-519) |
| NetworkOptions.DecodePorts | plugins/network/init.py:314-316 | a decoded port option is the parsed comma list (modify repeats it at lines 489-491) |
| NetworkOptions.DecodeMechanism | plugins/network/init.py:334-336 | a decoded mechanism option is the parsed integer (modify repeats it at lines 509-511) |
| NetworkOptions.Assign | plugins/network/init.py:312-342 | setting a dict key replaces an existing entry in place or appends a new one, and leaves every other key unchanged (modify repeats it at lines 486-518) |
| NetworkOptions.DecodeOptions | plugins/network/init.py:310-344 | the option loop gives the assignments the options describe, or the first failure (modify repeats it at lines 483-519) |
| NetworkOptions.FoldFits | plugins/network/init.py:483-519 | every value in the built dict fits its field |
| NetworkOptions.FoldLast | plugins/network/init.py:483-519 | each field holds the value of the last option that names it, and its earlier value when none does |
| NetworkOptions.LastOptionWins | plugins/network/init.py:310-344 | each field of the result holds the value of the last option naming it (modify repeats it at lines 483-519) |
| NetworkOptions.LastDecodes | plugins/network/init.py:483-519 | a field named by an option holds that option's decoded value |
| NetworkOptions.FoldOutcome | plugins/network/init.py:483-523 | the loop succeeds exactly when no option is refused, and otherwise stops at the first refused option with its error |
| NetworkOptions.ColumnRoundTrip | plugins/network/init.py:486-518 | each field maps to one database column and back |
| NetworkOptions.ColumnsDistinct | plugins/network/init.py:486-518 | distinct fields use distinct columns |
| NetworkOptions.ColumnKinds | core/database_manager.py:180-187 | the list, port and flag columns that the store converts are exactly those of the list, port and boolean options |
| NetworkOptions.Updates | plugins/network/init.py:538 | the updates passed to the store are the fields' columns with their values, in the order first set |
| NetworkOptions.StoredValue | core/database_manager.py:179-188 | each option value is converted by the store to its column value |
| NetworkOptions.UpdatesConvert | core/database_manager.py:179-188 | every update built from valid options is accepted by the store's conversion (the dict comes from the network plugin's modify) |
| NetworkPlugin.AuthNamesMatchConfig | plugins/network/init.py:64-65 | mechanisms 0..3 are named None, SASL, NickServ and Custom, and every other value "Unknown" |
| NetworkPlugin.InfoLayout | plugins/network/init.py:39-77 | the info parts are the id, name and addresses, then the port lists when non-empty, SSL, auto-connect, auto-reconnect and connection status, the connected address when known, the mechanism name, then nickname, SASL and channels when present |
| NetworkPlugin.InfoMentions | plugins/network/init.py:39-77 | the info text states the connection status, the mechanism name and the standard ports when there are any |
| NetworkPlugin.ItemTail | plugins/network/init.py:88-90 | an item ends with its status and the closing bracket |
| NetworkPlugin.ListItems | plugins/network/init.py:84-91 | one item per network, in order |
| NetworkPlugin.FormatNetworkList | plugins/network/init.py:80-93 | the loop builds "No networks configured" for none, otherwise the items joined by " -- " |
| NetworkPlugin.ItemState | plugins/network/init.py:88-90 | an item ends " Connected ]" exactly when connected and "Disconnected ]" exactly when not |
| NetworkPlugin.ListShowsEvery | plugins/network/init.py:80-93 | the list contains the item of every network |
| NetworkPlugin.ParseId | plugins/network/init.py:177-182 | an id argument is accepted exactly when present and an integer; missing gives the usage (modify repeats it at lines 456-458) |
| NetworkPlugin.TransitionReplyReports | plugins/network/init.py:170-251 | a connect, disconnect or reconnect reply starts "Success: " exactly when the manager accepted, and then names the network |
| NetworkPlugin.TransitionReports | plugins/network/init.py:170-251 | with an integer id, one call to the manager and one reply that reports its answer |
| NetworkPlugin.HandleAdd | plugins/network/init.py:267-399 | the handler yields the effects of the decoded options: usage or option errors as replies, otherwise the insert built from the options, then the reload and the success reply, or the failure reply when the insert or the reload raised |
| NetworkPlugin.AddNeedsAddresses | plugins/network/init.py:354-356 | a network is refused with "addresses required" exactly when no address option was given; otherwise its addresses are the comma items of the last one |
| NetworkPlugin.AddText | plugins/network/init.py:310-387 | text options take the last value given, or their default |
| NetworkPlugin.AddSwitch | plugins/network/init.py:318-387 | boolean options take the truthiness of the last value, or their default |
| NetworkPlugin.AddOper | plugins/network/init.py:337-338 | oper is on exactly when an oper option was given |
| NetworkPlugin.AddItems | plugins/network/init.py:312-365 | address and nickname lists are the comma items of the last option, or the default |
| NetworkPlugin.AddPorts | plugins/network/init.py:314-362 | port lists are the parsed items of the last option, or the default |
| NetworkPlugin.AddMechanism | plugins/network/init.py:334-387 | mechanisms are the parsed last value, or the default |
| NetworkPlugin.AddDefaults | plugins/network/init.py:359-364 | with only addresses given, ports default to [6667], SSL ports to [6697] and nicknames to Dunamis, Dunamis_, Dunamis__ |
| NetworkPlugin.AddReloads | plugins/network/init.py:367-399 | an attempted insert is followed by a reload and a success reply; a raising insert is followed only by "failed to add network" with its message, a raising reload by that reply after the reload; a refusal is one reply |
| NetworkPlugin.RemoveGuard | plugins/network/init.py:402-444 | a network is removed exactly when the id is an integer and the network is not connected; removal reloads only when the store removed a row and then replies "Success: removed network" or, when the reload raised, "Error: failed to remove network: " with the exception's message; otherwise only a reply |
| NetworkPlugin.HandleModify | plugins/network/init.py:447-550 | the corrected handler yields usage, id and option errors as replies, otherwise the update built from the options, the reload when a row matched, and a reply that reports success, a row not found, or "Error: failed to modify network: " when the reload raised (properties below) |
| NetworkPlugin.ModifyAgrees | plugins/network/init.py:447-550 | whenever the options set something, the corrected handler behaves as the code as written |
| NetworkPlugin.ModifyWithoutOptionsAsWritten | plugins/network/init.py:462-547 | as written, `modify 3 foo` sends an empty update and answers "network not found" |
| NetworkPlugin.ModifyNotFoundMeansNoRow | plugins/network/init.py:536-550 | corrected, "network not found" is sent exactly when something was to change and no row matched, "Success: modified network" exactly when a row matched and the reload did not raise, "Error: failed to modify network: " with the message when the reload raised, and an empty update is "no modifications specified" |
| NetworkPlugin.ModifyEnds | plugins/network/init.py:536-550 | an update with no changes is the single "no modifications specified" reply; otherwise the update ends with the reply chosen by whether a row matched and whether the reload raised |
| NetworkPlugin.UpdateRepliesDistinct | plugins/network/init.py:536-550 | the update's reply is "network not found" exactly when no row matched, the success reply exactly when a row matched and the reload did not raise, and never "no modifications specified" |
| NetworkPlugin.ModifyNotFoundAsWritten | plugins/network/init.py:538-547 | as written, "network not found" is sent when no row matched or when nothing was to change |
| NetworkPlugin.CommandNetwork | plugins/network/init.py:96-137 | the dispatcher routes the lower-cased subcommand to its handler (`modify` to the corrected HandleModify, so `network modify 3 foo` replies "no modifications specified" where the source reports "network not found: 3"; the as-written ModifyAsWritten is kept beside it), and gives usage for no arguments and an error naming an unknown subcommand |
| NetworkPlugin.DispatchIgnoresCase | plugins/network/init.py:109 | the subcommand name is matched case-insensitively |
| NetworkPlugin.UnknownSubcommand | plugins/network/init.py:130-137 | an unknown subcommand gets one reply naming it and listing the subcommands |
| NetworkPlugin.QueriesChangeNothing | plugins/network/init.py:140-167 | list, info and current never change the store or the manager (likewise the handler at lines 254-264) |
| ChannelPlugin.ChannelListShape | plugins/channel/init.py:33-48 | no channels, one channel and several channels give the three sentences, each told apart by how it starts, in both directions |
| ChannelPlugin.ChannelListTotal | plugins/channel/init.py:40-48 | the sentence for several channels ends with their count and the plural "channels." |
| ChannelPlugin.ChannelListMentions | plugins/channel/init.py:37-48 | every channel of the list is named in the sentence |
| ChannelPlugin.FirstInIsFirst | plugins/channel/init.py:129-133 | the inner loop finds a channel exactly when one from its start matches, and it finds the first one |
| ChannelPlugin.FirstFromIsFirst | plugins/channel/init.py:127-135 | the outer loop finds a channel exactly when a later network holds a match, and stops at the first network and the first channel that match |
| ChannelPlugin.SearchIsFirst | plugins/channel/init.py:232-240 | the search finds a channel exactly when some stored channel has the id, and the one found comes before every other match, networks first and channels second |
| ChannelPlugin.FindChannel | plugins/channel/init.py:395-403 | the nested loops with their two breaks return the network and the channel of the first match, or nothing |
| ChannelPlugin.IdOrUsage | plugins/channel/init.py:81-89 | the id is taken exactly when there is a first argument that is an integer; a missing or malformed id gives the usage line |
| ChannelPlugin.PartReplyAsWritten | plugins/channel/init.py:110-111 | as written, a part requests the part and then sends exactly the reply a join of the same id gets |
| ChannelPlugin.VerbsDiffer | plugins/channel/init.py:94-111 | two different verbs of one length give two different acknowledgements |
| ChannelPlugin.PartReplyCorrected | plugins/channel/init.py:97-111 | corrected, a part requests the part of that id and its reply names a part and differs from the reply to a join |
| ChannelPlugin.CycleWithoutId | plugins/channel/init.py:114-130 | as written, `channel cycle` with no id stops with UnboundLocalError; corrected, it gets the usage line |
| ChannelPlugin.CycleParts | plugins/channel/init.py:114-143 | with an id the two versions agree; the channel is parted exactly when a stored row has the id and its own network's id, and a successful cycle parts and then rejoins that id |
| ChannelPlugin.HandleCycle | plugins/channel/init.py:114-143 | the handler produces what the corrected cycle specifies: usage, not found, or the reply then part then join |
| ChannelPlugin.NetworkEntries | plugins/channel/init.py:162-177 | one entry per stored channel of the network, in order, each with the channel's id and name, the network's id and name, and whether that network's session has joined it |
| ChannelPlugin.AllEntriesSound | plugins/channel/init.py:159-177 | every collected entry is the entry of some stored channel |
| ChannelPlugin.AllEntriesComplete | plugins/channel/init.py:159-177 | every stored channel of every network has its entry among the collected ones |
| ChannelPlugin.CollectEntries | plugins/channel/init.py:159-177 | the nested loops build exactly the entries of all networks, network by network |
| ChannelPlugin.Insert | plugins/channel/init.py:197 | inserting adds exactly one entry and keeps every other |
| ChannelPlugin.InsertSorted | plugins/channel/init.py:197 | inserting into a list sorted by id keeps it sorted |
| ChannelPlugin.SortByIdSorts | plugins/channel/init.py:197 | the sort by id gives a list ordered by id |
| ChannelPlugin.SortByIdPermutes | plugins/channel/init.py:197 | the sort keeps every entry as often as it occurs |
| ChannelPlugin.EntryTexts | plugins/channel/init.py:200-206 | one text per entry, in the same order |
| ChannelPlugin.HandleList | plugins/channel/init.py:146-208 | the handler replies "No networks configured", "No channels configured in database", or the joined listing of all entries sorted by id |
| ChannelPlugin.ListJoinedStatus | plugins/channel/init.py:164-188 | an entry is reported "Joined" exactly when its own network has a live session that has joined the channel's name |
| ChannelPlugin.ListMentionsEvery | plugins/channel/init.py:159-208 | when some channel is stored, the command sends one reply that names every stored channel with its status, in the order of the ids |
| ChannelPlugin.ChannelId | plugins/channel/init.py:212-223 | the id is taken exactly when the first argument is an integer, and it is that integer |
| ChannelPlugin.InfoStatusMeaning | plugins/channel/init.py:251-272 | the status is "Joined" exactly when the session of the channel's network has it; "Unknown" exactly for another network with no manager; "Network not connected" exactly for another network without a session |
| ChannelPlugin.InfoAgreesWithList | plugins/channel/init.py:264-272 | for a connected network other than this one, `info` and `list` report the same status (the list computes it at lines 164-168) |
| ChannelPlugin.InfoPartsCount | plugins/channel/init.py:274-290 | the reply has seven fields, then one for each optional column that is set, and the fourth is the status |
| ChannelPlugin.HandleInfo | plugins/channel/init.py:211-292 | the handler replies with usage, invalid id, not found, or the fields of the first match |
| ChannelPlugin.Setting | plugins/channel/init.py:322-334 | one option fails exactly when it is a network option whose value is not an integer, with that value; other options leave the network as it was |
| ChannelPlugin.SettleFailure | plugins/channel/init.py:322-341 | the option loop fails exactly when some network value is not an integer, and then with the first such value |
| ChannelPlugin.SettleKeepsNetwork | plugins/channel/init.py:322-334 | options other than the network option leave the network unset |
| ChannelPlugin.SettleOne | plugins/channel/init.py:322-334 | the loop body sets the one setting its option names |
| ChannelPlugin.SettleOptions | plugins/channel/init.py:303-341 | the loop starts from the defaults and applies the options in order, stopping at the first bad network value |
| ChannelPlugin.HandleAdd | plugins/channel/init.py:295-376 | the handler replies with usage, an invalid option, an invalid value, a missing or invalid name, or inserts the row and reports whether it was new |
| ChannelPlugin.AddValidates | plugins/channel/init.py:322-365 | a row is inserted exactly when there is a name starting with '#', the options parse and every network value is an integer; the row carries that name |
| ChannelPlugin.AddDefaultNetwork | plugins/channel/init.py:352-354 | without a network option the row goes under the network the command came from |
| ChannelPlugin.AddWithDefaults | plugins/channel/init.py:303-376 | with no options the row holds the defaults: no password, auto-join on, auto-rejoin off, logging on, no prefix |
| ChannelPlugin.HandleRemove | plugins/channel/init.py:379-431 | the handler replies with usage, invalid id or not found, or deletes the first match and, once deleted, leaves the channel where the bot is in it |
| ChannelPlugin.RemoveLeaves | plugins/channel/init.py:410-429 | a channel is left only after its row was deleted, only under its own name, and only on a session that had joined it: this one's, or else the live session of its network |
| ChannelPlugin.DepartureLeaves | plugins/channel/init.py:418-429 | the leave after a delete names the deleted channel, on this session when it has joined it, otherwise on its own network's session |
| ChannelPlugin.Get | plugins/channel/init.py:485-495 | a key is absent exactly when no entry of the dict has it |
| ChannelPlugin.Put | plugins/channel/init.py:485-495 | assignment sets the key and leaves every other key alone; a known key keeps its place, and a new key goes last |
| ChannelPlugin.PutDistinct | plugins/channel/init.py:485-495 | assignment keeps the keys distinct |
| ChannelPlugin.UpdatesDistinct | plugins/channel/init.py:485-495 | the dict the options build sets each key at most once |
| ChannelPlugin.UpdatesAbsent | plugins/channel/init.py:485-495 | a key is present exactly when some option sets it |
| ChannelPlugin.UpdatesLastWins | plugins/channel/init.py:485-495 | a key holds the value of the last option that sets it |
| ChannelPlugin.BuildUpdates | plugins/channel/init.py:472-495 | the loop builds the dict that the options specify |
| ChannelPlugin.HandleModify | plugins/channel/init.py:434-513 | the handler replies with usage, invalid id, no modifications, not found, an invalid option, or issues the update and reports its outcome |
| ChannelPlugin.ModifyTargets | plugins/channel/init.py:452-510 | an unknown id gets "not found" whatever the options; an update is issued exactly for a stored channel whose options parse, under that channel's network and name |
| ChannelPlugin.ModifyWithoutSettings | plugins/channel/init.py:485-510 | arguments that set nothing reach the database as an empty dict and get "failed to update channel" |
| ChannelPlugin.CommandChannel | plugins/channel/init.py:51-77 | the dispatcher gives what the command specifies: usage without arguments, the handler the subcommand names (the corrected PartById and HandleCycle for `part` and `cycle`), or the unknown-subcommand error |
| ChannelPlugin.DispatchIgnoresCase | plugins/channel/init.py:70 | the subcommand is matched without regard to letter case |
| ChannelPlugin.UnknownSubcommand | plugins/channel/init.py:72-77 | a word other than the eight names gets the error naming it and the list of subcommands |
| ChannelPlugin.NotASubcommand | plugins/channel/init.py:52-61 | a word not in the list is none of the eight names |

## Left out

- start.py (process bootstrap, the reactor's run and stop, the shutdown trigger) is event-loop glue and is not part of this model; core/__init__.py only re-exports; plugins/test/init.py is a constant reply.
- Twisted itself: `connectTCP`/`connectSSL`/`callLater`, connector objects and IRCClient's line framing are outputs or opaque tokens, and the wire text of `join`, `leave`, `msg` and `mode` is an event, not bytes.
- SQL execution (every `cursor.execute` and `commit`, cascading deletes, the upsert of plugin state): an update is modelled by its SET clauses and values, and its effect on the store by an answer.
- TaskScheduler, PluginManager and Logger are not part of this model: the plugin manager is the set of command names it knows, a dispatch is logged, and every scheduler call is an effect whose answer is an input.
- Plugin loading in `connectionMade` (core/protocol.py:59-64) calls into the plugin manager and is not modelled; only what the session sends at connect is.
- `noticed` and `_load_persistent_tasks` only log.
- `command_help` calls a `command_trigger` that does not exist, and `update_plugin_status` is not a method of the database manager; both commands would fail on every call and are not modelled.
- The `8ball` answers, the `why`/`excuse` HTTP fetch, the `digiclock` and `date` commands (clock and time zones), `command_nick` and the `value_*` expansion helpers are I/O or randomness with no logic of their own to prove; `echo` takes the expansion as a parameter.
- `command_digits`: only the digit checks and the rendering are modelled; its option parsing, the braille replacement and the border option are not.
- The timestamp in periodic and heartbeat messages comes from the clock and is a parameter.
- Floats in task info (intervals, times) are carried as their rendering and truthiness, because Python's float formatting is not modelled.
- Shlex.Split: a simplified POSIX tokenizer; `shlex`'s punctuation, comment and escape-character settings other than the defaults the client uses are not modelled.
- NetworkManager.Manager.DisconnectAll: iterates over a snapshot of the insertion order instead of the `connectors` dict; the final state is the same, only the order of the disconnect calls may differ.
- FunPlugin.DigitsOf: `str.isdigit` is modelled for ASCII digits only; Unicode digits such as superscript two count as digits in the source and are not kept here.
- FunPlugin.DigitsArgument: with ASCII digits only, `digits ²` gets "No valid digits provided" where the source renders nothing and sends nothing, and a Unicode digit never counts towards the 20-digit limit.
- NetworkPlugin.ParseId: `int()` also accepts non-ASCII decimal digits (such as Arabic-Indic "٣"); the model's ParseInt reads ASCII digits with single underscores only, so such an id is refused as invalid.
- NetworkOptions.ParseNumbers: the same ASCII-only `int()` as ParseId, so a port list with non-ASCII digits is refused.
- ChannelPlugin.IdOrUsage: the same ASCII-only `int()` as NetworkPlugin.ParseId.
- ChannelPlugin.ChannelId: the same ASCII-only `int()` as NetworkPlugin.ParseId.
- ChannelPlugin.Setting: the network id setting goes through the same ASCII-only `int()` as NetworkPlugin.ParseId.
- NetworkManager.ByName: names are compared after ASCII lower-casing; `str.lower` also folds non-ASCII letters, so "ÄRZTE" does not find "ärzte" here.
- NetworkManager.Manager.GetNetworkByName: the same ASCII-only lower-casing as ByName.
- SchedulerPlugin.ListFilters: the state filter is upper-cased with ASCII rules; `str.upper` also maps letters such as "ſ" to "S", so "ſtopped" is accepted by the source and refused here.
- NetworkPlugin.UnknownSubcommand: the subcommand echoed in the error is lower-cased with ASCII rules, so "ÄBC" is echoed as "Äbc" where the source shows "äbc".
- ChannelPlugin.UnknownSubcommand: the same ASCII-only lower-casing as NetworkPlugin.UnknownSubcommand.
- SchedulerPlugin.CommandTask: the unknown subcommand is echoed after ASCII lower-casing, so "ÄBC" is echoed as "Äbc" where the source shows "äbc"; the dispatch itself is exact, because no non-ASCII letter lower-cases to a letter of a subcommand name.
- SchedulerPlugin.CommandSchedule: the unknown task type is echoed after ASCII lower-casing, so "ÄBC" is echoed as "Äbc" where the source shows "äbc"; the dispatch itself is exact, because no non-ASCII letter lower-cases to a letter of a task type name.
- SchedulerPlugin.CommandSchedule: the ValueError text of a refused value is named by its conversion (float or int) and argument; Python's quoting of the argument inside the message is not rendered.
- Protocol.Session.KickedFrom: Twisted's KICK handling does not call `left`, so the session model removes the channel itself before rejoining; the as-written member keeps the source's behaviour.
- DatabaseManager.UpdateNetwork: a list value holding a non-string item ends in `Err(TypeError)`, standing for the exception that `', '.join(...)` raises; the exception's message is not modelled.
- DatabaseManager.Bind: a list is the only value the model's `PyValue` can hold that sqlite3 refuses to bind (other Python objects such as dicts are not modelled); the logged error text is left out.

## Findings

| source | as written | input that shows it | evidently intended | confidence | as-written member | corrected member |
|---|---|---|---|---|---|---|
| core/factory.py:77 | `clientConnectionLost` calls `self._rotate.connection_target()`, an attribute the factory does not have | a connection lost while `should_reconnect` is true | rotate the target with `_rotate_connection_target()` and schedule a retry after the backoff | high, not executed | Factory.ClientFactory.ClientConnectionLostAsWritten, Factory.LostWithoutSessionNeverRetries | Factory.ClientFactory.ClientConnectionLost |
| core/protocol.py:173 | `kickedFrom` passes the channel name to `join_channel`, which compares it with channel ids | a kick from a stored channel whose `auto_rejoin` is set | rejoin the channel by its name, or by its id | high, not executed | Protocol.Session.KickedFromAsWritten, Protocol.KickNeverRejoins | Protocol.Session.KickedFrom, Protocol.KickRejoinsOnce |
| core/network_manager.py:134-139 | `reconnect_network` disconnects with `reconnect=True`, which keeps the connector, so `connect_network` finds the network still connected | reconnecting a network that is connected | the network is reconnected and the call returns True | high, not executed | NetworkManager.Manager.ReconnectNetwork, NetworkManager.ReconnectAsWritten | NetworkManager.Manager.ReconnectNetworkCorrected, NetworkManager.ReconnectCorrected |
| plugins/utilities/init.py:52-56 | `grid` takes `max()` of every column, and a column is empty when there are fewer items than columns | `commands` with two registered commands (six columns) | skip empty columns and show the items on one line | high, not executed | UtilitiesPlugin.Grid, UtilitiesPlugin.Commands, UtilitiesPlugin.GridExample | UtilitiesPlugin.GridCorrected, UtilitiesPlugin.ShortGridOneLine, UtilitiesPlugin.CommandsCorrected |
| plugins/channel/init.py:111 | a part is acknowledged with "Success: joining channel ID" | `channel part 5` | "Success: parting channel ID '5'" | medium, not executed | ChannelPlugin.PartReplyAsWritten | ChannelPlugin.PartReplyCorrected |
| plugins/channel/init.py:115-130 | without arguments `channel_id` is never bound, and the search reads it | `channel cycle` with no id | the usage line, as `join` and `part` give | high, not executed | ChannelPlugin.CycleWithoutId | ChannelPlugin.HandleCycle, ChannelPlugin.CycleWithoutId |
| plugins/network/init.py:462-547 | `modify` with options that set nothing sends an empty update, which the store refuses, and the failure is reported as "network not found" | `network modify 3 foo` for a stored network 3 | report that no modification was given, and "not found" only when no row has the id | medium, not executed | NetworkPlugin.ModifyWithoutOptionsAsWritten, NetworkPlugin.ModifyNotFoundAsWritten | NetworkPlugin.HandleModify, NetworkPlugin.ModifyNotFoundMeansNoRow |
