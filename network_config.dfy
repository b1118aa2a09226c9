/**
 * The per-network configuration record and its "primary" and "next" lookups
 * (core/network_config.py).  Everything here is pure: the record is never
 * mutated, a lookup is an index into one of its lists.
 */
module NetworkConfig {
  import opened Wrappers

  /** Fallbacks used when the corresponding list is empty. */
  const DefaultNickname: string := "Dunamis"
  const DefaultAddress: string := "localhost"
  const DefaultPort: int := 6667

  /** Authentication mechanisms (`auth_mechanism`). */
  const AuthNone: int := 0
  const AuthSasl: int := 1
  const AuthNickServ: int := 2
  const AuthCustom: int := 3

  /** SASL mechanisms (`sasl_mechanism`). */
  const SaslNone: int := 0
  const SaslPlain: int := 1
  const SaslExternal: int := 2

  datatype Config = Config(
    id: int,
    name: string,
    addresses: seq<string>,
    ports: seq<int>,
    sslPorts: seq<int>,
    enableSsl: bool,
    autoConnect: bool,
    autoReconnect: bool,
    nicknames: seq<string>,
    ident: string,
    realname: string,
    authMechanism: int,
    saslMechanism: int,
    authUsername: string,
    authPassword: string,
    operAuth: bool,
    operUsername: string,
    operPassword: string,
    commandPrefix: string,
    rplWelcome: Option<string>,
    rplYourhost: Option<string>,
    rplCreated: Option<string>,
    rplMyinfo: Option<string>,
    rplIsupport: Option<string>,
    rplVisiblehost: Option<string>)

  // ---------------------------------------------------------------------------
  // Generic list lookups

  /** Python's `xs.index(x)`: the first position of `x`, or None where Python raises ValueError. */
  function IndexOf<T(==)>(xs: seq<T>, x: T): (r: Option<nat>)
    ensures r.Some? ==> r.value < |xs| && xs[r.value] == x
    ensures r.Some? ==> forall j :: 0 <= j < r.value ==> xs[j] != x
    ensures r.None? <==> x !in xs
    decreases |xs|
  {
    if xs == [] then None
    else if xs[0] == x then Some(0)
    else match IndexOf(xs[1..], x)
      case None => None
      case Some(i) => Some(i + 1)
  }

  /** `xs[0] if xs else fallback`. */
  function FirstOr<T>(xs: seq<T>, fallback: T): T {
    if |xs| > 0 then xs[0] else fallback
  }

  /**
   * The successor of `cur` in `xs`, cyclically, counted from its first
   * occurrence; `primary` when the list is empty or `cur` is absent.
   */
  function NextIn<T(==)>(xs: seq<T>, cur: T, primary: T): T {
    if xs == [] then primary
    else match IndexOf(xs, cur)
      case None => primary
      case Some(i) => xs[(i + 1) % |xs|]
  }

  predicate Distinct<T(==)>(xs: seq<T>) {
    forall i, j :: 0 <= i < j < |xs| ==> xs[i] != xs[j]
  }

  // ---------------------------------------------------------------------------
  // The properties of network_config.py

  function PrimaryNickname(c: Config): string {
    FirstOr(c.nicknames, DefaultNickname)
  }

  function PrimaryAddress(c: Config): string {
    FirstOr(c.addresses, DefaultAddress)
  }

  /** The port list in use: the TLS list exactly when `enable_ssl`. */
  function ActivePorts(c: Config): seq<int> {
    if c.enableSsl then c.sslPorts else c.ports
  }

  function PrimaryPort(c: Config): int {
    FirstOr(ActivePorts(c), DefaultPort)
  }

  function GetNextAddress(c: Config, cur: string): (r: string)
    ensures cur !in c.addresses ==> r == PrimaryAddress(c)
    ensures c.addresses != [] ==> r in c.addresses
    ensures forall i :: 0 <= i < |c.addresses| && c.addresses[i] == cur && cur !in c.addresses[..i]
              ==> r == c.addresses[(i + 1) % |c.addresses|]
  {
    NextInFacts(c.addresses, cur, PrimaryAddress(c));
    NextIn(c.addresses, cur, PrimaryAddress(c))
  }

  function GetNextPort(c: Config, cur: int): (r: int)
    ensures cur !in ActivePorts(c) ==> r == PrimaryPort(c)
    ensures ActivePorts(c) != [] ==> r in ActivePorts(c)
    ensures forall i :: 0 <= i < |ActivePorts(c)| && ActivePorts(c)[i] == cur && cur !in ActivePorts(c)[..i]
              ==> r == ActivePorts(c)[(i + 1) % |ActivePorts(c)|]
  {
    NextInFacts(ActivePorts(c), cur, PrimaryPort(c));
    NextIn(ActivePorts(c), cur, PrimaryPort(c))
  }

  function GetNextNickname(c: Config, cur: string): (r: string)
    ensures cur !in c.nicknames ==> r == PrimaryNickname(c)
    ensures c.nicknames != [] ==> r in c.nicknames
    ensures forall i :: 0 <= i < |c.nicknames| && c.nicknames[i] == cur && cur !in c.nicknames[..i]
              ==> r == c.nicknames[(i + 1) % |c.nicknames|]
  {
    NextInFacts(c.nicknames, cur, PrimaryNickname(c));
    NextIn(c.nicknames, cur, PrimaryNickname(c))
  }

  /** What every `get_next_*` inherits: fallback, membership and first-occurrence successor. */
  lemma NextInFacts<T>(xs: seq<T>, cur: T, primary: T)
    requires xs != [] ==> primary == xs[0]
    ensures cur !in xs ==> NextIn(xs, cur, primary) == primary
    ensures xs != [] ==> NextIn(xs, cur, primary) in xs
    ensures forall i :: 0 <= i < |xs| && xs[i] == cur && cur !in xs[..i]
              ==> NextIn(xs, cur, primary) == xs[(i + 1) % |xs|]
  {
    forall i | 0 <= i < |xs| && xs[i] == cur && cur !in xs[..i]
      ensures NextIn(xs, cur, primary) == xs[(i + 1) % |xs|]
    {
      var k := IndexOf(xs, cur);
      assert forall j :: 0 <= j < i ==> xs[..i][j] == xs[j];
      assert k.Some? && k.value == i;
    }
  }

  /** The primary value is what an absent current value maps to, and it belongs to its list. */
  lemma PrimaryIsFallback(c: Config, nick: string, address: string, port: int)
    requires nick !in c.nicknames && address !in c.addresses && port !in ActivePorts(c)
    ensures GetNextNickname(c, nick) == PrimaryNickname(c)
    ensures GetNextAddress(c, address) == PrimaryAddress(c)
    ensures GetNextPort(c, port) == PrimaryPort(c)
    ensures c.nicknames != [] ==> PrimaryNickname(c) == c.nicknames[0]
    ensures c.nicknames == [] ==> PrimaryNickname(c) == "Dunamis"
    ensures c.addresses == [] ==> PrimaryAddress(c) == "localhost"
    ensures ActivePorts(c) == [] ==> PrimaryPort(c) == 6667
  {
  }

  /** The inactive port list never influences port selection. */
  lemma PortsIgnoreInactiveList(c: Config, other: seq<int>, cur: int)
    ensures c.enableSsl ==> GetNextPort(c.(ports := other), cur) == GetNextPort(c, cur)
    ensures c.enableSsl ==> PrimaryPort(c.(ports := other)) == PrimaryPort(c)
    ensures !c.enableSsl ==> GetNextPort(c.(sslPorts := other), cur) == GetNextPort(c, cur)
    ensures !c.enableSsl ==> PrimaryPort(c.(sslPorts := other)) == PrimaryPort(c)
  {
  }

  // ---------------------------------------------------------------------------
  // Cycling

  /** `n` successive applications of the lookup, starting at `x`. */
  function Iterate<T(==)>(xs: seq<T>, x: T, n: nat): T
    requires xs != []
    decreases n
  {
    if n == 0 then x else Iterate(xs, NextIn(xs, x, xs[0]), n - 1)
  }

  /** On a duplicate-free list one step moves one position forward, cyclically. */
  lemma NextOnDistinct<T>(xs: seq<T>, i: nat)
    requires Distinct(xs) && i < |xs|
    ensures NextIn(xs, xs[i], xs[0]) == if i + 1 < |xs| then xs[i + 1] else xs[0]
  {
    var k := IndexOf(xs, xs[i]);
    assert k.Some?;
    assert k.value == i;
    var m := |xs|;
    if i + 1 == m {
      assert (i + 1) % m == 0;
    } else {
      assert (i + 1) % m == i + 1;
    }
  }

  lemma {:induction false} IterateCompose<T>(xs: seq<T>, x: T, a: nat, b: nat)
    requires xs != []
    ensures Iterate(xs, x, a + b) == Iterate(xs, Iterate(xs, x, a), b)
    decreases a
  {
    if a > 0 {
      IterateCompose(xs, NextIn(xs, x, xs[0]), a - 1, b);
    }
  }

  /** Walking forward without wrapping visits the following positions in order. */
  lemma {:induction false} IterateForward<T>(xs: seq<T>, i: nat, n: nat)
    requires Distinct(xs) && i + n < |xs|
    ensures Iterate(xs, xs[i], n) == xs[i + n]
    decreases n
  {
    if n > 0 {
      NextOnDistinct(xs, i);
      IterateForward(xs, i + 1, n - 1);
    }
  }

  /** From position `i`, `|xs| - i` steps lead back to the head of the list. */
  lemma {:induction false} IterateWraps<T>(xs: seq<T>, i: nat)
    requires Distinct(xs) && i < |xs|
    ensures Iterate(xs, xs[i], |xs| - i) == xs[0]
    decreases |xs| - i
  {
    NextOnDistinct(xs, i);
    if i + 1 < |xs| {
      IterateWraps(xs, i + 1);
    }
  }

  /** After as many steps as the list is long, every member comes back to itself, and not sooner. */
  lemma CycleReturns<T>(xs: seq<T>, i: nat)
    requires Distinct(xs) && i < |xs|
    ensures Iterate(xs, xs[i], |xs|) == xs[i]
    ensures forall n :: 0 < n < |xs| ==> Iterate(xs, xs[i], n) != xs[i]
  {
    CycleBack(xs, i);
    forall n | 0 < n < |xs| ensures Iterate(xs, xs[i], n) != xs[i] {
      NotSooner(xs, i, n);
    }
  }

  lemma CycleBack<T>(xs: seq<T>, i: nat)
    requires Distinct(xs) && i < |xs|
    ensures Iterate(xs, xs[i], |xs|) == xs[i]
  {
    var m := |xs|;
    IterateWraps(xs, i);
    IterateCompose(xs, xs[i], m - i, i);
    IterateForward(xs, 0, i);
  }

  lemma NotSooner<T>(xs: seq<T>, i: nat, n: nat)
    requires Distinct(xs) && i < |xs| && 0 < n < |xs|
    ensures Iterate(xs, xs[i], n) != xs[i]
  {
    var m := |xs|;
    if i + n < m {
      IterateForward(xs, i, n);
    } else {
      var rest := n - (m - i);
      IterateWraps(xs, i);
      IterateCompose(xs, xs[i], m - i, rest);
      IterateForward(xs, 0, rest);
      assert Iterate(xs, xs[i], n) == xs[rest];
    }
  }

  /** On a duplicate-free list, every entry is reached from every other within one cycle. */
  lemma IterateReaches<T>(xs: seq<T>, i: nat, t: nat) returns (n: nat)
    requires Distinct(xs) && i < |xs| && t < |xs|
    ensures n < |xs| && Iterate(xs, xs[i], n) == xs[t]
  {
    var m := |xs|;
    if i <= t {
      n := t - i;
      IterateForward(xs, i, n);
    } else {
      n := m - i + t;
      IterateWraps(xs, i);
      IterateCompose(xs, xs[i], m - i, t);
      IterateForward(xs, 0, t);
    }
  }

  /**
   * Because `index` finds the first occurrence, a repeated entry restarts the
   * cycle there: over ["a", "b", "a", "c"] starting at "a" the lookup never
   * reaches "c".
   */
  lemma {:induction false} DuplicateHidesLaterEntries(n: nat)
    ensures Iterate(["a", "b", "a", "c"], "a", n) in {"a", "b"}
    decreases n
  {
    var xs := ["a", "b", "a", "c"];
    if n > 0 {
      assert NextIn(xs, "a", "a") == "b";
      assert NextIn(xs, "b", "a") == "a";
      DuplicateHidesLaterEntriesFrom("b", n - 1);
    }
  }

  lemma {:induction false} DuplicateHidesLaterEntriesFrom(x: string, n: nat)
    requires x in {"a", "b"}
    ensures Iterate(["a", "b", "a", "c"], x, n) in {"a", "b"}
    decreases n
  {
    var xs := ["a", "b", "a", "c"];
    if n > 0 {
      assert NextIn(xs, "a", "a") == "b";
      assert NextIn(xs, "b", "a") == "a";
      DuplicateHidesLaterEntriesFrom(NextIn(xs, x, xs[0]), n - 1);
    }
  }

  /** Nickname collision recovery over ["X", "X_", "X__"]. */
  lemma NicknameCycleExample(c: Config)
    requires c.nicknames == ["X", "X_", "X__"]
    ensures GetNextNickname(c, "X") == "X_"
    ensures GetNextNickname(c, "X_") == "X__"
    ensures GetNextNickname(c, "X__") == "X"
    ensures GetNextNickname(c, "Y") == "X"
  {
    assert c.nicknames[..0] == [];
    assert "X_" !in c.nicknames[..1];
    assert "X__" !in c.nicknames[..2];
  }
}
