/**
 * The reconnecting client factory of core/factory.py: it builds the session
 * for each connection, keeps the address/port it is aiming at, and after a
 * failed or lost connection decides whether and after what delay to retry.
 *
 * The reactor is an output: a handler returns the retry it schedules
 * (`reactor.callLater(delay, connector.connect)`) instead of scheduling it.
 */
module Factory {
  import opened Wrappers
  import opened NetworkConfig
  import Protocol

  // ---------------------------------------------------------------------------
  // Rotation of the connection target

  /** `_rotate_connection_target` on the pair (address, port). */
  function Rotate(c: Config, target: (string, int)): (string, int) {
    var ports := ActivePorts(c);
    var primary := FirstOr(ports, DefaultPort);
    var next := NextIn(ports, target.1, primary);
    if next == primary || next == target.1 then (NextIn(c.addresses, target.0, FirstOr(c.addresses, DefaultAddress)), primary)
    else (target.0, next)
  }

  /** The rotation in the terms of the configuration's own lookups. */
  lemma RotateIsLookups(c: Config, target: (string, int))
    ensures var next := GetNextPort(c, target.1);
      Rotate(c, target) ==
        if next == PrimaryPort(c) || next == target.1 then (GetNextAddress(c, target.0), PrimaryPort(c)) else (target.0, next)
  {
  }

  /** `n` successive applications of a step. */
  function Steps<T>(f: T -> T, x: T, n: nat): T
    decreases n
  {
    if n == 0 then x else f(Steps(f, x, n - 1))
  }

  lemma {:induction false} StepsCompose<T>(f: T -> T, x: T, a: nat, b: nat)
    ensures Steps(f, x, a + b) == Steps(f, Steps(f, x, a), b)
    decreases b
  {
    if b > 0 {
      StepsCompose(f, x, a, b - 1);
    }
  }

  /** One more step after reaching `y` reaches `f(y)`. */
  lemma StepsLast<T>(f: T -> T, x: T, n: nat, y: T, z: T)
    requires n > 0 && Steps(f, x, n - 1) == y && f(y) == z
    ensures Steps(f, x, n) == z
  {
  }

  function Rotation(c: Config): ((string, int)) -> (string, int) {
    target => Rotate(c, target)
  }

  /** `n` successive rotations. */
  function RotateN(c: Config, target: (string, int), n: nat): (string, int) {
    Steps(Rotation(c), target, n)
  }

  lemma RotateNCompose(c: Config, target: (string, int), a: nat, b: nat)
    ensures RotateN(c, target, a + b) == RotateN(c, RotateN(c, target, a), b)
  {
    StepsCompose(Rotation(c), target, a, b);
  }

  /** The last of `n` rotations, once the first `n - 1` are known. */
  lemma RotateNLastIs(c: Config, x: (string, int), n: nat, y: (string, int), z: (string, int))
    requires n > 0 && RotateN(c, x, n - 1) == y && Rotation(c)(y) == z
    ensures RotateN(c, x, n) == z
  {
    StepsLast(Rotation(c), x, n, y, z);
  }

  lemma RotateNLast(c: Config, target: (string, int), n: nat)
    requires n > 0
    ensures RotateN(c, target, n) == Rotate(c, RotateN(c, target, n - 1))
  {
  }

  /** Inside the port list a rotation moves to the next port on the same address. */
  lemma RotatePortStep(c: Config, address: string, i: nat)
    requires Distinct(ActivePorts(c)) && i + 1 < |ActivePorts(c)|
    ensures Rotate(c, (address, ActivePorts(c)[i])) == (address, ActivePorts(c)[i + 1])
  {
    var ps := ActivePorts(c);
    NextOnDistinct(ps, i);
    assert PrimaryPort(c) == ps[0];
  }

  /** From the last port a rotation moves to the next address and the primary port. */
  lemma RotateAddressStep(c: Config, address: string)
    requires Distinct(ActivePorts(c)) && ActivePorts(c) != []
    ensures Rotate(c, (address, ActivePorts(c)[|ActivePorts(c)| - 1])) == (GetNextAddress(c, address), ActivePorts(c)[0])
  {
    var ps := ActivePorts(c);
    NextOnDistinct(ps, |ps| - 1);
  }

  /** The two steps above, as steps of the rotation function. */
  lemma PortStep(c: Config, address: string, i: nat)
    requires Distinct(ActivePorts(c)) && i + 1 < |ActivePorts(c)|
    ensures Rotation(c)((address, ActivePorts(c)[i])) == (address, ActivePorts(c)[i + 1])
  {
    RotatePortStep(c, address, i);
  }

  lemma AddressStep(c: Config, address: string)
    requires Distinct(ActivePorts(c)) && ActivePorts(c) != []
    ensures Rotation(c)((address, ActivePorts(c)[|ActivePorts(c)| - 1])) == (GetNextAddress(c, address), ActivePorts(c)[0])
  {
    RotateAddressStep(c, address);
  }

  /** With no port list every rotation moves to the next address and the default port. */
  lemma RotateWithoutPorts(c: Config, target: (string, int))
    requires ActivePorts(c) == []
    ensures Rotate(c, target) == (GetNextAddress(c, target.0), DefaultPort)
  {
  }

  lemma {:induction false} RotateAlongPorts(c: Config, address: string, j: nat)
    requires Distinct(ActivePorts(c)) && j < |ActivePorts(c)|
    ensures RotateN(c, (address, ActivePorts(c)[0]), j) == (address, ActivePorts(c)[j])
    decreases j
  {
    if j > 0 {
      var ps := ActivePorts(c);
      RotateAlongPorts(c, address, j - 1);
      PortStep(c, address, j - 1);
      RotateNLastIs(c, (address, ps[0]), j, (address, ps[j - 1]), (address, ps[j]));
    }
  }

  /** One round through the ports ends on the next address at the primary port. */
  lemma RotateRound(c: Config, address: string)
    requires Distinct(ActivePorts(c)) && ActivePorts(c) != []
    ensures RotateN(c, (address, ActivePorts(c)[0]), |ActivePorts(c)|) == (GetNextAddress(c, address), ActivePorts(c)[0])
  {
    var ps := ActivePorts(c);
    var m := |ps|;
    RotateAlongPorts(c, address, m - 1);
    AddressStep(c, address);
    RotateNLastIs(c, (address, ps[0]), m, (address, ps[m - 1]), (GetNextAddress(c, address), ps[0]));
  }

  /** The number of rotations in `k` rounds of `m` ports, counted round by round. */
  function RoundSteps(k: nat, m: nat): nat
    decreases k
  {
    if k == 0 then 0 else RoundSteps(k - 1, m) + m
  }

  /** `k` rounds of `m` steps are `k · m` steps. */
  lemma {:induction false} RoundStepsProduct(k: nat, m: nat)
    ensures RoundSteps(k, m) == k * m
    decreases k
  {
    if k > 0 {
      RoundStepsProduct(k - 1, m);
    }
  }

  lemma {:induction false} RotateRounds(c: Config, address: string, k: nat)
    requires Distinct(ActivePorts(c)) && ActivePorts(c) != [] && c.addresses != []
    ensures RotateN(c, (address, ActivePorts(c)[0]), RoundSteps(k, |ActivePorts(c)|)) == (Iterate(c.addresses, address, k), ActivePorts(c)[0])
    decreases k
  {
    var ps := ActivePorts(c);
    var m := |ps|;
    if k > 0 {
      var here := Iterate(c.addresses, address, k - 1);
      var prev := RoundSteps(k - 1, m);
      assert RotateN(c, (address, ps[0]), prev + m) == (GetNextAddress(c, here), ps[0]) by {
        RotateRounds(c, address, k - 1);
        RotateAfter(c, (address, ps[0]), prev, (here, ps[0]), m);
        RotateRound(c, here);
      }
      assert RoundSteps(k, m) == prev + m;
      IterateOnce(c, address, k);
    }
  }

  /** One more step of the address iteration is one more `get_next_address`. */
  lemma IterateOnce(c: Config, address: string, k: nat)
    requires c.addresses != [] && k > 0
    ensures Iterate(c.addresses, address, k) == GetNextAddress(c, Iterate(c.addresses, address, k - 1))
  {
    IterateCompose(c.addresses, address, k - 1, 1);
  }

  /**
   * With duplicate-free lists, `k` full rounds of the ports followed by `j`
   * more rotations stand at the address `k` steps on and at port `j`.
   */
  lemma RotatePosition(c: Config, address: string, k: nat, j: nat)
    requires Distinct(ActivePorts(c)) && ActivePorts(c) != [] && c.addresses != []
    requires j < |ActivePorts(c)|
    ensures RotateN(c, (address, ActivePorts(c)[0]), RoundSteps(k, |ActivePorts(c)|) + j) ==
      (Iterate(c.addresses, address, k), ActivePorts(c)[j])
  {
    var ps := ActivePorts(c);
    var here := Iterate(c.addresses, address, k);
    RotateRounds(c, address, k);
    RotateAlongPorts(c, here, j);
    RotateAfter(c, (address, ps[0]), RoundSteps(k, |ps|), (here, ps[0]), j);
  }

  /** Once `n` rotations reach `mid`, `j` more continue from there. */
  lemma RotateAfter(c: Config, start: (string, int), n: nat, mid: (string, int), j: nat)
    requires RotateN(c, start, n) == mid
    ensures RotateN(c, start, n + j) == RotateN(c, mid, j)
  {
    RotateNCompose(c, start, n, j);
  }

  /** Where the rotation stands after `k` full rounds of the ports and `j` more steps. */
  function Visit(c: Config, start: (string, int), k: nat, j: nat): (string, int) {
    RotateN(c, start, RoundSteps(k, |ActivePorts(c)|) + j)
  }

  /**
   * Starting from a configured address at the primary port, the rotation
   * is back after |addresses| rounds of the ports (|addresses|·|ports| steps,
   * by RoundStepsProduct) and not sooner, and within those rounds it stands
   * at every configured address with every active port.
   */
  lemma RotationCycle(c: Config, i: nat)
    requires Distinct(ActivePorts(c)) && ActivePorts(c) != []
    requires Distinct(c.addresses) && i < |c.addresses|
    ensures RotateN(c, (c.addresses[i], PrimaryPort(c)), RoundSteps(|c.addresses|, |ActivePorts(c)|)) == (c.addresses[i], PrimaryPort(c))
    ensures forall k: nat, j: nat :: k < |c.addresses| && j < |ActivePorts(c)| && (k > 0 || j > 0) ==>
      Visit(c, (c.addresses[i], PrimaryPort(c)), k, j) != (c.addresses[i], PrimaryPort(c))
    ensures forall a, p :: a in c.addresses && p in ActivePorts(c) ==>
      exists k: nat, j: nat :: k < |c.addresses| && j < |ActivePorts(c)| && Visit(c, (c.addresses[i], PrimaryPort(c)), k, j) == (a, p)
  {
    RotationBack(c, i);
    forall a, p | a in c.addresses && p in ActivePorts(c)
      ensures exists k: nat, j: nat :: k < |c.addresses| && j < |ActivePorts(c)| && Visit(c, (c.addresses[i], PrimaryPort(c)), k, j) == (a, p)
    {
      var k, j := RotationCovers(c, i, a, p);
    }
    forall k: nat, j: nat | k < |c.addresses| && j < |ActivePorts(c)| && (k > 0 || j > 0)
      ensures Visit(c, (c.addresses[i], PrimaryPort(c)), k, j) != (c.addresses[i], PrimaryPort(c))
    {
      RotationNotSooner(c, i, k, j);
    }
  }

  /** Within one cycle, the rotation stands at every configured address with every active port. */
  lemma RotationCovers(c: Config, i: nat, a: string, p: int) returns (k: nat, j: nat)
    requires Distinct(ActivePorts(c)) && ActivePorts(c) != []
    requires Distinct(c.addresses) && i < |c.addresses|
    requires a in c.addresses && p in ActivePorts(c)
    ensures k < |c.addresses| && j < |ActivePorts(c)| && Visit(c, (c.addresses[i], PrimaryPort(c)), k, j) == (a, p)
  {
    var ps := ActivePorts(c);
    var t :| 0 <= t < |c.addresses| && c.addresses[t] == a;
    j :| 0 <= j < |ps| && ps[j] == p;
    k := IterateReaches(c.addresses, i, t);
    assert PrimaryPort(c) == ps[0];
    RotatePosition(c, c.addresses[i], k, j);
  }

  lemma RotationBack(c: Config, i: nat)
    requires Distinct(ActivePorts(c)) && ActivePorts(c) != []
    requires Distinct(c.addresses) && i < |c.addresses|
    ensures RotateN(c, (c.addresses[i], PrimaryPort(c)), RoundSteps(|c.addresses|, |ActivePorts(c)|)) == (c.addresses[i], PrimaryPort(c))
  {
    RotatePosition(c, c.addresses[i], |c.addresses|, 0);
    CycleBack(c.addresses, i);
  }

  lemma RotationNotSooner(c: Config, i: nat, k: nat, j: nat)
    requires Distinct(ActivePorts(c)) && ActivePorts(c) != []
    requires Distinct(c.addresses) && i < |c.addresses|
    requires k < |c.addresses| && j < |ActivePorts(c)| && (k > 0 || j > 0)
    ensures Visit(c, (c.addresses[i], PrimaryPort(c)), k, j) != (c.addresses[i], PrimaryPort(c))
  {
    var ps := ActivePorts(c);
    var a := c.addresses[i];
    assert PrimaryPort(c) == ps[0];
    RotatePosition(c, a, k, j);
    assert Visit(c, (a, ps[0]), k, j) == (Iterate(c.addresses, a, k), ps[j]);
    if k > 0 {
      NotSooner(c.addresses, i, k);
    } else {
      assert ps[j] != ps[0];
    }
  }

  /** Addresses [a, b, c] and ports [1, 2], starting at (a, 1). */
  lemma RotationExample(c: Config)
    requires c.addresses == ["a", "b", "c"] && !c.enableSsl && c.ports == [1, 2]
    ensures Rotate(c, ("a", 1)) == ("a", 2)
    ensures Rotate(c, ("a", 2)) == ("b", 1)
    ensures Rotate(c, ("b", 1)) == ("b", 2)
    ensures Rotate(c, ("b", 2)) == ("c", 1)
    ensures Rotate(c, ("c", 1)) == ("c", 2)
    ensures Rotate(c, ("c", 2)) == ("a", 1)
  {
    assert Distinct(c.addresses) && Distinct(ActivePorts(c));
    RotatePortStep(c, "a", 0);
    RotatePortStep(c, "b", 0);
    RotatePortStep(c, "c", 0);
    RotateAddressStep(c, "a");
    RotateAddressStep(c, "b");
    RotateAddressStep(c, "c");
    NextOnDistinct(c.addresses, 0);
    NextOnDistinct(c.addresses, 1);
    NextOnDistinct(c.addresses, 2);
  }

  // ---------------------------------------------------------------------------
  // Backoff

  const InitialRetryDelay: real := 5.0
  const MaxRetryDelay: real := 300.0

  /** `min(d * 1.5, 300.0)`. */
  function NextDelay(d: real): (r: real)
    ensures r <= MaxRetryDelay
    ensures r == d * 1.5 || r == MaxRetryDelay
    ensures d >= 0.0 ==> r >= d || r == MaxRetryDelay
  {
    if MaxRetryDelay < d * 1.5 then MaxRetryDelay else d * 1.5
  }

  /** The delay after `n` consecutive failures from a fresh factory. */
  function BackoffAfter(n: nat): real
    decreases n
  {
    if n == 0 then InitialRetryDelay else NextDelay(BackoffAfter(n - 1))
  }

  /** The first ten delays, 5·1.5ⁿ. */
  lemma BackoffTable()
    ensures BackoffAfter(1) == 7.5 && BackoffAfter(2) == 11.25 && BackoffAfter(3) == 16.875
    ensures BackoffAfter(4) == 25.3125 && BackoffAfter(5) == 37.96875 && BackoffAfter(6) == 56.953125
    ensures BackoffAfter(7) == 85.4296875 && BackoffAfter(8) == 128.14453125
    ensures BackoffAfter(9) == 192.216796875 && BackoffAfter(10) == 288.3251953125
    ensures BackoffAfter(11) == 300.0
  {
    assert BackoffAfter(1) == 7.5;
    assert BackoffAfter(2) == 11.25;
    assert BackoffAfter(3) == 16.875;
    assert BackoffAfter(4) == 25.3125;
    assert BackoffAfter(5) == 37.96875;
    assert BackoffAfter(6) == 56.953125;
    assert BackoffAfter(7) == 85.4296875;
    assert BackoffAfter(8) == 128.14453125;
    assert BackoffAfter(9) == 192.216796875;
    assert BackoffAfter(10) == 288.3251953125;
  }

  /** From the eleventh failure on, the delay is the cap. */
  lemma {:induction false} BackoffCapped(n: nat)
    requires n >= 11
    ensures BackoffAfter(n) == MaxRetryDelay
    decreases n
  {
    if n == 11 {
      BackoffTable();
    } else {
      BackoffCapped(n - 1);
    }
  }

  /** 5.0 ≤ delay ≤ 300.0, and the delays never decrease. */
  lemma BackoffBounds(n: nat)
    ensures InitialRetryDelay <= BackoffAfter(n) <= MaxRetryDelay
    ensures BackoffAfter(n) <= BackoffAfter(n + 1)
  {
    BackoffTable();
    if n >= 11 {
      BackoffCapped(n);
      BackoffCapped(n + 1);
    } else {
      assert n <= 10;
    }
  }

  // ---------------------------------------------------------------------------
  // The factory

  /** `network_manager.connected_addresses`, which the factory writes on every rotation. */
  class AddressRegistry {
    var connected: map<int, (string, int)>

    constructor ()
      ensures connected == map[]
    {
      connected := map[];
    }
  }

  /** What a connection handler asks of the reactor. */
  datatype RetryOutcome =
    | NoRetry
    | RetryAfter(delay: real)
    | RaisedAttributeError     // the handler raised before scheduling anything

  class ClientFactory {
    const config: Config
    /** The network manager the factory reports to, when it was given one. */
    const registry: AddressRegistry?
    /** The last session built; once set it is never cleared. */
    var protocol: Protocol.Session?
    var shouldReconnect: bool
    var currentAddress: string
    var currentPort: int
    var retryDelay: real
    const maxRetryDelay: real
    var retryCount: nat

    /** The delay is always the backoff after the number of failures counted. */
    ghost predicate Valid()
      reads this
    {
      maxRetryDelay == MaxRetryDelay && retryDelay == BackoffAfter(retryCount)
    }

    constructor (config: Config, registry: AddressRegistry?)
      ensures Valid()
      ensures this.config == config && this.registry == registry
      ensures protocol == null && shouldReconnect
      ensures currentAddress == PrimaryAddress(config) && currentPort == PrimaryPort(config)
      ensures retryDelay == 5.0 && maxRetryDelay == 300.0 && retryCount == 0
    {
      this.config := config;
      this.registry := registry;
      protocol := null;
      shouldReconnect := true;
      currentAddress := PrimaryAddress(config);
      currentPort := PrimaryPort(config);
      retryDelay := 5.0;
      maxRetryDelay := 300.0;
      retryCount := 0;
    }

    /** `buildProtocol`: a fresh session with the primary nickname, the ident and the real name. */
    method BuildProtocol() returns (p: Protocol.Session)
      modifies this`protocol
      ensures fresh(p) && protocol == p
      ensures p.config == config && p.nickname == PrimaryNickname(config)
      ensures p.username == config.ident && p.realname == config.realname
      ensures p.joinedChannels == [] && !p.saslAuthenticated && p.Valid()
    {
      p := new Protocol.Session(config, PrimaryNickname(config), config.ident, config.realname);
      protocol := p;
    }

    /** `_rotate_connection_target`, including the mirror into the network manager. */
    method RotateConnectionTarget()
      modifies this`currentAddress, this`currentPort, registry
      ensures (currentAddress, currentPort) == Rotate(config, (old(currentAddress), old(currentPort)))
      ensures registry != null ==> registry.connected == old(registry.connected)[config.id := (currentAddress, currentPort)]
    {
      var next := GetNextPort(config, currentPort);
      if next == PrimaryPort(config) || next == currentPort {
        currentAddress := GetNextAddress(config, currentAddress);
        currentPort := PrimaryPort(config);
      } else {
        currentPort := next;
      }
      if registry != null {
        registry.connected := registry.connected[config.id := (currentAddress, currentPort)];
      }
    }

    /** `clientConnectionFailed`. */
    method ClientConnectionFailed() returns (outcome: RetryOutcome)
      requires Valid()
      modifies this`currentAddress, this`currentPort, this`retryCount, this`retryDelay, registry
      ensures Valid()
      ensures shouldReconnect && config.autoReconnect ==>
        (currentAddress, currentPort) == Rotate(config, (old(currentAddress), old(currentPort))) &&
        retryCount == old(retryCount) + 1 && retryDelay == NextDelay(old(retryDelay)) &&
        outcome == RetryAfter(retryDelay)
      ensures !(shouldReconnect && config.autoReconnect) ==>
        outcome == NoRetry && currentAddress == old(currentAddress) && currentPort == old(currentPort) &&
        retryCount == old(retryCount) && retryDelay == old(retryDelay)
      ensures shouldReconnect && config.autoReconnect && registry != null ==>
        registry.connected == old(registry.connected)[config.id := (currentAddress, currentPort)]
      ensures !(shouldReconnect && config.autoReconnect) && registry != null ==> registry.connected == old(registry.connected)
    {
      if shouldReconnect && config.autoReconnect {
        RotateConnectionTarget();
        retryCount := retryCount + 1;
        retryDelay := if retryDelay * 1.5 > maxRetryDelay then maxRetryDelay else retryDelay * 1.5;
        outcome := RetryAfter(retryDelay);
      } else {
        outcome := NoRetry;
      }
    }

    /**
     * `clientConnectionLost` as written: after a session was built it resets
     * the backoff and retries after 5 s; without one it calls the missing
     * `self._rotate` attribute and raises before scheduling a retry.
     */
    method ClientConnectionLostAsWritten() returns (outcome: RetryOutcome)
      requires Valid()
      modifies this`retryCount, this`retryDelay
      ensures Valid()
      ensures shouldReconnect && config.autoReconnect && protocol != null ==>
        retryCount == 0 && retryDelay == 5.0 && outcome == RetryAfter(5.0)
      ensures shouldReconnect && config.autoReconnect && protocol == null ==>
        outcome == RaisedAttributeError && retryCount == old(retryCount) && retryDelay == old(retryDelay)
      ensures !(shouldReconnect && config.autoReconnect) ==>
        outcome == NoRetry && retryCount == old(retryCount) && retryDelay == old(retryDelay)
    {
      if shouldReconnect && config.autoReconnect {
        if protocol != null {
          retryCount := 0;
          retryDelay := 5.0;
        } else {
          return RaisedAttributeError;
        }
        outcome := RetryAfter(retryDelay);
      } else {
        outcome := NoRetry;
      }
    }

    /** `clientConnectionLost` with the rotation it evidently meant to call. */
    method ClientConnectionLost() returns (outcome: RetryOutcome)
      requires Valid()
      modifies this`retryCount, this`retryDelay, this`currentAddress, this`currentPort, registry
      ensures Valid()
      ensures shouldReconnect && config.autoReconnect && protocol != null ==>
        retryCount == 0 && retryDelay == 5.0 && outcome == RetryAfter(5.0) &&
        currentAddress == old(currentAddress) && currentPort == old(currentPort)
      ensures shouldReconnect && config.autoReconnect && protocol == null ==>
        (currentAddress, currentPort) == Rotate(config, (old(currentAddress), old(currentPort))) &&
        retryCount == old(retryCount) && retryDelay == old(retryDelay) && outcome == RetryAfter(retryDelay)
      ensures !(shouldReconnect && config.autoReconnect) ==>
        outcome == NoRetry && retryCount == old(retryCount) && retryDelay == old(retryDelay) &&
        currentAddress == old(currentAddress) && currentPort == old(currentPort)
      ensures shouldReconnect && config.autoReconnect && protocol == null && registry != null ==>
        registry.connected == old(registry.connected)[config.id := (currentAddress, currentPort)]
      ensures !(shouldReconnect && config.autoReconnect && protocol == null) && registry != null ==>
        registry.connected == old(registry.connected)
      ensures outcome != RaisedAttributeError
    {
      if shouldReconnect && config.autoReconnect {
        if protocol != null {
          retryCount := 0;
          retryDelay := 5.0;
        } else {
          RotateConnectionTarget();
        }
        outcome := RetryAfter(retryDelay);
      } else {
        outcome := NoRetry;
      }
    }
  }

  /**
   * Without a session, the lost-connection handler as written never schedules
   * a retry when reconnection is on, whereas the corrected one always does.
   */
  method LostWithoutSessionNeverRetries(c: Config) returns (written: RetryOutcome, corrected: RetryOutcome)
    requires c.autoReconnect
    ensures written == RaisedAttributeError
    ensures corrected.RetryAfter? && corrected.delay == 5.0
  {
    var f := new ClientFactory(c, null);
    written := f.ClientConnectionLostAsWritten();
    var g := new ClientFactory(c, null);
    corrected := g.ClientConnectionLost();
  }

  /** Consecutive failures from a fresh factory follow the backoff sequence. */
  method FailuresFromFresh(c: Config, n: nat) returns (delays: seq<real>)
    requires c.autoReconnect
    ensures |delays| == n
    ensures forall k :: 0 <= k < n ==> delays[k] == BackoffAfter(k + 1)
    ensures forall k :: 0 <= k < n ==> 5.0 <= delays[k] <= 300.0
  {
    var f := new ClientFactory(c, null);
    delays := [];
    var i := 0;
    while i < n
      invariant 0 <= i <= n
      invariant f.Valid() && f.retryCount == i && f.shouldReconnect && f.config == c && f.registry == null
      invariant |delays| == i
      invariant forall k :: 0 <= k < i ==> delays[k] == BackoffAfter(k + 1)
      invariant forall k :: 0 <= k < i ==> 5.0 <= delays[k] <= 300.0
    {
      var outcome := f.ClientConnectionFailed();
      BackoffBounds(i + 1);
      delays := delays + [outcome.delay];
      i := i + 1;
    }
  }
}
