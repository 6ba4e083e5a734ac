/** Several clients share one live copy of the client-side slices: their states are swapped in and
    out between batches. It is proved to behave as if every client had a copy of its own.

    A client's state is its slices' weights and optimizer state; a server state likewise. What
    training on a batch makes of the two is left open. */
module ClientSession {
  import opened Sequences
  import opened Wrappers

  datatype State = State(model: int, optimizer: int)

  type Batch = int

  /** How a batch changes the client's and the server's state. */
  type Training = (State, State, Batch) -> (State, State)

  /** What a client starts its turn with, from the state the previous client ended with, its own
      last state (none before its first turn) and the initial one. */
  type Handoff = (State, Option<State>, State) -> State

  function CopyHandoff(prev: State, next: Option<State>, initial: State): State {
    prev
  }

  function KeepHandoff(prev: State, next: Option<State>, initial: State): State {
    if next.Some? then next.value else initial
  }

  /** `on_round_end` of a parallel session: the clients' states, combined; none leaves them. It gives
      back one state for each client. */
  type Combine = seq<State> -> Option<seq<State>>

  ghost predicate OneEach(f: Combine) {
    forall states: seq<State> :: f(states).Some? ==> |f(states).value| == |states|
  }

  /** A federated algorithm: what the participants get back, then the new global model if any. */
  datatype Algorithm = Algorithm(onRoundEnd: seq<Option<State>> -> Option<seq<State>>,
                                 aggregate: seq<Option<State>> -> Option<State>)

  // ── the order of batches ─────────────────────────────────────────────────────

  /** A client, and the batch its turn is for. */
  type Turn = (nat, Batch)

  /** The batches of client `k`, in the order they are trained on. */
  function Own(order: seq<Turn>, k: nat): seq<Batch> {
    if order == [] then []
    else Own(order[..|order| - 1], k) + if order[|order| - 1].0 == k then [order[|order| - 1].1] else []
  }

  lemma OwnSnoc(order: seq<Turn>, t: Turn, k: nat)
    ensures Own(order + [t], k) == Own(order, k) + if t.0 == k then [t.1] else []
  {
    assert (order + [t])[..|order|] == order;
  }

  lemma {:induction false} OwnConcat(a: seq<Turn>, b: seq<Turn>, k: nat)
    ensures Own(a + b, k) == Own(a, k) + Own(b, k)
  {
    if b == [] {
      assert a + b == a;
      assert Own(a, k) + [] == Own(a, k);
    } else {
      var init, last := b[..|b| - 1], b[|b| - 1];
      OwnConcat(a, init, k);
      assert a + b == (a + init) + [last];
      OwnSnoc(a + init, last, k);
    }
  }

  lemma {:induction false} OwnTurns(j: nat, batches: seq<Batch>, k: nat)
    ensures Own(Tagged(j, batches), k) == if j == k then batches else []
  {
    if batches != [] {
      var init := batches[..|batches| - 1];
      OwnTurns(j, init, k);
      assert Tagged(j, batches) == Tagged(j, init) + [(j, batches[|batches| - 1])];
      OwnSnoc(Tagged(j, init), (j, batches[|batches| - 1]), k);
      assert init + [batches[|batches| - 1]] == batches;
    }
  }

  predicate Distinct(clients: seq<nat>) {
    forall a, b | 0 <= a < b < |clients| :: clients[a] != clients[b]
  }

  /** Every client has a loader. */
  predicate HaveLoaders(clients: seq<nat>, loaders: seq<seq<Batch>>) {
    forall a | 0 <= a < |clients| :: clients[a] < |loaders|
  }

  /** Sequential: client after client, each with all its batches. */
  function InTurn(clients: seq<nat>, loaders: seq<seq<Batch>>): seq<Turn>
    requires HaveLoaders(clients, loaders)
  {
    if clients == [] then []
    else
      var k := clients[|clients| - 1];
      InTurn(clients[..|clients| - 1], loaders) + Tagged(k, loaders[k])
  }

  /** Parallel: round `r`, over the clients `live`. */
  function Round(live: seq<nat>, loaders: seq<seq<Batch>>, r: nat): seq<Turn>
    requires HaveLoaders(live, loaders)
  {
    if live == [] then []
    else
      var k := live[|live| - 1];
      Round(live[..|live| - 1], loaders, r) + if r < |loaders[k]| then [(k, loaders[k][r])] else []
  }

  /** The clients of `live` whose loader is not exhausted by round `r`. */
  function StillLive(live: seq<nat>, loaders: seq<seq<Batch>>, r: nat): (next: seq<nat>)
    requires HaveLoaders(live, loaders)
    ensures HaveLoaders(next, loaders)
  {
    if live == [] then []
    else
      var k := live[|live| - 1];
      StillLive(live[..|live| - 1], loaders, r) + if r < |loaders[k]| then [k] else []
  }

  /** The clients still live when round `r` starts. */
  function LiveAt(clients: seq<nat>, loaders: seq<seq<Batch>>, r: nat): (live: seq<nat>)
    requires HaveLoaders(clients, loaders)
    ensures HaveLoaders(live, loaders)
  {
    if r == 0 then clients else StillLive(LiveAt(clients, loaders, r - 1), loaders, r - 1)
  }

  /** The first `r` rounds. */
  function Rounds(clients: seq<nat>, loaders: seq<seq<Batch>>, r: nat): seq<Turn>
    requires HaveLoaders(clients, loaders)
  {
    if r == 0 then [] else Rounds(clients, loaders, r - 1) + Round(LiveAt(clients, loaders, r - 1), loaders, r - 1)
  }

  lemma {:induction false} StillLiveIs(live: seq<nat>, loaders: seq<seq<Batch>>, r: nat)
    requires HaveLoaders(live, loaders) && Distinct(live)
    ensures Distinct(StillLive(live, loaders, r))
    ensures forall k: nat | k < |loaders| :: k in StillLive(live, loaders, r) <==> k in live && r < |loaders[k]|
  {
    if live != [] {
      var init, k := live[..|live| - 1], live[|live| - 1];
      assert live == init + [k];
      StillLiveIs(init, loaders, r);
      assert k !in init;
      var kept := StillLive(init, loaders, r);
      assert k !in kept;
      assert kept + [] == kept;
    }
  }

  lemma {:induction false} LiveAtIs(clients: seq<nat>, loaders: seq<seq<Batch>>, r: nat)
    requires HaveLoaders(clients, loaders) && Distinct(clients)
    ensures Distinct(LiveAt(clients, loaders, r))
    ensures forall k: nat | k < |loaders| :: k in LiveAt(clients, loaders, r) <==> k in clients && r <= |loaders[k]|
  {
    if r > 0 {
      LiveAtIs(clients, loaders, r - 1);
      StillLiveIs(LiveAt(clients, loaders, r - 1), loaders, r - 1);
    }
  }

  lemma {:induction false} OwnRound(live: seq<nat>, loaders: seq<seq<Batch>>, r: nat, k: nat)
    requires HaveLoaders(live, loaders) && Distinct(live) && k < |loaders|
    ensures Own(Round(live, loaders, r), k) == if k in live && r < |loaders[k]| then [loaders[k][r]] else []
  {
    if live != [] {
      var init, j := live[..|live| - 1], live[|live| - 1];
      assert live == init + [j];
      assert k in live <==> k in init || k == j;
      assert j !in init;
      OwnRound(init, loaders, r, k);
      hide Distinct, HaveLoaders;
      var before := Round(init, loaders, r);
      if r < |loaders[j]| {
        OwnSnoc(before, (j, loaders[j][r]), k);
      } else {
        assert before + [] == before;
      }
      hide Own;
    }
  }

  /** The first `r` batches of a loader. */
  function FirstBatches(batches: seq<Batch>, r: nat): seq<Batch> {
    if r < |batches| then batches[..r] else batches
  }

  /** In `r` rounds every participant is trained on its first `r` batches, in order. */
  lemma {:induction false} OwnRounds(clients: seq<nat>, loaders: seq<seq<Batch>>, r: nat, k: nat)
    requires HaveLoaders(clients, loaders) && Distinct(clients) && k < |loaders|
    ensures Own(Rounds(clients, loaders, r), k) == if k in clients then FirstBatches(loaders[k], r) else []
  {
    hide Own, Round, LiveAt, StillLive, Distinct, HaveLoaders;
    if r > 0 {
      FirstNext(loaders[k], r - 1);
      var live := LiveAt(clients, loaders, r - 1);
      OwnRounds(clients, loaders, r - 1, k);
      LiveAtIs(clients, loaders, r - 1);
      OwnRound(live, loaders, r - 1, k);
      OwnConcat(Rounds(clients, loaders, r - 1), Round(live, loaders, r - 1), k);
    } else {
      NothingOwned(k);
    }
  }

  lemma NothingOwned(k: nat)
    ensures Own([], k) == []
  {
  }

  lemma FirstNext(batches: seq<Batch>, r: nat)
    ensures FirstBatches(batches, r + 1) == FirstBatches(batches, r) + if r < |batches| then [batches[r]] else []
  {
  }

  lemma {:induction false} OwnInTurn(clients: seq<nat>, loaders: seq<seq<Batch>>, k: nat)
    requires HaveLoaders(clients, loaders) && Distinct(clients) && k < |loaders|
    ensures Own(InTurn(clients, loaders), k) == if k in clients then loaders[k] else []
  {
    if clients != [] {
      var init, j := clients[..|clients| - 1], clients[|clients| - 1];
      assert clients == init + [j];
      assert j !in init;
      OwnInTurn(init, loaders, k);
      OwnConcat(InTurn(init, loaders), Tagged(j, loaders[j]), k);
      OwnTurns(j, loaders[j], k);
    }
  }

  /** The last round. */
  function Longest(clients: seq<nat>, loaders: seq<seq<Batch>>): (r: nat)
    requires HaveLoaders(clients, loaders)
    ensures forall a | 0 <= a < |clients| :: |loaders[clients[a]]| < r
  {
    if clients == [] then 0
    else
      var r, m := Longest(clients[..|clients| - 1], loaders), |loaders[clients[|clients| - 1]]| + 1;
      if r < m then m else r
  }

  /** The order of batches of one round of the session. */
  function Order(parallel: bool, clients: seq<nat>, loaders: seq<seq<Batch>>): seq<Turn>
    requires HaveLoaders(clients, loaders)
  {
    if parallel then Rounds(clients, loaders, Longest(clients, loaders)) else InTurn(clients, loaders)
  }

  /** Whatever the mode, every participant is trained on its own batches, all of them, in order, and
      nobody else on anything. */
  lemma OwnOrder(parallel: bool, clients: seq<nat>, loaders: seq<seq<Batch>>, k: nat)
    requires HaveLoaders(clients, loaders) && Distinct(clients) && k < |loaders|
    ensures Own(Order(parallel, clients, loaders), k) == if k in clients then loaders[k] else []
  {
    if parallel {
      OwnRounds(clients, loaders, Longest(clients, loaders), k);
    } else {
      OwnInTurn(clients, loaders, k);
    }
  }

  // ── whose turn comes when ────────────────────────────────────────────────────

  /** The turns before turn `a` that are of the same client. */
  ghost function Earlier(order: seq<Turn>, a: nat): set<nat>
    requires a < |order|
  {
    set b: nat | b < a && order[b].0 == order[a].0
  }

  /** Round after round: a turn before another one has a client with fewer turns so far, or with as many
      that stands before the other's in `clients`. */
  ghost predicate RoundByRound(clients: seq<nat>, order: seq<Turn>) {
    forall a: nat, b: nat, p: nat, q: nat |
      a < b < |order| && p < |clients| && q < |clients| && clients[p] == order[a].0 && clients[q] == order[b].0 ::
      |Earlier(order, a)| < |Earlier(order, b)| || (|Earlier(order, a)| == |Earlier(order, b)| && p < q)
  }

  /** Client after client. */
  ghost predicate ClientByClient(clients: seq<nat>, order: seq<Turn>) {
    forall a: nat, b: nat, p: nat, q: nat |
      a < b < |order| && p < |clients| && q < |clients| && clients[p] == order[a].0 && clients[q] == order[b].0 ::
      p < q || (p == q && |Earlier(order, a)| < |Earlier(order, b)|)
  }

  /** Every participant is trained on its own batches, in order, and nobody else on anything. */
  ghost predicate AllOwn(clients: seq<nat>, loaders: seq<seq<Batch>>, order: seq<Turn>) {
    forall k: nat | k < |loaders| :: Own(order, k) == if k in clients then loaders[k] else []
  }

  /** How many turns the client of a turn had, and where it stands in `clients`. */
  type Key = (nat, nat)

  predicate Sooner(parallel: bool, x: Key, y: Key) {
    if parallel then x.0 < y.0 || (x.0 == y.0 && x.1 < y.1) else x.1 < y.1 || (x.1 == y.1 && x.0 < y.0)
  }

  ghost predicate KeyAt(clients: seq<nat>, order: seq<Turn>, keys: seq<Key>, a: nat)
    requires a < |order| == |keys|
  {
    keys[a].1 < |clients| && clients[keys[a].1] == order[a].0 && |Own(order[..a], order[a].0)| == keys[a].0
  }

  ghost predicate Keyed(parallel: bool, clients: seq<nat>, order: seq<Turn>, keys: seq<Key>) {
    && |keys| == |order| && (forall a: nat | a < |order| :: KeyAt(clients, order, keys, a))
    && forall a: nat, b: nat | a < b < |keys| :: Sooner(parallel, keys[a], keys[b])
  }

  ghost predicate AllSooner(parallel: bool, keys: seq<Key>, y: Key) {
    forall a: nat | a < |keys| :: Sooner(parallel, keys[a], y)
  }

  /** One more turn, of the client at place `p`. */
  lemma KeyMore(parallel: bool, clients: seq<nat>, order: seq<Turn>, keys: seq<Key>, t: Turn, p: nat)
    requires Keyed(parallel, clients, order, keys) && p < |clients| && clients[p] == t.0
    requires AllSooner(parallel, keys, (|Own(order, t.0)|, p))
    ensures Keyed(parallel, clients, order + [t], keys + [(|Own(order, t.0)|, p)])
  {
    hide Own, Sooner;
    var order', keys' := order + [t], keys + [(|Own(order, t.0)|, p)];
    assert order'[..|order|] == order;
    forall a: nat | a < |order'| ensures KeyAt(clients, order', keys', a) {
      if a < |order| {
        assert KeyAt(clients, order, keys, a);
        assert order'[..a] == order[..a];
      }
    }
  }

  lemma {:induction false} OwnCount(order: seq<Turn>, k: nat, m: nat)
    requires m <= |order|
    ensures |Own(order[..m], k)| == |set b: nat | b < m && order[b].0 == k|
  {
    if m > 0 {
      OwnCount(order, k, m - 1);
      assert order[..m] == order[..m - 1] + [order[m - 1]];
      OwnSnoc(order[..m - 1], order[m - 1], k);
      var before := set b: nat | b < m - 1 && order[b].0 == k;
      assert (set b: nat | b < m && order[b].0 == k) == if order[m - 1].0 == k then before + {m - 1} else before;
    }
  }

  lemma SameClient(clients: seq<nat>, order: seq<Turn>, keys: seq<Key>, a: nat, p: nat)
    requires a < |order| == |keys| && KeyAt(clients, order, keys, a) && Distinct(clients)
    requires p < |clients| && clients[p] == order[a].0
    ensures keys[a] == (|Earlier(order, a)|, p)
  {
    OwnCount(order, order[a].0, a);
    assert Earlier(order, a) == set b: nat | b < a && order[b].0 == order[a].0;
    hide Own, Earlier;
  }

  /** Keys that rise are what the two orders are about. */
  lemma KeysRise(parallel: bool, clients: seq<nat>, order: seq<Turn>, keys: seq<Key>)
    requires Distinct(clients) && Keyed(parallel, clients, order, keys)
    ensures if parallel then RoundByRound(clients, order) else ClientByClient(clients, order)
  {
    hide Earlier, Own, KeyAt, Distinct;
    forall a: nat, b: nat, p: nat, q: nat |
      a < b < |order| && p < |clients| && q < |clients| && clients[p] == order[a].0 && clients[q] == order[b].0
      ensures Sooner(parallel, (|Earlier(order, a)|, p), (|Earlier(order, b)|, q))
    {
      SameClient(clients, order, keys, a, p);
      SameClient(clients, order, keys, b, q);
      assert Sooner(parallel, keys[a], keys[b]);
    }
  }

  /** Where the clients that are still live stand. */
  ghost predicate Places(clients: seq<nat>, live: seq<nat>, places: seq<nat>) {
    && |places| == |live| && (forall i: nat | i < |live| :: places[i] < |clients| && clients[places[i]] == live[i])
    && forall i: nat, j: nat | i < j < |places| :: places[i] < places[j]
  }

  lemma {:induction false} StillPlaces(clients: seq<nat>, live: seq<nat>, places: seq<nat>, loaders: seq<seq<Batch>>,
                                       r: nat) returns (next: seq<nat>)
    requires HaveLoaders(live, loaders) && Places(clients, live, places)
    ensures Places(clients, StillLive(live, loaders, r), next) && forall x | x in next :: x in places
  {
    if live == [] {
      next := [];
    } else {
      var n := |live| - 1;
      next := StillPlaces(clients, live[..n], places[..n], loaders, r);
      if r < |loaders[live[n]]| {
        PlacesMore(clients, StillLive(live[..n], loaders, r), next, live[n], places[n]);
        next := next + [places[n]];
      } else {
        assert StillLive(live, loaders, r) == StillLive(live[..n], loaders, r);
      }
    }
  }

  lemma PlacesMore(clients: seq<nat>, live: seq<nat>, places: seq<nat>, k: nat, p: nat)
    requires Places(clients, live, places) && p < |clients| && clients[p] == k && forall x | x in places :: x < p
    ensures Places(clients, live + [k], places + [p])
  {
    forall i: nat | i < |places| ensures places[i] < p { assert places[i] in places; }
  }

  lemma {:induction false} LivePlaces(clients: seq<nat>, loaders: seq<seq<Batch>>, r: nat) returns (places: seq<nat>)
    requires HaveLoaders(clients, loaders)
    ensures Places(clients, LiveAt(clients, loaders, r), places)
  {
    if r == 0 {
      places := seq(|clients|, i => i);
    } else {
      var before := LivePlaces(clients, loaders, r - 1);
      places := StillPlaces(clients, LiveAt(clients, loaders, r - 1), before, loaders, r - 1);
    }
  }

  /** The turns of round `r`, after `r` rounds. */
  lemma {:induction false} RoundKeys(clients: seq<nat>, loaders: seq<seq<Batch>>, live: seq<nat>, places: seq<nat>,
                                     r: nat, order: seq<Turn>, keys: seq<Key>) returns (more: seq<Key>)
    requires HaveLoaders(live, loaders) && Distinct(live) && Places(clients, live, places)
    requires Keyed(true, clients, order, keys) && forall a: nat | a < |keys| :: keys[a].0 < r
    requires forall i: nat | i < |live| && r < |loaders[live[i]]| :: |Own(order, live[i])| == r
    ensures Keyed(true, clients, order + Round(live, loaders, r), more)
    ensures forall a: nat | a < |more| :: more[a].0 < r || (more[a].0 == r && more[a].1 in places)
  {
    hide Own, KeyAt, Keyed;
    if live == [] {
      more := keys;
      assert order + [] == order;
    } else {
      var n := |live| - 1;
      var k, init := live[n], live[..n];
      more := RoundKeys(clients, loaders, init, places[..n], r, order, keys);
      if r < |loaders[k]| {
        var so := order + Round(init, loaders, r);
        OwnConcat(order, Round(init, loaders, r), k);
        OwnRound(init, loaders, r, k);
        assert k !in init;
        assert Own(order, k) + [] == Own(order, k);
        assert |Own(so, k)| == r;
        forall a: nat | a < |more| ensures Sooner(true, more[a], (r, places[n])) { }
        KeyMore(true, clients, so, more, (k, loaders[k][r]), places[n]);
        more := more + [(r, places[n])];
        assert order + Round(live, loaders, r) == so + [(k, loaders[k][r])];
      } else {
        assert Round(live, loaders, r) == Round(init, loaders, r) + [];
        assert Round(init, loaders, r) + [] == Round(init, loaders, r);
      }
    }
  }

  lemma {:induction false} RoundsKeys(clients: seq<nat>, loaders: seq<seq<Batch>>, r: nat) returns (keys: seq<Key>)
    requires HaveLoaders(clients, loaders) && Distinct(clients)
    ensures Keyed(true, clients, Rounds(clients, loaders, r), keys) && forall a: nat | a < |keys| :: keys[a].0 < r
  {
    hide Own, KeyAt, Round, LiveAt, Places, Distinct;
    if r == 0 {
      keys := [];
    } else {
      var before := RoundsKeys(clients, loaders, r - 1);
      var live := LiveAt(clients, loaders, r - 1);
      var places := LivePlaces(clients, loaders, r - 1);
      LiveAtIs(clients, loaders, r - 1);
      forall i: nat | i < |live| && r - 1 < |loaders[live[i]]|
        ensures |Own(Rounds(clients, loaders, r - 1), live[i])| == r - 1
      {
        assert live[i] in live;
        OwnRounds(clients, loaders, r - 1, live[i]);
      }
      keys := RoundKeys(clients, loaders, live, places, r - 1, Rounds(clients, loaders, r - 1), before);
    }
  }

  /** All batches of the client at place `p`, which had no turn before. */
  lemma {:induction false} TurnKeys(clients: seq<nat>, batches: seq<Batch>, p: nat, order: seq<Turn>, keys: seq<Key>)
    returns (more: seq<Key>)
    requires p < |clients| && Keyed(false, clients, order, keys) && forall a: nat | a < |keys| :: keys[a].1 < p
    requires Own(order, clients[p]) == []
    ensures Keyed(false, clients, order + Tagged(clients[p], batches), more)
    ensures forall a: nat | a < |more| :: more[a].1 < p || (more[a].1 == p && more[a].0 < |batches|)
  {
    hide Own, KeyAt, Keyed;
    var k := clients[p];
    if batches == [] {
      more := keys;
      assert order + Tagged(k, batches) == order;
    } else {
      var n := |batches| - 1;
      var init := batches[..n];
      more := TurnKeys(clients, init, p, order, keys);
      var so := order + Tagged(k, init);
      OwnConcat(order, Tagged(k, init), k);
      OwnTurns(k, init, k);
      assert |Own(so, k)| == n;
      forall a: nat | a < |more| ensures Sooner(false, more[a], (n, p)) { }
      KeyMore(false, clients, so, more, (k, batches[n]), p);
      more := more + [(n, p)];
      assert order + Tagged(k, batches) == so + [(k, batches[n])];
    }
  }

  lemma {:induction false} InTurnKeys(clients: seq<nat>, loaders: seq<seq<Batch>>, n: nat) returns (keys: seq<Key>)
    requires HaveLoaders(clients, loaders) && Distinct(clients) && n <= |clients|
    ensures Keyed(false, clients, InTurn(clients[..n], loaders), keys) && forall a: nat | a < |keys| :: keys[a].1 < n
  {
    hide Own, KeyAt;
    if n == 0 {
      keys := [];
    } else {
      var before := InTurnKeys(clients, loaders, n - 1);
      var k := clients[n - 1];
      assert clients[..n][..n - 1] == clients[..n - 1];
      OwnInTurn(clients[..n - 1], loaders, k);
      assert k !in clients[..n - 1];
      keys := TurnKeys(clients, loaders[k], n - 1, InTurn(clients[..n - 1], loaders), before);
    }
  }

  /** The order of a round, by whose turn comes when: in parallel mode round after round, in sequential
      mode client after client. */
  lemma OrderIs(parallel: bool, clients: seq<nat>, loaders: seq<seq<Batch>>)
    requires HaveLoaders(clients, loaders) && Distinct(clients)
    ensures var order := Order(parallel, clients, loaders);
      && AllOwn(clients, loaders, order)
      && if parallel then RoundByRound(clients, order) else ClientByClient(clients, order)
  {
    forall k: nat | k < |loaders| { OwnOrder(parallel, clients, loaders, k); }
    hide Own, KeyAt, RoundByRound, ClientByClient, Distinct, Keyed, HaveLoaders;
    var keys;
    if parallel {
      keys := RoundsKeys(clients, loaders, Longest(clients, loaders));
    } else {
      keys := InTurnKeys(clients, loaders, |clients|);
      assert clients[..|clients|] == clients;
    }
    KeysRise(parallel, clients, Order(parallel, clients, loaders), keys);
  }

  /** `_order`, parallel: one batch of each client in turn; a client whose loader is exhausted drops
      out of the round. */
  method ParallelOrder(clients: seq<nat>, loaders: seq<seq<Batch>>) returns (order: seq<Turn>)
    requires HaveLoaders(clients, loaders) && Distinct(clients)
    ensures order == Order(true, clients, loaders)
    ensures RoundByRound(clients, order) && AllOwn(clients, loaders, order)
  {
    hide RoundByRound, AllOwn;
    hide Round, StillLive, Longest, Distinct;
    order := [];
    var live := clients;
    var its := seq(|loaders|, k => 0);    // how far each client's iterator is
    ghost var r := 0;
    while live != []
      invariant live == LiveAt(clients, loaders, r) && order == Rounds(clients, loaders, r)
      invariant |its| == |loaders| && forall a | 0 <= a < |live| :: its[live[a]] == r
      invariant r <= Longest(clients, loaders)
      decreases Longest(clients, loaders) - r
    {
      LiveAtIs(clients, loaders, r);
      assert live[0] in live;
      StillIn(clients, loaders, live[0]);
      order, live, its := OneRound(loaders, order, live, its, r);
      r := r + 1;
    }
    NoMoreRounds(clients, loaders, r, Longest(clients, loaders));
    OrderIs(true, clients, loaders);
  }

  lemma StillIn(clients: seq<nat>, loaders: seq<seq<Batch>>, k: nat)
    requires HaveLoaders(clients, loaders) && k in clients
    ensures k < |loaders| && |loaders[k]| < Longest(clients, loaders)
  {
    var a :| 0 <= a < |clients| && clients[a] == k;
  }

  lemma {:induction false} NoMoreRounds(clients: seq<nat>, loaders: seq<seq<Batch>>, r: nat, r': nat)
    requires HaveLoaders(clients, loaders) && LiveAt(clients, loaders, r) == [] && r <= r'
    ensures LiveAt(clients, loaders, r') == [] && Rounds(clients, loaders, r') == Rounds(clients, loaders, r)
  {
    if r < r' { NoMoreRounds(clients, loaders, r, r' - 1); }
  }

  lemma NoRound(loaders: seq<seq<Batch>>, r: nat)
    ensures Round([], loaders, r) == [] && StillLive([], loaders, r) == []
  {
  }

  lemma RoundNext(live: seq<nat>, loaders: seq<seq<Batch>>, r: nat, a: nat)
    requires HaveLoaders(live, loaders) && a < |live|
    ensures var k := live[a];
      && Round(live[..a + 1], loaders, r) ==
          Round(live[..a], loaders, r) + (if r < |loaders[k]| then [(k, loaders[k][r])] else [])
      && StillLive(live[..a + 1], loaders, r) ==
          StillLive(live[..a], loaders, r) + (if r < |loaders[k]| then [k] else [])
  {
    assert live[..a + 1][..a] == live[..a];
  }

  /** One round over the clients that are still live. */
  method OneRound(loaders: seq<seq<Batch>>, order0: seq<Turn>, live0: seq<nat>, its0: seq<nat>, ghost r: nat)
    returns (order: seq<Turn>, live: seq<nat>, its: seq<nat>)
    requires HaveLoaders(live0, loaders) && Distinct(live0) && |its0| == |loaders|
    requires forall a | 0 <= a < |live0| :: its0[live0[a]] == r
    ensures order == order0 + Round(live0, loaders, r) && live == StillLive(live0, loaders, r)
    ensures |its| == |loaders| && forall a | 0 <= a < |live| :: its[live[a]] == r + 1
  {
    hide Round, StillLive;
    order, live, its := order0, [], its0;
    NoRound(loaders, r);
    assert live0[..0] == [];
    for a := 0 to |live0|
      invariant order == order0 + Round(live0[..a], loaders, r) && live == StillLive(live0[..a], loaders, r)
      invariant |its| == |loaders| && (forall b | a <= b < |live0| :: its[live0[b]] == r)
      invariant (forall b | 0 <= b < |live| :: live[b] in live0[..a])
      invariant forall b | 0 <= b < |live| :: its[live[b]] == r + 1
    {
      var k := live0[a];
      RoundNext(live0, loaders, r, a);
      if its[k] < |loaders[k]| {
        order := order + [(k, loaders[k][its[k]])];
        live := live + [k];
        its := its[k := its[k] + 1];
      }
    }
    assert live0[..|live0|] == live0;
  }

  /** `_order`, sequential. */
  method SequentialOrder(clients: seq<nat>, loaders: seq<seq<Batch>>) returns (order: seq<Turn>)
    requires HaveLoaders(clients, loaders)
    ensures order == Order(false, clients, loaders)
    ensures Distinct(clients) ==> ClientByClient(clients, order) && AllOwn(clients, loaders, order)
  {
    hide ClientByClient, AllOwn;
    order := [];
    for a := 0 to |clients|
      invariant order == InTurn(clients[..a], loaders)
    {
      assert clients[..a + 1][..a] == clients[..a];
      order := order + Tagged(clients[a], loaders[clients[a]]);
    }
    assert clients[..|clients|] == clients;
    if Distinct(clients) { OrderIs(false, clients, loaders); }
  }

  // ── private copies ───────────────────────────────────────────────────────────

  /** What every client has of its own: its state (none before its first turn), the client that
      trained last, and the server. */
  datatype Privates = Privates(states: seq<Option<State>>, last: Option<nat>, server: State)

  /** The state client `k` starts its turn with. */
  function TurnState(handoff: Option<Handoff>, initial: State, p: Privates, k: nat): State
    requires k < |p.states|
  {
    var own := if p.states[k].Some? then p.states[k].value else initial;
    if p.last == None || p.last == Some(k) || handoff == None then own
    else if p.last.value < |p.states| && p.states[p.last.value].Some? then
      handoff.value(p.states[p.last.value].value, p.states[k], initial)
    else own
  }

  /** One batch of client `k` on its own copy. */
  function TrainTurn(train: Training, handoff: Option<Handoff>, initial: State, p: Privates, t: Turn): Privates
    requires t.0 < |p.states|
  {
    var (state, server) := train(TurnState(handoff, initial, p, t.0), p.server, t.1);
    Privates(p.states[t.0 := Some(state)], Some(t.0), server)
  }

  function TrainAll(train: Training, handoff: Option<Handoff>, initial: State, p: Privates,
                    order: seq<Turn>): (r: Privates)
    requires forall j | 0 <= j < |order| :: order[j].0 < |p.states|
    ensures |r.states| == |p.states|
  {
    if order == [] then p
    else TrainTurn(train, handoff, initial, TrainAll(train, handoff, initial, p, order[..|order| - 1]),
                   order[|order| - 1])
  }

  function Somes(states: seq<State>): (r: seq<Option<State>>)
    ensures |r| == |states| && forall k | 0 <= k < |states| :: r[k] == Some(states[k])
  {
    seq(|states|, k requires 0 <= k < |states| => Some(states[k]))
  }

  /** Every client's state, the initial one before its first turn. */
  function Filled(states: seq<Option<State>>, initial: State): (r: seq<State>)
    ensures |r| == |states|
    ensures forall k | 0 <= k < |states| :: (states[k] == None ==> r[k] == initial) && states[k] in {None, Some(r[k])}
  {
    seq(|states|, k requires 0 <= k < |states| => if states[k].Some? then states[k].value else initial)
  }

  /** The end of a parallel round: nothing happens without a callback or before the first turn. */
  ghost function Combined(combine: Option<Combine>, initial: State, p: Privates): (r: Privates)
    requires combine.Some? ==> OneEach(combine.value)
    ensures |r.states| == |p.states|
  {
    if combine == None || p.last == None then p
    else
      var states := Filled(p.states, initial);
      var out := combine.value(states);
      p.(states := Somes(if out.Some? then out.value else states))
  }

  /** One round of training, on private copies. */
  ghost function Trained(train: Training, handoff: Option<Handoff>, combine: Option<Combine>, initial: State,
                         p: Privates, clients: seq<nat>, loaders: seq<seq<Batch>>): (r: Privates)
    requires |loaders| == |p.states| && HaveLoaders(clients, loaders) && (combine.Some? ==> OneEach(combine.value))
    ensures |r.states| == |p.states|
  {
    OrderInRange(handoff == None, clients, loaders);
    var after := TrainAll(train, handoff, initial, p, Order(handoff == None, clients, loaders));
    if handoff == None then Combined(combine, initial, after) else after
  }

  /** The states of the participants. */
  function Of(states: seq<Option<State>>, clients: seq<nat>): (r: seq<Option<State>>)
    requires forall a | 0 <= a < |clients| :: clients[a] < |states|
    ensures |r| == |clients| && forall a | 0 <= a < |clients| :: r[a] == states[clients[a]]
  {
    seq(|clients|, a requires 0 <= a < |clients| => states[clients[a]])
  }

  /** The participants get the states `news`, in order. */
  function Given(states: seq<Option<State>>, clients: seq<nat>, news: seq<State>): (r: seq<Option<State>>)
    requires |news| == |clients| && forall a | 0 <= a < |clients| :: clients[a] < |states|
    ensures |r| == |states|
  {
    if clients == [] then states
    else
      var n := |clients| - 1;
      Given(states, clients[..n], news[..n])[clients[n] := Some(news[n])]
  }

  /** The states `on_round_end` gives back fit the participants. */
  predicate Fitting(alg: Algorithm, states: seq<Option<State>>, clients: seq<nat>)
    requires forall a | 0 <= a < |clients| :: clients[a] < |states|
  {
    var news := alg.onRoundEnd(Of(states, clients));
    news.Some? ==> |news.value| == |clients|
  }

  /** The end of a federated round, on private copies: what the participants get back goes to them,
      the aggregate of what they then have to everyone. */
  function Federated(alg: Algorithm, p: Privates, clients: seq<nat>): (r: Privates)
    requires (forall a | 0 <= a < |clients| :: clients[a] < |p.states|) && Fitting(alg, p.states, clients)
    ensures |r.states| == |p.states|
  {
    var news := alg.onRoundEnd(Of(p.states, clients));
    var mid := if news.Some? then Given(p.states, clients, news.value) else p.states;
    var global := alg.aggregate(Of(mid, clients));
    p.(states := if global.Some? then seq(|mid|, k => global) else mid)
  }

  /** Any number of federated rounds on private copies; none if a round's end is refused. */
  ghost function AllRounds(train: Training, handoff: Option<Handoff>, combine: Option<Combine>, initial: State,
                           alg: Algorithm, participants: seq<seq<nat>>, loaders: seq<seq<Batch>>,
                           p: Privates): (r: Option<Privates>)
    requires |loaders| == |p.states| && AllHaveLoaders(participants, loaders)
    requires (combine.Some? ==> OneEach(combine.value))
    ensures r.Some? ==> |r.value.states| == |p.states|
  {
    if participants == [] then Some(p)
    else
      var n := |participants| - 1;
      var q := AllRounds(train, handoff, combine, initial, alg, participants[..n], loaders, p);
      if q == None then None
      else
        var t := Trained(train, handoff, combine, initial, q.value, participants[n], loaders);
        if Fitting(alg, t.states, participants[n]) then Some(Federated(alg, t, participants[n])) else None
  }

  predicate AllHaveLoaders(participants: seq<seq<nat>>, loaders: seq<seq<Batch>>) {
    forall r | 0 <= r < |participants| :: HaveLoaders(participants[r], loaders)
  }

  /** Each participant has the state it was given, everyone else the one it had. */
  lemma {:induction false} GivenIs(states: seq<Option<State>>, clients: seq<nat>, news: seq<State>, k: nat)
    requires |news| == |clients| && (forall a | 0 <= a < |clients| :: clients[a] < |states|) && k < |states|
    requires Distinct(clients)
    ensures forall a | 0 <= a < |clients| && clients[a] == k :: Given(states, clients, news)[k] == Some(news[a])
    ensures k !in clients ==> Given(states, clients, news)[k] == states[k]
  {
    if clients != [] {
      var n := |clients| - 1;
      assert clients == clients[..n] + [clients[n]];
      GivenIs(states, clients[..n], news[..n], k);
    }
  }

  /** The end of a federated round, client by client: what `on_round_end` gives back is the participants',
      the others keep theirs; and an aggregate of what the participants then have is everyone's. */
  lemma FederatedIs(alg: Algorithm, p: Privates, clients: seq<nat>) returns (mid: seq<Option<State>>)
    requires (forall a | 0 <= a < |clients| :: clients[a] < |p.states|) && Fitting(alg, p.states, clients)
    requires Distinct(clients)
    ensures |mid| == |p.states|
    ensures var q, news := Federated(alg, p, clients), alg.onRoundEnd(Of(p.states, clients));
      && q.last == p.last && q.server == p.server
      && (forall a | 0 <= a < |clients| && news.Some? :: mid[clients[a]] == Some(news.value[a]))
      && (forall k | 0 <= k < |mid| && (news == None || k !in clients) :: mid[k] == p.states[k])
      && var global := alg.aggregate(Of(mid, clients));
         forall k | 0 <= k < |mid| :: q.states[k] == if global.Some? then global else mid[k]
  {
    var news := alg.onRoundEnd(Of(p.states, clients));
    mid := p.states;
    if news.Some? {
      mid := Given(p.states, clients, news.value);
      forall k: nat | k < |mid|
        ensures k !in clients ==> mid[k] == p.states[k]
        ensures forall a | 0 <= a < |clients| && clients[a] == k :: mid[k] == Some(news.value[a])
      {
        GivenIs(p.states, clients, news.value, k);
      }
    }
  }

  lemma {:induction false} GivenSome(states: seq<Option<State>>, clients: seq<nat>, news: seq<State>)
    requires |news| == |clients| && forall a | 0 <= a < |clients| :: clients[a] < |states|
    ensures forall k | 0 <= k < |states| && states[k].Some? :: Given(states, clients, news)[k].Some?
  {
    if clients != [] { GivenSome(states, clients[..|clients| - 1], news[..|clients| - 1]); }
  }

  /** The loop that hands the new states out. */
  method GiveBack(states: seq<Option<State>>, clients: seq<nat>, news: seq<State>) returns (next: seq<Option<State>>)
    requires |news| == |clients| && forall a | 0 <= a < |clients| :: clients[a] < |states|
    ensures next == Given(states, clients, news)
    ensures forall k | 0 <= k < |states| && states[k].Some? :: next[k].Some?
  {
    next := states;
    for a := 0 to |clients|
      invariant next == Given(states, clients[..a], news[..a])
    {
      assert clients[..a + 1][..a] == clients[..a] && news[..a + 1][..a] == news[..a];
      next := next[clients[a] := Some(news[a])];
    }
    assert clients[..|clients|] == clients && news[..|clients|] == news;
    GivenSome(states, clients, news);
  }

  // ── the session ──────────────────────────────────────────────────────────────

  class ClientSession {
    const train: Training
    const handoff: Option<Handoff>      // none in parallel mode
    const onRoundEnd: Option<Combine>   // parallel mode only
    var states: seq<Option<State>>
    var current: Option<nat>
    var initial: Option<State>
    var live: State                     // the live slices, behind the adapter
    var server: State

    /** The active client's state is in the live slices; before the first turn they hold the initial
        state. */
    ghost predicate Valid()
      reads this
    {
      && (current.Some? ==> current.value < |states| && initial.Some?)
      && (current == None && initial.Some? ==> live == initial.value)
      && (onRoundEnd.Some? ==> OneEach(onRoundEnd.value))
    }

    /** The clients' own copies this object stands for. */
    ghost function Copies(): Privates
      requires Valid()
      reads this
    {
      Privates(if current.Some? then states[current.value := Some(live)] else states, current, server)
    }

    constructor (train: Training, handoff: Option<Handoff>, onRoundEnd: Option<Combine>, clients: nat, live: State,
                 server: State)
      requires onRoundEnd.Some? ==> OneEach(onRoundEnd.value)
      ensures Valid() && this.train == train && this.handoff == handoff && this.onRoundEnd == onRoundEnd
      ensures initial == None && this.live == live && Copies() == Privates(seq(clients, k => None), None, server)
    {
      this.train, this.handoff, this.onRoundEnd := train, handoff, onRoundEnd;
      states, current, initial := seq(clients, k => None), None, None;
      this.live, this.server := live, server;
    }

    /** `_switch`: client `k` becomes the active one. */
    method Switch(k: nat)
      requires Valid() && initial.Some? && k < |states| && current != Some(k)
      modifies this`states, this`current, this`live
      ensures Valid() && current == Some(k) && |states| == old(|states|)
      ensures live == TurnState(handoff, initial.value, old(Copies()), k)
      ensures Copies() == Privates(old(Copies()).states[k := Some(live)], Some(k), server)
    {
      if current == None && states[k] == None {
        current := Some(k);
        return;
      }
      if current.Some? {
        states := states[current.value := Some(live)];
      }
      var next;
      if handoff.Some? && current.Some? {
        next := handoff.value(states[current.value].value, states[k], initial.value);
      } else {
        next := if states[k].Some? then states[k].value else initial.value;
      }
      live := next;
      current := Some(k);
    }

    /** One batch of client `k`: swap it in if it is not the active one, then train. */
    method TrainBatch(k: nat, b: Batch)
      requires Valid() && initial.Some? && k < |states|
      modifies this`states, this`current, this`live, this`server
      ensures Valid() && |states| == old(|states|)
      ensures Copies() == TrainTurn(train, handoff, initial.value, old(Copies()), (k, b))
    {
      ghost var before := Copies();
      if current != Some(k) { Switch(k); }
      ghost var mid := Copies().states;
      var (state, server') := train(live, server, b);
      live, server := state, server';
      assert mid == before.states[k := mid[k]];
      assert Copies().states == mid[k := Some(state)];
    }

    /** `batches` and the training between: one round over the participating clients. */
    method TrainRound(clients: seq<nat>, loaders: seq<seq<Batch>>)
      requires Valid() && |loaders| == |states| && HaveLoaders(clients, loaders) && Distinct(clients)
      modifies this
      ensures Valid() && initial == Some(if old(initial).Some? then old(initial).value else old(live))
      ensures |states| == old(|states|)
      ensures Copies() == Trained(train, handoff, onRoundEnd, initial.value, old(Copies()), clients, loaders)
    {
      hide RoundByRound, ClientByClient, AllOwn;
      if initial == None { initial := Some(live); }
      ghost var first := initial.value;
      var order;
      if handoff == None {
        order := ParallelOrder(clients, loaders);
      } else {
        order := SequentialOrder(clients, loaders);
      }
      OrderInRange(handoff == None, clients, loaders);
      ghost var start := Copies();
      hide Order, HaveLoaders, Distinct, TrainTurn;
      assert order[..0] == [];
      for j := 0 to |order|
        invariant Valid() && initial == Some(first)
        invariant |states| == old(|states|) && Copies() == TrainAll(train, handoff, first, start, order[..j])
      {
        assert order[..j + 1][..j] == order[..j];
        TrainBatch(order[j].0, order[j].1);
      }
      assert order[..|order|] == order;
      if handoff == None { CombineStates(); }
    }

    /** The end of `batches` in parallel mode: the active client's state is stored, the callback may
        combine all states, and the live slices take up the active client's new one. */
    method CombineStates()
      requires Valid() && initial.Some?
      modifies this`states, this`live
      ensures Valid() && Copies() == Combined(onRoundEnd, initial.value, old(Copies())) && |states| == old(|states|)
    {
      if current == None { return; }
      states := states[current.value := Some(live)];
      if onRoundEnd.Some? {
        var filled := Filled(states, initial.value);
        var out := onRoundEnd.value(filled);
        states := Somes(if out.Some? then out.value else filled);
      }
      live := states[current.value].value;
      assert states[current.value := Some(live)] == states;
    }

    /** `finish`: `states` holds the latest state of every client that had a turn. */
    method Finish()
      requires Valid()
      modifies this`states
      ensures Valid() && Copies() == old(Copies()) && states == Copies().states
    {
      if current.Some? {
        states := states[current.value := Some(live)];
      }
    }

    /** `algorithm_round_end`: the participants get back the states `on_round_end` makes of theirs,
        then every client gets the aggregated one. A list of another length is refused and changes
        nothing. */
    method RoundEnd(alg: Algorithm, clients: seq<nat>) returns (ok: bool)
      requires Valid() && Distinct(clients) && (forall a | 0 <= a < |clients| :: clients[a] < |states|)
      requires states == Copies().states
      modifies this`states, this`live
      ensures Valid() && |states| == old(|states|) && ok == Fitting(alg, old(states), clients)
      ensures Copies() == if ok then Federated(alg, old(Copies()), clients) else old(Copies())
    {
      ghost var p := Copies();
      var news := alg.onRoundEnd(Of(states, clients));
      if news.Some? {
        if |news.value| != |clients| { return false; }
        var next := GiveBack(states, clients, news.value);
        ReplaceWith(next);
      }
      var global := alg.aggregate(Of(states, clients));
      if global.Some? { ReplaceWith(seq(|states|, k => global)); }
      ok := true;
    }

    /** `replace_states` with a state for the active client. */
    method ReplaceWith(news: seq<Option<State>>)
      requires Valid() && |news| == |states| && (current.Some? ==> news[current.value].Some?)
      modifies this`states, this`live
      ensures Valid() && states == news && Copies() == old(Copies()).(states := news)
    {
      ReplaceStates(news);
      assert Copies().states == news;
    }

    /** Any number of federated rounds, each with its participants: training, `finish`, the end of the
        round. The one live copy leaves what private copies would. */
    method TrainRounds(alg: Algorithm, participants: seq<seq<nat>>, loaders: seq<seq<Batch>>) returns (ok: bool)
      requires Valid() && |loaders| == |states| && AllHaveLoaders(participants, loaders)
      requires forall r | 0 <= r < |participants| :: Distinct(participants[r])
      modifies this
      ensures Valid() && |states| == old(|states|)
      ensures AllRounds(train, handoff, onRoundEnd, if old(initial).Some? then old(initial).value else old(live),
                        alg, participants, loaders, old(Copies())) == if ok then Some(Copies()) else None
    {
      ghost var start, first := Copies(), if initial.Some? then initial.value else live;
      hide Trained, Federated, Fitting, Distinct, HaveLoaders;
      assert participants[..0] == [];
      ok := true;
      for r := 0 to |participants|
        invariant Valid() && |states| == old(|states|) && ok
        invariant first == if initial.Some? then initial.value else live
        invariant AllRounds(train, handoff, onRoundEnd, first, alg, participants[..r], loaders, start) == Some(Copies())
      {
        NextRounds(train, handoff, onRoundEnd, first, alg, participants, loaders, start, r);
        ok := TrainOneRound(alg, participants[r], loaders);
        if !ok {
          NoMore(train, handoff, onRoundEnd, first, alg, participants, loaders, start, r + 1, |participants|);
          assert participants[..|participants|] == participants;
          return;
        }
      }
      assert participants[..|participants|] == participants;
    }

    method TrainOneRound(alg: Algorithm, clients: seq<nat>, loaders: seq<seq<Batch>>) returns (ok: bool)
      requires Valid() && |loaders| == |states| && HaveLoaders(clients, loaders) && Distinct(clients)
      modifies this
      ensures Valid() && |states| == old(|states|)
      ensures initial == Some(if old(initial).Some? then old(initial).value else old(live))
      ensures forall a | 0 <= a < |clients| :: clients[a] < |states|
      ensures var t := Trained(train, handoff, onRoundEnd, initial.value, old(Copies()), clients, loaders);
        ok == Fitting(alg, t.states, clients) && (ok ==> Copies() == Federated(alg, t, clients))
    {
      hide Trained, Federated, Fitting;
      TrainRound(clients, loaders);
      Finish();
      ok := RoundEnd(alg, clients);
    }

    /** `replace_states`: every client gets a new state, the active one also in the live slices. */
    method ReplaceStates(news: seq<Option<State>>)
      requires Valid() && |news| == |states|
      modifies this`states, this`live
      ensures Valid() && current == old(current) && server == old(server) && states == news
      ensures |Copies().states| == |news|
      ensures forall k: nat | k < |news| ::
        Copies().states[k] == if current == Some(k) && news[k] == None then Some(old(live)) else news[k]
    {
      states := news;
      if current.Some? && states[current.value].Some? {
        live := states[current.value].value;
      }
    }
  }

  lemma NextRounds(train: Training, handoff: Option<Handoff>, combine: Option<Combine>, initial: State, alg: Algorithm,
                   participants: seq<seq<nat>>, loaders: seq<seq<Batch>>, p: Privates, r: nat)
    requires |loaders| == |p.states| && AllHaveLoaders(participants, loaders)
    requires (combine.Some? ==> OneEach(combine.value))
    requires r < |participants|
    ensures var q := AllRounds(train, handoff, combine, initial, alg, participants[..r], loaders, p);
      AllRounds(train, handoff, combine, initial, alg, participants[..r + 1], loaders, p) ==
      if q == None then None
      else
        var t := Trained(train, handoff, combine, initial, q.value, participants[r], loaders);
        if Fitting(alg, t.states, participants[r]) then Some(Federated(alg, t, participants[r])) else None
  {
    assert participants[..r + 1][..r] == participants[..r];
    hide Trained, Federated, Fitting, OneEach;
  }

  lemma {:induction false} NoMore(train: Training, handoff: Option<Handoff>, combine: Option<Combine>, initial: State,
                                  alg: Algorithm, participants: seq<seq<nat>>, loaders: seq<seq<Batch>>, p: Privates,
                                  r: nat, n: nat)
    requires |loaders| == |p.states| && AllHaveLoaders(participants, loaders)
    requires (combine.Some? ==> OneEach(combine.value))
    requires r <= n <= |participants|
    requires AllRounds(train, handoff, combine, initial, alg, participants[..r], loaders, p) == None
    ensures AllRounds(train, handoff, combine, initial, alg, participants[..n], loaders, p) == None
  {
    hide AllRounds, OneEach;
    if r < n {
      NoMore(train, handoff, combine, initial, alg, participants, loaders, p, r, n - 1);
      NextRounds(train, handoff, combine, initial, alg, participants, loaders, p, n - 1);
    }
  }

  lemma {:induction false} RoundInRange(live: seq<nat>, loaders: seq<seq<Batch>>, r: nat)
    requires HaveLoaders(live, loaders)
    ensures forall j | 0 <= j < |Round(live, loaders, r)| :: Round(live, loaders, r)[j].0 < |loaders|
  {
    if live != [] { RoundInRange(live[..|live| - 1], loaders, r); }
  }

  lemma {:induction false} RoundsInRange(clients: seq<nat>, loaders: seq<seq<Batch>>, r: nat)
    requires HaveLoaders(clients, loaders)
    ensures forall j | 0 <= j < |Rounds(clients, loaders, r)| :: Rounds(clients, loaders, r)[j].0 < |loaders|
  {
    if r > 0 {
      RoundsInRange(clients, loaders, r - 1);
      RoundInRange(LiveAt(clients, loaders, r - 1), loaders, r - 1);
      hide Round, LiveAt;
    }
  }

  lemma {:induction false} InTurnInRange(clients: seq<nat>, loaders: seq<seq<Batch>>)
    requires HaveLoaders(clients, loaders)
    ensures forall j | 0 <= j < |InTurn(clients, loaders)| :: InTurn(clients, loaders)[j].0 < |loaders|
  {
    if clients != [] { InTurnInRange(clients[..|clients| - 1], loaders); }
  }

  lemma OrderInRange(parallel: bool, clients: seq<nat>, loaders: seq<seq<Batch>>)
    requires HaveLoaders(clients, loaders)
    ensures forall j | 0 <= j < |Order(parallel, clients, loaders)| ::
        Order(parallel, clients, loaders)[j].0 < |loaders|
  {
    RoundsInRange(clients, loaders, Longest(clients, loaders));
    InTurnInRange(clients, loaders);
    hide Rounds, InTurn, Longest;
  }

  // ── what the modes mean ──────────────────────────────────────────────────────

  /** A client whose turn does not come keeps its state. */
  lemma {:induction false} OthersUntouched(train: Training, handoff: Option<Handoff>, initial: State, p: Privates,
                                           order: seq<Turn>, k: nat)
    requires (forall j | 0 <= j < |order| :: order[j].0 < |p.states|) && k < |p.states| && Own(order, k) == []
    ensures TrainAll(train, handoff, initial, p, order).states[k] == p.states[k]
  {
    if order != [] { OthersUntouched(train, handoff, initial, p, order[..|order| - 1], k); }
  }

  /** The keep handoff is private copies: a sequential session with it trains as if no state were ever
      handed on. */
  lemma {:induction false} KeepIsPrivate(train: Training, initial: State, p: Privates, order: seq<Turn>)
    requires forall j | 0 <= j < |order| :: order[j].0 < |p.states|
    ensures TrainAll(train, Some(KeepHandoff), initial, p, order) == TrainAll(train, None, initial, p, order)
  {
    if order != [] { KeepIsPrivate(train, initial, p, order[..|order| - 1]); }
  }

  /** The travelling model: one client model trained on all batches in order, whoever owns them. */
  function Travel(train: Training, state: State, server: State, batches: seq<Batch>): (State, State) {
    if batches == [] then (state, server)
    else
      var (s, v) := Travel(train, state, server, batches[..|batches| - 1]);
      train(s, v, batches[|batches| - 1])
  }

  function BatchesOf(order: seq<Turn>): (bs: seq<Batch>)
    ensures |bs| == |order|
  {
    seq(|order|, j requires 0 <= j < |order| => order[j].1)
  }

  /** With the copy handoff the client model travels: after any turns the active client's state is
      that of a single client trained on all of them. */
  lemma {:induction false} CopyTravels(train: Training, initial: State, p: Privates, order: seq<Turn>, k: nat)
    requires (forall j | 0 <= j < |order| :: order[j].0 < |p.states|)
    requires p.last == Some(k) && k < |p.states| && p.states[k].Some?
    ensures var r := TrainAll(train, Some(CopyHandoff), initial, p, order);
      && r.last.Some? && r.last.value < |p.states| && r.states[r.last.value].Some?
      && (r.states[r.last.value].value, r.server) == Travel(train, p.states[k].value, p.server, BatchesOf(order))
  {
    if order != [] {
      CopyTravels(train, initial, p, order[..|order| - 1], k);
      assert BatchesOf(order)[..|order| - 1] == BatchesOf(order[..|order| - 1]);
    }
  }

  // ── a server copy per client ─────────────────────────────────────────────────

  /** SplitFed V1: the server slices too have a copy per client within an epoch, swapped
      when the client changes. */
  class ServerCopies {
    const train: Training
    const start: State                    // the server when the epoch starts
    var serverStates: map<nat, State>
    var prev: Option<nat>
    var server: State
    var states: map<nat, State>           // the clients' own states

    ghost predicate Valid()
      reads this
    {
      prev == None ==> serverStates == map[]
    }

    /** What each client's server copy is. */
    ghost function Copy(k: nat): State
      reads this
    {
      if prev == Some(k) then server else if k in serverStates then serverStates[k] else start
    }

    constructor (train: Training, server: State, states: map<nat, State>)
      ensures Valid() && this.train == train && start == server && this.states == states
      ensures prev == None && this.server == start && forall k :: Copy(k) == server
    {
      this.train, start, this.server, this.states := train, server, server, states;
      serverStates, prev := map[], None;
    }

    /** One batch of client `k`: swap its server copy in if the client changed, then train. */
    method TrainBatch(k: nat, b: Batch)
      requires Valid() && k in states
      modifies this`serverStates, this`prev, this`server, this`states
      ensures Valid() && states.Keys == old(states).Keys
      ensures (states[k], Copy(k)) == train(old(states)[k], old(Copy(k)), b)
      ensures forall j | j != k :: Copy(j) == old(Copy(j)) && (j in states ==> states[j] == old(states)[j])
    {
      if prev != Some(k) {
        if prev.Some? { serverStates := serverStates[prev.value := server]; }
        server := if k in serverStates then serverStates[k] else start;
        prev := Some(k);
      }
      var (state, server') := train(states[k], server, b);
      states, server := states[k := state], server';
    }

    /** The end of the epoch: the last client's copy is stored too. */
    method Save()
      requires Valid()
      modifies this`serverStates
      ensures forall k :: Copy(k) == old(Copy(k))
      ensures prev.Some? ==> prev.value in serverStates
      ensures forall k | k in serverStates :: serverStates[k] == Copy(k)
    {
      if prev.Some? { serverStates := serverStates[prev.value := server]; }
    }

    /** Within an epoch every client's state and server copy evolve from the epoch start on that
        client's own batches only, as if the others were not there, in either order. */
    method TrainEpoch(parallel: bool, clients: seq<nat>, loaders: seq<seq<Batch>>)
      requires Valid() && prev == None && server == start && HaveLoaders(clients, loaders) && Distinct(clients)
      requires forall k: nat | k < |loaders| :: k in states
      modifies this`serverStates, this`prev, this`server, this`states
      ensures (prev.Some? ==> prev.value in serverStates) && forall k | k in serverStates :: serverStates[k] == Copy(k)
      ensures forall k: nat | k < |loaders| :: k in states
      ensures forall k: nat | k < |loaders| && k in clients ::
          (states[k], Copy(k)) == Travel(train, old(states)[k], start, loaders[k])
      ensures forall k: nat | k < |loaders| && k !in clients :: states[k] == old(states)[k] && Copy(k) == start
    {
      hide RoundByRound, ClientByClient, AllOwn;
      var order;
      if parallel { order := ParallelOrder(clients, loaders); } else { order := SequentialOrder(clients, loaders); }
      OrderInRange(parallel, clients, loaders);
      hide Order, HaveLoaders, Distinct;
      ghost var before := states;
      assert order[..0] == [];
      for j := 0 to |order|
        invariant Valid() && states.Keys == before.Keys
        invariant forall k: nat | k < |loaders| :: Alone(before, order[..j], k)
      {
        ghost var soFar := order[..j];
        var t := order[j];
        ghost var next := order[..j + 1];
        assert next == soFar + [t];
        label Before:
        TrainBatch(t.0, t.1);
        forall k: nat | k < |loaders| ensures Alone(before, next, k) {
          assert old@Before(Alone(before, soFar, k));
          OwnSnoc(soFar, t, k);
          assert (Own(soFar, k) + [t.1])[..|Own(soFar, k)|] == Own(soFar, k);
          assert Own(soFar, k) + [] == Own(soFar, k);
        }
      }
      assert order[..|order|] == order;
      forall k: nat | k < |loaders|
        ensures Alone(before, order, k) && Own(order, k) == if k in clients then loaders[k] else []
      {
        OwnOrder(parallel, clients, loaders, k);
      }
      Save();
    }

    /** An epoch from its start. */
    static method Epoch(train: Training, server: State, states: map<nat, State>, parallel: bool, clients: seq<nat>,
                        loaders: seq<seq<Batch>>)
      returns (after: map<nat, State>, servers: map<nat, State>)
      requires HaveLoaders(clients, loaders) && Distinct(clients) && forall k: nat | k < |loaders| :: k in states
      ensures forall k: nat | k < |loaders| && k in clients ::
        && k in after
        && (after[k], if k in servers then servers[k] else server) == Travel(train, states[k], server, loaders[k])
      ensures forall k: nat | k < |loaders| && k !in clients :: k in after && after[k] == states[k]
    {
      var c := new ServerCopies(train, server, states);
      c.TrainEpoch(parallel, clients, loaders);
      after, servers := c.states, c.serverStates;
    }

    /** Client `k` as if it alone had been trained on its turns of `order`. */
    ghost predicate Alone(before: map<nat, State>, order: seq<Turn>, k: nat)
      reads this
    {
      k in before && k in states && (states[k], Copy(k)) == Travel(train, before[k], start, Own(order, k))
    }
  }
}
