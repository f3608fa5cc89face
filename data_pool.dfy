/**
  The bounded token pools of data_pool.py. A pool keeps the balance it had at
  the close of every month (`tokensHistory`) and, for the month in progress, a
  pending inflow and outflow: the last elements of `inflows` and `outflows`.
  Closing the month commits them into a new balance clamped to [0, cap].

  `PoolState` is a pool as a value; `AddIn`, `AddOut` and `Close` are what the
  class `Pool` does to its fields. An unbounded pool (`float("inf")` as cap in
  Python) has the cap `None`.
 */
module DataPool {
  import opened Wrappers
  import opened Series

  datatype PoolState = PoolState(history: seq<real>, inflows: seq<real>, outflows: seq<real>)
  {
    /** The history and both accumulator lists are never empty. */
    predicate Valid() { |history| >= 1 && |inflows| >= 1 && |outflows| >= 1 }

    /** `get_current_tokens`: the latest closed balance (0 for an empty history). */
    function Current(): (c: real)
      ensures |history| > 0 ==> c == history[|history| - 1]
      ensures |history| == 0 ==> c == 0.0
    {
      if |history| > 0 then history[|history| - 1] else 0.0
    }

    /** The inflow pending for the month in progress. */
    function PendingIn(): real
      requires Valid()
    {
      inflows[|inflows| - 1]
    }

    /** The outflow pending for the month in progress. */
    function PendingOut(): real
      requires Valid()
    {
      outflows[|outflows| - 1]
    }
  }

  /** A cap under which the clamp range [0, cap] is not empty. */
  predicate CapAdmitsZero(maxTokens: Option<real>)
  {
    maxTokens.None? || maxTokens.value >= 0.0
  }

  predicate WithinCap(x: real, maxTokens: Option<real>)
  {
    0.0 <= x && (maxTokens.Some? ==> x <= maxTokens.value)
  }

  /** Every balance closed after the initial one lies in [0, cap]. */
  ghost predicate Bounded(history: seq<real>, maxTokens: Option<real>)
  {
    forall i :: 1 <= i < |history| ==> WithinCap(history[i], maxTokens)
  }

  /** `min(max(x, 0), max_tokens)` */
  function Clamp(x: real, maxTokens: Option<real>): (c: real)
    ensures CapAdmitsZero(maxTokens) ==> WithinCap(c, maxTokens)
    ensures CapAdmitsZero(maxTokens) ==> (c == x <==> WithinCap(x, maxTokens))
    ensures maxTokens.Some? && maxTokens.value < 0.0 ==> c == maxTokens.value
  {
    var nonNegative := if 0.0 > x then 0.0 else x;
    match maxTokens
    case None => nonNegative
    case Some(cap) => if cap < nonNegative then cap else nonNegative
  }

  /** The constructor: one history entry, and one pending slot, or two when the pool starts non-empty. */
  function InitialState(initialTokens: real): (s: PoolState)
    ensures s.Valid() && s.history == [initialTokens]
    ensures |s.inflows| == |s.outflows| == (if initialTokens == 0.0 then 1 else 2)
    ensures s.Current() == initialTokens
  {
    var slots := if initialTokens == 0.0 then 1 else 2;
    PoolState([initialTokens], Zeros(slots), Zeros(slots))
  }

  /** `add_tokens`: only the pending inflow grows. */
  function AddIn(s: PoolState, amount: real): (s': PoolState)
    requires s.Valid()
    ensures s'.Valid() && s'.history == s.history && s'.outflows == s.outflows
    ensures |s'.inflows| == |s.inflows|
    ensures s'.inflows[..|s.inflows| - 1] == s.inflows[..|s.inflows| - 1]
    ensures s'.PendingIn() == s.PendingIn() + amount
  {
    var last := |s.inflows| - 1;
    s.(inflows := s.inflows[last := s.inflows[last] + amount])
  }

  /** `subtract_tokens`: only the pending outflow grows. */
  function AddOut(s: PoolState, amount: real): (s': PoolState)
    requires s.Valid()
    ensures s'.Valid() && s'.history == s.history && s'.inflows == s.inflows
    ensures |s'.outflows| == |s.outflows|
    ensures s'.outflows[..|s.outflows| - 1] == s.outflows[..|s.outflows| - 1]
    ensures s'.PendingOut() == s.PendingOut() + amount
  {
    var last := |s.outflows| - 1;
    s.(outflows := s.outflows[last := s.outflows[last] + amount])
  }

  /**
    `update_history`: the month closes with the clamped balance, and fresh
    pending slots open at zero. Earlier entries are unchanged, and a history
    that was bounded stays bounded.
   */
  function Close(s: PoolState, maxTokens: Option<real>): (s': PoolState)
    requires s.Valid()
    ensures s'.Valid()
    ensures |s'.history| == |s.history| + 1 && s'.history[..|s.history|] == s.history
    ensures s'.Current() == Clamp(s.Current() + s.PendingIn() - s.PendingOut(), maxTokens)
    ensures s'.inflows == s.inflows + [0.0] && s'.outflows == s.outflows + [0.0]
    ensures s'.PendingIn() == 0.0 && s'.PendingOut() == 0.0
    ensures CapAdmitsZero(maxTokens) && Bounded(s.history, maxTokens) ==> Bounded(s'.history, maxTokens)
  {
    var current := s.Current() + s.PendingIn() - s.PendingOut();
    PoolState(s.history + [Clamp(current, maxTokens)], s.inflows + [0.0], s.outflows + [0.0])
  }

  /**
    `compute_incentive_emission`: the locked amount times the emission rate,
    scaled by how full the pool is. A full pool emits `locked * rate`; a pool
    between empty and full emits between nothing and that.
   */
  function ComputeIncentiveEmission(totalTokensLocked: real, poolTokens: real, poolMaxTokens: real, emissionRate: real): (e: real)
    requires poolMaxTokens != 0.0
    ensures poolTokens == 0.0 ==> e == 0.0
  {
    var proportionalEmissionRate := poolTokens / poolMaxTokens;
    totalTokensLocked * emissionRate * proportionalEmissionRate
  }

  /**
    The emission is `locked * rate * poolTokens / poolMaxTokens`: a full pool
    emits `locked * rate`, and a pool between empty and full emits between
    nothing and that.
   */
  lemma IncentiveEmissionProportional(totalTokensLocked: real, poolTokens: real, poolMaxTokens: real, emissionRate: real)
    requires poolMaxTokens != 0.0
    ensures var e := ComputeIncentiveEmission(totalTokensLocked, poolTokens, poolMaxTokens, emissionRate);
            e * poolMaxTokens == totalTokensLocked * emissionRate * poolTokens &&
            (poolTokens == poolMaxTokens ==> e == totalTokensLocked * emissionRate) &&
            (0.0 <= poolTokens <= poolMaxTokens && totalTokensLocked * emissionRate >= 0.0 ==>
               0.0 <= e <= totalTokensLocked * emissionRate)
  {
    var proportionalEmissionRate := poolTokens / poolMaxTokens;
    FractionBounds(poolTokens, poolMaxTokens);
    ScaleByFraction(totalTokensLocked * emissionRate, proportionalEmissionRate);
    if poolTokens == poolMaxTokens {
      assert proportionalEmissionRate == 1.0;
    }
  }

  /** A balance between empty and full is a fraction of the cap between 0 and 1. */
  lemma FractionBounds(x: real, cap: real)
    requires cap != 0.0
    ensures (x / cap) * cap == x
    ensures 0.0 <= x <= cap ==> 0.0 <= x / cap <= 1.0
  {
    if 0.0 <= x <= cap {
      assert cap > 0.0;
    }
  }

  lemma ScaleByFraction(a: real, q: real)
    ensures a >= 0.0 && 0.0 <= q <= 1.0 ==> 0.0 <= a * q <= a
  {
    if a >= 0.0 && 0.0 <= q <= 1.0 {
      assert a * q <= a * 1.0;
    }
  }

  class Pool {
    const name: string
    var tokensHistory: seq<real>
    var inflows: seq<real>
    var outflows: seq<real>
    const maxTokens: Option<real>

    function State(): PoolState
      reads this
    {
      PoolState(tokensHistory, inflows, outflows)
    }

    ghost predicate Valid()
      reads this
    {
      State().Valid()
    }

    /** `max_tokens` defaults to no cap (`float("inf")`), `initial_tokens` to 0.0. */
    constructor(name: string, maxTokens: Option<real> := None, initialTokens: real := 0.0)
      ensures Valid() && State() == InitialState(initialTokens)
      ensures this.name == name && this.maxTokens == maxTokens
    {
      this.name := name;
      tokensHistory := [initialTokens];
      inflows := Zeros(if initialTokens == 0.0 then 1 else 2);
      outflows := Zeros(if initialTokens == 0.0 then 1 else 2);
      this.maxTokens := maxTokens;
    }

    method AddTokens(amount: real)
      requires Valid()
      modifies this
      ensures Valid() && State() == AddIn(old(State()), amount)
    {
      inflows := inflows[|inflows| - 1 := inflows[|inflows| - 1] + amount];
    }

    method SubtractTokens(amount: real)
      requires Valid()
      modifies this
      ensures Valid() && State() == AddOut(old(State()), amount)
    {
      outflows := outflows[|outflows| - 1 := outflows[|outflows| - 1] + amount];
    }

    method UpdateHistory()
      requires Valid()
      modifies this
      ensures Valid() && State() == Close(old(State()), maxTokens)
    {
      var currentTokens := tokensHistory[|tokensHistory| - 1] + inflows[|inflows| - 1] - outflows[|outflows| - 1];
      currentTokens := Clamp(currentTokens, maxTokens);
      tokensHistory := tokensHistory + [currentTokens];
      inflows := inflows + [0.0];
      outflows := outflows + [0.0];
    }

    /** The last balance recorded. */
    function GetCurrentTokens(): (tokens: real)
      reads this
      ensures tokensHistory != [] ==> tokens == tokensHistory[|tokensHistory| - 1]
      ensures tokensHistory == [] ==> tokens == 0.0
    {
      State().Current()
    }
  }

  /** No two names lead to the same pool object. */
  ghost predicate DistinctPools<K>(pools: map<K, Pool>)
  {
    forall a, b :: a in pools && b in pools && a != b ==> pools[a] != pools[b]
  }

  /** Every pool's value, by name. */
  function PoolStates<K>(pools: map<K, Pool>): (states: map<K, PoolState>)
    reads pools.Values
    ensures states.Keys == pools.Keys
  {
    map n | n in pools :: pools[n].State()
  }

  predicate AllValid<K>(states: map<K, PoolState>)
  {
    forall n :: n in states ==> states[n].Valid()
  }

  /** The share `amount * ratio` that a pool with this distribution ratio is handed. */
  function Portion(amount: real, ratio: real): real
  {
    amount * ratio
  }

  /** The pools once those named in `handed` have received `amount * ratio` more pending inflow. */
  function Handed<K>(states: map<K, PoolState>, amount: real, ratios: map<K, real>, handed: set<K>): (states': map<K, PoolState>)
    requires AllValid(states) && handed <= ratios.Keys
    ensures states'.Keys == states.Keys && AllValid(states')
  {
    map n | n in states :: if n in handed then AddIn(states[n], Portion(amount, ratios[n])) else states[n]
  }

  /** The pools after `distribute_tokens_to_pools`: each named in `ratios` gets `amount * ratio` more pending inflow. */
  function Distribute<K>(states: map<K, PoolState>, amount: real, ratios: map<K, real>): (states': map<K, PoolState>)
    requires AllValid(states)
    ensures states'.Keys == states.Keys && AllValid(states')
  {
    Handed(states, amount, ratios, ratios.Keys)
  }

  /** Handing one more pool its share changes that pool alone. */
  lemma HandOneMore<K>(start: map<K, PoolState>, amount: real, ratios: map<K, real>, handed: set<K>, name: K)
    requires AllValid(start) && handed <= ratios.Keys && name in ratios && name !in handed && name in start
    ensures var before := Handed(start, amount, ratios, handed);
            Handed(start, amount, ratios, handed + {name})
              == before[name := AddIn(before[name], Portion(amount, ratios[name]))]
  {
  }

  /**
    What distribution does to one pool: its closed balances and pending outflow
    stay as they were, and its pending inflow grows by `amount * ratio` when it
    is named in `ratios`, by nothing otherwise.
   */
  lemma DistributeEffect<K>(states: map<K, PoolState>, amount: real, ratios: map<K, real>, n: K)
    requires AllValid(states) && n in states
    ensures var s, s' := states[n], Distribute(states, amount, ratios)[n];
            s'.history == s.history && s'.outflows == s.outflows && s'.Current() == s.Current() &&
            |s'.inflows| == |s.inflows| && s'.inflows[..|s.inflows| - 1] == s.inflows[..|s.inflows| - 1] &&
            s'.PendingIn() == s.PendingIn() + (if n in ratios then Portion(amount, ratios[n]) else 0.0)
  {
  }

  /** `pools[name].subtract_tokens(amount)` seen from the whole map: that pool alone changes. */
  method SubtractTokensFrom<K>(pools: map<K, Pool>, name: K, amount: real)
    requires name in pools && DistinctPools(pools) && AllValid(PoolStates(pools))
    modifies pools[name]
    ensures AllValid(PoolStates(pools))
    ensures PoolStates(pools) == old(PoolStates(pools))[name := AddOut(old(PoolStates(pools))[name], amount)]
  {
    var pool := pools[name];
    pool.SubtractTokens(amount);
    forall n | n in pools && n != name
      ensures pools[n].State() == old(pools[n].State())
    {
      assert pools[n] != pool;
    }
  }

  /** One pool once the pools named in `closed` have closed the month. */
  lemma ClosedAt<K>(states: map<K, PoolState>, caps: map<K, Option<real>>, closed: set<K>, n: K)
    requires AllValid(states) && closed <= caps.Keys && n in states
    ensures ClosedUpTo(states, caps, closed)[n] == if n in closed then Close(states[n], caps[n]) else states[n]
  {
  }

  /** Once every pool has closed, each one holds its own closed month. */
  lemma ClosedAll<K>(start: map<K, PoolState>, caps: map<K, Option<real>>, states: map<K, PoolState>)
    requires AllValid(start) && start.Keys == caps.Keys && states == ClosedUpTo(start, caps, start.Keys)
    ensures forall n :: n in states ==> states[n] == Close(start[n], caps[n])
  {
  }

  /** One pool after distribution. */
  lemma DistributeAt<K>(states: map<K, PoolState>, amount: real, ratios: map<K, real>, n: K)
    requires AllValid(states) && n in states
    ensures Distribute(states, amount, ratios)[n] == if n in ratios then AddIn(states[n], Portion(amount, ratios[n])) else states[n]
  {
  }

  /** Every pool's cap, by name. */
  function Caps<K>(pools: map<K, Pool>): (caps: map<K, Option<real>>)
    ensures caps.Keys == pools.Keys
  {
    map n | n in pools :: pools[n].maxTokens
  }

  /** The pools once those named in `closed` have closed the month, each under its own cap. */
  function ClosedUpTo<K>(states: map<K, PoolState>, caps: map<K, Option<real>>, closed: set<K>): (states': map<K, PoolState>)
    requires AllValid(states) && closed <= caps.Keys
    ensures states'.Keys == states.Keys && AllValid(states')
  {
    map n | n in states :: if n in closed then Close(states[n], caps[n]) else states[n]
  }

  /** Closing one more pool changes that pool alone. */
  lemma CloseOneMore<K>(start: map<K, PoolState>, caps: map<K, Option<real>>, closed: set<K>, name: K,
                        before: map<K, PoolState>, after: map<K, PoolState>)
    requires AllValid(start) && closed <= caps.Keys && name in caps && name !in closed && name in start
    requires before == ClosedUpTo(start, caps, closed) && after == before[name := Close(before[name], caps[name])]
    ensures after == ClosedUpTo(start, caps, closed + {name})
  {
  }

  /** Taking one name off the pending set adds it to the names already done. */
  lemma OneMoreDone<K>(all: set<K>, pending: set<K>, name: K)
    requires name in pending && pending <= all
    ensures all - (pending - {name}) == (all - pending) + {name}
  {
  }

  /** `pools[name].update_history()` seen from the whole map: that pool alone changes. */
  method UpdateHistoryOf<K>(pools: map<K, Pool>, name: K)
    requires name in pools && DistinctPools(pools) && AllValid(PoolStates(pools))
    modifies pools[name]
    ensures AllValid(PoolStates(pools))
    ensures PoolStates(pools) == old(PoolStates(pools))[name := Close(old(PoolStates(pools))[name], pools[name].maxTokens)]
  {
    var pool := pools[name];
    pool.UpdateHistory();
    forall n | n in pools && n != name
      ensures pools[n].State() == old(pools[n].State())
    {
      assert pools[n] != pool;
    }
  }

  /** `for pool in pools.values(): pool.update_history()`: every pool closes the month under its own cap. */
  method UpdateHistories<K>(pools: map<K, Pool>)
    requires DistinctPools(pools) && AllValid(PoolStates(pools))
    modifies pools.Values
    ensures AllValid(PoolStates(pools))
    ensures PoolStates(pools) == ClosedUpTo(old(PoolStates(pools)), Caps(pools), pools.Keys)
    ensures forall n :: n in pools ==> pools[n].State() == Close(old(pools[n].State()), pools[n].maxTokens)
  {
    ghost var start := PoolStates(pools);
    var pending := pools.Keys;
    while pending != {}
      invariant pending <= pools.Keys
      invariant AllValid(PoolStates(pools))
      invariant PoolStates(pools) == ClosedUpTo(start, Caps(pools), pools.Keys - pending)
      decreases pending
    {
      var name :| name in pending;
      ghost var before := PoolStates(pools);
      UpdateHistoryOf(pools, name);
      CloseOneMore(start, Caps(pools), pools.Keys - pending, name, before, PoolStates(pools));
      OneMoreDone(pools.Keys, pending, name);
      pending := pending - {name};
    }
    assert pools.Keys - pending == pools.Keys;
    ClosedAll(start, Caps(pools), PoolStates(pools));
  }

  /** `pools[name].add_tokens(amount)` seen from the whole map: that pool alone changes. */
  method AddTokensTo<K>(pools: map<K, Pool>, name: K, amount: real)
    requires name in pools && DistinctPools(pools) && AllValid(PoolStates(pools))
    modifies pools[name]
    ensures AllValid(PoolStates(pools))
    ensures PoolStates(pools) == old(PoolStates(pools))[name := AddIn(old(PoolStates(pools))[name], amount)]
  {
    var pool := pools[name];
    pool.AddTokens(amount);
    forall n | n in pools && n != name
      ensures pools[n].State() == old(pools[n].State())
    {
      assert pools[n] != pool;
    }
  }

  method DistributeTokensToPools<K>(monthlyUnlockedTokens: real, pools: map<K, Pool>, ratios: map<K, real>)
    requires ratios.Keys <= pools.Keys
    requires DistinctPools(pools)
    requires AllValid(PoolStates(pools))
    modifies pools.Values
    ensures AllValid(PoolStates(pools))
    ensures PoolStates(pools) == Distribute(old(PoolStates(pools)), monthlyUnlockedTokens, ratios)
    ensures forall n :: n in pools ==>
              pools[n].State() == if n in ratios then AddIn(old(pools[n].State()), Portion(monthlyUnlockedTokens, ratios[n])) else old(pools[n].State())
  {
    ghost var start := PoolStates(pools);
    var pending := ratios.Keys;
    while pending != {}
      invariant pending <= ratios.Keys
      invariant AllValid(PoolStates(pools))
      invariant PoolStates(pools) == Handed(start, monthlyUnlockedTokens, ratios, ratios.Keys - pending)
      decreases pending
    {
      var poolName :| poolName in pending;
      AddTokensTo(pools, poolName, Portion(monthlyUnlockedTokens, ratios[poolName]));
      HandOneMore(start, monthlyUnlockedTokens, ratios, ratios.Keys - pending, poolName);
      OneMoreDone(ratios.Keys, pending, poolName);
      pending := pending - {poolName};
    }
    assert ratios.Keys - pending == ratios.Keys;
    forall n | n in pools
      ensures pools[n].State() == if n in ratios then AddIn(start[n], Portion(monthlyUnlockedTokens, ratios[n])) else start[n]
    {
      DistributeAt(start, monthlyUnlockedTokens, ratios, n);
    }
  }
}
