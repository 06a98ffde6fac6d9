/**
 * The live supply ledger: a registry of tracked tokens keyed by lower-cased
 * address. Tracking a token reads its metadata from the chain (falling back to
 * defaults), applies a zero-amount genesis buy, and subscribes to its Buy,
 * Sell and Trade events; every event folds one trade into the token's supply
 * and writes a snapshot to the store.
 */
module Server {
  import opened Wrappers
  import Address
  import Supply
  import Db

  /** Supply assumed when the chain reads fail: 10^9 tokens of 18 decimals. */
  const DEFAULT_SUPPLY: nat := 1_000_000_000 * 1_000_000_000_000_000_000
  const DEFAULT_DECIMALS: nat := 18
  const UNKNOWN_TOKEN: string := "Unknown Token"
  /** Transaction hash recorded with the genesis snapshot. */
  const GENESIS_TX: string := "genesis"

  /** The live entry of one tracked token (the contract handle is not modelled). */
  datatype TokenState = TokenState(supply: nat, name: string, decimals: nat)

  /**
   * Results of the chain reads made when tracking starts, None for a read that
   * failed: the virtual-reserve read, then `decimals()`, then `name()`.
   */
  datatype ChainReads = ChainReads(reserve: Option<nat>, decimals: Option<nat>, name: Option<string>)

  /** Price and market cap as the strings written into a snapshot. */
  datatype Quote = Quote(price: string, marketCap: string)

  /** The three contract events the indexer subscribes to. */
  datatype EventKind = Buy | Sell | Trade(isPurchase: bool)

  /**
   * Outcome of a query: the latest snapshot, "indexing started, retry" when
   * the token is tracked but has no snapshot, or the error raised when the
   * chain-head read fails while tracking starts.
   */
  datatype Reply = Found(record: Db.SnapshotRecord) | NotYetIndexed | ChainError

  /** The display name used when no name is read from the chain: the hint, unless it is empty. */
  function FallbackName(hint: string): (name: string)
    ensures name != ""
    ensures hint != "" ==> name == hint
    ensures hint == "" ==> name == UNKNOWN_TOKEN
  {
    if hint == "" then UNKNOWN_TOKEN else hint
  }

  /**
   * The entry created for a newly tracked token. The three reads sit in one
   * guarded block: once the reserve read fails, the other two are not made and
   * everything keeps its default; a failed name read alone falls back to the name.
   */
  function Bootstrap(hint: string, chain: ChainReads): (st: TokenState)
    ensures chain.reserve.None? ==>
              st == TokenState(DEFAULT_SUPPLY, FallbackName(hint), DEFAULT_DECIMALS)
    ensures chain.reserve.Some? ==> st.supply == chain.reserve.value
    ensures chain.decimals.None? ==> st.decimals == DEFAULT_DECIMALS && st.name == FallbackName(hint)
    ensures chain.reserve.Some? && chain.decimals.Some? ==>
              st.decimals == chain.decimals.value && st.name == chain.name.GetOr(FallbackName(hint))
  {
    var fallback := TokenState(DEFAULT_SUPPLY, FallbackName(hint), DEFAULT_DECIMALS);
    match chain.reserve
    case None => fallback
    case Some(reserve) =>
      match chain.decimals
      case None => fallback.(supply := reserve)
      case Some(decimals) =>
        fallback.(supply := reserve, decimals := decimals, name := chain.name.GetOr(fallback.name))
  }

  /** Direction of the trade an event reports: a buy for Buy and for a Trade flagged as a purchase. */
  function IsBuy(kind: EventKind): (b: bool)
    ensures b <==> kind == Buy || kind == Trade(true)
  {
    match kind
    case Buy => true
    case Sell => false
    case Trade(isPurchase) => isPurchase
  }

  /**
   * Buy events raise the supply by their amount, Sell events lower it with the
   * clamp at zero, and a Trade event acts as the one its flag names.
   */
  lemma EventEffect(supply: nat, amount: nat, isPurchase: bool)
    ensures Supply.ApplyTrade(supply, Supply.Trade(amount, IsBuy(Buy))) == supply + amount
    ensures Supply.ApplyTrade(supply, Supply.Trade(amount, IsBuy(Sell))) ==
              if supply > amount then supply - amount else 0
    ensures Supply.ApplyTrade(supply, Supply.Trade(amount, IsBuy(Trade(isPurchase)))) ==
              if isPurchase then supply + amount
              else if supply > amount then supply - amount else 0
  {
  }

  /** The lower-cased addresses that `listeners` subscribes for. */
  ghost function ListenerKeys(listeners: seq<string>): (keys: set<string>)
    ensures forall i :: 0 <= i < |listeners| ==> Address.Lower(listeners[i]) in keys
    decreases |listeners|
  {
    if listeners == [] then {}
    else ListenerKeys(listeners[..|listeners| - 1]) + {Address.Lower(listeners[|listeners| - 1])}
  }

  /** Exactly the tokens in `tracked` have a subscription, and no token has two. */
  ghost predicate ListenersCover(listeners: seq<string>, tracked: set<string>) {
    && ListenerKeys(listeners) == tracked
    && (forall i, j :: 0 <= i < j < |listeners| ==> Address.Lower(listeners[i]) != Address.Lower(listeners[j]))
  }

  /** Every subscribed key comes from some subscription. */
  lemma {:induction false} ListenerKeySource(listeners: seq<string>, k: string)
    requires k in ListenerKeys(listeners)
    ensures exists i :: 0 <= i < |listeners| && Address.Lower(listeners[i]) == k
    decreases |listeners|
  {
    var n := |listeners| - 1;
    if k != Address.Lower(listeners[n]) {
      ListenerKeySource(listeners[..n], k);
      var i :| 0 <= i < n && Address.Lower(listeners[..n][i]) == k;
      assert Address.Lower(listeners[i]) == k;
    }
  }

  /** Subscriptions with pairwise distinct keys subscribe for as many keys as there are subscriptions. */
  lemma {:induction false} DistinctListenerCount(listeners: seq<string>)
    requires forall i, j :: 0 <= i < j < |listeners| ==> Address.Lower(listeners[i]) != Address.Lower(listeners[j])
    ensures |ListenerKeys(listeners)| == |listeners|
    decreases |listeners|
  {
    if listeners != [] {
      var n := |listeners| - 1;
      var prefix := listeners[..n];
      DistinctListenerCount(prefix);
      if Address.Lower(listeners[n]) in ListenerKeys(prefix) {
        ListenerKeySource(prefix, Address.Lower(listeners[n]));
        assert false;
      }
    }
  }

  /** The stored record for `key` reflects the live entry. */
  ghost predicate Mirrors(record: Db.SnapshotRecord, key: string, st: TokenState) {
    record.tokenAddress == key && record.tokenName == st.name && record.supply == st.supply
  }

  /**
   * The registry after one trade for `key`: that token's supply moves by the
   * trade, its name and decimals stay, and nothing else changes. An untracked
   * key leaves the registry as it is.
   */
  function Advance(live: map<string, TokenState>, key: string, t: Supply.Trade): (r: map<string, TokenState>)
    ensures r.Keys == live.Keys
    ensures forall k | k in live && k != key :: r[k] == live[k]
    ensures key in live ==>
              && r[key].supply == Supply.ApplyTrade(live[key].supply, t)
              && r[key].name == live[key].name
              && r[key].decimals == live[key].decimals
  {
    if key in live then live[key := live[key].(supply := Supply.ApplyTrade(live[key].supply, t))] else live
  }

  /** The trade histories after `t` is applied to `key`. */
  ghost function Extend(trades: map<string, seq<Supply.Trade>>, key: string, t: Supply.Trade): map<string, seq<Supply.Trade>> {
    if key in trades then trades[key := trades[key] + [t]] else trades
  }

  /** A genesis event for a freshly created entry leaves the registry and history as if only the entry had been added. */
  lemma GenesisAfterInsert(live: map<string, TokenState>, trades: map<string, seq<Supply.Trade>>,
                           key: string, st: TokenState)
    ensures Advance(live[key := st], key, Supply.GENESIS) == live[key := st]
    ensures Extend(trades[key := []], key, Supply.GENESIS) == trades[key := [Supply.GENESIS]]
  {
    assert [] + [Supply.GENESIS] == [Supply.GENESIS];
  }

  /** The ledger invariant, stated on the values of the registry and the store. */
  ghost predicate Consistent(live: map<string, TokenState>, opening: map<string, nat>,
                             trades: map<string, seq<Supply.Trade>>, mem: Db.Contents)
  {
    && opening.Keys == live.Keys
    && trades.Keys == live.Keys
    && (forall k | k in live :: live[k].supply == Supply.Replay(opening[k], trades[k]))
    && mem.Keys <= live.Keys
    && (forall k | k in mem :: Mirrors(mem[k], k, live[k]))
  }

  /** Applying a trade to a tracked entry and saving its mirror keeps the ledger consistent. */
  lemma ConsistentAfterTrade(live: map<string, TokenState>, opening: map<string, nat>,
                             trades: map<string, seq<Supply.Trade>>, mem: Db.Contents,
                             key: string, t: Supply.Trade, data: Db.SnapshotData, now: nat)
    requires Consistent(live, opening, trades, mem)
    requires key in live && Address.Lower(data.tokenAddress) == key
    requires var st := live[key].(supply := Supply.ApplyTrade(live[key].supply, t));
             Mirrors(Db.Stamp(data, now), key, st)
    ensures var st := live[key].(supply := Supply.ApplyTrade(live[key].supply, t));
            Consistent(live[key := st], opening, trades[key := trades[key] + [t]], Db.Save(mem, data, now))
  {
    Supply.ReplaySnoc(opening[key], trades[key], t);
  }

  /** A fresh entry with an empty history, not yet saved, keeps the ledger consistent. */
  lemma ConsistentAfterInsert(live: map<string, TokenState>, opening: map<string, nat>,
                              trades: map<string, seq<Supply.Trade>>, mem: Db.Contents,
                              key: string, st: TokenState)
    requires Consistent(live, opening, trades, mem)
    requires key !in live
    ensures Consistent(live[key := st], opening[key := st.supply], trades[key := []], mem)
  {
  }

  /** Registering a token that has no listener yet, under its own key, keeps every token covered once. */
  lemma ListenersCoverAfterRegister(listeners: seq<string>, tracked: set<string>, tokenAddr: string)
    requires ListenersCover(listeners, tracked)
    requires Address.Lower(tokenAddr) !in tracked
    ensures ListenersCover(listeners + [tokenAddr], tracked + {Address.Lower(tokenAddr)})
  {
    var grown := listeners + [tokenAddr];
    assert grown[..|grown| - 1] == listeners;
  }

  class Indexer {
    /** The snapshot store the ledger writes to. */
    const store: Db.SnapshotStore
    /** Price and market cap as a function of (supply, decimals). */
    const pricing: (nat, nat) -> Quote

    /** Tracked tokens by lower-cased address. */
    var liveState: map<string, TokenState>
    /** Address of each Buy/Sell/Trade subscription set, in registration order. */
    var listeners: seq<string>

    /** Supply each token had when its entry was created. */
    ghost var opening: map<string, nat>
    /** Trades applied to each token since its entry was created, in order. */
    ghost var trades: map<string, seq<Supply.Trade>>

    /**
     * The supply of each tracked token is its opening supply with its trades
     * replayed, and each stored record agrees with the live entry it came from.
     */
    ghost predicate Ledger()
      reads this, store
    {
      store.Valid() && Consistent(liveState, opening, trades, store.memoryStore)
    }

    /**
     * Ledger, plus: a tracked token has a subscription exactly when it has a
     * snapshot, and never two. A token whose chain-head read failed while
     * tracking started has neither.
     */
    ghost predicate Valid()
      reads this, store
    {
      Ledger() && ListenersCover(listeners, store.memoryStore.Keys)
    }

    constructor (pricing: (nat, nat) -> Quote)
      ensures Valid() && fresh(store)
      ensures this.pricing == pricing
      ensures liveState == map[] && listeners == [] && store.memoryStore == map[]
    {
      this.pricing := pricing;
      store := new Db.SnapshotStore();
      liveState := map[];
      listeners := [];
      opening := map[];
      trades := map[];
    }

    /**
     * The snapshot written for the entry `st` of `key` after an event at the
     * given coordinates: the entry's name and supply under the key, the event's
     * block, log index and transaction hash, and a price and market cap that
     * depend on the supply and decimals alone.
     */
    function SnapshotOf(key: string, st: TokenState, blockNumber: nat, logIndex: nat, txHash: string): (d: Db.SnapshotData)
      ensures d.tokenAddress == key && d.tokenName == st.name && d.supply == st.supply
      ensures d.blockNumber == blockNumber && d.eventIndex == logIndex && d.txHash == Some(txHash)
      ensures Quote(d.price, d.marketCap) == pricing(st.supply, st.decimals)
    {
      var q := pricing(st.supply, st.decimals);
      Db.SnapshotData(st.name, key, blockNumber, logIndex, st.supply, q.price, q.marketCap, Some(txHash))
    }

    /**
     * Folds one trade into the supply of `tokenAddr` and saves a snapshot of
     * the result; an untracked address is left alone and nothing is saved.
     */
    method UpdateToken(tokenAddr: string, amount: nat, isBuy: bool,
                       blockNumber: nat, logIndex: nat, txHash: string, now: nat)
      requires Ledger()
      modifies this, store
      ensures Ledger()
      ensures listeners == old(listeners) && opening == old(opening)
      ensures liveState == Advance(old(liveState), Address.Lower(tokenAddr), Supply.Trade(amount, isBuy))
      ensures trades == Extend(old(trades), Address.Lower(tokenAddr), Supply.Trade(amount, isBuy))
      ensures var key := Address.Lower(tokenAddr);
              store.memoryStore ==
                if key in old(liveState)
                then Db.Save(old(store.memoryStore), SnapshotOf(key, liveState[key], blockNumber, logIndex, txHash), now)
                else old(store.memoryStore)
    {
      var key := Address.Lower(tokenAddr);
      if key !in liveState {
        return;
      }
      var state := liveState[key];
      var t := Supply.Trade(amount, isBuy);
      state := state.(supply := Supply.ApplyTrade(state.supply, t));
      var data := SnapshotOf(key, state, blockNumber, logIndex, txHash);
      Address.LowerIdempotent(tokenAddr);
      ConsistentAfterTrade(liveState, opening, trades, store.memoryStore, key, t, data, now);
      liveState := liveState[key := state];
      trades := trades[key := trades[key] + [t]];
      store.SaveState(data, now);
    }

    /**
     * Starts tracking `tokenAddr` unless it is tracked already, in any letter
     * case, in which case nothing changes. Otherwise the entry is created from
     * the chain reads, and then the chain head is read (`head`, None when the
     * read fails). On success the genesis snapshot is saved at the head and
     * one subscription is registered. On failure `ok` is false and the entry
     * stays tracked with neither.
     */
    method StartIndexing(tokenName: string, tokenAddr: string, chain: ChainReads, head: Option<nat>, now: nat)
      returns (ok: bool)
      requires Valid()
      modifies this, store
      ensures Valid()
      ensures ok <==> Address.Lower(tokenAddr) in old(liveState) || head.Some?
      ensures var key := Address.Lower(tokenAddr);
              key in old(liveState) ==>
                && liveState == old(liveState)
                && opening == old(opening)
                && trades == old(trades)
                && listeners == old(listeners)
                && store.memoryStore == old(store.memoryStore)
      ensures var key, st := Address.Lower(tokenAddr), Bootstrap(tokenName, chain);
              key !in old(liveState) ==>
                && liveState == old(liveState)[key := st]
                && opening == old(opening)[key := st.supply]
      ensures Address.Lower(tokenAddr) !in old(liveState) && head.None? ==>
                && trades == old(trades)[Address.Lower(tokenAddr) := []]
                && listeners == old(listeners)
                && store.memoryStore == old(store.memoryStore)
      ensures var key, st := Address.Lower(tokenAddr), Bootstrap(tokenName, chain);
              key !in old(liveState) && head.Some? ==>
                && trades == old(trades)[key := [Supply.GENESIS]]
                && listeners == old(listeners) + [tokenAddr]
                && store.memoryStore == Db.Save(old(store.memoryStore), SnapshotOf(key, st, head.value, 0, GENESIS_TX), now)
    {
      var key := Address.Lower(tokenAddr);
      if key in liveState {
        return true;
      }
      ghost var covered := store.memoryStore.Keys;
      var state := Bootstrap(tokenName, chain);
      ConsistentAfterInsert(liveState, opening, trades, store.memoryStore, key, state);
      GenesisAfterInsert(liveState, trades, key, state);
      liveState, opening, trades := liveState[key := state], opening[key := state.supply], trades[key := []];
      if head.None? {
        // The rejected read escapes: no genesis event, no subscriptions.
        return false;
      }
      UpdateToken(tokenAddr, Supply.GENESIS.amount, Supply.GENESIS.isBuy, head.value, 0, GENESIS_TX, now);
      ListenersCoverAfterRegister(listeners, covered, tokenAddr);
      listeners := listeners + [tokenAddr];
      ok := true;
    }

    /**
     * A subscription callback: the event's kind decides the trade's direction.
     * Callbacks exist only for subscribed addresses, so the token is tracked
     * and already has a snapshot, which is replaced.
     */
    method OnEvent(tokenAddr: string, kind: EventKind, amount: nat,
                   blockNumber: nat, logIndex: nat, txHash: string, now: nat)
      requires Valid()
      requires tokenAddr in listeners
      modifies this, store
      ensures Valid()
      ensures listeners == old(listeners) && opening == old(opening)
      ensures Address.Lower(tokenAddr) in old(liveState)
      ensures liveState == Advance(old(liveState), Address.Lower(tokenAddr), Supply.Trade(amount, IsBuy(kind)))
      ensures trades == Extend(old(trades), Address.Lower(tokenAddr), Supply.Trade(amount, IsBuy(kind)))
      ensures var key := Address.Lower(tokenAddr);
              store.memoryStore == Db.Save(old(store.memoryStore), SnapshotOf(key, liveState[key], blockNumber, logIndex, txHash), now)
      ensures store.memoryStore.Keys == old(store.memoryStore.Keys)
    {
      var i :| 0 <= i < |listeners| && listeners[i] == tokenAddr;
      assert Address.Lower(tokenAddr) in store.memoryStore;
      UpdateToken(tokenAddr, amount, IsBuy(kind), blockNumber, logIndex, txHash, now);
    }

    /**
     * A query for `address`: tracking is started if needed, then the latest
     * snapshot is read. A query changes the state only as StartIndexing does.
     * The reply is ChainError exactly when tracking starts now and the chain
     * head cannot be read; NotYetIndexed exactly when the token was tracked
     * already without a snapshot, which then never changes; otherwise the
     * snapshot found carries the token's live supply.
     */
    method Latest(name: string, address: string, chain: ChainReads, head: Option<nat>, now: nat)
      returns (reply: Reply)
      requires Valid()
      modifies this, store
      ensures Valid()
      ensures var key := Address.Lower(address);
              key in old(liveState) ==>
                && liveState == old(liveState)
                && opening == old(opening)
                && trades == old(trades)
                && listeners == old(listeners)
                && store.memoryStore == old(store.memoryStore)
      ensures var key, st := Address.Lower(address), Bootstrap(name, chain);
              key !in old(liveState) ==>
                && liveState == old(liveState)[key := st]
                && opening == old(opening)[key := st.supply]
                && trades == old(trades)[key := if head.Some? then [Supply.GENESIS] else []]
                && listeners == (if head.Some? then old(listeners) + [address] else old(listeners))
                && store.memoryStore ==
                     if head.Some?
                     then Db.Save(old(store.memoryStore), SnapshotOf(key, st, head.value, 0, GENESIS_TX), now)
                     else old(store.memoryStore)
      ensures reply == ChainError <==> Address.Lower(address) !in old(liveState) && head.None?
      ensures reply == NotYetIndexed <==>
                Address.Lower(address) in old(liveState) && Address.Lower(address) !in old(store.memoryStore)
      ensures reply.Found? ==>
                && Db.Lookup(store.memoryStore, address) == Some(reply.record)
                && reply.record.supply == liveState[Address.Lower(address)].supply
    {
      var ok := StartIndexing(name, address, chain, head, now);
      if !ok {
        return ChainError;
      }
      Address.LowerIdempotent(address);
      var r := store.GetLatestState(Address.Lower(address));
      match r
      case None => reply := NotYetIndexed;
      case Some(record) => reply := Found(record);
    }
  }

  /**
   * Conservation for a tracked token: its live supply is at least its opening
   * supply plus everything bought minus everything sold since, at most its
   * opening supply plus everything bought, and exactly opening plus bought
   * minus sold when no sell ever met a smaller supply.
   */
  lemma TrackedSupply(ix: Indexer, k: string)
    requires ix.Valid() && k in ix.liveState
    ensures var supply, opening, trades := ix.liveState[k].supply, ix.opening[k], ix.trades[k];
            && supply >= opening + Supply.Bought(trades) - Supply.Sold(trades)
            && supply <= opening + Supply.Bought(trades)
            && (Supply.NeverShort(opening, trades) ==>
                  supply == opening + Supply.Bought(trades) - Supply.Sold(trades))
  {
    var opening, trades := ix.opening[k], ix.trades[k];
    Supply.ReplayLowerBound(opening, trades);
    Supply.ReplayUpperBound(opening, trades);
    if Supply.NeverShort(opening, trades) {
      Supply.ReplayExact(opening, trades);
    }
  }

  /** There is one subscription per snapshotted token: never a second one for the same token. */
  lemma SubscriptionCount(ix: Indexer)
    requires ix.Valid()
    ensures |ix.listeners| == |ix.store.memoryStore|
  {
    DistinctListenerCount(ix.listeners);
  }

  /**
   * A first query for a token on a fresh indexer: tracking starts, and the
   * reply carries the bootstrap supply, recorded as the opening supply
   * behind the genesis event alone.
   */
  method FirstQuery(pricing: (nat, nat) -> Quote, name: string, address: string, chain: ChainReads,
                    block: nat, now: nat)
    returns (ix: Indexer, first: Reply)
    ensures fresh(ix) && fresh(ix.store) && ix.Valid()
    ensures first.Found? && first.record.supply == Bootstrap(name, chain).supply
    ensures ix.listeners == [address]
    ensures ix.liveState == map[Address.Lower(address) := Bootstrap(name, chain)]
    ensures ix.opening == map[Address.Lower(address) := Bootstrap(name, chain).supply]
    ensures ix.trades == map[Address.Lower(address) := [Supply.GENESIS]]
  {
    ix := new Indexer(pricing);
    first := ix.Latest(name, address, chain, Some(block), now);
  }

  /**
   * A buy event for a subscribed token followed by a query for it: the reply
   * carries the supply raised by exactly the amount bought, and the buy is
   * appended to the token's history.
   */
  method BuyThenQuery(ix: Indexer, name: string, address: string, chain: ChainReads, head: Option<nat>,
                      amount: nat, block: nat, logIndex: nat, txHash: string, now: nat)
    returns (reply: Reply)
    requires ix.Valid() && address in ix.listeners
    modifies ix, ix.store
    ensures ix.Valid()
    ensures var key := Address.Lower(address);
            && key in old(ix.liveState)
            && reply.Found? && reply.record.supply == old(ix.liveState[key].supply) + amount
            && ix.opening == old(ix.opening)
            && ix.trades == old(ix.trades)[key := old(ix.trades[key]) + [Supply.Trade(amount, true)]]
  {
    ix.OnEvent(address, Buy, amount, block, logIndex, txHash, now);
    reply := ix.Latest(name, address, chain, head, now);
  }

  /**
   * A first query for a token, one buy of `amount`, and a second query: the
   * first reply carries the bootstrap supply, the second that supply plus the
   * amount, and the ghost history records the opening supply and both trades.
   */
  method FirstQueryThenBuy(pricing: (nat, nat) -> Quote, name: string, address: string, chain: ChainReads,
                           block: nat, amount: nat, now: nat)
    returns (ix: Indexer, first: Reply, second: Reply)
    ensures first.Found? && first.record.supply == Bootstrap(name, chain).supply
    ensures second.Found? && second.record.supply == Bootstrap(name, chain).supply + amount
    ensures ix.opening == map[Address.Lower(address) := Bootstrap(name, chain).supply]
    ensures ix.trades == map[Address.Lower(address) := [Supply.GENESIS, Supply.Trade(amount, true)]]
  {
    ix, first := FirstQuery(pricing, name, address, chain, block, now);
    second := BuyThenQuery(ix, name, address, chain, Some(block), amount, block, 1, "", now);
    assert [Supply.GENESIS] + [Supply.Trade(amount, true)] == [Supply.GENESIS, Supply.Trade(amount, true)];
  }

  /** A tracked token without a snapshot has no subscription, so no event can ever reach it. */
  lemma StuckHasNoListener(ix: Indexer, k: string)
    requires ix.Valid() && k in ix.liveState && k !in ix.store.memoryStore
    ensures forall i :: 0 <= i < |ix.listeners| ==> Address.Lower(ix.listeners[i]) != k
  {
  }
}
