/**
 * The per-token supply arithmetic of the indexer: a buy adds the traded
 * amount to the tracked supply, a sell takes it away but never below zero.
 * Supplies are arbitrary-precision non-negative integers.
 */
module Supply {
  /** One trade as the ledger sees it: an amount and its direction. */
  datatype Trade = Trade(amount: nat, isBuy: bool)

  /** The zero-amount buy applied when tracking starts. */
  const GENESIS: Trade := Trade(0, true)

  /** The signed change a trade asks for, before any clamping. */
  function Delta(t: Trade): int {
    if t.isBuy then t.amount as int else -(t.amount as int)
  }

  /** `x` floored at zero. */
  function Floor(x: int): nat {
    if x < 0 then 0 else x
  }

  /**
   * The new supply after one trade. A sell that would take the supply below
   * zero leaves it at zero: the result is the unclamped sum floored at zero.
   */
  function ApplyTrade(supply: nat, t: Trade): (r: nat)
    ensures r == Floor(supply + Delta(t))
    ensures t.isBuy ==> r - supply == t.amount
    ensures !t.isBuy ==> r <= supply
  {
    if t.isBuy then supply + t.amount
    else if supply > t.amount then supply - t.amount
    else 0
  }

  /** The supply after applying `trades` in order, one at a time. */
  function Replay(supply: nat, trades: seq<Trade>): nat
    decreases |trades|
  {
    if trades == [] then supply else Replay(ApplyTrade(supply, trades[0]), trades[1..])
  }

  /** Sum of the amounts of the buys in `trades`. */
  function Bought(trades: seq<Trade>): nat {
    if trades == [] then 0
    else (if trades[0].isBuy then trades[0].amount else 0) + Bought(trades[1..])
  }

  /** Sum of the amounts of the sells in `trades`. */
  function Sold(trades: seq<Trade>): nat {
    if trades == [] then 0
    else (if trades[0].isBuy then 0 else trades[0].amount) + Sold(trades[1..])
  }

  /** Net unclamped change: bought minus sold. */
  function Net(trades: seq<Trade>): int {
    Bought(trades) - Sold(trades)
  }

  /** The true (unclamped) running supply never goes negative along `trades`. */
  predicate NeverShort(supply: nat, trades: seq<Trade>) {
    forall k :: 0 <= k <= |trades| ==> supply + Net(trades[..k]) >= 0
  }

  lemma NetCons(t: Trade, rest: seq<Trade>)
    ensures Net([t] + rest) == Delta(t) + Net(rest)
  {
    assert ([t] + rest)[0] == t;
    assert ([t] + rest)[1..] == rest;
  }

  /** The genesis event leaves any supply as it is. */
  lemma GenesisIsNeutral(supply: nat)
    ensures ApplyTrade(supply, GENESIS) == supply
    ensures Replay(supply, [GENESIS]) == supply
  {
  }

  /** Replaying a concatenation is replaying the parts one after the other. */
  lemma {:induction false} ReplayAppend(supply: nat, a: seq<Trade>, b: seq<Trade>)
    ensures Replay(supply, a + b) == Replay(Replay(supply, a), b)
    decreases |a|
  {
    if a == [] {
      assert a + b == b;
    } else {
      assert (a + b)[0] == a[0];
      assert (a + b)[1..] == a[1..] + b;
      ReplayAppend(ApplyTrade(supply, a[0]), a[1..], b);
    }
  }

  /** One more trade at the end of a history is one more ApplyTrade. */
  lemma ReplaySnoc(supply: nat, trades: seq<Trade>, t: Trade)
    ensures Replay(supply, trades + [t]) == ApplyTrade(Replay(supply, trades), t)
  {
    ReplayAppend(supply, trades, [t]);
    assert [t][1..] == [];
  }

  /**
   * Conservation, as a bound: the replayed supply is never less than the
   * initial supply plus everything bought minus everything sold, because the
   * clamp at zero can only raise the running total.
   */
  lemma {:induction false} ReplayLowerBound(supply: nat, trades: seq<Trade>)
    ensures Replay(supply, trades) >= supply + Bought(trades) - Sold(trades)
    decreases |trades|
  {
    if trades != [] {
      ReplayLowerBound(ApplyTrade(supply, trades[0]), trades[1..]);
    }
  }

  /** The clamp never adds supply: the replayed supply is at most the initial supply plus everything bought. */
  lemma {:induction false} ReplayUpperBound(supply: nat, trades: seq<Trade>)
    ensures Replay(supply, trades) <= supply + Bought(trades)
    decreases |trades|
  {
    if trades != [] {
      ReplayUpperBound(ApplyTrade(supply, trades[0]), trades[1..]);
    }
  }

  /**
   * Conservation, exactly: when no sell ever exceeds the supply it meets, the
   * replayed supply is the initial supply plus buys minus sells.
   */
  lemma {:induction false} ReplayExact(supply: nat, trades: seq<Trade>)
    requires NeverShort(supply, trades)
    ensures Replay(supply, trades) == supply + Bought(trades) - Sold(trades)
    decreases |trades|
  {
    if trades != [] {
      var t, rest := trades[0], trades[1..];
      assert trades == [t] + rest;
      assert trades[..1] == [t] + [];
      NetCons(t, []);
      assert supply + Delta(t) >= 0;
      var next := ApplyTrade(supply, t);
      assert next == supply + Delta(t);
      forall k | 0 <= k <= |rest|
        ensures next + Net(rest[..k]) >= 0
      {
        assert trades[..k + 1] == [t] + rest[..k];
        NetCons(t, rest[..k]);
      }
      ReplayExact(next, rest);
      NetCons(t, rest);
    }
  }

  /** With buys only, the final supply is the initial supply plus all amounts bought. */
  lemma {:induction false} ReplayBuysOnly(supply: nat, trades: seq<Trade>)
    requires forall i :: 0 <= i < |trades| ==> trades[i].isBuy
    ensures Replay(supply, trades) == supply + Bought(trades)
    decreases |trades|
  {
    if trades != [] {
      ReplayBuysOnly(supply + trades[0].amount, trades[1..]);
    }
  }

  /** A larger starting supply never ends with a smaller replayed supply. */
  lemma {:induction false} ReplayMonotone(low: nat, high: nat, trades: seq<Trade>)
    requires low <= high
    ensures Replay(low, trades) <= Replay(high, trades)
    decreases |trades|
  {
    if trades != [] {
      ReplayMonotone(ApplyTrade(low, trades[0]), ApplyTrade(high, trades[0]), trades[1..]);
    }
  }

  /**
   * The ledger has no de-duplication: delivering the same buy twice adds its
   * amount twice.
   */
  lemma DuplicateBuyCountsTwice(supply: nat, t: Trade)
    requires t.isBuy
    ensures Replay(supply, [t, t]) == Replay(supply, [t]) + t.amount
  {
    var once := ApplyTrade(supply, t);
    assert [t, t][1..] == [t];
    assert [t][1..] == [];
    assert Replay(supply, [t]) == once;
    assert Replay(once, [t]) == ApplyTrade(once, t);
    assert Replay(supply, [t, t]) == ApplyTrade(once, t);
  }
}
