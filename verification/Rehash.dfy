/** The reconciliation of listening addresses in `do_rehash` (src/control.rs). */
module Rehash {

  type Address = nat
  type Handle = nat

  /** A bound address and the command handle of its listener. */
  datatype Binding = Binding(address: Address, handle: Handle)

  function Addresses(bindings: seq<Binding>): set<Address>
  {
    set b | b in bindings :: b.address
  }

  predicate Distinct(bindings: seq<Binding>)
  {
    forall i, j :: 0 <= i < j < |bindings| ==> bindings[i].address != bindings[j].address
  }

  predicate Bound(bindings: seq<Binding>, address: Address)
  {
    exists i :: 0 <= i < |bindings| && bindings[i].address == address
  }

  /** `Vec::swap_remove`: the last element takes the place of the removed one. */
  function SwapRemove(bindings: seq<Binding>, i: nat): (r: seq<Binding>)
    requires i < |bindings|
    ensures |r| == |bindings| - 1
  {
    var last := |bindings| - 1;
    if i == last then bindings[..last] else bindings[..i] + [bindings[last]] + bindings[i + 1..last]
  }

  lemma SwapRemoveDistinct(bindings: seq<Binding>, i: nat)
    requires i < |bindings| && Distinct(bindings)
    ensures Distinct(SwapRemove(bindings, i))
    ensures !Bound(SwapRemove(bindings, i), bindings[i].address)
  {
  }

  lemma SwapRemoveKeepsOthers(bindings: seq<Binding>, i: nat, b: Binding)
    requires i < |bindings|
    ensures b in bindings && b != bindings[i] ==> b in SwapRemove(bindings, i)
    ensures b in SwapRemove(bindings, i) ==> b in bindings
  {
  }

  /** The first loop: bindings whose address is no longer wanted are dropped. */
  method DropStale(old_: seq<Binding>, wanted: seq<Binding>) returns (bindings: seq<Binding>)
    ensures forall b :: b in bindings <==> b in old_ && Bound(wanted, b.address)
    ensures Distinct(old_) ==> Distinct(bindings)
  {
    hide Bound, SwapRemove, Distinct;
    bindings := old_;
    var i := 0;
    while i < |bindings|
      invariant i <= |bindings|
      invariant forall k :: 0 <= k < i ==> Bound(wanted, bindings[k].address)
      invariant OnlyStaleGone(old_, wanted, bindings)
      invariant Distinct(old_) ==> Distinct(bindings)
      decreases |bindings| - i
    {
      var stale := AllDiffer(wanted, bindings[i].address);
      if stale {
        DropKeeps(old_, wanted, bindings, i);
        bindings := SwapRemove(bindings, i);
      } else {
        i := i + 1;
      }
    }
  }

  /** Nothing was added, and no wanted binding is missing. */
  ghost predicate OnlyStaleGone(old_: seq<Binding>, wanted: seq<Binding>, bindings: seq<Binding>)
  {
    && (forall b :: b in bindings ==> b in old_)
    && (forall b :: b in old_ && Bound(wanted, b.address) ==> b in bindings)
  }

  lemma DropKeeps(old_: seq<Binding>, wanted: seq<Binding>, bindings: seq<Binding>, i: nat)
    requires i < |bindings| && OnlyStaleGone(old_, wanted, bindings) && !Bound(wanted, bindings[i].address)
    ensures OnlyStaleGone(old_, wanted, SwapRemove(bindings, i))
    ensures Distinct(bindings) ==> Distinct(SwapRemove(bindings, i))
    ensures forall k :: 0 <= k < i ==> SwapRemove(bindings, i)[k] == bindings[k]
  {
    if Distinct(bindings) { SwapRemoveDistinct(bindings, i); }
    hide Distinct;
    forall b ensures (b in bindings && b != bindings[i] ==> b in SwapRemove(bindings, i))
                  && (b in SwapRemove(bindings, i) ==> b in bindings) {
      SwapRemoveKeepsOthers(bindings, i, b);
    }
  }

  method AllDiffer(wanted: seq<Binding>, address: Address) returns (r: bool)
    ensures r <==> !Bound(wanted, address)
  {
    for k := 0 to |wanted|
      invariant forall j :: 0 <= j < k ==> wanted[j].address != address
    {
      if wanted[k].address == address { return false; }
    }
    return true;
  }

  method Position(bindings: seq<Binding>, address: Address) returns (i: nat, found: bool)
    ensures found <==> Bound(bindings, address)
    ensures found ==> i < |bindings| && bindings[i].address == address
  {
    i := 0;
    while i < |bindings|
      invariant 0 <= i <= |bindings|
      invariant forall j :: 0 <= j < i ==> bindings[j].address != address
    {
      if bindings[i].address == address { return i, true; }
      i := i + 1;
    }
    return 0, false;
  }

  /** What one round of the second loop makes of the bindings. */
  ghost predicate Settled(before: seq<Binding>, incoming: Binding, sendOk: bool, after: seq<Binding>, spawned: bool)
  {
    && (Bound(before, incoming.address) && sendOk ==> after == before && !spawned)
    && (!(Bound(before, incoming.address) && sendOk) ==>
          spawned && incoming in after && forall b: Binding :: b.address != incoming.address ==> (b in after <==> b in before))
    && (Distinct(before) ==> Distinct(after))
    && (!(Bound(before, incoming.address) && sendOk) && Distinct(before) ==>
          forall b :: b in after && b.address == incoming.address ==> b == incoming)
    && Addresses(after) == Addresses(before) + {incoming.address}
  }

  lemma AddressesOf(bindings: seq<Binding>, a: Address)
    ensures a in Addresses(bindings) <==> Bound(bindings, a)
  {
  }

  lemma PushSettles(before: seq<Binding>, incoming: Binding, sendOk: bool)
    requires !Bound(before, incoming.address)
    ensures Settled(before, incoming, sendOk, before + [incoming], true)
  {
  }

  lemma ReplaceSettles(before: seq<Binding>, i: nat, incoming: Binding)
    requires i < |before| && before[i].address == incoming.address
    ensures Settled(before, incoming, false, SwapRemove(before, i) + [incoming], true)
  {
    var kept := SwapRemove(before, i);
    var after := kept + [incoming];
    assert after[|kept|] == incoming;
    forall b ensures (b in before && b != before[i] ==> b in kept) && (b in kept ==> b in before) {
      SwapRemoveKeepsOthers(before, i, b);
    }
    forall a ensures a in Addresses(after) <==> a in Addresses(before) + {incoming.address} {
      if a in Addresses(before) && a != incoming.address {
        var b :| b in before && b.address == a;
        assert b in after;
      }
      if a in Addresses(after) {
        var b :| b in after && b.address == a;
      }
    }
    if Distinct(before) {
      SwapRemoveDistinct(before, i);
      forall b | b in kept ensures b.address != incoming.address {
        var k :| 0 <= k < |kept| && kept[k] == b;
      }
    }
  }

  /** One round of the second loop; `sendOk` is whether the command reached the old listener. */
  method Settle(before: seq<Binding>, incoming: Binding, sendOk: bool) returns (after: seq<Binding>, spawned: bool)
    ensures Settled(before, incoming, sendOk, after, spawned)
  {
    var i, found := Position(before, incoming.address);
    after := before;
    if found {
      if sendOk {
        AddressesOf(before, incoming.address);
        return before, false;
      }
      ReplaceSettles(before, i, incoming);
      after := SwapRemove(before, i);
      after := after + [incoming];
    } else {
      PushSettles(before, incoming, sendOk);
      after := after + [incoming];
    }
    return after, true;
  }

  /** Whether a new address keeps its old listener: it was bound, and the command was sent. */
  predicate Keeps(old_: seq<Binding>, wanted: seq<Binding>, sendOk: seq<bool>, k: nat)
    requires k < |wanted| == |sendOk|
  {
    Bound(old_, wanted[k].address) && sendOk[k]
  }

  /** The new addresses that got a new listener, in order. */
  function Spawned(old_: seq<Binding>, wanted: seq<Binding>, sendOk: seq<bool>, n: nat): seq<Address>
    requires n <= |wanted| == |sendOk|
  {
    if n == 0 then []
    else Spawned(old_, wanted, sendOk, n - 1)
         + if Keeps(old_, wanted, sendOk, n - 1) then [] else [wanted[n - 1].address]
  }

  /** The state of the bindings once the first `n` wanted ones are settled. */
  ghost predicate Progress(old_: seq<Binding>, wanted: seq<Binding>, sendOk: seq<bool>, n: nat, bindings: seq<Binding>)
    requires n <= |wanted| == |sendOk|
  {
    && (forall k :: n <= k < |wanted| ==> (Bound(bindings, wanted[k].address) <==> Bound(old_, wanted[k].address)))
    && (forall k, b: Binding :: 0 <= k < |wanted| && b.address == wanted[k].address && (n <= k || Keeps(old_, wanted, sendOk, k)) ==>
          (b in bindings <==> b in old_))
    && (forall k :: 0 <= k < n && !Keeps(old_, wanted, sendOk, k) ==> wanted[k] in bindings)
  }

  /**
   * Both loops, for distinct wanted addresses and any pattern of failing sends: exactly the wanted
   * addresses are bound; a wanted address whose old listener took the command keeps its old handle, and
   * every other wanted address gets a new listener exactly once.
   */
  method Reconcile(old_: seq<Binding>, wanted: seq<Binding>, sendOk: seq<bool>)
    returns (bindings: seq<Binding>, spawned: seq<Address>)
    requires |wanted| == |sendOk| && Distinct(wanted)
    ensures Addresses(bindings) == Addresses(wanted)
    ensures Distinct(old_) ==> Distinct(bindings)
    ensures spawned == Spawned(old_, wanted, sendOk, |wanted|)
    ensures forall k :: 0 <= k < |wanted| && !Keeps(old_, wanted, sendOk, k) ==> wanted[k] in bindings
    ensures forall k, b: Binding :: 0 <= k < |wanted| && Keeps(old_, wanted, sendOk, k) && b.address == wanted[k].address ==>
              (b in bindings <==> b in old_)
  {
    hide Progress, Settled, Covers, Distinct, Keeps;
    bindings := DropStale(old_, wanted);
    spawned := [];
    AfterDrop(old_, wanted, sendOk, bindings);
    for n := 0 to |wanted|
      invariant Progress(old_, wanted, sendOk, n, bindings)
      invariant Distinct(old_) ==> Distinct(bindings)
      invariant spawned == Spawned(old_, wanted, sendOk, n)
      invariant Covers(wanted, n, bindings)
    {
      ghost var before := bindings;
      var new_;
      bindings, new_ := Settle(bindings, wanted[n], sendOk[n]);
      ProgressStep(old_, wanted, sendOk, n, before, bindings, new_);
      CoversStep(wanted, sendOk, n, before, bindings, new_);
      if new_ {
        spawned := spawned + [wanted[n].address];
      }
    }
    CoversAll(wanted, bindings);
    ProgressDone(old_, wanted, sendOk, bindings);
  }

  lemma ProgressDone(old_: seq<Binding>, wanted: seq<Binding>, sendOk: seq<bool>, bindings: seq<Binding>)
    requires |wanted| == |sendOk| && Progress(old_, wanted, sendOk, |wanted|, bindings)
    ensures forall k :: 0 <= k < |wanted| && !Keeps(old_, wanted, sendOk, k) ==> wanted[k] in bindings
    ensures forall k, b: Binding :: 0 <= k < |wanted| && Keeps(old_, wanted, sendOk, k) && b.address == wanted[k].address ==>
              (b in bindings <==> b in old_)
  {
  }

  /** Only wanted addresses are bound, and the first `n` of them are. */
  predicate Covers(wanted: seq<Binding>, n: nat, bindings: seq<Binding>)
    requires n <= |wanted|
  {
    Addresses(bindings) <= Addresses(wanted) && forall k :: 0 <= k < n ==> wanted[k].address in Addresses(bindings)
  }

  lemma CoversStep(wanted: seq<Binding>, sendOk: seq<bool>, n: nat, before: seq<Binding>, after: seq<Binding>, spawned: bool)
    requires n < |wanted| == |sendOk| && Covers(wanted, n, before) && Settled(before, wanted[n], sendOk[n], after, spawned)
    ensures Covers(wanted, n + 1, after)
    ensures Distinct(before) ==> Distinct(after)
  {
  }

  lemma CoversAll(wanted: seq<Binding>, bindings: seq<Binding>)
    requires Covers(wanted, |wanted|, bindings)
    ensures Addresses(bindings) == Addresses(wanted)
  {
  }

  lemma AfterDrop(old_: seq<Binding>, wanted: seq<Binding>, sendOk: seq<bool>, bindings: seq<Binding>)
    requires |wanted| == |sendOk|
    requires forall b :: b in bindings <==> b in old_ && Bound(wanted, b.address)
    ensures Progress(old_, wanted, sendOk, 0, bindings)
    ensures Covers(wanted, 0, bindings)
  {
  }

  lemma ProgressStep(old_: seq<Binding>, wanted: seq<Binding>, sendOk: seq<bool>, n: nat, before: seq<Binding>,
                     after: seq<Binding>, spawned: bool)
    requires n < |wanted| == |sendOk| && Distinct(wanted)
    requires Progress(old_, wanted, sendOk, n, before) && Settled(before, wanted[n], sendOk[n], after, spawned)
    ensures Progress(old_, wanted, sendOk, n + 1, after)
    ensures spawned <==> !Keeps(old_, wanted, sendOk, n)
  {
  }
}
