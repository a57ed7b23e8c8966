/** Ordered first-success failover over RPC endpoints. A network lists a
    primary endpoint and numbered fallbacks, any of which may be unset;
    whether an endpoint answers `getBlockNumber` within the timeout is the
    input `up`. */
module Failover {
  import opened Common

  /** `[network.rpc, network.fallbackRpc, ...].filter(Boolean)`: the unset
      and empty slots are dropped, the others keep their order. */
  function Configured(slots: seq<Option<string>>): (rpcs: seq<string>)
    ensures |rpcs| <= |slots|
    ensures forall u :: u in rpcs <==> Some(u) in slots && u != ""
  {
    if |slots| == 0 then []
    else
      var rest := Configured(slots[1..]);
      assert forall o :: o in slots <==> o == slots[0] || o in slots[1..];
      if slots[0].Some? && slots[0].value != "" then [slots[0].value] + rest else rest
  }

  /** A single slot contributes its URL exactly when it is set and non-empty. */
  lemma ConfiguredSingle(slot: Option<string>)
    ensures slot.Some? && slot.value != "" ==> Configured([slot]) == [slot.value]
    ensures slot.None? || slot.value == "" ==> Configured([slot]) == []
  {
  }

  /** Filtering distributes over concatenation: the configured URLs keep
      the slot order, and each slot contributes on its own. */
  lemma {:induction false} ConfiguredAppend(a: seq<Option<string>>, b: seq<Option<string>>)
    ensures Configured(a + b) == Configured(a) + Configured(b)
  {
    if |a| == 0 {
      assert a + b == b;
    } else {
      assert (a + b)[0] == a[0];
      assert (a + b)[1..] == a[1..] + b;
      ConfiguredAppend(a[1..], b);
    }
  }

  /** With every slot set, nothing is dropped. */
  lemma {:induction false} ConfiguredAllSet(urls: seq<string>)
    requires forall i :: 0 <= i < |urls| ==> urls[i] != ""
    ensures Configured(seq(|urls|, i requires 0 <= i < |urls| => Some(urls[i]))) == urls
  {
    if |urls| > 0 {
      var slots := seq(|urls|, i requires 0 <= i < |urls| => Some(urls[i]));
      assert slots[1..] == seq(|urls[1..]|, i requires 0 <= i < |urls[1..]| => Some(urls[1..][i]));
      ConfiguredAllSet(urls[1..]);
      assert urls == [urls[0]] + urls[1..];
    }
  }

  /** The position of the first endpoint that answers, if any: the
      reference definition of every failover loop of the wallet. */
  function FirstResponder(rpcs: seq<string>, up: string -> bool): (r: Option<nat>)
    ensures r.Some? ==> r.value < |rpcs| && up(rpcs[r.value])
    ensures r.Some? ==> forall j :: 0 <= j < r.value ==> !up(rpcs[j])
    ensures r.None? <==> forall j :: 0 <= j < |rpcs| ==> !up(rpcs[j])
  {
    if |rpcs| == 0 then None
    else if up(rpcs[0]) then Some(0)
    else
      match FirstResponder(rpcs[1..], up)
      case None => None
      case Some(i) => Some(i + 1)
  }

  /** The failover can only succeed on an endpoint that answers, and it
      never passes over one that does. */
  lemma FirstResponderUnique(rpcs: seq<string>, up: string -> bool, i: nat)
    requires i < |rpcs| && up(rpcs[i])
    requires forall j :: 0 <= j < i ==> !up(rpcs[j])
    ensures FirstResponder(rpcs, up) == Some(i)
  {
  }

  /** A network that cannot be reached at any of its endpoints. */
  datatype ConnectError = CannotConnect

  /** `getProvider` of v.2.4.16, v2.4.8 and v2.4.0 (seven slots) and of
      v2.2.0 (nine slots): probe the configured endpoints in order, return
      the first that answers, throw once all have failed. `probed` is the
      list of endpoints contacted. */
  method GetProvider(slots: seq<Option<string>>, up: string -> bool)
    returns (r: Result<string, ConnectError>, ghost probed: seq<string>)
    ensures var rpcs := Configured(slots);
      match FirstResponder(rpcs, up)
      case Some(i) => r == Ok(rpcs[i]) && probed == rpcs[..i + 1]
      case None => r == Err(CannotConnect) && probed == rpcs
  {
    var rpcs := Configured(slots);
    probed := [];
    var k := 0;
    while k < |rpcs|
      invariant 0 <= k <= |rpcs|
      invariant probed == rpcs[..k]
      invariant forall j :: 0 <= j < k ==> !up(rpcs[j])
    {
      probed := probed + [rpcs[k]];
      if up(rpcs[k]) {
        FirstResponderUnique(rpcs, up, k);
        return Ok(rpcs[k]), probed;
      }
      k := k + 1;
    }
    assert probed == rpcs;
    r := Err(CannotConnect);
  }
}
