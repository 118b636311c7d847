/** The address a request is counted under: the peer itself, or the nearest hop that no trusted proxy vouches past. */
module ClientAddress {
  import opened Wrappers

  /** The rightmost forwarded value that is an address and not a trusted proxy; `None` marks one that is no address. */
  function Nearest(forwarded: seq<Option<string>>, trusted: string -> bool): Option<string>
    decreases |forwarded|
  {
    if forwarded == [] then None
    else
      var last := forwarded[|forwarded| - 1];
      if last.Some? && !trusted(last.value) then last else Nearest(forwarded[..|forwarded| - 1], trusted)
  }

  /** `remote` is the peer's address, or `None` when `raw` is not one. */
  method ClientIp(raw: string, remote: Option<string>, forwarded: seq<Option<string>>, trusted: string -> bool) returns (ip: string)
    ensures remote.None? ==> ip == raw
    ensures remote.Some? && !trusted(remote.value) ==> ip == remote.value
    ensures remote.Some? && trusted(remote.value) ==>
      ip == if Nearest(forwarded, trusted).Some? then Nearest(forwarded, trusted).value else remote.value
    ensures remote.Some? && VouchedFor(forwarded, trusted) ==> ip == remote.value
    ensures remote.Some? && trusted(remote.value) && ip == remote.value ==> VouchedFor(forwarded, trusted) || Some(ip) in forwarded
  {
    NoneIff(forwarded, trusted);
    if remote.None? { return raw; }
    if !trusted(remote.value) { return remote.value; }
    var index := |forwarded|;
    assert forwarded[..index] == forwarded;
    while index > 0
      invariant 0 <= index <= |forwarded|
      invariant Nearest(forwarded, trusted) == Nearest(forwarded[..index], trusted)
    {
      assert forwarded[..index][..index - 1] == forwarded[..index - 1];
      index := index - 1;
      var candidate := forwarded[index];
      if candidate.Some? && !trusted(candidate.value) { return candidate.value; }
    }
    return remote.value;
  }

  ghost predicate VouchedFor(hops: seq<Option<string>>, trusted: string -> bool) {
    forall i | 0 <= i < |hops| :: hops[i].None? || trusted(hops[i].value)
  }

  /** Whatever a client writes to the left of the hop the trusted proxies appended, that hop is the one that counts. */
  lemma {:induction false} LeftmostCannotOverride(claimed: seq<Option<string>>, hop: string, appended: seq<Option<string>>, trusted: string -> bool)
    requires !trusted(hop) && VouchedFor(appended, trusted)
    ensures Nearest(claimed + [Some(hop)] + appended, trusted) == Some(hop)
    decreases |appended|
  {
    var all := claimed + [Some(hop)] + appended;
    if appended != [] {
      var before := appended[..|appended| - 1];
      assert all[..|all| - 1] == claimed + [Some(hop)] + before;
      LeftmostCannotOverride(claimed, hop, before, trusted);
    }
  }

  /** No forwarded value counts exactly when all of them are trusted proxies or no addresses. */
  lemma {:induction false} NoneIff(forwarded: seq<Option<string>>, trusted: string -> bool)
    ensures Nearest(forwarded, trusted) == None <==> VouchedFor(forwarded, trusted)
    decreases |forwarded|
  {
    if forwarded != [] {
      NoneIff(forwarded[..|forwarded| - 1], trusted);
    }
  }
}
