/**
 Finding the credentials of a message's sender: reuse what the message
 carries when it covers the request, otherwise fetch the rest by the
 cheapest means available.
 */
module Credentials {
  import opened Wrappers
  import opened BusTypes
  import opened Validation

  /** Where the credentials come from. */
  datatype Strategy =
    | Cached               // a new reference to the creds attached to the message
    | OwnerLookup(name: string)  // sd_bus_get_owner on the sender's name
    | PeerQuery            // sd_bus_get_peer_creds on the connection's peer
    | PidExtension         // bus_creds_extend_by_pid from the attached creds

  /** Every bit asked for in `want` is present in `have`. */
  predicate Covers(have: bv64, want: bv64) {
    want & !have == 0
  }

  /** The decision of sd_bus_query_sender_creds, once its checks have passed. */
  function ChooseStrategy(c: Option<Creds>, sender: Option<string>, mask: bv64): (s: Strategy)
    ensures s == Cached <==> c.Some? && Covers(c.value.mask, mask)
    ensures s == PidExtension <==>
              c.Some? && !Covers(c.value.mask, mask) && c.value.mask & CREDS_PID != 0
    ensures s.OwnerLookup? <==>
              (c.None? || (!Covers(c.value.mask, mask) && c.value.mask & CREDS_PID == 0)) && sender.Some?
    ensures s.OwnerLookup? ==> s.name == sender.value
    ensures s == PeerQuery <==>
              (c.None? || (!Covers(c.value.mask, mask) && c.value.mask & CREDS_PID == 0)) && sender.None?
  {
    if c.Some? && Covers(c.value.mask, mask) then Cached
    else if c.None? || c.value.mask & CREDS_PID == 0 then
      if sender.Some? then OwnerLookup(sender.value) else PeerQuery
    else PidExtension
  }

  /** The result of a query: its code, the creds handed back, and the
      strategy that produced them (None when a check failed first). */
  datatype CredsOutcome = CredsOutcome(rc: int, creds: Option<Creds>, via: Option<Strategy>)

  /** sd_bus_query_sender_creds: the checks of a received message first;
      then exactly one strategy runs and its result is returned unchanged. */
  function QuerySenderCreds(engine: Engine, call: Option<Received>, mask: bv64): (o: CredsOutcome)
    ensures CredsGuard(call, engine.currentPid) < 0 ==>
              o == CredsOutcome(CredsGuard(call, engine.currentPid), None, None)
    ensures CredsGuard(call, engine.currentPid) == 0 ==>
              o.via == Some(ChooseStrategy(call.value.creds, call.value.sender, mask))
    ensures o.via == Some(Cached) ==>
              o.rc == 0 && o.creds == call.value.creds && Covers(o.creds.value.mask, mask)
    ensures o.via.Some? && o.via.value.OwnerLookup? ==>
              o.rc == engine.getOwner(o.via.value.name, mask).status
              && o.creds == engine.getOwner(o.via.value.name, mask).creds
    ensures o.via == Some(PeerQuery) ==>
              o.rc == engine.getPeerCreds(mask).status && o.creds == engine.getPeerCreds(mask).creds
    ensures o.via == Some(PidExtension) ==>
              call.value.creds.Some?
              && o.rc == engine.extendByPid(call.value.creds.value, mask).status
              && o.creds == engine.extendByPid(call.value.creds.value, mask).creds
  {
    var g := CredsGuard(call, engine.currentPid);
    if g < 0 then CredsOutcome(g, None, None)
    else
      var m := call.value;
      var s := ChooseStrategy(m.creds, m.sender, mask);
      match s
      case Cached => CredsOutcome(0, m.creds, Some(s))
      case OwnerLookup(name) =>
        var a := engine.getOwner(name, mask);
        CredsOutcome(a.status, a.creds, Some(s))
      case PeerQuery =>
        var a := engine.getPeerCreds(mask);
        CredsOutcome(a.status, a.creds, Some(s))
      case PidExtension =>
        var a := engine.extendByPid(m.creds.value, mask);
        CredsOutcome(a.status, a.creds, Some(s))
  }

  /** The query that asks the bus about the sender itself: by name when the
      message has one, otherwise of the peer. It can serve any request. */
  function FullQuery(sender: Option<string>): (s: Strategy)
    ensures s.OwnerLookup? || s == PeerQuery
    ensures forall c, mask :: CanServe(s, c, sender, mask)
  {
    if sender.Some? then OwnerLookup(sender.value) else PeerQuery
  }

  /** What each strategy costs: nothing, local work from what is attached, a bus round trip. */
  function Cost(s: Strategy): nat {
    match s
    case Cached => 0
    case PidExtension => 1
    case OwnerLookup(_) => 2
    case PeerQuery => 2
  }

  /** Whether a strategy can deliver the requested bits: the attached creds
      only when they cover the mask, the pid extension only when the
      attached creds carry the pid, the full query of the sender always. */
  predicate CanServe(s: Strategy, c: Option<Creds>, sender: Option<string>, mask: bv64) {
    match s
    case Cached => c.Some? && Covers(c.value.mask, mask)
    case PidExtension => c.Some? && c.value.mask & CREDS_PID != 0
    case OwnerLookup(name) => sender == Some(name)
    case PeerQuery => sender.None?
  }

  /** The first of `candidates` that can serve the request. */
  function FirstServing(candidates: seq<Strategy>, c: Option<Creds>, sender: Option<string>, mask: bv64): (s: Strategy)
    requires exists i :: 0 <= i < |candidates| && CanServe(candidates[i], c, sender, mask)
    ensures s in candidates && CanServe(s, c, sender, mask)
    ensures exists i :: 0 <= i < |candidates| && candidates[i] == s
              && forall j :: 0 <= j < i ==> !CanServe(candidates[j], c, sender, mask)
    decreases |candidates|
  {
    if CanServe(candidates[0], c, sender, mask) then candidates[0]
    else
      assert exists i :: 0 <= i < |candidates[1..]| && CanServe(candidates[1..][i], c, sender, mask) by {
        var i :| 0 <= i < |candidates| && CanServe(candidates[i], c, sender, mask);
        assert candidates[1..][i - 1] == candidates[i];
      }
      var s := FirstServing(candidates[1..], c, sender, mask);
      assert exists i :: 0 <= i < |candidates| && candidates[i] == s
               && forall j :: 0 <= j < i ==> !CanServe(candidates[j], c, sender, mask) by {
        var i :| 0 <= i < |candidates[1..]| && candidates[1..][i] == s
                 && forall j :: 0 <= j < i ==> !CanServe(candidates[1..][j], c, sender, mask);
        assert candidates[i + 1] == s;
        forall j | 0 <= j < i + 1 ensures !CanServe(candidates[j], c, sender, mask) {
          if j > 0 { assert candidates[j] == candidates[1..][j - 1]; }
        }
      }
      s
  }

  /** The strategies in order of increasing cost. */
  function Ladder(sender: Option<string>): (l: seq<Strategy>)
    ensures forall i, j :: 0 <= i < j < |l| ==> Cost(l[i]) < Cost(l[j])
  {
    [Cached, PidExtension, FullQuery(sender)]
  }

  /** The decision in the code is the cheapest-first ladder: the first
      strategy, in order of cost, that can serve the request. */
  lemma ChooseIsFirstServing(c: Option<Creds>, sender: Option<string>, mask: bv64)
    ensures Ladder(sender)[2] == FullQuery(sender) && CanServe(Ladder(sender)[2], c, sender, mask)
    ensures ChooseStrategy(c, sender, mask)
            == FirstServing(Ladder(sender), c, sender, mask)
  {
    var l := Ladder(sender);
    assert CanServe(l[2], c, sender, mask);
    var s := FirstServing(l, c, sender, mask);
    var i :| 0 <= i < |l| && l[i] == s && forall j :: 0 <= j < i ==> !CanServe(l[j], c, sender, mask);
    if i == 0 {
    } else if i == 1 {
      assert !CanServe(l[0], c, sender, mask);
    } else {
      assert !CanServe(l[0], c, sender, mask) && !CanServe(l[1], c, sender, mask);
    }
  }

  /** No strategy that could serve the request is cheaper than the one
      chosen, and the chosen one always can serve it. */
  lemma ChooseIsCheapest(c: Option<Creds>, sender: Option<string>, mask: bv64, other: Strategy)
    requires CanServe(other, c, sender, mask)
    ensures CanServe(ChooseStrategy(c, sender, mask), c, sender, mask)
    ensures Cost(ChooseStrategy(c, sender, mask)) <= Cost(other)
  {
  }

  /** Asking for credentials that were all attached to the message never
      queries anything. */
  lemma CoveredRequestsUseCache(engine: Engine, call: Received, mask: bv64)
    requires CredsGuard(Some(call), engine.currentPid) == 0
    requires call.creds.Some? && mask & !call.creds.value.mask == 0
    ensures QuerySenderCreds(engine, Some(call), mask) == CredsOutcome(0, call.creds, Some(Cached))
  {
  }
}
