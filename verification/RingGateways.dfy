/** Every step of a background reclaimer keeps the ring invariant. */
module RingGateways {
  import opened Common
  import opened RingSystem
  import opened RingInvariant
  import opened RingMemory
  import opened RingFrames
  import opened RingProducers

  /** A reclaimer rearranges its own lists without touching shared memory. */
  lemma GatewayListsMove(s: State, x: Aux, g: nat, gw: Gateway)
    requires Inv(s, x) && g in s.gateways
    requires GatewayOk(x.flights, g, gw)
    requires forall q :: q in s.gateways[g].pending || q in s.gateways[g].outstanding ==> q in gw.pending || q in gw.outstanding
    ensures Inv(s.WithGateway(g, gw), x)
  {
    var gateways' := s.gateways[g := gw];
    assert gateways'.Keys == s.gateways.Keys;
    GatewaysUpdate(x.flights, x.flights, s.gateways, g, gw);
    forall q | q in x.flights ensures HolderOk(s.producers, gateways', q, x.flights[q].holder) {
      assert HolderOk(s.producers, s.gateways, q, x.flights[q].holder);
    }
  }

  lemma SwappedLists(flights: Flights, g: nat, gw: Gateway)
    requires GatewayOk(flights, g, gw)
    ensures GatewayOk(flights, g, Gateway(gw.outstanding, gw.pending, Scanning(0)))
  {
    var before, after := gw.pending + gw.outstanding, gw.outstanding + gw.pending;
    var n, k := |gw.pending|, |gw.outstanding|;
    forall i, j | 0 <= i < j < |after| ensures after[i] != after[j] {
      assert after[i] == before[if i < k then i + n else i - k];
      assert after[j] == before[if j < k then j + n else j - k];
    }
  }

  /** What Vec::swap_remove leaves: everything but the removed element. */
  lemma SwapRemoved(v: seq<nat>, i: nat)
    requires i < |v| && NoDuplicates(v)
    ensures NoDuplicates(SwapRemove(v, i))
    ensures forall q :: q in SwapRemove(v, i) <==> q in v && q != v[i]
  {
    var w, last := SwapRemove(v, i), |v| - 1;
    forall q | q in w ensures q in v && q != v[i] {
      var k :| 0 <= k < |w| && w[k] == q;
      assert w[k] == v[if k == i then last else k];
    }
    forall q | q in v && q != v[i] ensures q in w {
      var k :| 0 <= k < |v| && v[k] == q;
      assert w[if k == last then i else k] == q;
    }
  }

  lemma RemovedStaysDistinct(pending: seq<nat>, out: seq<nat>, i: nat)
    requires NoDuplicates(pending + out) && i < |out|
    ensures NoDuplicates(out) && NoDuplicates(pending + SwapRemove(out, i))
    ensures forall q :: q in SwapRemove(out, i) <==> q in out && q != out[i]
    ensures out[i] !in pending
  {
    var all, n := pending + out, |pending|;
    assert forall k :: 0 <= k < n ==> all[k] == pending[k];
    assert forall k :: 0 <= k < |out| ==> all[n + k] == out[k];
    SwapRemoved(out, i);
    var rest := SwapRemove(out, i);
    var after := pending + rest;
    forall a, b | 0 <= a < b < |after| ensures after[a] != after[b] {
      if a >= n {
        assert after[a] == rest[a - n] && after[b] == rest[b - n];
      } else if b >= n {
        var k :| 0 <= k < |out| && out[k] == rest[b - n];
        assert all[a] == after[a] && all[n + k] == after[b];
      } else {
        assert all[a] == after[a] && all[b] == after[b];
      }
    }
    assert forall k :: 0 <= k < n ==> all[k] != all[n + i];
  }

  /** The reclaimer's lists after it released `outstanding[i]`. */
  lemma ReleasedLists(flights: Flights, g: nat, gw: Gateway, i: nat)
    requires GatewayOk(flights, g, gw) && i < |gw.outstanding|
    ensures GatewayOk(flights - {gw.outstanding[i]}, g, Gateway(gw.pending, SwapRemove(gw.outstanding, i), Scanning(i)))
  {
    var q, rest := gw.outstanding[i], SwapRemove(gw.outstanding, i);
    RemovedStaysDistinct(gw.pending, gw.outstanding, i);
    forall r | r in gw.pending ensures Reclaims(flights - {q}, r, g) {
      assert Reclaims(flights, r, g);
    }
    forall r | r in rest ensures Reclaims(flights - {q}, r, g) {
      assert Reclaims(flights, r, g);
    }
  }

  /** The reclaimer's release. */
  lemma GatewayRelease(s: State, x: Aux, g: nat, i: nat)
    requires Inv(s, x) && g in s.gateways && s.gateways[g].scan == SawAnswer(i)
    ensures var gw := s.gateways[g];
            && i < |gw.outstanding|
            && var q := gw.outstanding[i];
            && Reclaims(x.flights, q, g) && x.flights[q].stage.Answered?
            && Inv(s.WithMemory(s.mem.With(q, s.mem.At(q).(sequence := q + s.mem.Count())))
                    .WithGateway(g, Gateway(gw.pending, SwapRemove(gw.outstanding, i), Scanning(i))),
                   x.(flights := x.flights - {q}))
  {
    var gw := s.gateways[g];
    assert GatewayOk(x.flights, g, gw);
    var q := gw.outstanding[i];
    var gw' := Gateway(gw.pending, SwapRemove(gw.outstanding, i), Scanning(i));
    var m, flights' := s.mem.With(q, s.mem.At(q).(sequence := q + s.mem.Count())), x.flights - {q};
    ReleaseKeepsMemory(s.mem, x.flights, q);
    var gateways' := s.gateways[g := gw'];
    assert gateways'.Keys == s.gateways.Keys;
    OthersFrame(s.mem, m, s.gateways.Keys, x.flights, flights', s.producers, None);
    ReleasedLists(x.flights, g, gw, i);
    assert Reclaims(x.flights, q, g) && forall r :: r in x.flights && r != q ==> r in flights' && flights'[r] == x.flights[r];
    GatewaysUpdate(x.flights, flights', s.gateways, g, gw');
    ReleasedHolders(s.producers, s.gateways, x.flights, g, i);
    assert CellOk(s.mem, q, x.flights[q]);
    DaemonFrame(s.mem, m, s.maxBatch, x.flights, flights', s.consumers, x.takes);
  }

  lemma ReleasedHolders(producers: map<nat, Producer>, gateways: map<nat, Gateway>, flights: Flights, g: nat, i: nat)
    requires HoldersOk(producers, gateways, flights) && g in gateways && GatewayOk(flights, g, gateways[g])
    requires i < |gateways[g].outstanding|
    ensures var gw := gateways[g];
            HoldersOk(producers, gateways[g := Gateway(gw.pending, SwapRemove(gw.outstanding, i), Scanning(i))],
                      flights - {gw.outstanding[i]})
  {
    var gw := gateways[g];
    var all, n := gw.pending + gw.outstanding, |gw.pending|;
    assert NoDuplicates(gw.outstanding) by {
      assert forall k :: 0 <= k < |gw.outstanding| ==> all[n + k] == gw.outstanding[k];
    }
    SwapRemoved(gw.outstanding, i);
    var gateways' := gateways[g := Gateway(gw.pending, SwapRemove(gw.outstanding, i), Scanning(i))];
    var flights' := flights - {gw.outstanding[i]};
    forall q | q in flights' ensures HolderOk(producers, gateways', q, flights'[q].holder) {
      assert HolderOk(producers, gateways, q, flights[q].holder);
    }
  }

  lemma GatewayStepKeepsInv(s: State, x: Aux, g: nat, e: GatewayEvent, s': State)
    requires Inv(s, x) && g in s.gateways && GatewayStep(s, g, e) == Some(s')
    ensures Inv(s', x.(flights := GatewayFlights(s, x.flights, g, e)))
  {
    var gw := s.gateways[g];
    assert GatewayOk(x.flights, g, gw);
    match e
    case Swap =>
      SwappedLists(x.flights, g, gw);
      GatewayListsMove(s, x, g, s'.gateways[g]);
    case ScanLoad =>
      var q := gw.outstanding[gw.scan.index];
      assert Reclaims(x.flights, q, g);
      SequenceShowsStage(s.mem, x.flights, q);
      GatewayListsMove(s, x, g, s'.gateways[g]);
    case ScanStore =>
      GatewayRelease(s, x, g, gw.scan.index);
    case ScanEnd =>
      GatewayListsMove(s, x, g, s'.gateways[g]);
  }
}
