/** The state the aggregator keeps is bounded: entities and events by configuration, partitions by a
    constant, and every stored name by its length. */
module WindowBounds {
  import opened Common
  import opened Strings
  import opened WindowModel
  import opened WindowInvariant
  import opened WindowHistory
  import opened WindowSink

  /** The names and partitions a table has ever taken in. */
  ghost predicate NamesOk(w: Table) {
    && (forall p {:trigger p in w.offsets} :: p in w.offsets ==> 0 <= p < 100_000 && w.offsets[p] >= 0)
    && (forall d {:trigger d in w.watermark} :: d in w.watermark ==> 1 <= |d| && ByteLength(d) <= 256 && NoControl(d) && Trimmed(d))
    && (forall id {:trigger id in w.seen} :: id in w.seen ==> 1 <= |id| && ByteLength(id) <= 256 && NoControl(id))
  }

  lemma CommitNames(l: Limits, w: Table, e: Event, u: Update)
    requires NamesOk(w) && ValidEvent(l, e)
    ensures NamesOk(Commit(l, w, e, u))
  {
  }

  lemma ApplyNames(l: Limits, w: Table, e: Event, sinkOk: bool)
    requires NamesOk(w)
    ensures NamesOk(Apply(l, w, e, sinkOk))
  {
    var p := Prepare(l, w, e);
    if p.Accepted? {
      CommitNames(l, w, e, p.update);
    }
  }

  lemma {:induction false} RunNames(l: Limits, calls: seq<Call>)
    ensures NamesOk(Run(l, calls))
  {
    if calls != [] {
      var c := calls[|calls| - 1];
      RunNames(l, calls[..|calls| - 1]);
      ApplyNames(l, Run(l, calls[..|calls| - 1]), c.event, c.sinkOk);
    }
  }

  /** Whatever is sent to it, the aggregator never tracks more than the configured entities and events,
      never more than 100,000 partitions, and stores no name that is empty, longer than 256 bytes or has
      control characters in it. */
  lemma StateIsBounded(l: Limits, calls: seq<Call>)
    requires l.Valid()
    ensures var w := Run(l, calls);
            && |w.watermark| <= l.maxEntities && |w.seen| == w.eventCount <= l.maxEvents && |w.offsets| <= 100_000
            && (forall d :: d in w.watermark ==> 1 <= |d| && ByteLength(d) <= 256 && NoControl(d) && Trimmed(d))
            && (forall id :: id in w.seen ==> 1 <= |id| && ByteLength(id) <= 256 && NoControl(id))
  {
    var w := Run(l, calls);
    RunOk(l, calls);
    RunNames(l, calls);
    SeenIsCounted(w.byEntity, w.seen);
    WindowBoundsCardinality(w.offsets.Keys, 0, 100_000);
  }

  // ----- the sink -------------------------------------------------------------------------

  /** What a sink serves after vectors of any kind have been put into it, with or without success. */
  function Served(l: Limits, puts: seq<(bool, Features)>): map<string, Features> {
    if puts == [] then map[]
    else
      var before, last := Served(l, puts[..|puts| - 1]), puts[|puts| - 1];
      match Put(l, before, last.0, last.1)
      case Some(after) => after
      case None => before
  }

  /** A vector fit to be served for entity `d`. */
  predicate Servable(l: Limits, d: string, f: Features) {
    && f.entity == d && 1 <= |d| && ByteLength(d) <= 256 && '\r' !in d && '\n' !in d
    && 0.0 <= f.largest <= f.total <= l.maxAmount
  }

  /** Whatever vectors a sink is handed, it serves only well-formed ones, each under its own entity, and
      for every entity the latest well-formed one that was stored under a live context. */
  lemma {:induction false} SinkServesWellFormed(l: Limits, puts: seq<(bool, Features)>, d: string)
    ensures d in Served(l, puts) <==> exists i {:trigger puts[i]} :: 0 <= i < |puts| && puts[i].0 && Servable(l, d, puts[i].1)
    ensures d in Served(l, puts) ==> exists i {:trigger puts[i]} ::
      && 0 <= i < |puts| && puts[i].0 && Servable(l, d, puts[i].1) && Served(l, puts)[d] == puts[i].1
      && forall j {:trigger puts[j]} :: i < j < |puts| && puts[j].0 ==> !Servable(l, d, puts[j].1)
  {
    if puts != [] {
      var init, last := puts[..|puts| - 1], puts[|puts| - 1];
      SinkServesWellFormed(l, init, d);
      assert last == puts[|init|] && forall i :: 0 <= i < |init| ==> init[i] == puts[i];
      if last.0 && Servable(l, d, last.1) {
        assert Served(l, puts)[d] == last.1;
      } else {
        assert d in Served(l, puts) <==> d in Served(l, init);
        if d in Served(l, init) {
          var i :| 0 <= i < |init| && init[i].0 && Servable(l, d, init[i].1) && Served(l, init)[d] == init[i].1
                   && forall j {:trigger init[j]} :: i < j < |init| && init[j].0 ==> !Servable(l, d, init[j].1);
          assert puts[i] == init[i];
          forall j | i < j < |puts| && puts[j].0 ensures !Servable(l, d, puts[j].1) {
            if j < |init| { assert init[j] == puts[j]; }
          }
        }
      }
    }
  }
}
