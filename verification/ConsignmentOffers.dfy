/**
 * Whose offer is on the table: the service derives it from the status alone. Here it is tracked over the calls of a
 * run, which shows in every run when a side can accept its own offer and when the other side cannot.
 */
module ConsignmentOffers {
  import opened Prelude
  import opened ConsignmentLifecycle
  import opened ConsignmentModel
  import opened ConsignmentInvariant
  import opened ConsignmentRuns

  predicate IsCounter(call: Call, k: nat) {
    call.Guarded? && call.id == k && call.request.Decide? && call.request.action == Counter
  }

  /** A new deal is the source's offer; a counter-offer that takes effect is that of the side that made it. */
  function ProposerAfter(proposer: Option<Side>, db: Db, call: Call, k: nat): Option<Side> {
    if k >= |db.deals| then Some(Source)
    else if IsCounter(call, k) && Apply(db, call).1 == Done then SideOf(db.deals[k].c, call.me)
    else proposer
  }

  /** Who made the offer on the table of deal k. */
  function Proposer(start: Db, calls: seq<Call>, k: nat): Option<Side> {
    if calls == [] then None
    else ProposerAfter(Proposer(start, calls[..|calls| - 1], k), Run(start, calls[..|calls| - 1]), calls[|calls| - 1], k)
  }

  lemma RequestedStays(d: Deal, e: Effect)
    requires DealOk(d) && Justified(d, e) && EffectOn(d, e).c.status.Requested?
    ensures d.c.status.Requested? && !(e.Wrote? && e.request.Decide? && e.request.action == Counter)
  {
    if e.Wrote? {
      GoTable(e.me, d.c, d.lines, e.request);
    }
  }

  /** In every run each deal has a proposer, and while it is only requested that is its source. */
  lemma {:induction false} RequestedIsTheSourcesOffer(start: Db, calls: seq<Call>, k: nat)
    requires Init(start) && k < |Run(start, calls).deals|
    ensures Proposer(start, calls, k).Some?
    ensures Run(start, calls).deals[k].c.status.Requested? ==> Proposer(start, calls, k) == Some(Source)
  {
    if calls != [] {
      var n := |calls| - 1;
      var before, call := Run(start, calls[..n]), calls[n];
      if k < |before.deals| {
        RequestedIsTheSourcesOffer(start, calls[..n], k);
        InitInv(start);
        RunKeepsInv(start, calls[..n]);
        assert DealOk(before.deals[k]);
        ApplyIsEffect(before, call, k);
        var e := EffectOf(before, call, k);
        if EffectOn(before.deals[k], e).c.status.Requested? {
          RequestedStays(before.deals[k], e);
        }
        if IsCounter(call, k) && Apply(before, call).1 == Done {
          CounterHasSide(before, call, k);
        }
      }
    }
  }

  lemma CounterHasSide(db: Db, call: Call, k: nat)
    requires k < |db.deals| && IsCounter(call, k) && Apply(db, call).1 == Done
    ensures SideOf(db.deals[k].c, call.me).Some?
  {
  }

  /** An acceptance that has nothing else against it. */
  predicate IsPlainAccept(c: Consignment, me: Company, r: Request) {
    && Negotiating(c.status) && SideOf(c, me).Some? && OfferOnTable(c) > 0
    && r.Decide? && r.action == Accept && (r.expectedVersion.Some? ==> r.expectedVersion.value == c.version)
  }

  lemma AcceptGoesThroughIff(db: Db, k: nat, me: Company, r: Request)
    requires k < |db.deals| && IsPlainAccept(db.deals[k].c, me, r)
    ensures Apply(db, Guarded(me, k, r)).1 == Done <==> LastProposalBy(db.deals[k].c.status) != SideOf(db.deals[k].c, me)
  {
  }

  /** The same, by status and by who made the offer. */
  lemma AcceptByProposer(db: Db, k: nat, me: Company, r: Request, proposer: Side)
    requires k < |db.deals| && IsPlainAccept(db.deals[k].c, me, r)
    requires db.deals[k].c.status.Requested? ==> proposer == Source
    ensures var c := db.deals[k].c;
            Apply(db, Guarded(me, k, r)).1 == Done
            <==> if SideOf(c, me) == Some(proposer) then c.status.Disputed? || (c.status.CounterProposed? && proposer == Source)
                 else !(c.status.CounterProposed? && proposer == Source)
  {
    AcceptGoesThroughIff(db, k, me, r);
    var side := SideOf(db.deals[k].c, me).value;
    assert side == Source || side == Destination;
  }

  /**
   * No party should accept its own offer. In every run it can exactly when the deal is disputed, or it is the
   * source and the offer on the table is its own counter-offer.
   */
  lemma OwnOfferIsAcceptedIff(start: Db, calls: seq<Call>, k: nat, me: Company, r: Request)
    requires Init(start) && k < |Run(start, calls).deals| && IsPlainAccept(Run(start, calls).deals[k].c, me, r)
    requires SideOf(Run(start, calls).deals[k].c, me) == Proposer(start, calls, k)
    ensures var c := Run(start, calls).deals[k].c;
            Apply(Run(start, calls), Guarded(me, k, r)).1 == Done
            <==> c.status.Disputed? || (c.status.CounterProposed? && SideOf(c, me) == Some(Source))
  {
    RequestedIsTheSourcesOffer(start, calls, k);
    AcceptByProposer(Run(start, calls), k, me, r, Proposer(start, calls, k).value);
  }

  /**
   * The side an offer was made to should be able to accept it. In every run it can exactly when the offer is not a
   * counter-offer of the source.
   */
  lemma OtherSidesOfferIsAcceptedIff(start: Db, calls: seq<Call>, k: nat, me: Company, r: Request)
    requires Init(start) && k < |Run(start, calls).deals| && IsPlainAccept(Run(start, calls).deals[k].c, me, r)
    requires SideOf(Run(start, calls).deals[k].c, me) != Proposer(start, calls, k)
    ensures var c := Run(start, calls).deals[k].c;
            Apply(Run(start, calls), Guarded(me, k, r)).1 == Done
            <==> !(c.status.CounterProposed? && Proposer(start, calls, k) == Some(Source))
  {
    RequestedIsTheSourcesOffer(start, calls, k);
    AcceptByProposer(Run(start, calls), k, me, r, Proposer(start, calls, k).value);
  }

  /** Nor can the destination answer such a counter-offer with another. */
  lemma CounterIsNotAnswered(db: Db, k: nat, me: Company, r: Request)
    requires k < |db.deals| && db.deals[k].c.status.CounterProposed? && SideOf(db.deals[k].c, me) == Some(Destination)
    requires r.Decide? && (r.action == Accept || r.action == Counter)
    ensures Apply(db, Guarded(me, k, r)).0 == db && Apply(db, Guarded(me, k, r)).1.Refused?
  {
  }
}
