/** What a shrink means for the objective: whether some point of the neighbourhood improves on the centre by the asked ratio is
    decided, in every run, by the points that peers listed after they had written over a find. */
module Optimum {
  import opened Combos
  import opened Coefficients
  import opened Positions
  import opened Tables
  import opened Ranges
  import opened Sites
  import opened Views
  import opened Duplicates
  import opened Search
  import opened Protocol
  import opened Safety
  import opened Runs
  import opened Values

  // ----- The neighbourhood at a shrink -----

  /** No complexity around the centre stands for a point below the target for the server's value. */
  ghost predicate Exhausted(cfg: Config, s: State)
    requires ConfigOk(cfg) && CentreOk(s.geo, s.centre)
  {
    forall c: nat :: c < Total(s.geo) ==> Aim(cfg.ratio, s.value) <= cfg.f(FrameOf(s.geo), Point(s.geo, s.centre, c))
  }

  /** No overlooked point of the neighbourhood is. */
  ghost predicate NoneOverlooked(cfg: Config, s: State, over: set<seq<nat>>)
    requires ConfigOk(cfg) && CentreOk(s.geo, s.centre)
  {
    forall c: nat :: c < Total(s.geo) && Point(s.geo, s.centre, c) in over ==>
      Aim(cfg.ratio, s.value) <= cfg.f(FrameOf(s.geo), Point(s.geo, s.centre, c))
  }

  /** The server comes to shrink. */
  ghost predicate Shrinking(h: Hub) {
    (h.phase.Advancing? || h.phase.Recentring?) && Ok(h.search) && Advanced(h).level >= h.search.geo.levels
  }

  lemma PointPassed(cfg: Config, h: Hub, c: nat)
    requires ConfigOk(cfg) && HubInv(h) && HubValue(cfg, h) && Shrinking(h) && c < Total(h.search.geo)
    ensures h.search.value == cfg.f(FrameOf(h.search.geo), h.search.centre)
    ensures Passed(cfg, FrameOf(h.search.geo), h.overlooked, h.search.value, Point(h.search.geo, h.search.centre, c))
  {
    hide Covered, Distinct, SkipsSafely, CodeOf, FineGrid, Upto, Advance, Point, Known, Inv, Passed, Made, RecordOk;
    var s := h.search;
    AdvanceSettles(s);
    AdvanceKeepsList(s);
    var x := Site(s.geo, s.centre, c);
    assert x in s.visited && FairSite(cfg, s.geo, h.overlooked, s.value, x);
    var p :| CentreOk(s.geo, p) && CodeOf(s.geo, p) == x && Passed(cfg, FrameOf(s.geo), h.overlooked, s.value, p);
    PointIsCentreOk(s.geo, s.centre, c);
    SameSite(s.geo, p, Point(s.geo, s.centre, c));
  }

  /** From the invariants alone: when the server comes to shrink, its value is that of the centre, and the neighbourhood is
      exhausted exactly if no overlooked point of it is below the target. */
  lemma ShrinkMeansOptimum(cfg: Config, h: Hub)
    requires ConfigOk(cfg) && HubInv(h) && HubValue(cfg, h) && Shrinking(h)
    ensures CentreOk(h.search.geo, h.search.centre)
    ensures h.search.value == cfg.f(FrameOf(h.search.geo), h.search.centre)
    ensures Exhausted(cfg, h.search) <==> NoneOverlooked(cfg, h.search, h.overlooked)
  {
    hide FineGrid, InRange, Total, Point, HubInv, HubValue, Advanced, Aim;
    LevelExists(h.search.geo);
    PointPassed(cfg, h, 0);
    forall c: nat | c < Total(h.search.geo)
      ensures Passed(cfg, FrameOf(h.search.geo), h.overlooked, h.search.value, Point(h.search.geo, h.search.centre, c))
    {
      PointPassed(cfg, h, c);
    }
  }

  lemma LevelExists(g: Geometry)
    requires GeoOk(g)
    ensures 0 < Total(g)
  {
    SomeLevel(g);
    Levels(g, 0);
    hide LaySize, Product;
    var s: seq<nat> := [0];
    var i := SubsetsComplete(s, 0, |g.grid|);
    LevelSubsOk(g.grid, 0);
    LaySizeMono(g.grid, 0, Subsets(0, 1, |g.grid|), i, |Subsets(0, 1, |g.grid|)|);
    assert Subsets(0, 1, |g.grid|)[..|Subsets(0, 1, |g.grid|)|] == Subsets(0, 1, |g.grid|);
    EndStep(g.grid, 0);
    EndMono(g.grid, 1, g.levels);
  }

  lemma RunValue(cfg: Config, g: Geometry, events: seq<Event>, s: System)
    requires RunsFrom(cfg, g, events, s) && Shrinking(s.hub)
    ensures ConfigOk(cfg) && HubInv(s.hub) && HubValue(cfg, s.hub) && CentreOk(s.hub.search.geo, s.hub.search.centre)
  {
    hide Makeable, AllEnded, Protocol.Fresh, Protocol.Runs, HubInv, HubValue, Advanced, FineGrid, InRange, LinkInv,
         LinkValue;
    FreshInv(cfg, g);
    FreshValue(cfg, g);
    RunKeepsValue(cfg, Protocol.Fresh(cfg, g), events, s);
  }

  // ----- Every shrink of every run -----

  /** The point of a lost find is one of those around the server's centre. */
  ghost predicate Near(s: State, loss: Loss)
    requires CentreOk(s.geo, s.centre)
  {
    CentreOk(s.geo, loss.centre) && loss.unit < Total(s.geo)
    && exists c: nat :: c < Total(s.geo) && Point(s.geo, s.centre, c) == Point(s.geo, loss.centre, loss.unit)
  }

  /** The only points that can be missed are those listed by a peer that had written over a find: whenever a run comes to
      shrink, the server's value is the centre's, and the neighbourhood is exhausted exactly if no listed point of it is below
      the target. */
  lemma OverlookedIff(cfg: Config, g: Geometry, events: seq<Event>, s: System)
    requires RunsFrom(cfg, g, events, s) && Shrinking(s.hub)
    ensures ConfigOk(cfg) && CentreOk(s.hub.search.geo, s.hub.search.centre)
    ensures s.hub.search.value == cfg.f(FrameOf(s.hub.search.geo), s.hub.search.centre)
    ensures Exhausted(cfg, s.hub.search) <==> NoneOverlooked(cfg, s.hub.search, s.hub.overlooked)
  {
    hide RunsFrom, HubInv, HubValue, Shrinking, Exhausted, NoneOverlooked, CentreOk;
    RunValue(cfg, g, events, s);
    ShrinkMeansOptimum(cfg, s.hub);
  }

  lemma BehindBelow(cfg: Config, frame: Frame, lost: set<Loss>, value: real, p: seq<nat>)
    requires ConfigOk(cfg) && Behind(cfg, frame, lost, p) && forall loss :: loss in lost ==> value <= loss.value
    ensures Aim(cfg.ratio, value) <= cfg.f(frame, p)
  {
    hide Aim;
    var loss :| loss in lost && Aim(cfg.ratio, loss.value) <= cfg.f(frame, p);
    AimFacts(cfg.ratio, value, loss.value);
  }

  /** If the server has come down to every lost find, nothing better was missed, the units included that a peer passed over
      because its own value was lower than the server's. */
  lemma LossesMet(cfg: Config, g: Geometry, events: seq<Event>, s: System)
    requires RunsFrom(cfg, g, events, s) && Shrinking(s.hub)
    requires forall loss :: loss in s.hub.lost ==> s.hub.search.value <= loss.value
    ensures ConfigOk(cfg) && CentreOk(s.hub.search.geo, s.hub.search.centre) && Exhausted(cfg, s.hub.search)
  {
    hide RunsFrom, HubInv, Shrinking, CentreOk, FairSite, AllPassed, LossOk, Behind, Point, Total;
    OverlookedIff(cfg, g, events, s);
    RunValue(cfg, g, events, s);
    forall p | p in s.hub.overlooked ensures Aim(cfg.ratio, s.hub.search.value) <= cfg.f(FrameOf(s.hub.search.geo), p) {
      BehindBelow(cfg, FrameOf(s.hub.search.geo), s.hub.lost, s.hub.search.value, p);
    }
  }

  lemma NothingLost(cfg: Config, g: Geometry, events: seq<Event>, s: System)
    requires RunsFrom(cfg, g, events, s) && Shrinking(s.hub) && s.hub.lost == {}
    ensures ConfigOk(cfg) && CentreOk(s.hub.search.geo, s.hub.search.centre) && Exhausted(cfg, s.hub.search)
  {
    hide RunsFrom, Shrinking, CentreOk, Exhausted;
    LossesMet(cfg, g, events, s);
  }

  lemma LossIs(cfg: Config, g: Geometry, events: seq<Event>, s: System, loss: Loss)
    requires RunsFrom(cfg, g, events, s) && Shrinking(s.hub) && loss in s.hub.lost
    ensures ConfigOk(cfg) && LossOk(cfg, s.hub.search.geo, loss) && CentreOk(s.hub.search.geo, s.hub.search.centre)
  {
    hide RunsFrom, HubInv, Shrinking, CentreOk, FairSite, AllPassed, LossOk, Behind, Point, Total;
    RunValue(cfg, g, events, s);
  }

  /** A lost find of the neighbourhood that is below the target was missed. */
  lemma LossBelow(cfg: Config, g: Geometry, events: seq<Event>, s: System, loss: Loss)
    requires RunsFrom(cfg, g, events, s) && Shrinking(s.hub) && loss in s.hub.lost
    requires CentreOk(s.hub.search.geo, s.hub.search.centre) && Near(s.hub.search, loss)
    requires ConfigOk(cfg) && loss.value < Aim(cfg.ratio, s.hub.search.value)
    ensures !Exhausted(cfg, s.hub.search)
  {
    hide RunsFrom, Shrinking, CentreOk, Aim, Point, Total;
    LossIs(cfg, g, events, s, loss);
  }

  /** A find lost around the very centre at which the server comes to shrink always was: it was below this target. */
  lemma LostHere(cfg: Config, g: Geometry, events: seq<Event>, s: System, loss: Loss)
    requires RunsFrom(cfg, g, events, s) && Shrinking(s.hub) && loss in s.hub.lost && loss.centre == s.hub.search.centre
    ensures ConfigOk(cfg) && CentreOk(s.hub.search.geo, s.hub.search.centre) && !Exhausted(cfg, s.hub.search)
  {
    hide RunsFrom, Shrinking, CentreOk, Aim, Point, Total, Exhausted;
    LossIs(cfg, g, events, s, loss);
    OverlookedIff(cfg, g, events, s);
    LossBelow(cfg, g, events, s, loss);
  }

  /** So while the server has not recentred since, for any ratio: the neighbourhood is exhausted exactly if no find was lost. */
  lemma ExhaustedIffNothingLost(cfg: Config, g: Geometry, events: seq<Event>, s: System)
    requires RunsFrom(cfg, g, events, s) && Shrinking(s.hub)
    requires forall loss :: loss in s.hub.lost ==> loss.centre == s.hub.search.centre
    ensures ConfigOk(cfg) && CentreOk(s.hub.search.geo, s.hub.search.centre)
    ensures Exhausted(cfg, s.hub.search) <==> s.hub.lost == {}
  {
    hide RunsFrom, Shrinking, CentreOk, Exhausted;
    if s.hub.lost == {} {
      NothingLost(cfg, g, events, s);
    } else {
      var loss :| loss in s.hub.lost;
      LostHere(cfg, g, events, s, loss);
    }
  }

  /** Where any improvement counts, and the lost finds are of the neighbourhood: it is exhausted exactly if the server has come
      down to each of them. */
  lemma ExhaustedIffMet(cfg: Config, g: Geometry, events: seq<Event>, s: System)
    requires RunsFrom(cfg, g, events, s) && Shrinking(s.hub) && cfg.ratio == 1.0
    requires CentreOk(s.hub.search.geo, s.hub.search.centre)
    requires forall loss :: loss in s.hub.lost ==> Near(s.hub.search, loss)
    ensures ConfigOk(cfg)
    ensures Exhausted(cfg, s.hub.search) <==> forall loss :: loss in s.hub.lost ==> s.hub.search.value <= loss.value
  {
    hide RunsFrom, Shrinking, CentreOk, Exhausted, Near;
    OverlookedIff(cfg, g, events, s);
    if forall loss :: loss in s.hub.lost ==> s.hub.search.value <= loss.value {
      LossesMet(cfg, g, events, s);
    } else {
      var loss :| loss in s.hub.lost && loss.value < s.hub.search.value;
      LossBelow(cfg, g, events, s, loss);
    }
  }

  /** How a find is lost: when it waits and is written over, the report that takes its place still lists the unit of
      the find, so the server will count its place as visited while it keeps a value the place improves on. */
  lemma OverwrittenFindIsLost(cfg: Config, l: Link, c: nat, s: State, idle: bool)
    requires ConfigOk(cfg) && CanProcess(l.peer, c) && Overwrites(cfg, l, c)
    requires l.peer.draft.value.find.value in l.peer.unreported
    ensures
      var x, t := l.peer.draft.value.find.value, Process(cfg, l, c);
      && t.outbox == l.outbox && t.peer.draft.Some? && t.peer.draft.value.Done? && t.peer.draft.value.find.None?
      && x in t.peer.draft.value.units
      && var r := t.peer.draft.value;
      && var u := OnPeerReport(s, r.value, r.find, r.units, idle);
      && u.value == s.value && u.best == s.best && x in u.accumulated
  {
    hide Improves, CanProcess, Stands, Aim;
  }
}
