/** The containment and alert services as code, over the tables they update in place. */
module ContainmentService {
  import opened Options
  import opened GeofenceStates
  import opened Containment

  datatype Published = Breached(on: Pair) | Exited(on: Pair)

  /** The breach and exit events of a list of transitions, in its order. */
  function Announced(track: TrackId, found: seq<Transition>): seq<Published>
  {
    if found == [] then []
    else
      var last := found[|found| - 1];
      var p := Pair(last.geofence, track);
      Announced(track, found[..|found| - 1]) + [if last.inside then Breached(p) else Exited(p)]
  }

  class Alerts {
    var alerts: map<AlertId, Alert>

    constructor ()
      ensures alerts == map[]
    {
      alerts := map[];
    }

    method FindUnresolved(p: Pair) returns (found: Option<AlertId>)
      ensures found.None? <==> Standing(alerts, p) == {}
      ensures found.Some? ==> found.value in Standing(alerts, p)
    {
      found := None;
      var todo := alerts.Keys;
      while todo != {}
        invariant todo <= alerts.Keys
        invariant Standing(alerts, p) <= todo
        decreases |todo|
      {
        var id :| id in todo;
        if alerts[id].on == p && !alerts[id].state.Resolved? {
          assert id in Standing(alerts, p);
          return Some(id);
        }
        todo := todo - {id};
      }
    }

    /** The partial unique index refuses a second unresolved alert of one pair. */
    method Create(p: Pair, id: AlertId) returns (created: bool)
      modifies this
      ensures created <==> id !in old(alerts) && Standing(old(alerts), p) == {}
      ensures alerts == if created then old(alerts)[id := Alert(p, Active)] else old(alerts)
    {
      var existing := FindUnresolved(p);
      created := id !in alerts && existing.None?;
      if created {
        alerts := alerts[id := Alert(p, Active)];
      }
    }

    method Acknowledge(id: AlertId) returns (changed: bool)
      modifies this
      ensures changed <==> id in old(alerts) && old(alerts)[id].state.Active?
      ensures alerts == if changed then old(alerts)[id := old(alerts)[id].(state := Acknowledged)] else old(alerts)
      ensures forall p :: Standing(alerts, p) == Standing(old(alerts), p)
    {
      changed := id in alerts && alerts[id].state.Active?;
      if changed {
        alerts := alerts[id := alerts[id].(state := Acknowledged)];
      }
    }

    method Resolve(id: AlertId) returns (changed: bool)
      modifies this
      ensures changed <==> id in old(alerts) && !old(alerts)[id].state.Resolved?
      ensures alerts == if changed then old(alerts)[id := old(alerts)[id].(state := Resolved)] else old(alerts)
      ensures forall p :: Standing(alerts, p) == Standing(old(alerts), p) - {id}
    {
      changed := id in alerts && !alerts[id].state.Resolved?;
      if changed {
        alerts := alerts[id := alerts[id].(state := Resolved)];
      }
    }

    /** Raises an alert for a breach unless one stands, or a call fails. */
    method HandleGeofenceBreached(p: Pair, look: Reply, create: Reply, id: AlertId) returns (published: bool)
      requires id !in alerts
      modifies this
      ensures var raises := look.Fine? && Standing(old(alerts), p) == {} && !create.Refused?;
        && alerts == (if raises then old(alerts)[id := Alert(p, Active)] else old(alerts))
        && (published <==> raises && create.Fine?)
    {
      published := false;
      if !look.Fine? {
        return;
      }
      var existing := FindUnresolved(p);
      if existing.Some? || create.Refused? {
        return;
      }
      var created := Create(p, id);
      published := created && create.Fine?;
    }
  }

  /** How the alert calls of each breach come back, by its place in the batch. */
  datatype Replies = Replies(look: nat -> Reply, create: nat -> Reply)

  predicate Answered(r: Replies, i: nat)
  {
    r.look(i).Fine? && !r.create(i).Refused?
  }

  /** The alerts after a batch: one stands for a pair exactly where one stood, or where a breach of it
      was answered. */
  ghost predicate Answers(before: map<AlertId, Alert>, after: map<AlertId, Alert>, published: seq<Published>,
                          r: Replies)
  {
    forall p :: Standing(after, p) != {} <==> Standing(before, p) != {} || Raises(published, r, p)
  }

  ghost predicate Raises(published: seq<Published>, r: Replies, p: Pair)
  {
    exists i :: 0 <= i < |published| && published[i] == Breached(p) && Answered(r, i)
  }

  lemma RaisedStands(before: map<AlertId, Alert>, id: AlertId, on: Pair)
    requires id !in before
    ensures forall p ::
      Standing(before[id := Alert(on, Active)], p) == Standing(before, p) + if p == on then {id} else {}
  {
  }

  lemma AnswersOneMore(before: map<AlertId, Alert>, middle: map<AlertId, Alert>, after: map<AlertId, Alert>,
                       published: seq<Published>, x: Published, r: Replies)
    requires Answers(before, middle, published, r)
    requires forall p :: Standing(after, p) != {} <==>
      Standing(middle, p) != {} || (x == Breached(p) && Answered(r, |published|))
    ensures Answers(before, after, published + [x], r)
  {
    var more := published + [x];
    forall p ensures Raises(more, r, p) <==> Raises(published, r, p) || (x == Breached(p) && Answered(r, |published|)) {
      if i :| 0 <= i < |published| && published[i] == Breached(p) && Answered(r, i) {
        assert more[i] == Breached(p);
      }
      if x == Breached(p) && Answered(r, |published|) {
        assert more[|published|] == Breached(p);
      }
    }
  }

  lemma BreachesAreChanges(found: seq<Transition>, before: States, after: States, track: TrackId)
    requires Changes(found, before, after, track)
    ensures forall p: Pair :: p.track == track && Transition(p.geofence, true) in found <==>
      !IsInside(before, p) && IsInside(after, p)
    ensures forall p: Pair :: p.track == track && Transition(p.geofence, false) in found <==>
      IsInside(before, p) && !IsInside(after, p)
  {
    forall p: Pair
      ensures p.track == track && Transition(p.geofence, true) in found <==> !IsInside(before, p) && IsInside(after, p)
      ensures p.track == track && Transition(p.geofence, false) in found <==> IsInside(before, p) && !IsInside(after, p)
    {
      assert IsInside(before, p) != IsInside(after, p) ==> Transition(p.geofence, IsInside(after, p)) in found;
    }
  }

  method ScopedGeofences(containing: seq<GeofenceId>, prefix: string) returns (scoped: seq<GeofenceId>)
    ensures forall g :: g in scoped <==> g in containing && InScope(prefix, g)
  {
    scoped := [];
    for i := 0 to |containing|
      invariant forall g :: g in scoped <==> g in containing[..i] && InScope(prefix, g)
    {
      assert forall g :: g in containing[..i + 1] <==> g in containing[..i] || g == containing[i];
      if InScope(prefix, containing[i]) {
        scoped := scoped + [containing[i]];
      }
    }
  }

  /** Publishes one transition after the other; a breach is answered before the next is published. `Id`
      supplies identifiers nothing else uses. */
  method PublishAll(desk: Alerts, track: TrackId, found: seq<Transition>, id: nat -> AlertId, r: Replies)
      returns (published: seq<Published>)
    requires forall k: nat :: id(k) !in desk.alerts
    requires forall j: nat, k: nat :: j != k ==> id(j) != id(k)
    modifies desk
    ensures published == Announced(track, found)
    ensures Answers(old(desk.alerts), desk.alerts, published, r)
    ensures found == [] ==> desk.alerts == old(desk.alerts)
  {
    published := [];
    for i := 0 to |found|
      invariant forall k: nat | k >= i :: id(k) !in desk.alerts
      invariant published == Announced(track, found[..i]) && |published| == i
      invariant Answers(old(desk.alerts), desk.alerts, published, r)
      invariant i == 0 ==> desk.alerts == old(desk.alerts)
    {
      assert found[..i + 1][..i] == found[..i];
      var p := Pair(found[i].geofence, track);
      var x := if found[i].inside then Breached(p) else Exited(p);
      ghost var middle := desk.alerts;
      if found[i].inside {
        RaisedStands(desk.alerts, id(i), p);
        var _ := desk.HandleGeofenceBreached(p, r.look(i), r.create(i), id(i));
      }
      AnswersOneMore(old(desk.alerts), middle, desk.alerts, published, x, r);
      published := published + [x];
    }
    assert found[..|found|] == found;
  }

  lemma {:induction false} AnnouncedAre(track: TrackId, found: seq<Transition>)
    ensures forall p: Pair :: Breached(p) in Announced(track, found) <==>
      p.track == track && Transition(p.geofence, true) in found
    ensures forall p: Pair :: Exited(p) in Announced(track, found) <==>
      p.track == track && Transition(p.geofence, false) in found
  {
    if found != [] {
      AnnouncedAre(track, found[..|found| - 1]);
      assert forall x :: x in found <==> x in found[..|found| - 1] || x == found[|found| - 1];
    }
  }

  /** What is published when the reply to the reconcile arrives: exactly the changes of the table. */
  ghost predicate Tells(published: seq<Published>, before: States, after: States)
  {
    && (forall p :: Breached(p) in published <==> !IsInside(before, p) && IsInside(after, p))
    && (forall p :: Exited(p) in published <==> IsInside(before, p) && !IsInside(after, p))
  }

  /** HandleTrackUpdated. A failed lookup or a refused reconcile ends it with nothing done; when only the
      reply is lost, the table has changed and nobody hears of it. Otherwise every change is published, and
      a failing alert call loses the alert of its own breach only. */
  method HandleTrackUpdated(table: Table, desk: Alerts, track: TrackId, point: Option<Point>,
                            containing: Option<seq<GeofenceId>>, scope: Option<string>, observedAt: int,
                            reconcile: Reply, id: nat -> AlertId, r: Replies)
      returns (published: seq<Published>)
    requires forall k: nat :: id(k) !in desk.alerts
    requires forall j: nat, k: nat :: j != k ==> id(j) != id(k)
    modifies table`states, desk
    ensures var runs := point.Some? && containing.Some? && !reconcile.Refused?;
      var eligible := runs && track in table.seen && observedAt >= table.seen[track];
      var prefix := if scope.Some? then scope.value else "";
      && (!eligible ==> table.states == old(table.states))
      && (eligible ==> InsideOf(table.states, track, prefix) == Scoped((set g | g in containing.value), prefix))
      && (if runs && reconcile.Fine? then Tells(published, old(table.states), table.states) else published == [])
    ensures Answers(old(desk.alerts), desk.alerts, published, r)
    ensures published == [] ==> desk.alerts == old(desk.alerts)
  {
    published := [];
    if point.None? || containing.None? || reconcile.Refused? {
      return;
    }
    var prefix := if scope.Some? then scope.value else "";
    var scoped := ScopedGeofences(containing.value, prefix);
    ghost var before := table.states;
    var found := table.Reconcile(track, scoped, prefix, observedAt);
    ghost var inScope := Scoped((set g | g in containing.value), prefix);
    assert (set g | g in scoped) == inScope;
    if track in table.seen && observedAt >= table.seen[track] {
      TransitionsAreTheDifference(found, before, table.states, track, inScope, prefix);
    }
    if reconcile.Fine? {
      published := PublishAll(desk, track, found, id, r);
      BreachesAreChanges(found, before, table.states, track);
      AnnouncedAre(track, found);
      AnnouncedLength(track, found);
    }
  }

  lemma {:induction false} AnnouncedLength(track: TrackId, found: seq<Transition>)
    ensures |Announced(track, found)| == |found|
  {
    if found != [] {
      AnnouncedLength(track, found[..|found| - 1]);
    }
  }
}
