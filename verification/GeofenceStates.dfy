/** Persisted containment: which tracks are inside which geofences, and the statement that reconciles
    one track with the geofences that contain its position and returns what changed. */
module GeofenceStates {

  type GeofenceId = string
  type TrackId = string

  datatype Pair = Pair(geofence: GeofenceId, track: TrackId)

  datatype Transition = Transition(geofence: GeofenceId, inside: bool)

  type States = map<Pair, bool>

  predicate IsInside(states: States, p: Pair)
  {
    p in states && states[p]
  }

  /** A scope is a prefix of geofence identifiers; the empty one covers them all. */
  predicate InScope(scope: string, g: GeofenceId)
  {
    scope <= g
  }

  function Scoped(containing: set<GeofenceId>, scope: string): set<GeofenceId>
  {
    set g | g in containing && InScope(scope, g)
  }

  /** A scope covers the identifiers that begin with it. */
  lemma ScopeIsPrefix(scope: string, g: GeofenceId)
    ensures InScope(scope, g) <==> exists rest :: g == scope + rest
    ensures InScope("", g)
  {
    if InScope(scope, g) {
      assert g == scope + g[|scope|..];
    }
  }

  function InsideOf(states: States, track: TrackId, scope: string): set<GeofenceId>
  {
    set p | p in states && states[p] && p.track == track && InScope(scope, p.geofence) :: p.geofence
  }

  /** One changed pair becomes exactly one transition, to its new value. */
  ghost predicate Changes(found: seq<Transition>, before: States, after: States, track: TrackId)
  {
    && (forall i, j | 0 <= i < j < |found| :: found[i].geofence != found[j].geofence)
    && (forall x | x in found ::
          IsInside(after, Pair(x.geofence, track)) == x.inside != IsInside(before, Pair(x.geofence, track)))
    && (forall p | IsInside(before, p) != IsInside(after, p) ::
          p.track == track && Transition(p.geofence, IsInside(after, p)) in found)
  }

  /** The state after reconciling: inside exactly what contains the track, within the scope. */
  ghost predicate Reconciled(before: States, after: States, track: TrackId, containing: set<GeofenceId>, scope: string)
  {
    && before.Keys <= after.Keys
    && forall p :: IsInside(after, p) <==>
         if p.track == track && (p.geofence in containing || InScope(scope, p.geofence))
         then p.geofence in containing else IsInside(before, p)
  }

  /** The transitions are the symmetric difference of the old inside set and the new one. */
  lemma TransitionsAreTheDifference(found: seq<Transition>, before: States, after: States, track: TrackId,
                                    containing: set<GeofenceId>, scope: string)
    requires forall g | g in containing :: InScope(scope, g)
    requires Reconciled(before, after, track, containing, scope) && Changes(found, before, after, track)
    ensures InsideOf(after, track, scope) == containing
    ensures forall g :: Transition(g, true) in found <==> g in containing - InsideOf(before, track, scope)
    ensures forall g :: Transition(g, false) in found <==> g in InsideOf(before, track, scope) - containing
    ensures forall p: Pair | p.track != track || !InScope(scope, p.geofence) ::
      IsInside(after, p) == IsInside(before, p)
  {
    forall g ensures g in InsideOf(after, track, scope) <==> g in containing {
      var p := Pair(g, track);
      assert IsInside(after, p) && InScope(scope, g) <==> g in InsideOf(after, track, scope);
    }
    forall g ensures Transition(g, true) in found <==> g in containing - InsideOf(before, track, scope) {
      var p := Pair(g, track);
      assert IsInside(before, p) && InScope(scope, g) <==> g in InsideOf(before, track, scope);
      assert IsInside(before, p) != IsInside(after, p) ==> Transition(g, IsInside(after, p)) in found;
    }
    forall g ensures Transition(g, false) in found <==> g in InsideOf(before, track, scope) - containing {
      var p := Pair(g, track);
      assert IsInside(before, p) && InScope(scope, g) <==> g in InsideOf(before, track, scope);
      assert IsInside(before, p) != IsInside(after, p) ==> Transition(g, IsInside(after, p)) in found;
    }
  }

  /** The containment table, with the one statement that changes it. */
  class Table {
    var states: States
    var seen: map<TrackId, int>

    constructor ()
      ensures states == map[] && seen == map[]
    {
      states, seen := map[], map[];
    }

    /** Nothing happens unless the observation is the newest the track has; otherwise entered pairs
        are upserted and exited ones updated, and exactly the changed pairs are returned. */
    method Reconcile(track: TrackId, containing: seq<GeofenceId>, scope: string, observedAt: int)
        returns (found: seq<Transition>)
      modifies this`states
      ensures !(track in seen && observedAt >= seen[track]) ==> states == old(states) && found == []
      ensures track in seen && observedAt >= seen[track] ==>
        Reconciled(old(states), states, track, (set g | g in containing), scope)
      ensures Changes(found, old(states), states, track)
    {
      found := [];
      if track !in seen || observedAt < seen[track] {
        return;
      }
      found := Enter(track, containing);
      ghost var entered := states;
      var existing := set p | p in states && states[p] && p.track == track && InScope(scope, p.geofence)
                                && p.geofence !in containing;
      ghost var exits := existing;
      while existing != {}
        invariant existing <= exits
        invariant states.Keys == entered.Keys
        invariant forall p :: IsInside(states, p) <==> IsInside(entered, p) && (p in existing || p !in exits)
        invariant Changes(found, old(states), states, track)
        decreases |existing|
      {
        var p :| p in existing;
        NotYetFound(found, old(states), states, p);
        states := states[p := false];
        found := found + [Transition(p.geofence, false)];
        existing := existing - {p};
      }
    }

    method Enter(track: TrackId, containing: seq<GeofenceId>) returns (found: seq<Transition>)
      modifies this`states
      ensures old(states).Keys <= states.Keys
      ensures forall p :: IsInside(states, p) <==>
        IsInside(old(states), p) || (p.track == track && p.geofence in containing)
      ensures Changes(found, old(states), states, track)
      ensures forall x | x in found :: x.inside && x.geofence in containing
    {
      found := [];
      for i := 0 to |containing|
        invariant old(states).Keys <= states.Keys
        invariant forall p :: IsInside(states, p) <==>
          IsInside(old(states), p) || (p.track == track && p.geofence in containing[..i])
        invariant Changes(found, old(states), states, track)
        invariant forall x | x in found :: x.inside && x.geofence in containing[..i]
      {
        var p := Pair(containing[i], track);
        assert forall g :: g in containing[..i + 1] <==> g in containing[..i] || g == containing[i];
        if !IsInside(states, p) {
          states := states[p := true];
          found := found + [Transition(p.geofence, true)];
        }
      }
    }
  }

  /** A pair that is still as it was has no transition yet. */
  lemma NotYetFound(found: seq<Transition>, before: States, after: States, p: Pair)
    requires Changes(found, before, after, p.track)
    ensures IsInside(before, p) == IsInside(after, p) ==> forall x | x in found :: x.geofence != p.geofence
  {
  }
}
