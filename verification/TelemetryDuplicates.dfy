/** A message is applied at most once, however often it is sent: the insert of the sample decides which of
    the handlers goes on. */
module TelemetryDuplicates {
  import opened Options
  import opened Telemetry
  import opened TelemetryResults

  /** The handler has inserted its sample and is projecting it. */
  predicate Projecting(h: Handler)
  {
    h.call.Ensuring? || h.call.Loading? || h.call.Applying?
  }

  predicate WentOn(h: Handler)
  {
    Projecting(h) || (h.call.Ended? && h.call.result.Done?)
  }

  predicate SameMessage(x: Sample, y: Sample)
  {
    x.message != "" && x.message == y.message
  }

  /** Only one handler of a message goes on, and only once it is stored. */
  ghost predicate OneGoesOn(w: World)
  {
    && (forall i | 0 <= i < |w.handlers| && WentOn(w.handlers[i]) && w.handlers[i].sample.message != "" ::
          w.handlers[i].sample.message in w.store.messages)
    && (forall i, j | 0 <= i < j < |w.handlers| && SameMessage(w.handlers[i].sample, w.handlers[j].sample) ::
          !(WentOn(w.handlers[i]) && WentOn(w.handlers[j])))
  }

  /** A handler that sent a message and was not told that it is a duplicate. */
  ghost predicate Sender(w: World, i: int, message: string)
  {
    && 0 <= i < |w.handlers| && w.handlers[i].sample.message == message
    && !w.handlers[i].call.Creating? && w.handlers[i].call != Ended(Duplicate)
  }

  ghost predicate Sent(w: World)
  {
    forall m | m in w.store.messages :: m != "" && exists i :: Sender(w, i, m)
  }

  ghost predicate Another(w: World, i: int, message: string)
  {
    message != "" && exists j :: j != i && Sender(w, j, message)
  }

  ghost predicate DuplicatesOk(w: World)
  {
    forall i | 0 <= i < |w.handlers| && w.handlers[i].call == Ended(Duplicate) ::
      Another(w, i, w.handlers[i].sample.message)
  }

  /** A projection of this sample to this place. */
  ghost predicate AppliedAt(s: Store, a: AssetId, k: int, message: string)
  {
    && a in s.rows && 0 <= k < |s.rows[a].commits|
    && message != "" && s.rows[a].commits[k].sample.message == message
  }

  ghost predicate AppliedOk(w: World)
  {
    && (forall a, k, m | AppliedAt(w.store, a, k, m) :: m in w.store.messages)
    && (forall i, a, k | 0 <= i < |w.handlers| && Projecting(w.handlers[i]) ::
          !AppliedAt(w.store, a, k, w.handlers[i].sample.message))
    && (forall a1, k1, a2, k2, m | AppliedAt(w.store, a1, k1, m) && AppliedAt(w.store, a2, k2, m) ::
          a1 == a2 && k1 == k2)
  }

  ghost predicate Once(w: World)
  {
    OneGoesOn(w) && Sent(w) && DuplicatesOk(w) && AppliedOk(w)
  }

  // ---- one step ----

  /** A handler that was not going on only does so by storing a message nobody has stored. */
  lemma GoesOn(s: Store, h: Handler, reply: Reply)
    requires !h.call.Ended?
    ensures var (n, call) := Step(s, h, reply);
      && s.messages <= n.messages <= s.messages + {h.sample.message}
      && ("" !in s.messages ==> "" !in n.messages)
      && (h.sample.message in n.messages && h.sample.message !in s.messages ==>
            h.call.Creating? && call != Ended(Duplicate))
      && (WentOn(h.(call := call)) ==>
            WentOn(h) || (h.call.Creating?
                          && (h.sample.message == ""
                              || (h.sample.message !in s.messages && h.sample.message in n.messages))))
      && (call == Ended(Duplicate) ==> h.call.Creating? && h.sample.message != "" && h.sample.message in s.messages)
      && !call.Creating?
  {
  }

  /** What one call applies: the handler's own sample, at most once, and then it is done with it. */
  lemma WhatIsApplied(s: Store, h: Handler, reply: Reply, a: AssetId, k: int, m: string)
    requires !h.call.Ended? && AppliedAt(Step(s, h, reply).0, a, k, m)
    ensures AppliedAt(s, a, k, m)
      || (&& h.call.Applying? && Step(s, h, reply).1.Ended?
          && m == h.sample.message && a == h.sample.asset
          && k == if a in s.rows then |s.rows[a].commits| else 0)
  {
  }

  lemma MoveKeepsOneGoesOn(w: World, i: nat, reply: Reply)
    requires OneGoesOn(w) && Enabled(w, Move(i, reply))
    ensures OneGoesOn(Next(w, Move(i, reply)))
  {
    GoesOn(w.store, w.handlers[i], reply);
  }

  lemma MoveKeepsSent(w: World, i: nat, reply: Reply)
    requires Sent(w) && Enabled(w, Move(i, reply))
    ensures Sent(Next(w, Move(i, reply)))
  {
    var n := Next(w, Move(i, reply));
    GoesOn(w.store, w.handlers[i], reply);
    forall m | m in n.store.messages ensures m != "" && exists j :: Sender(n, j, m) {
      if m in w.store.messages {
        var j :| Sender(w, j, m);
        assert Sender(n, j, m);
      } else {
        assert Sender(n, i, m);
      }
    }
  }

  lemma MoveKeepsDuplicates(w: World, i: nat, reply: Reply)
    requires Sent(w) && DuplicatesOk(w) && Enabled(w, Move(i, reply))
    ensures DuplicatesOk(Next(w, Move(i, reply)))
  {
    var n := Next(w, Move(i, reply));
    GoesOn(w.store, w.handlers[i], reply);
    forall k | 0 <= k < |n.handlers| && n.handlers[k].call == Ended(Duplicate)
      ensures Another(n, k, n.handlers[k].sample.message)
    {
      var m := n.handlers[k].sample.message;
      if k != i {
        assert Another(w, k, m);
        var j :| j != k && Sender(w, j, m);
        assert Sender(n, j, m);
      } else {
        var j :| Sender(w, j, m);
        assert Sender(n, j, m);
      }
    }
  }

  lemma MoveKeepsApplied(w: World, i: nat, reply: Reply)
    requires OneGoesOn(w) && AppliedOk(w) && Enabled(w, Move(i, reply))
    ensures AppliedOk(Next(w, Move(i, reply)))
  {
    var n, h := Next(w, Move(i, reply)), w.handlers[i];
    GoesOn(w.store, h, reply);
    forall a, k, m | AppliedAt(n.store, a, k, m) ensures m in n.store.messages {
      WhatIsApplied(w.store, h, reply, a, k, m);
    }
    forall j, a, k | 0 <= j < |n.handlers| && Projecting(n.handlers[j])
      ensures !AppliedAt(n.store, a, k, n.handlers[j].sample.message)
    {
      StillUnapplied(w, i, j, reply, a, k);
    }
    forall a1, k1, a2, k2, m | AppliedAt(n.store, a1, k1, m) && AppliedAt(n.store, a2, k2, m)
      ensures a1 == a2 && k1 == k2
    {
      WhatIsApplied(w.store, h, reply, a1, k1, m);
      WhatIsApplied(w.store, h, reply, a2, k2, m);
    }
  }

  /** No handler that is still projecting has had its message applied, by this step or before. */
  lemma StillUnapplied(w: World, i: nat, j: nat, reply: Reply, a: AssetId, k: int)
    requires OneGoesOn(w) && AppliedOk(w) && Enabled(w, Move(i, reply)) && j < |w.handlers|
    requires Projecting(Next(w, Move(i, reply)).handlers[j])
    ensures var n := Next(w, Move(i, reply)); !AppliedAt(n.store, a, k, n.handlers[j].sample.message)
  {
    var n, g, h := Next(w, Move(i, reply)), w.handlers[i], w.handlers[j];
    GoesOn(w.store, g, reply);
    if j != i && SameMessage(g.sample, h.sample) {
      var lo, hi := if i < j then i else j, if i < j then j else i;
      assert SameMessage(w.handlers[lo].sample, w.handlers[hi].sample);
      assert !WentOn(g);
    }
    if AppliedAt(n.store, a, k, h.sample.message) {
      WhatIsApplied(w.store, g, reply, a, k, h.sample.message);
    }
  }

  lemma IngestKeepsOnce(w: World, sample: Sample)
    requires Once(w)
    ensures Once(Next(w, Turn.Ingest(sample)))
  {
    var n := Next(w, Turn.Ingest(sample));
    forall m | m in n.store.messages ensures m != "" && exists j :: Sender(n, j, m) {
      var j :| Sender(w, j, m);
      assert Sender(n, j, m);
    }
    forall k | 0 <= k < |n.handlers| && n.handlers[k].call == Ended(Duplicate)
      ensures Another(n, k, n.handlers[k].sample.message)
    {
      assert Another(w, k, w.handlers[k].sample.message);
      var j :| j != k && Sender(w, j, n.handlers[k].sample.message);
      assert Sender(n, j, n.handlers[k].sample.message);
    }
  }

  lemma TurnKeepsOnce(w: World, turn: Turn)
    requires Once(w) && Enabled(w, turn)
    ensures Once(Next(w, turn))
  {
    match turn
    case Ingest(sample) => IngestKeepsOnce(w, sample);
    case Move(i, reply) =>
      MoveKeepsOneGoesOn(w, i, reply);
      MoveKeepsSent(w, i, reply);
      MoveKeepsDuplicates(w, i, reply);
      MoveKeepsApplied(w, i, reply);
  }

  lemma {:induction false} RunKeepsOnce(w: World, turns: seq<Turn>, end: World)
    requires Once(w) && Run(w, turns, end)
    ensures Once(end)
    decreases |turns|
  {
    if turns != [] {
      TurnKeepsOnce(w, turns[0]);
      RunKeepsOnce(Next(w, turns[0]), turns[1..], end);
    }
  }

  /** However often a message is sent, and for whichever assets, it is applied at most once. */
  lemma {:induction false} AppliedAtMostOnce(turns: seq<Turn>, w: World, a1: AssetId, k1: nat, a2: AssetId, k2: nat)
    requires Run(EMPTY, turns, w) && a1 in w.store.rows && a2 in w.store.rows
    requires k1 < |w.store.rows[a1].commits| && k2 < |w.store.rows[a2].commits|
    requires SameMessage(w.store.rows[a1].commits[k1].sample, w.store.rows[a2].commits[k2].sample)
    ensures a1 == a2 && k1 == k2
  {
    RunKeepsOnce(EMPTY, turns, w);
    var m := w.store.rows[a1].commits[k1].sample.message;
    assert AppliedAt(w.store, a1, k1, m) && AppliedAt(w.store, a2, k2, m);
  }

  /** A handler is told that its message is a duplicate only if another handler of the very same message
      came before it, and of two handlers of one message at most one succeeds. */
  lemma {:induction false} DuplicateOfAnother(turns: seq<Turn>, w: World, i: nat)
    requires Run(EMPTY, turns, w) && i < |w.handlers| && w.handlers[i].call.Ended?
    ensures w.handlers[i].call.result.Duplicate? ==>
      exists j :: 0 <= j < |w.handlers| && j != i && SameMessage(w.handlers[j].sample, w.handlers[i].sample)
                  && !w.handlers[j].call.Creating? && w.handlers[j].call != Ended(Duplicate)
    ensures w.handlers[i].call.result.Done? ==>
      forall j | 0 <= j < |w.handlers| && j != i && SameMessage(w.handlers[j].sample, w.handlers[i].sample)
        && w.handlers[j].call.Ended? :: !w.handlers[j].call.result.Done?
  {
    RunKeepsOnce(EMPTY, turns, w);
    if w.handlers[i].call.result.Duplicate? {
      assert Another(w, i, w.handlers[i].sample.message);
      var j :| j != i && Sender(w, j, w.handlers[i].sample.message);
      assert SameMessage(w.handlers[j].sample, w.handlers[i].sample);
    }
    forall j | 0 <= j < |w.handlers| && j != i && SameMessage(w.handlers[j].sample, w.handlers[i].sample)
      && w.handlers[j].call.Ended? && w.handlers[i].call.result.Done? ensures !w.handlers[j].call.result.Done?
    {
      var lo, hi := if i < j then i else j, if i < j then j else i;
      assert SameMessage(w.handlers[lo].sample, w.handlers[hi].sample);
    }
  }

  /** A message whose insert went through although its reply was lost: sent again it is a duplicate, and its
      sample is never applied. */
  lemma MessageCanBeLost() returns (turns: seq<Turn>, w: World)
    ensures Run(EMPTY, turns, w) && |w.handlers| == 2 && SameMessage(w.handlers[0].sample, w.handlers[1].sample)
    ensures w.handlers[0].call == Ended(Failed) && w.handlers[1].call == Ended(Duplicate) && w.store.rows == map[]
  {
    var sample := Sample("m", "a", 1, None, None, None, "connected");
    var s := Store(map[], {"m"});
    var w1 := World(EMPTY.store, [Handler(sample, Creating)]);
    var w2 := World(s, [Handler(sample, Ended(Failed))]);
    var w3 := World(s, [Handler(sample, Ended(Failed)), Handler(sample, Creating)]);
    w := World(s, [Handler(sample, Ended(Failed)), Handler(sample, Ended(Duplicate))]);
    assert Next(EMPTY, Turn.Ingest(sample)) == w1;
    assert Next(w1, Move(0, Lost)) == w2;
    assert Next(w2, Turn.Ingest(sample)) == w3;
    assert Next(w3, Move(1, Fine)) == w;
    var t3: seq<Turn> := [Move(1, Fine)];
    var t2 := [Turn.Ingest(sample)] + t3;
    var t1 := [Move(0, Lost)] + t2;
    turns := [Turn.Ingest(sample)] + t1;
    assert Run(w3, t3, w);
    assert Run(w2, t2, w);
    assert Run(w1, t1, w);
    assert Run(EMPTY, turns, w);
  }
}
