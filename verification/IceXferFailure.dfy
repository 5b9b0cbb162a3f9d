/** How a transfer fails, and that a failed end stays failed and silent. */
module IceXferFailure {
  import opened Common
  import opened IceXfer
  import opened IceXferProtocol
  import opened IceXferTheorems
  import opened IceXferDrive

  // ---- one end --------------------------------------------------------------

  /** What a failed end can still become: it takes no blob, sends no chunk and never recovers. */
  ghost predicate Dead(x: End, y: End)
  {
    && y.peer.failed && y.sent == x.sent && y.peer.nextId == x.peer.nextId
    && x.out <= y.out && forall k :: k in y.out && k.Data? ==> k in x.out
  }

  lemma DeadStep(x: End, e: EndEvent)
    requires x.peer.failed
    ensures Dead(x, EndStep(x, e))
  {
  }

  /** Once the left end has failed, every continuation leaves it failed, with no blob and no chunk more. */
  lemma {:induction false} FailedForGood(es: seq<Event>, n: nat)
    requires n <= |es| && Execute(es[..n]).l.peer.failed
    ensures Dead(Execute(es[..n]).l, Execute(es).l)
    decreases |es| - n
  {
    hide EndStep;
    if n < |es| {
      var front := es[..|es| - 1];
      assert front[..n] == es[..n];
      FailedForGood(front, n);
      if es[|es| - 1].AtLeft? { DeadStep(Execute(front).l, es[|es| - 1].e); }
    } else {
      assert es[..n] == es;
    }
  }

  /** What makes the left end fail at step `n`: it gives up, or hears that the other gave up, or is offered a
      blob that is too long. */
  ghost predicate Fatal(es: seq<Event>, n: nat)
    requires n < |es|
  {
    && es[n].AtLeft?
    && var e := es[n].e;
       || e.GiveUp?
       || (e.Hear? && e.k in Execute(es[..n]).r.out && (e.k.Fail? || (e.k.Data? && e.k.total > TOTAL_MAX)))
  }

  lemma FatalFails(es: seq<Event>, n: nat)
    requires n < |es| && Fatal(es, n)
    ensures Execute(es[..n + 1]).l.peer.failed
  {
    assert es[..n + 1][..n] == es[..n];
  }

  /** A packet of an honest peer fails the end only where it is fatal. */
  lemma HearingFails(s: Pair, k: Packet)
    requires DirOk(s.r, s.l) && k in s.r.out && !s.l.peer.failed && EndStep(s.l, Hear(k)).peer.failed
    ensures k.Fail? || (k.Data? && k.total > TOTAL_MAX)
  {
    if k.Data? && k.total <= TOTAL_MAX { DataTurn(s.r, s.l, k); }
  }

  lemma {:induction false} FailureHasCause(es: seq<Event>) returns (n: nat)
    requires Execute(es).l.peer.failed && |Execute(es).r.sent| <= IDS
    ensures n < |es| && Fatal(es, n)
  {
    hide Turn, Inv;
    if es == [] {
      assert false;
    } else {
      var front, last := es[..|es| - 1], es[|es| - 1];
      var s := Execute(front);
      PeerKeepsSent(front, last);
      assert front + [last] == es;
      if s.l.peer.failed {
        n := FailureHasCause(front);
        assert front[..n] == es[..n];
      } else {
        n := |es| - 1;
        RunInv(front);
        TurnFails(s, last);
      }
    }
  }

  /** The event at which the left end fails is fatal. */
  lemma TurnFails(s: Pair, ev: Event)
    requires Inv(s) && |s.r.sent| <= IDS && !s.l.peer.failed && Turn(s, ev).l.peer.failed
    ensures ev.AtLeft?
    ensures var e := ev.e;
      || e.GiveUp?
      || (e.Hear? && e.k in s.r.out && (e.k.Fail? || (e.k.Data? && e.k.total > TOTAL_MAX)))
  {
    StepFails(s.l, ev.e);
    hide EndStep, DirOk;
    if ev.e.Hear? { HearingFails(s, ev.e.k); }
  }

  lemma StepFails(x: End, e: EndEvent)
    requires !x.peer.failed && EndStep(x, e).peer.failed
    ensures e.GiveUp? || e.Hear?
  {
    hide FillWindow;
  }

  lemma PeerKeepsSent(front: seq<Event>, ev: Event)
    ensures Execute(front).r.sent <= Execute(front + [ev]).r.sent
  {
    hide EndStep;
    assert (front + [ev])[..|front|] == front;
    if ev.AtRight? { EndKeepsSent(Execute(front).r, ev.e); }
  }

  /** An end has failed exactly when something fatal has happened to it. */
  lemma FailedIff(es: seq<Event>)
    requires |Execute(es).r.sent| <= IDS
    ensures Execute(es).l.peer.failed <==> exists n | 0 <= n < |es| :: Fatal(es, n)
  {
    hide Fatal, Execute;
    if Execute(es).l.peer.failed { var n := FailureHasCause(es); }
    if n :| 0 <= n < |es| && Fatal(es, n) {
      FatalFails(es, n);
      FailedForGood(es, n + 1);
    }
  }

  /** FAIL is on the wire exactly when its end has given up. */
  lemma {:induction false} FailSentIff(es: seq<Event>)
    ensures Fail in Execute(es).r.out <==> AtRight(GiveUp) in es
  {
    if es != [] {
      var front, ev := es[..|es| - 1], es[|es| - 1];
      assert es == front + [ev];
      FailSentIff(front);
      if ev.AtRight? { OnlyGivingUpSendsFail(Execute(front).r, ev.e); }
    }
  }

  lemma OnlyGivingUpSendsFail(x: End, e: EndEvent)
    ensures Fail in EndStep(x, e).out <==> Fail in x.out || e.GiveUp?
  {
    hide FillWindow, Rewound;
    if e.Pump? && x.peer.queue != [] { FillWindowSendsData(Rewound(x.peer.queue[0], e.elapsed)); }
  }

  // ---- the application's calls ----------------------------------------------

  /** A failed end after any of its calls: only its ready blobs can still be taken, and only FAIL goes out. */
  ghost predicate Silent(x: End, y: End)
  {
    && y.sent == x.sent && y.delivered == x.delivered && y.done == x.done
    && x.out <= y.out <= x.out + {Fail}
    && |y.peer.ready| <= |x.peer.ready| && y.peer.ready == x.peer.ready[|x.peer.ready| - |y.peer.ready|..]
    && y.peer == x.peer.(ready := y.peer.ready)
  }

  lemma SilentCall(x: End, act: Act)
    requires x.peer.failed
    ensures Silent(x, EndRun(x, Events(x.peer, act)))
  {
    hide FillWindow, HandleData, HandleAck;
    var es := Events(x.peer, act);
    assert |es| == 1 && es == [es[0]];
    OneStep(x, es[0]);
  }

  lemma SilentThen(x: End, y: End, z: End)
    requires Silent(x, y) && Silent(y, z)
    ensures Silent(x, z)
  {
    var a, b, c := |x.peer.ready|, |y.peer.ready|, |z.peer.ready|;
    assert x.peer.ready[a - b..][b - c..] == x.peer.ready[a - c..];
  }

  /** Whatever both applications do after the left end failed: it sends nothing but FAIL, hears nothing, refuses
      every blob, and still hands over what was ready. */
  lemma {:induction false} FailedIsSilent(acts: seq<(bool, Act)>, i: nat)
    requires i <= |acts| && State(acts[..i]).l.peer.failed
    ensures Silent(State(acts[..i]).l, State(acts).l)
    decreases |acts| - i
  {
    hide State, EndRun, Events;
    if i == |acts| {
      assert acts[..i] == acts;
      assert State(acts).l.peer.ready[0..] == State(acts).l.peer.ready;
    } else {
      var j := |acts| - 1;
      var front := acts[..j];
      assert front[..i] == acts[..i] && acts[..j + 1] == acts;
      FailedIsSilent(front, i);
      NextState(acts, j);
      var x := State(front).l;
      if acts[j].0 && Allowed(acts[j].1, State(front).r.out) {
        SilentCall(x, acts[j].1);
        SilentThen(State(acts[..i]).l, x, State(acts).l);
      }
    }
  }

  // ---- limits -----------------------------------------------------------------

  /** A blob is taken exactly when the end is in order and fewer than 16 wait; it goes to the back, nothing sent. */
  lemma AcceptedIff(p: Peer, data: Bytes)
    ensures var q := Enqueue(p, data);
      if !p.failed && |p.queue| < 16
      then && |q.queue| == |p.queue| + 1 && q.queue[..|p.queue|] == p.queue
           && q.queue[|p.queue|] == Blob(data, q.nextId, 0, 0)
           && q.nextId == (if p.nextId == 0xFFFF_FFFF then 0 else p.nextId + 1)
           && q == p.(nextId := q.nextId, queue := q.queue)
      else q == p
  {
  }

  /** No run queues more than 16 blobs or holds more than 4 ready ones. */
  lemma {:induction false} QueuesBounded(es: seq<Event>)
    ensures var s := Execute(es);
      && |s.l.peer.queue| <= 16 && |s.r.peer.queue| <= 16 && |s.l.peer.ready| <= 4 && |s.r.peer.ready| <= 4
  {
    hide EndStep;
    if es != [] {
      var front, ev := es[..|es| - 1], es[|es| - 1];
      QueuesBounded(front);
      StepBounded(Execute(front).l, ev.e);
      StepBounded(Execute(front).r, ev.e);
    }
  }

  lemma StepBounded(x: End, e: EndEvent)
    requires |x.peer.queue| <= 16 && |x.peer.ready| <= 4
    ensures |EndStep(x, e).peer.queue| <= 16 && |EndStep(x, e).peer.ready| <= 4
  {
    hide FillWindow;
  }

  /** What is assembled never runs past the length that was announced. */
  predicate Contained(p: Peer)
  {
    if p.active then |p.buf| <= p.total else p.buf == []
  }

  /** Whatever packet arrives, genuine or not: the assembly stays contained, a chunk that would run past the announced
      length fails the end unanswered with nothing stored, and a blob is delivered only at exactly that length. */
  lemma AnyPacketContained(p: Peer, k: Packet)
    requires Contained(p)
    ensures var o := Receive(p, k);
      && Contained(o.peer)
      && (k.Data? && k.total <= TOTAL_MAX ==>
            var q := Reopened(p, k.id, k.total);
            && (k.off == |q.buf| && k.payload != [] && k.off + |k.payload| > q.total ==>
                  o == Out(q.(failed := true), []))
            && (o.peer.ready != p.ready ==>
                  && |p.ready| < 4 && |o.peer.ready| == |p.ready| + 1 && o.peer.ready[..|p.ready|] == p.ready
                  && |o.peer.ready[|p.ready|]| == q.total))
      && (!k.Data? || k.total > TOTAL_MAX ==> o.sent == [] && o.peer.ready == p.ready && o.peer.buf == p.buf)
  {
  }
}
