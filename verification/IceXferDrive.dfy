/** Two transfer objects that hear only each other's packets: the theorems hold of the objects. */
module IceXferDrive {
  import opened Common
  import opened IceXfer
  import opened IceXferObject
  import opened IceXferProtocol
  import opened IceXferTheorems

  /** What an application does with its end, and which packets a pump finds. */
  datatype Act = Send(data: Bytes) | Serve(inbox: seq<Packet>, elapsed: bool) | Fetch | Abort

  function EndRun(x: End, es: seq<EndEvent>): End
  {
    if es == [] then x else EndStep(EndRun(x, es[..|es| - 1]), es[|es| - 1])
  }

  function Hears(ks: seq<Packet>): (es: seq<EndEvent>)
    ensures |es| == |ks|
  {
    seq(|ks|, i requires 0 <= i < |ks| => Hear(ks[i]))
  }

  /** An act in the terms of the transition system; a failed end hears nothing. */
  function Events(p: Peer, act: Act): seq<EndEvent>
  {
    match act
    case Send(data) => [Queue(data)]
    case Serve(inbox, elapsed) => (if p.failed then [] else Hears(inbox)) + [Pump(elapsed)]
    case Fetch => [Take]
    case Abort => [GiveUp]
  }

  function At(left: bool, es: seq<EndEvent>): (r: seq<Event>)
    ensures |r| == |es|
  {
    seq(|es|, i requires 0 <= i < |es| => if left then AtLeft(es[i]) else AtRight(es[i]))
  }

  lemma EndRunStep(x: End, es: seq<EndEvent>, e: EndEvent)
    ensures EndRun(x, es + [e]) == EndStep(EndRun(x, es), e)
  {
    hide EndStep;
    assert (es + [e])[..|es|] == es;
  }

  lemma ExecuteStep(run: seq<Event>, e: Event)
    ensures Execute(run + [e]) == Turn(Execute(run), e)
  {
    hide Turn;
    assert (run + [e])[..|run|] == run;
  }

  /** Events of one end that hear only what the other sent move that end and leave the other alone. */
  lemma {:induction false} ActsAreRun(run: seq<Event>, left: bool, es: seq<EndEvent>)
    requires forall e :: e in es && e.Hear? ==> e.k in (if left then Execute(run).r.out else Execute(run).l.out)
    ensures var s := Execute(run);
            Execute(run + At(left, es)) == if left then Pair(EndRun(s.l, es), s.r) else Pair(s.l, EndRun(s.r, es))
  {
    hide EndStep, Execute;
    if es == [] {
      assert run + At(left, es) == run;
    } else {
      var front, last := es[..|es| - 1], es[|es| - 1];
      assert forall e :: e in front ==> e in es;
      ActsAreRun(run, left, front);
      var ev := if left then AtLeft(last) else AtRight(last);
      assert run + At(left, es) == (run + At(left, front)) + [ev];
      ExecuteStep(run + At(left, front), ev);
      assert last in es;
    }
  }

  // ---- what an end's past says about its object ---------------------------

  /** The object is where its end is, its packets are what is on the network, what it accepted was queued, and
      what reached its ready queue was taken or still waits there. */
  ghost predicate Follows(x: End, p: Peer, out: seq<Packet>, sent: seq<Bytes>, took: seq<Bytes>)
  {
    x.peer == p && x.sent == sent && x.delivered == took + p.ready && x.out == set k | k in out
  }

  lemma HearFollows(x: End, p: Peer, out: seq<Packet>, sent: seq<Bytes>, took: seq<Bytes>, k: Packet)
    requires Follows(x, p, out, sent, took)
    ensures Follows(EndStep(x, Hear(k)), Receive(p, k).peer, out + Receive(p, k).sent, sent, took)
  {
    ReadyGrows(p, k);
  }

  lemma ReadyGrows(p: Peer, k: Packet)
    ensures var q := Receive(p, k).peer;
            q.ready == p.ready || (q.ready != [] && q.ready == p.ready + [q.ready[|q.ready| - 1]])
  {
  }

  lemma {:induction false} HearsFollow(x: End, p: Peer, out: seq<Packet>, sent: seq<Bytes>, took: seq<Bytes>,
                                       ks: seq<Packet>)
    requires Follows(x, p, out, sent, took)
    ensures Follows(EndRun(x, Hears(ks)), ReceiveAll(p, ks).peer, out + ReceiveAll(p, ks).sent, sent, took)
  {
    hide Receive, EndStep, Follows;
    if ks == [] {
      assert out + ReceiveAll(p, ks).sent == out;
    } else {
      var front, last := ks[..|ks| - 1], ks[|ks| - 1];
      HearsFollow(x, p, out, sent, took, front);
      var q := ReceiveAll(p, front);
      HearFollows(EndRun(x, Hears(front)), q.peer, out + q.sent, sent, took, last);
      assert Hears(ks)[..|ks| - 1] == Hears(front);
      assert out + ReceiveAll(p, ks).sent == (out + q.sent) + Receive(q.peer, last).sent;
    }
  }

  lemma ServeFollows(x: End, p: Peer, out: seq<Packet>, sent: seq<Bytes>, took: seq<Bytes>, inbox: seq<Packet>,
                     elapsed: bool)
    requires Follows(x, p, out, sent, took)
    ensures var o := if p.failed then Out(p, []) else ReceiveAll(p, inbox);
            var t := Tick(o.peer, elapsed);
            Follows(EndRun(x, Events(p, Serve(inbox, elapsed))), t.peer, out + o.sent + t.sent, sent, took)
  {
    hide Receive, EndRun, ReceiveAll, FillWindow;
    var heard := if p.failed then [] else Hears(inbox);
    EndRunStep(x, heard, Pump(elapsed));
    if p.failed { EndRunNone(x); } else { HearsFollow(x, p, out, sent, took, inbox); }
  }

  lemma EndRunNone(x: End)
    ensures EndRun(x, []) == x
  {
  }

  lemma OneStep(x: End, e: EndEvent)
    ensures EndRun(x, [e]) == EndStep(x, e)
  {
    hide EndStep;
    assert [e][..0] == [];
  }

  /** One act of one end, by the object. */
  method Perform(mine: Xfer, act: Act, ghost x: End, sent: seq<Bytes>, took: seq<Bytes>)
    returns (sent': seq<Bytes>, took': seq<Bytes>)
    requires mine.Valid() && Follows(x, mine.View(), mine.outbox, sent, took)
    modifies mine, mine.recvBuf
    ensures mine.Valid() && (mine.recvBuf == old(mine.recvBuf) || fresh(mine.recvBuf))
    ensures Follows(EndRun(x, Events(old(mine.View()), act)), mine.View(), mine.outbox, sent', took')
  {
    hide FillWindow, HandleData, HandleAck, ReceiveAll;
    sent', took' := sent, took;
    match act {
      case Send(data) =>
        OneStep(x, Queue(data));
        var rc := mine.QueueBlob(data);
        if rc == 0 { sent' := sent + [data]; }
      case Serve(inbox, elapsed) =>
        ServeFollows(x, mine.View(), mine.outbox, sent, took, inbox, elapsed);
        mine.Pump(inbox, elapsed);
      case Fetch =>
        OneStep(x, Take);
        var out := mine.TakeBlob();
        if out.Some? { took' := took + [out.value]; }
      case Abort =>
        OneStep(x, GiveUp);
        mine.Abort();
    }
  }

  // ---- two objects --------------------------------------------------------

  /** The pump finds only packets the other end sent. */
  predicate Allowed(act: Act, out: set<Packet>)
  {
    act.Serve? ==> forall k :: k in act.inbox ==> k in out
  }

  /** The run of two ends that act in turn; an act that is not allowed does not happen. */
  function Played(acts: seq<(bool, Act)>): seq<Event>
  {
    if acts == [] then []
    else
      var run := Played(acts[..|acts| - 1]);
      var (left, act) := acts[|acts| - 1];
      var s := Execute(run);
      if Allowed(act, (if left then s.r else s.l).out)
      then run + At(left, Events((if left then s.l else s.r).peer, act))
      else run
  }

  /** The state after some acts. */
  function State(acts: seq<(bool, Act)>): Pair
  {
    Execute(Played(acts))
  }

  /** An allowed act moves one end by its events and leaves the other alone. */
  lemma NextState(acts: seq<(bool, Act)>, i: nat)
    requires i < |acts|
    ensures var s := State(acts[..i]);
            var s' := State(acts[..i + 1]);
            var (left, act) := acts[i];
            if !Allowed(act, (if left then s.r else s.l).out) then s' == s
            else if left then s' == Pair(EndRun(s.l, Events(s.l.peer, act)), s.r)
            else s' == Pair(s.l, EndRun(s.r, Events(s.r.peer, act)))
  {
    hide Execute, EndRun;
    assert acts[..i + 1][..i] == acts[..i];
    var run, left, act := Played(acts[..i]), acts[i].0, acts[i].1;
    var s := Execute(run);
    if Allowed(act, (if left then s.r else s.l).out) {
      var es := Events((if left then s.l else s.r).peer, act);
      forall e | e in es && e.Hear? ensures e.k in (if left then s.r else s.l).out {
        var j :| 0 <= j < |es| && es[j] == e;
        assert e.k == act.inbox[j] && e.k in act.inbox;
      }
      ActsAreRun(run, left, es);
    }
  }

  /** However the two applications queue, take, abort and pump, and whatever the network loses, repeats or
      reorders: the objects end where the run does, and each took only blobs the other queued, in the order in
      which they were delivered. */
  method Drive(acts: seq<(bool, Act)>)
    returns (sentL: seq<Bytes>, sentR: seq<Bytes>, tookL: seq<Bytes>, tookR: seq<Bytes>)
    ensures var s := State(acts);
            && sentL == s.l.sent && sentR == s.r.sent
            && s.l.delivered == tookL + s.l.peer.ready && s.r.delivered == tookR + s.r.peer.ready
    ensures |sentL| <= IDS ==> forall b :: b in tookR ==> b in sentL
    ensures |sentR| <= IDS ==> forall b :: b in tookL ==> b in sentR
  {
    hide EndRun, Events, Execute, Played, Xfer.View;
    var l := new Xfer();
    var r := new Xfer();
    sentL, sentR, tookL, tookR := [], [], [], [];
    NothingYet();
    for i := 0 to |acts|
      invariant l != r && fresh(l) && fresh(r)
      invariant l.recvBuf != r.recvBuf && fresh(l.recvBuf) && fresh(r.recvBuf) && l.Valid() && r.Valid()
      invariant Follows(State(acts[..i]).l, l.View(), l.outbox, sentL, tookL)
      invariant Follows(State(acts[..i]).r, r.View(), r.outbox, sentR, tookR)
    {
      hide State;
      NextState(acts, i);
      var (left, act) := acts[i];
      var theirs := if left then r else l;
      if act.Serve? && exists k :: k in act.inbox && k !in theirs.outbox { continue; }
      if left {
        sentL, tookL := Perform(l, act, State(acts[..i]).l, sentL, tookL);
      } else {
        sentR, tookR := Perform(r, act, State(acts[..i]).r, sentR, tookR);
      }
    }
    assert acts[..|acts|] == acts;
    TransferIntegrity(Played(acts));
    if |sentL| <= IDS { TakenGenuine(State(acts).l, tookR, State(acts).r.peer.ready); }
    if |sentR| <= IDS { TakenGenuine(State(acts).r, tookL, State(acts).l.peer.ready); }
  }

  lemma TakenGenuine(x: End, took: seq<Bytes>, ready: seq<Bytes>)
    requires Genuine(x, took + ready)
    ensures forall b :: b in took ==> b in x.sent
  {
    forall b | b in took ensures b in x.sent {
      var i :| 0 <= i < |took| && took[i] == b;
      assert (took + ready)[i] == b;
    }
  }

  lemma NothingYet()
    ensures State([]) == Pair(NEW_END, NEW_END)
  {
  }
}
