/** The mailbox of the round protocol is what the real mailboxes provide: each step of an unbounded or
    a shared bounded mailbox is matched by steps of the protocol on the sensor's mailbox. */
module MailboxLink {
  import opened Basics
  import opened Messages
  import opened RoundProtocol
  import MB = Mailbox
  import SM = SharedChannel

  // ── how a message gets into a sensor's mailbox ───────────────────

  /** Event e brings message m to the live incarnation of sensor id. */
  ghost predicate Brings(trained: TrainingRelation, w: World, id: SensorId, m: SensorMsg, e: Event) {
    && id in w.nodes && w.nodes[id].alive && Enabled(trained, w, e)
    && match e
       case Deliver(x) => x == id && w.nodes[id].link[0] == m
       case Inject(x, msg) => x == id && msg == m
       case Finish(x, k, c) => x == id && k == w.nodes[id].inc && m == CompleteMsg(Some(c), w.nodes[id].workers[k])
       case _ => false
  }

  /** After e the mailbox of sensor id holds q. */
  ghost predicate HoldsAfter(trained: TrainingRelation, w: World, id: SensorId, e: Event, q: seq<SensorMsg>) {
    && Enabled(trained, w, e)
    && var w' := Apply(trained, w, e);
       id in w'.nodes && w'.nodes[id].alive && w'.nodes[id].mailbox == q
  }

  /** Processing takes the head, unless it makes the sensor panic. */
  ghost predicate TakesHead(trained: TrainingRelation, w: World, id: SensorId, m: SensorMsg, q: seq<SensorMsg>) {
    && id in w.nodes && w.nodes[id].alive && w.nodes[id].mailbox == [m] + q
    && forall found :: Enabled(trained, w, Process(id, found))
         && (HoldsAfter(trained, w, id, Process(id, found), q) || m.CrashMsg?)
  }

  lemma ProcessTakesHead(trained: TrainingRelation, w: World, id: SensorId, m: SensorMsg, q: seq<SensorMsg>)
    requires id in w.nodes && w.nodes[id].alive && w.nodes[id].mailbox == [m] + q
    ensures TakesHead(trained, w, id, m, q)
  {
    assert ([m] + q)[1..] == q;
  }

  ghost predicate Represents(w: World, id: SensorId, q: seq<SensorMsg>) {
    id in w.nodes && w.nodes[id].alive && w.nodes[id].mailbox == q
  }

  // ── the unbounded mailbox ────────────────────────────────────────

  /** Sending is an arrival, receiving is processing, and the pump does not show. */
  lemma RelayIsMailbox(trained: TrainingRelation, w: World, id: SensorId, s: MB.Relay<SensorMsg>,
                       a: MB.RelayStep<SensorMsg>)
    requires Represents(w, id, MB.Held(s)) && MB.CanRelay(s, a)
    ensures var q := MB.Held(MB.DoRelay(s, a));
            match a
            case Send(m) => forall e :: Brings(trained, w, id, m, e) ==> HoldsAfter(trained, w, id, e, q)
            case Receive => TakesHead(trained, w, id, s.ch[0], q)
            case _ => Represents(w, id, q)
  {
    MB.HeldAfter(s, a);
    if a.Send? {
      forall e | Brings(trained, w, id, a.msg, e) ensures HoldsAfter(trained, w, id, e, MB.Held(s) + [a.msg]) {}
    } else if a.Receive? {
      ProcessTakesHead(trained, w, id, s.ch[0], MB.Held(MB.DoRelay(s, a)));
    }
  }

  // ── the bounded mailbox ──────────────────────────────────────────

  ghost function Contents(ch: seq<SM.Item<SensorMsg>>): seq<SensorMsg> {
    seq(|ch|, k requires 0 <= k < |ch| => ch[k].msg)
  }

  /** A stored message is an arrival; one handed to the waiting sensor is an arrival and then
      processed; a refused one, whichever event would have brought it, is an arrival that is dropped at
      once, and in case of the coordinator's messages also a loss on the link; a drained one is a drop
      of the head; consuming is processing. */
  lemma SharedIsMailbox(trained: TrainingRelation, w: World, id: SensorId, s: SM.Shared<SensorMsg>,
                        a: SM.Action<SensorMsg>)
    requires Represents(w, id, Contents(s.ch)) && SM.CanAct(s, a) && (s.waiting ==> s.ch == [])
    ensures var q := Contents(SM.Act(s, a).ch);
            match a
            case TrySend(p) =>
              var m := s.producers[p].item.msg;
              if s.waiting then
                forall e :: Brings(trained, w, id, m, e) ==>
                  Enabled(trained, w, e) && TakesHead(trained, Apply(trained, w, e), id, m, q)
              else if |s.ch| < s.capacity then
                forall e :: Brings(trained, w, id, m, e) ==> HoldsAfter(trained, w, id, e, q)
              else
                && Represents(w, id, q)
                && (w.nodes[id].link != [] ==> HoldsAfter(trained, w, id, LoseMessage(id, 0), q))
                && forall e :: Brings(trained, w, id, m, e) ==>
                     && Enabled(trained, w, e)
                     && HoldsAfter(trained, Apply(trained, w, e), id, Drop(id, |s.ch|), q)
            case Drain(_) => if s.ch == [] then Represents(w, id, q) else HoldsAfter(trained, w, id, Drop(id, 0), q)
            case Consume => TakesHead(trained, w, id, s.ch[0].msg, q)
            case _ => Represents(w, id, q)
  {
    var q := Contents(SM.Act(s, a).ch);
    if a.TrySend? {
      var m := s.producers[a.p].item.msg;
      forall e | Brings(trained, w, id, m, e) ensures HoldsAfter(trained, w, id, e, Contents(s.ch) + [m]) {}
      if s.waiting {
        forall e | Brings(trained, w, id, m, e) ensures TakesHead(trained, Apply(trained, w, e), id, m, q) {
          assert Contents(s.ch) + [m] == [m] + q;
          ProcessTakesHead(trained, Apply(trained, w, e), id, m, q);
        }
      } else if |s.ch| < s.capacity {
        assert Contents(s.ch + [s.producers[a.p].item]) == Contents(s.ch) + [m];
      } else {
        assert Removed(Contents(s.ch) + [m], |s.ch|) == q;
      }
    } else if s.ch != [] && (a.Drain? || a.Consume?) {
      assert Contents(s.ch) == [s.ch[0].msg] + q;
      if a.Consume? { ProcessTakesHead(trained, w, id, s.ch[0].msg, q); }
    }
  }
}
