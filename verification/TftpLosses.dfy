/** What retransmission is for.  Every wakeup sends the block whose acknowledgement is
    awaited, or acknowledges a block that has arrived; so a transfer that has lost any
    packets at all can still be completed, until one end gives up. */
module TftpLosses {
  import opened Common
  import opened TftpEnds
  import opened TftpTransfer

  // ----- what is sent -----

  predicate Waiting(s: Sender) { s.phase == Sending || s.phase == Final }

  /** A sender that still waits after a wakeup has sent the block it waits for, and nothing
      else; one that does not has sent nothing. */
  lemma WakeSendsAwaited(file: seq<Byte>, s: Sender, w: Wakeup)
    requires Small(file) && SenderOk(file, s)
    ensures var o := SenderWakes(file, s, w);
      && SenderOk(file, o.state)
      && (Waiting(o.state) ==> o.sent == {Data(o.state.block, Block(file, o.state.block))})
      && (!Waiting(o.state) ==> o.sent == {})
  {
    assert file == [] ==> Block(file, 1) == [];
    if s.phase == Sending {
      SenderNextIsOk(file, s);
      NextSends(file, s);
    }
    hide Block, SenderNext;
  }

  lemma NextSends(file: seq<Byte>, s: Sender)
    requires Small(file) && SenderOk(file, s) && s.phase == Sending
    ensures var o := SenderNext(file, s);
      && (o.state.phase == Sending <==> |s.payload| == DATA_SIZE && s.pos < |file|)
      && (o.state.phase == SentAll <==> |s.payload| < DATA_SIZE || s.pos == |file|)
      && (o.sent == {} <==> o.state.phase == SentAll)
      && o.state.payload == (if |s.payload| < DATA_SIZE then s.payload else Chunk(file, s.pos))
  {
  }

  /** It moves on exactly when the awaited block is acknowledged, and otherwise only its
      count of alarms changes, until the tenth. */
  lemma WakeMovesOn(file: seq<Byte>, s: Sender, w: Wakeup)
    requires Small(file) && SenderOk(file, s) && Waiting(s)
    ensures var o := SenderWakes(file, s, w).state;
      && (w == Received(Ack(s.block)) ==>
            && o.phase == (if s.phase == Sending && |s.payload| == DATA_SIZE && s.pos < |file| then Sending
                           else SentAll)
            && o.block == (if s.phase == Final then s.block else Next(s.block)))
      && (w != Received(Ack(s.block)) && w != Alarm ==> o == s)
      && (w == Alarm && s.retries + 1 < MAX_RETRIES ==> o == s.(retries := s.retries + 1))
      && (w == Alarm && s.retries + 1 >= MAX_RETRIES ==> o.phase == if s.phase == Final then SentAll else GaveUp)
  {
    if s.phase == Sending {
      NextSends(file, s);
    }
    hide SenderNext;
  }

  /** A receiver acknowledges exactly the block it is sent, if it is one that it has by
      then, and on an alarm the last one it has; nothing else makes it send. */
  lemma WakeAcknowledges(s: Receiver, w: Wakeup)
    ensures var o := ReceiverWakes(s, w);
      && (forall p | p in o.sent :: p.Ack?)
      && (forall b :: Ack(b) in o.sent <==>
            && s.phase == Receiving
            && ((w.Received? && w.p.Data? && b == w.p.block <= s.block) || (w == Alarm && b == Previous(s.block))))
  {
  }

  /** It takes in exactly the block it expects, and counts only alarms in a row. */
  lemma WakeTakes(s: Receiver, w: Wakeup)
    requires s.phase == Receiving && s.disk.Some?
    ensures var o := ReceiverWakes(s, w).state;
      var due := w.Received? && w.p.Data? && w.p.block == s.block;
      && (due ==> o.disk == Some(s.disk.value + w.p.payload))
      && (due && |w.p.payload| < DATA_SIZE ==> o.phase == Complete && o.block == s.block)
      && (due && |w.p.payload| >= DATA_SIZE ==> o.phase == Receiving && o.block == Next(s.block))
      && (!due && o.phase == Receiving ==> o.disk == s.disk && o.block == s.block)
      && (o.phase == Failed <==> w.Received? && (w.p.Ack? || w.p.block > s.block))
      && (o.phase == TimedOut <==> w == Alarm && s.retries + 1 == MAX_RETRIES)
      && (o.phase == TimedOut <==> o.disk == None)
      && o.retries == (if w == Alarm then s.retries + 1 else if w == Interrupted then s.retries else 0)
  {
  }

  /** At first both ends are at block 1, which the sender has sent, with nothing written, no
      alarm counted, and both waiting. */
  lemma StartIs(file: seq<Byte>)
    ensures var s := Start(file);
      && s.file == file && s.inFlight == {Ack(0), Data(1, Block(file, 1))}
      && s.sender.block == 1 && s.sender.retries == 0 && Waiting(s.sender)
      && s.receiver == Receiver(1, Some([]), 0, Receiving)
  {
  }

  // ----- losses do not stop a transfer -----

  /** Any packets can be lost, and then are no longer in flight; nothing else changes. */
  lemma {:induction false} AnyCanBeLost(file: seq<Byte>, es: seq<Event>, ps: set<Packet>) returns (more: seq<Event>)
    ensures var s := Run(Start(file), es); Run(Start(file), es + more) == s.(inFlight := s.inFlight - ps)
    decreases |ps|
  {
    if ps == {} {
      more := [];
      AndNone(es);
    } else {
      var p :| p in ps;
      var before := AnyCanBeLost(file, es, ps - {p});
      more := before + [Lose(p)];
      RunOneMore(Start(file), es + before, Lose(p));
      Assoc(es, before, [Lose(p)]);
      SenderInFile(file, es + before);
      LoseIs(Run(Start(file), es + before), p);
      hide Run, Start, Step;
      assert forall f: set<Packet> :: f - (ps - {p}) - {p} == f - ps;
    }
  }

  lemma LoseIs(s: System, p: Packet)
    requires s.sender.pos <= |s.file|
    ensures Step(s, Lose(p)) == s.(inFlight := s.inFlight - {p})
  {
  }

  lemma {:induction false} SenderInFile(file: seq<Byte>, es: seq<Event>)
    ensures var s := Run(Start(file), es); s.file == file && s.sender.pos <= |file|
  {
    if es == [] {
    } else {
      SenderInFile(file, es[..|es| - 1]);
    }
  }

  /** One alarm puts the awaited block in flight again, whatever has been lost. */
  lemma AlarmSendsAgain(file: seq<Byte>, es: seq<Event>)
    requires Small(file)
    requires var s := Run(Start(file), es).sender; Waiting(s) && s.retries + 1 < MAX_RETRIES
    ensures var s := Run(Start(file), es); var t := Run(Start(file), es + [SenderEvent(Alarm)]);
      && SenderOk(file, s.sender)
      && t.inFlight == s.inFlight + {Data(s.sender.block, Block(file, s.sender.block))}
      && t.sender == s.sender.(retries := s.sender.retries + 1) && t.receiver == s.receiver && t.file == file
  {
    EveryRunIsOk(file, es);
    RunOneMore(Start(file), es, SenderEvent(Alarm));
    var s := Run(Start(file), es);
    WakeSendsAwaited(file, s.sender, Alarm);
    WakeMovesOn(file, s.sender, Alarm);
    hide Run, SenderWakes, Block;
  }

  /** Both ends wait, the sender for the acknowledgement of block `n + 1`, which is in
      flight; the receiver may have it already. */
  ghost predicate Pending(s: System, file: seq<Byte>, n: nat) {
    && Inv(s) && s.file == file && Waiting(s.sender) && s.receiver.phase == Receiving
    && s.sender.block == n + 1 && n * DATA_SIZE <= |file|
    && (n + 1 == s.receiver.block || n + 2 == s.receiver.block)
    && Data(n + 1, Block(file, n + 1)) in s.inFlight
  }

  /** The receiver hears the block and the sender its acknowledgement. */
  function Exchange(file: seq<Byte>, n: nat): seq<Event>
    requires n * DATA_SIZE <= |file| && n < 65535
  {
    [ReceiverEvent(Received(Data(n + 1, Block(file, n + 1)))), SenderEvent(Received(Ack(n + 1)))]
  }

  /** The block gets there, or did before, and is acknowledged, if need be once more. */
  lemma BlockArrives(s: System, file: seq<Byte>, n: nat)
    requires Pending(s, file, n) && n < 65535
    ensures var t := Step(s, ReceiverEvent(Received(Data(n + 1, Block(file, n + 1)))));
      && Inv(t) && t.file == file && t.sender == s.sender && Ack(n + 1) in t.inFlight
      && t.receiver.phase == (if |Block(file, n + 1)| < DATA_SIZE then Complete else Receiving)
      && (t.receiver.phase == Receiving ==> t.receiver.block == n + 2)
  {
    var w := Received(Data(n + 1, Block(file, n + 1)));
    ReceiverStepIsOk(s, w);
    WakeAcknowledges(s.receiver, w);
    assert s.receiver.disk.Some?;
    WakeTakes(s.receiver, w);
    AppendBlock(file, n + 1);
    NextInFile(file, n);
    DuplicateIsFull(s, file, n);
    hide Inv, SenderWakes, ReceiverWakes, Block;
  }

  lemma NextInFile(file: seq<Byte>, n: nat)
    requires Small(file) && n * DATA_SIZE <= |file| && n < 65535
    ensures Next(n + 1) == if n + 2 < 65536 then n + 2 else 0
    ensures n + 2 < 65536 || |Block(file, n + 1)| < DATA_SIZE
  {
  }

  /** A receiver that waits for the block after has not had a short one. */
  lemma DuplicateIsFull(s: System, file: seq<Byte>, n: nat)
    requires Pending(s, file, n)
    ensures s.receiver.block == n + 2 ==> |Block(file, n + 1)| == DATA_SIZE
  {
  }

  /** Once it is acknowledged, the next block is in flight, if the file goes on. */
  lemma AckArrives(s: System, file: seq<Byte>, n: nat)
    requires Inv(s) && s.file == file && Waiting(s.sender) && s.sender.block == n + 1 && Ack(n + 1) in s.inFlight
    requires n * DATA_SIZE <= |file|
    requires if |Block(file, n + 1)| < DATA_SIZE then s.receiver.phase == Complete
             else s.receiver.phase == Receiving && s.receiver.block == n + 2
    ensures var t := Step(s, SenderEvent(Received(Ack(n + 1))));
      if |Block(file, n + 1)| == DATA_SIZE && (n + 1) * DATA_SIZE < |file| then Pending(t, file, n + 1)
      else t.sender.phase == SentAll && t.receiver == s.receiver && t.file == file
  {
    var w := Received(Ack(n + 1));
    SenderStepIsOk(s, w);
    WakeSendsAwaited(file, s.sender, w);
    WakeMovesOn(file, s.sender, w);
    SenderAt(file, s.sender);
    GoesOnToNext(file, s.sender);
    hide Inv, SenderWakes, ReceiverWakes, Block;
  }

  lemma SenderAt(file: seq<Byte>, s: Sender)
    requires Small(file) && SenderOk(file, s) && Waiting(s)
    ensures (s.block - 1) * DATA_SIZE <= |file| && s.payload == Block(file, s.block)
    ensures |s.payload| == DATA_SIZE ==> s.pos == s.block * DATA_SIZE && s.phase == Sending
  {
  }

  lemma GoesOnToNext(file: seq<Byte>, s: Sender)
    requires Small(file) && SenderOk(file, s) && Waiting(s)
    ensures var o := SenderWakes(file, s, Received(Ack(s.block))).state;
      o.phase == Sending ==> o.block == s.block + 1
  {
    if s.phase == Sending {
      SenderNextIsOk(file, s);
    }
  }

  lemma RunOfTwo(s: System, a: Event, b: Event)
    ensures Run(s, [a, b]) == Step(Step(s, a), b)
  {
    RunTwo(s, [], a, b);
    assert [] + [a, b] == [a, b];
  }

  /** From there on, block after block, nothing need be lost. */
  lemma {:induction false} Finishes(s: System, file: seq<Byte>, n: nat) returns (es: seq<Event>)
    requires Pending(s, file, n) && n < 65535
    ensures var t := Run(s, es);
      && t.sender.phase == SentAll
      && t.receiver.phase == (if file == [] || |file| % DATA_SIZE != 0 then Complete else Receiving)
    decreases |file| - n * DATA_SIZE
  {
    hide Inv, SenderWakes, ReceiverWakes, Block, Step;
    BlockArrives(s, file, n);
    var t := Step(s, ReceiverEvent(Received(Data(n + 1, Block(file, n + 1)))));
    SenderOfPending(s, file, n);
    AckArrives(t, file, n);
    es := Exchange(file, n);
    RunOfTwo(s, es[0], es[1]);
    BlockLength(file, n);
    if |Block(file, n + 1)| == DATA_SIZE && (n + 1) * DATA_SIZE < |file| {
      MoreBlocks(file, n);
      var more := Finishes(Run(s, es), file, n + 1);
      RunAfter(s, es, more);
      es := es + more;
    }
  }

  lemma SenderOfPending(s: System, file: seq<Byte>, n: nat)
    requires Pending(s, file, n)
    ensures Small(file) && n * DATA_SIZE <= |file| && Waiting(s.sender) && s.sender.block == n + 1
    ensures n * DATA_SIZE < |file| || file == []
  {
  }

  lemma BlockLength(file: seq<Byte>, n: nat)
    requires Small(file) && n * DATA_SIZE <= |file| && (n * DATA_SIZE < |file| || file == [])
    ensures |Block(file, n + 1)| < DATA_SIZE ==> file == [] || |file| % DATA_SIZE != 0
    ensures |Block(file, n + 1)| == DATA_SIZE && |file| <= (n + 1) * DATA_SIZE ==> file != [] && |file| % DATA_SIZE == 0
    ensures |Block(file, n + 1)| <= DATA_SIZE
  {
  }

  lemma MoreBlocks(file: seq<Byte>, n: nat)
    requires Small(file) && (n + 1) * DATA_SIZE < |file|
    ensures n + 1 < 65535
  {
  }

  lemma Completes(file: seq<Byte>, es: seq<Event>) returns (more: seq<Event>)
    requires Small(file) && (file == [] || |file| % DATA_SIZE != 0)
    requires var s := Run(Start(file), es);
      Waiting(s.sender) && s.sender.retries + 1 < MAX_RETRIES && s.receiver.phase == Receiving
    ensures var t := Run(Start(file), es + more); t.receiver.phase == Complete && t.sender.phase == SentAll
  {
    var alarm := [SenderEvent(Alarm)];
    EveryRunIsOk(file, es);
    AlarmSendsAgain(file, es);
    EveryRunIsOk(file, es + alarm);
    var t := Run(Start(file), es + alarm);
    hide Run, Inv, SenderOk, ReceiverOk, Block, Start;
    AfterAlarm(t, file);
    var rest := Finishes(t, file, t.sender.block - 1);
    RunAfter(Start(file), es + alarm, rest);
    more := alarm + rest;
    Assoc(es, alarm, rest);
  }

  /** After any run, whatever it has lost, while both ends still wait and the sender has an
      alarm left: the transfer can still be completed if and only if it could from the
      start. */
  lemma CompletesAfterLosses(file: seq<Byte>, es: seq<Event>)
    requires Small(file)
    requires var s := Run(Start(file), es);
      Waiting(s.sender) && s.sender.retries + 1 < MAX_RETRIES && s.receiver.phase == Receiving
    ensures (exists more ::
               var t := Run(Start(file), es + more); t.receiver.phase == Complete && t.sender.phase == SentAll)
      <==> file == [] || |file| % DATA_SIZE != 0
  {
    hide Run, Start;
    if file == [] || |file| % DATA_SIZE != 0 {
      var more := Completes(file, es);
    } else {
      forall more ensures Run(Start(file), es + more).receiver.phase != Complete {
        OnlyFullBlocks(file, es + more);
      }
    }
  }

  lemma AfterAlarm(s: System, file: seq<Byte>)
    requires Inv(s) && s.file == file && Waiting(s.sender) && s.receiver.phase == Receiving
    requires Data(s.sender.block, Block(file, s.sender.block)) in s.inFlight
    ensures Pending(s, file, s.sender.block - 1) && s.sender.block <= 65535
  {
  }
}
