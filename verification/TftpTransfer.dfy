/** A TFTP sender and receiver joined by a channel that may lose, duplicate, delay
    and reorder packets: what is written is always right, and when a transfer can
    be completed at all. */
module TftpTransfer {
  import opened Common
  import opened TftpEnds

  /** A packet stays in flight until it is lost, so it may be received late,
      repeatedly, out of order or not at all. */
  datatype System = System(file: seq<Byte>, sender: Sender, receiver: Receiver, inFlight: set<Packet>)

  datatype Event = SenderEvent(w: Wakeup) | ReceiverEvent(w: Wakeup) | Lose(p: Packet)

  function Start(file: seq<Byte>): System {
    System(file, SenderStart(file).state, ReceiverStart().state, SenderStart(file).sent + ReceiverStart().sent)
  }

  /** The sender hears acknowledgements and the receiver hears data. */
  predicate Possible(s: System, e: Event) {
    !e.Lose? && e.w.Received? ==> e.w.p in s.inFlight && (if e.SenderEvent? then e.w.p.Ack? else e.w.p.Data?)
  }

  /** One step; an event that is not possible changes nothing. */
  function Step(s: System, e: Event): System {
    if !Possible(s, e) || s.sender.pos > |s.file| then s
    else
      match e
      case SenderEvent(w) =>
        var o := SenderWakes(s.file, s.sender, w);
        s.(sender := o.state, inFlight := s.inFlight + o.sent)
      case ReceiverEvent(w) =>
        var o := ReceiverWakes(s.receiver, w);
        s.(receiver := o.state, inFlight := s.inFlight + o.sent)
      case Lose(p) => s.(inFlight := s.inFlight - {p})
  }

  function Run(s: System, es: seq<Event>): System {
    if es == [] then s else Step(Run(s, es[..|es| - 1]), es[|es| - 1])
  }

  // ----- what is always true -----

  /** Fewer than 65,535 blocks. */
  predicate Small(file: seq<Byte>) { |file| <= 65534 * DATA_SIZE }

  /** Block `n`, counting from 1, when there is one. */
  function Block(file: seq<Byte>, n: nat): seq<Byte>
    requires n >= 1 && (n - 1) * DATA_SIZE <= |file|
  {
    Chunk(file, (n - 1) * DATA_SIZE)
  }

  /** The first `n` blocks. */
  function Blocks(file: seq<Byte>, n: nat): seq<Byte> { file[..Min(n * DATA_SIZE, |file|)] }

  /** The highest block acknowledged. */
  function Acked(r: Receiver): int { if r.phase == Complete then r.block else r.block - 1 }

  ghost predicate SenderOk(file: seq<Byte>, s: Sender) {
    && s.pos <= |file| && s.block >= 1
    && match s.phase
       case Sending =>
         && (s.block - 1) * DATA_SIZE < |file|
         && s.payload == Block(file, s.block) && s.pos == (s.block - 1) * DATA_SIZE + |s.payload|
       case Final => file == [] && s.block == 1 && s.payload == []
       case SentAll => file == [] || (|file| <= (s.block - 1) * DATA_SIZE && s.block >= 2)
       case GaveUp => file != []
  }

  ghost predicate ReceiverOk(file: seq<Byte>, r: Receiver) {
    && r.block >= 1
    && match r.phase
       case Receiving => r.disk == Some(Blocks(file, r.block - 1)) && (r.block - 1) * DATA_SIZE <= |file|
       case Complete => r.disk == Some(file)
       case TimedOut => r.disk == None && (r.block - 1) * DATA_SIZE <= |file|
       case Failed => false
  }

  /** Neither end is more than one block ahead of the other, and every packet in
      flight says what it should. */
  ghost predicate Inv(s: System) {
    && Small(s.file) && SenderOk(s.file, s.sender) && ReceiverOk(s.file, s.receiver)
    && (s.file != [] ==> s.sender.block - 1 <= Acked(s.receiver)) && Acked(s.receiver) <= s.sender.block
    && (forall p | p in s.inFlight && p.Ack? :: p.block <= Acked(s.receiver))
    && (forall p | p in s.inFlight && p.Data? ::
          && 1 <= p.block <= s.sender.block
          && p.block <= Acked(s.receiver) + 1
          && ((p.block - 1) * DATA_SIZE < |s.file| || (s.file == [] && p.block == 1))
          && p.payload == Block(s.file, p.block))
  }

  lemma StartIsOk(file: seq<Byte>)
    requires Small(file)
    ensures Inv(Start(file))
  {
    assert Blocks(file, 0) == [];
  }

  lemma AllBlocks(file: seq<Byte>, n: nat)
    requires |file| <= n * DATA_SIZE
    ensures Blocks(file, n) == file
  {
  }

  lemma NextBlock(n: BlockNumber, file: seq<Byte>)
    requires Small(file) && (n - 1) * DATA_SIZE < |file|
    ensures Next(n) == n + 1
  {
  }

  lemma AppendBlock(file: seq<Byte>, n: nat)
    requires n >= 1 && (n - 1) * DATA_SIZE <= |file|
    ensures Blocks(file, n - 1) + Block(file, n) == Blocks(file, n)
    ensures |Block(file, n)| < DATA_SIZE ==> Blocks(file, n) == file
    ensures |Block(file, n)| == DATA_SIZE ==> n * DATA_SIZE <= |file|
    ensures |Block(file, n)| <= DATA_SIZE
  {
  }

  /** Moving on to the next block, or to the end. */
  lemma SenderNextIsOk(file: seq<Byte>, s: Sender)
    requires Small(file) && SenderOk(file, s) && s.phase == Sending
    ensures var o := SenderNext(file, s);
      && SenderOk(file, o.state) && o.state.block == s.block + 1
      && forall p | p in o.sent :: p == Data(o.state.block, Block(file, o.state.block)) && s.block * DATA_SIZE < |file|
  {
    AppendBlock(file, s.block);
    NextBlock(s.block, file);
  }

  lemma SenderStepIsOk(s: System, w: Wakeup)
    requires Inv(s) && Possible(s, SenderEvent(w))
    ensures Inv(Step(s, SenderEvent(w)))
  {
    assert s.file == [] ==> Block(s.file, 1) == [];
    hide Block, SenderNext;
    if s.sender.phase == Sending {
      SenderNextIsOk(s.file, s.sender);
    }
  }

  lemma ReceiverWakesOk(s: System, w: Wakeup)
    requires Inv(s) && Possible(s, ReceiverEvent(w))
    ensures var o := ReceiverWakes(s.receiver, w);
      && ReceiverOk(s.file, o.state) && Acked(s.receiver) <= Acked(o.state)
      && forall p | p in o.sent :: p.Ack? && p.block <= Acked(o.state)
  {
    hide Block, Blocks;
    if s.receiver.phase == Receiving {
      AppendBlock(s.file, s.receiver.block);
    }
  }

  lemma ReceiverStepIsOk(s: System, w: Wakeup)
    requires Inv(s) && Possible(s, ReceiverEvent(w))
    ensures Inv(Step(s, ReceiverEvent(w)))
  {
    ReceiverWakesOk(s, w);
    hide Block, Blocks, ReceiverWakes, ReceiverOk, SenderOk;
  }

  lemma {:induction false} EveryRunIsOk(file: seq<Byte>, es: seq<Event>)
    requires Small(file)
    ensures Inv(Run(Start(file), es)) && Run(Start(file), es).file == file
  {
    if es == [] {
      StartIsOk(file);
    } else {
      EveryRunIsOk(file, es[..|es| - 1]);
      var s, e := Run(Start(file), es[..|es| - 1]), es[|es| - 1];
      if Possible(s, e) {
        match e
        case SenderEvent(w) => SenderStepIsOk(s, w);
        case ReceiverEvent(w) => ReceiverStepIsOk(s, w);
        case Lose(_) =>
      }
    }
  }

  /** Safety: whatever happens, the receiver has written the first
      `block_number - 1` blocks, each once; it never meets a block from the
      future; and if it completes, its file is the sender's. */
  lemma WrittenIsAlwaysAPrefix(file: seq<Byte>, es: seq<Event>)
    requires Small(file)
    ensures var r := Run(Start(file), es).receiver;
      && r.phase != Failed && r.block >= 1
      && (r.phase == Receiving ==> r.disk == Some(Blocks(file, r.block - 1)))
      && (r.phase == Complete ==> r.disk == Some(file))
      && (r.phase == TimedOut ==> r.disk == None)
  {
    EveryRunIsOk(file, es);
  }

  /** When the sender reports the transfer completed, every block has been
      written: the receiver's file is the sender's, or was removed afterwards. */
  lemma SentAllMeansWritten(file: seq<Byte>, es: seq<Event>)
    requires Small(file)
    ensures var s := Run(Start(file), es);
      s.sender.phase == SentAll ==> s.receiver.disk == Some(file) || s.receiver.phase == TimedOut
  {
    EveryRunIsOk(file, es);
    var s := Run(Start(file), es);
    if s.sender.phase == SentAll && s.receiver.phase == Receiving {
      AllBlocks(file, s.receiver.block - 1);
    }
  }

  // ----- when the receiver can complete -----

  /** Only full blocks are ever sent of a nonempty file that is a multiple of 512. */
  lemma {:induction false} OnlyFullBlocks(file: seq<Byte>, es: seq<Event>)
    requires Small(file) && file != [] && |file| % DATA_SIZE == 0
    ensures Run(Start(file), es).receiver.phase != Complete
  {
    if es == [] {
    } else {
      var before, e := Run(Start(file), es[..|es| - 1]), es[|es| - 1];
      OnlyFullBlocks(file, es[..|es| - 1]);
      EveryRunIsOk(file, es[..|es| - 1]);
      if Possible(before, e) && e.ReceiverEvent? && e.w.Received? {
        FullBlock(file, e.w.p.block, before);
      }
    }
  }

  lemma FullBlock(file: seq<Byte>, n: nat, s: System)
    requires Inv(s) && s.file == file && file != [] && |file| % DATA_SIZE == 0
    requires n >= 1 && (n - 1) * DATA_SIZE <= |file|
    requires Data(n, Block(file, n)) in s.inFlight
    ensures |Block(file, n)| == DATA_SIZE
  {
  }

  /** The deliveries of a run that loses nothing: each block, then its
      acknowledgement. */
  function Deliveries(file: seq<Byte>, n: nat): seq<Event>
    requires (n == 0 || (n - 1) * DATA_SIZE <= |file|) && n < 65536
  {
    if n == 0 then []
    else Deliveries(file, n - 1) + [ReceiverEvent(Received(Data(n, Block(file, n)))), SenderEvent(Received(Ack(n)))]
  }

  lemma RunTwo(s: System, es: seq<Event>, a: Event, b: Event)
    ensures Run(s, es + [a, b]) == Step(Step(Run(s, es), a), b)
  {
    var all := es + [a, b];
    assert all[..|all| - 1] == es + [a];
    assert (es + [a])[..|es|] == es;
  }

  /** Both ends have dealt with `n` full blocks and the next one is in flight. */
  ghost predicate AtBlock(s: System, file: seq<Byte>, n: nat) {
    && s.file == file && n * DATA_SIZE <= |file| && n < 65535
    && s.receiver.phase == Receiving && s.receiver.block == n + 1 && s.receiver.disk == Some(Blocks(file, n))
    && s.sender.phase == (if file == [] then Final else Sending) && s.sender.block == n + 1
    && s.sender.retries == 0 && s.sender.payload == Block(file, n + 1)
    && s.sender.pos == n * DATA_SIZE + |s.sender.payload| <= |file|
    && Data(n + 1, s.sender.payload) in s.inFlight
  }

  lemma DeliverData(s: System, file: seq<Byte>, n: nat)
    requires AtBlock(s, file, n) && Small(file) && (n + 1) * DATA_SIZE <= |file|
    ensures var t := Step(s, ReceiverEvent(Received(Data(n + 1, Block(file, n + 1)))));
      && t.file == file && t.sender == s.sender && Ack(n + 1) in t.inFlight
      && t.receiver.phase == Receiving && t.receiver.block == n + 2 && t.receiver.disk == Some(Blocks(file, n + 1))
  {
    AppendBlock(file, n + 1);
    NextBlock(n + 1, file);
  }

  lemma DeliverBlock(s: System, file: seq<Byte>, n: nat)
    requires AtBlock(s, file, n) && Small(file) && (n + 1) * DATA_SIZE <= |file|
    ensures var t := Step(s, ReceiverEvent(Received(Data(n + 1, Block(file, n + 1)))));
      var u := Step(t, SenderEvent(Received(Ack(n + 1))));
      if (n + 1) * DATA_SIZE < |file| then AtBlock(u, file, n + 1)
      else u.sender.phase == SentAll && u.receiver.phase == Receiving && u.receiver.disk == Some(file)
  {
    hide Blocks;
    DeliverData(s, file, n);
    AppendBlock(file, n + 1);
    NextBlock(n + 1, file);
    if (n + 1) * DATA_SIZE == |file| {
      AllBlocks(file, n + 1);
    }
  }

  /** After `n` full blocks both ends are at the next block. */
  lemma {:induction false} AfterDeliveries(file: seq<Byte>, n: nat)
    requires Small(file) && (n == 0 || n * DATA_SIZE < |file|)
    ensures AtBlock(Run(Start(file), Deliveries(file, n)), file, n)
  {
    if n == 0 {
      assert Blocks(file, 0) == [];
    } else {
      AfterDeliveries(file, n - 1);
      DeliverBlock(Run(Start(file), Deliveries(file, n - 1)), file, n - 1);
      RunTwo(Start(file), Deliveries(file, n - 1),
             ReceiverEvent(Received(Data(n, Block(file, n)))), SenderEvent(Received(Ack(n))));
    }
  }

  /** A transfer can be completed if and only if the file is empty or its length
      is not a multiple of 512: otherwise the empty last block that would end it
      is never sent. */
  lemma CompletableExactlyWhen(file: seq<Byte>)
    requires Small(file)
    ensures (exists es :: Run(Start(file), es).receiver.phase == Complete) <==> file == [] || |file| % DATA_SIZE != 0
  {
    if file == [] || |file| % DATA_SIZE != 0 {
      ShortLastBlockCompletes(file, |file| / DATA_SIZE);
    } else {
      forall es ensures Run(Start(file), es).receiver.phase != Complete {
        OnlyFullBlocks(file, es);
      }
    }
  }

  lemma ShortLastBlockCompletes(file: seq<Byte>, n: nat)
    requires Small(file) && n * DATA_SIZE <= |file| < (n + 1) * DATA_SIZE && (n == 0 || n * DATA_SIZE < |file|)
    ensures exists es :: Run(Start(file), es).receiver.phase == Complete
  {
    AfterDeliveries(file, n);
    AppendBlock(file, n + 1);
    var es := Deliveries(file, n) + [ReceiverEvent(Received(Data(n + 1, Block(file, n + 1))))];
    assert es[..|es| - 1] == Deliveries(file, n);
    assert Run(Start(file), es).receiver.phase == Complete;
  }

  /** The other half of the quirk: sent losslessly, such a file is acknowledged
      block by block and the sender reports success while the receiver waits on. */
  lemma MultipleOf512LeavesReceiverWaiting(file: seq<Byte>)
    requires Small(file) && file != [] && |file| % DATA_SIZE == 0
    ensures var s := Run(Start(file), Deliveries(file, |file| / DATA_SIZE));
      s.sender.phase == SentAll && s.receiver.phase == Receiving && s.receiver.disk == Some(file)
  {
    var n := |file| / DATA_SIZE;
    AfterDeliveries(file, n - 1);
    DeliverBlock(Run(Start(file), Deliveries(file, n - 1)), file, n - 1);
    RunTwo(Start(file), Deliveries(file, n - 1), ReceiverEvent(Received(Data(n, Block(file, n)))),
           SenderEvent(Received(Ack(n))));
  }

  // ----- what each end's report is worth -----

  /** Alarms alone count up to the limit, and leave the receiver as it was. */
  lemma {:induction false} AlarmsOnly(s: System, n: nat)
    requires n <= MAX_RETRIES && s.sender.pos <= |s.file| && s.sender.retries == 0
    requires s.sender.phase == Sending || s.sender.phase == Final
    ensures var t := Run(s, seq(n, _ => SenderEvent(Alarm)));
      && t.file == s.file && t.receiver == s.receiver
      && t.sender == s.sender.(retries := n, phase := if n < MAX_RETRIES then s.sender.phase
                                                       else if s.sender.phase == Final then SentAll else GaveUp)
  {
    var es := seq(n, _ => SenderEvent(Alarm));
    if n == 0 {
    } else {
      AlarmsOnly(s, n - 1);
      assert es[..n - 1] == seq(n - 1, _ => SenderEvent(Alarm));
    }
  }

  lemma {:induction false} RunAfter(s: System, a: seq<Event>, b: seq<Event>)
    ensures Run(s, a + b) == Run(Run(s, a), b)
    decreases |b|
  {
    if b == [] {
      assert a + b == a;
    } else {
      RunAfter(s, a, b[..|b| - 1]);
      assert (a + b)[..|a + b| - 1] == a + b[..|b| - 1];
    }
  }

  /** The sender's report that the transfer is completed can be relied on, the receiver
      having completed it, if and only if the file is not a multiple of 512 bytes: of a
      longer multiple the end is never sent, and for an empty file the report comes even
      if every packet was lost. */
  lemma ReportIsReliableExactlyWhen(file: seq<Byte>)
    requires Small(file)
    ensures (forall es :: Run(Start(file), es).sender.phase == SentAll ==>
        Run(Start(file), es).receiver.phase == Complete)
      <==> |file| % DATA_SIZE != 0
  {
    if |file| % DATA_SIZE != 0 {
      forall es | Run(Start(file), es).sender.phase == SentAll ensures Run(Start(file), es).receiver.phase == Complete {
        AllAcknowledged(file, es);
      }
    } else if file == [] {
      AlarmsOnly(Start(file), MAX_RETRIES);
      assert Run(Start(file), seq(MAX_RETRIES, _ => SenderEvent(Alarm))).sender.phase == SentAll;
    } else {
      MultipleOf512LeavesReceiverWaiting(file);
    }
  }

  lemma AllAcknowledged(file: seq<Byte>, es: seq<Event>)
    requires Small(file) && |file| % DATA_SIZE != 0 && Run(Start(file), es).sender.phase == SentAll
    ensures Run(Start(file), es).receiver.phase == Complete
  {
    hide Run, Block, Blocks;
    EveryRunIsOk(file, es);
    MultipleOnly((Run(Start(file), es).receiver.block - 1), |file|);
  }

  lemma MultipleOnly(k: nat, n: nat)
    ensures k * DATA_SIZE == n ==> n % DATA_SIZE == 0
  {
  }

  /** The other way round: the receiver may have the file while the sender reports
      failure, every acknowledgement of the last block being lost.  It can happen exactly
      with files that can be completed and are not empty. */
  lemma ReceiverMayKnowAlone(file: seq<Byte>)
    requires Small(file)
    ensures (exists es ::
               Run(Start(file), es).receiver.phase == Complete && Run(Start(file), es).sender.phase == GaveUp)
      <==> |file| % DATA_SIZE != 0
  {
    if |file| % DATA_SIZE != 0 {
      LastAcksLost(file, |file| / DATA_SIZE);
    } else {
      forall es
        ensures !(Run(Start(file), es).receiver.phase == Complete && Run(Start(file), es).sender.phase == GaveUp)
      {
        EveryRunIsOk(file, es);
        if file != [] {
          OnlyFullBlocks(file, es);
        }
      }
    }
  }

  lemma LastAcksLost(file: seq<Byte>, n: nat)
    requires Small(file) && n * DATA_SIZE < |file| < (n + 1) * DATA_SIZE
    ensures exists es :: Run(Start(file), es).receiver.phase == Complete && Run(Start(file), es).sender.phase == GaveUp
  {
    var es := LastBlockDelivered(file, n);
    hide *;
    var alarms := seq(MAX_RETRIES, _ => SenderEvent(Alarm));
    AlarmsOnly(Run(Start(file), es), MAX_RETRIES);
    RunAfter(Start(file), es, alarms);
    assert Run(Start(file), es + alarms).receiver.phase == Complete;
  }

  /** The last block has arrived and its acknowledgement has not. */
  lemma LastBlockDelivered(file: seq<Byte>, n: nat) returns (es: seq<Event>)
    requires Small(file) && n * DATA_SIZE < |file| < (n + 1) * DATA_SIZE
    ensures var s := Run(Start(file), es);
      && s.receiver.phase == Complete && s.sender.phase == Sending && s.sender.retries == 0
      && s.sender.pos <= |s.file|
  {
    AfterDeliveries(file, n);
    var before := Run(Start(file), Deliveries(file, n));
    LastBlock(before, file, n);
    hide *;
    var last := ReceiverEvent(Received(Data(n + 1, Block(file, n + 1))));
    es := Deliveries(file, n) + [last];
    RunOneMore(Start(file), Deliveries(file, n), last);
  }

  lemma LastBlock(s: System, file: seq<Byte>, n: nat)
    requires AtBlock(s, file, n) && n * DATA_SIZE < |file| < (n + 1) * DATA_SIZE
    ensures var t := Step(s, ReceiverEvent(Received(Data(n + 1, Block(file, n + 1)))));
      && t.receiver.phase == Complete && t.sender == s.sender && t.file == s.file
      && s.sender.phase == Sending && s.sender.retries == 0 && s.sender.pos <= |s.file|
  {
    hide SenderWakes, Blocks;
  }

  lemma RunOneMore(s: System, es: seq<Event>, e: Event)
    ensures Run(s, es + [e]) == Step(Run(s, es), e)
  {
    assert (es + [e])[..|es|] == es;
  }

  // ----- how often a block is sent -----

  /** Since the sender's present block was first sent: how often it was sent, and how
      many wrong packets and interruptions ended a wait for its acknowledgement. */
  datatype Count = Count(sent: nat, stray: nat)

  function CountStep(s: System, c: Count, e: Event): Count {
    if !e.SenderEvent? || !Possible(s, e) || s.sender.pos > |s.file| then c
    else
      var o := SenderWakes(s.file, s.sender, e.w);
      if o.state.block != s.sender.block then Count(|o.sent|, 0)
      else if o.state.phase == s.sender.phase && e.w != Alarm then Count(c.sent + |o.sent|, c.stray + |o.sent|)
      else c.(sent := c.sent + |o.sent|)
  }

  function CountRun(file: seq<Byte>, es: seq<Event>): Count {
    if es == [] then Count(|SenderStart(file).sent|, 0)
    else CountStep(Run(Start(file), es[..|es| - 1]), CountRun(file, es[..|es| - 1]), es[|es| - 1])
  }

  ghost predicate CountOk(s: Sender, c: Count) {
    && (s.phase == Sending || s.phase == Final ==> s.retries < MAX_RETRIES && c.sent == 1 + s.retries + c.stray)
    && c.sent <= MAX_RETRIES + c.stray
  }

  lemma CountStepIsOk(s: System, c: Count, e: Event)
    requires CountOk(s.sender, c)
    ensures CountOk(Step(s, e).sender, CountStep(s, c, e))
  {
    hide ReceiverWakes, SenderWakes;
    if e.SenderEvent? && s.sender.pos <= |s.file| {
      WakesIs(s.file, s.sender, e.w);
    }
  }

  /** A sender no longer waiting does nothing.  One that is waiting goes on to another
      block, or has its last block acknowledged, or counts an alarm, or sends again. */
  lemma WakesIs(file: seq<Byte>, s: Sender, w: Wakeup)
    requires s.pos <= |file|
    ensures var o := SenderWakes(file, s, w);
      if s.phase != Sending && s.phase != Final then o.state == s && o.sent == {}
      else if o.state.block != s.block then
        if o.state.phase == SentAll then o.sent == {}
        else o.state.phase == Sending && |o.sent| == 1 && o.state.retries == 0
      else if w == Alarm then
        && o.state.retries == s.retries + 1
        && (if o.state.retries < MAX_RETRIES then o.state.phase == s.phase && |o.sent| == 1
            else o.state.phase != Sending && o.state.phase != Final && o.sent == {})
      else if o.state.phase == s.phase then o.state == s && |o.sent| == 1
      else o.state.phase == SentAll && o.sent == {}
  {
    BlockChanges(file, s);
    hide SenderNext;
  }

  /** Going on is to another block, sent once or not at all. */
  lemma BlockChanges(file: seq<Byte>, s: Sender)
    requires s.pos <= |file|
    ensures var o := SenderNext(file, s);
      && o.state.block != s.block
      && (if o.state.phase == SentAll then o.sent == {}
          else o.state.phase == Sending && |o.sent| == 1 && o.state.retries == 0)
  {
  }

  /** A block is sent at most ten times, and once more for each wrong packet and each
      interruption; while the sender waits, once for each and each alarm besides the
      first time. */
  lemma {:induction false} SentAtMostTenTimesAndForStrays(file: seq<Byte>, es: seq<Event>)
    ensures CountOk(Run(Start(file), es).sender, CountRun(file, es))
  {
    if es == [] {
    } else {
      var before := es[..|es| - 1];
      SentAtMostTenTimesAndForStrays(file, before);
      CountStepIsOk(Run(Start(file), before), CountRun(file, before), es[|es| - 1]);
    }
  }

  const STALE_ACK := SenderEvent(Received(Ack(0)))

  /** The strays have no bound: each copy of the receiver's first acknowledgement that
      the network delivers makes the sender send its first block again. */
  lemma {:induction false} EveryStaleAckSendsAgain(file: seq<Byte>, n: nat)
    requires file != []
    ensures var es := seq(n, _ => STALE_ACK);
      && Run(Start(file), es) == Start(file)
      && CountRun(file, es) == Count(1 + n, n)
  {
    var es := seq(n, _ => STALE_ACK);
    if n == 0 {
    } else {
      var before := seq(n - 1, _ => STALE_ACK);
      assert es[..n - 1] == before;
      EveryStaleAckSendsAgain(file, n - 1);
      var s := Start(file);
      assert Ack(0) in s.inFlight;
      assert s.inFlight + SenderWakes(file, s.sender, Received(Ack(0))).sent == s.inFlight;
    }
  }
}
