/** The two ends of a TFTP transfer: `handle_rrq` sends a file block by block,
    `handle_wrq` receives one.  Each is what it does at the points where it waits,
    as a function on its state, and a class that does it in place. */
module TftpEnds {
  import opened Common

  /** A 16-bit block number. */
  type BlockNumber = n: int | 0 <= n < 65536

  const DATA_SIZE := 512
  const MAX_RETRIES := 10

  datatype Packet = Data(block: BlockNumber, payload: seq<Byte>) | Ack(block: BlockNumber)

  /** What ends a wait: a packet, the one-second alarm, or another signal. */
  datatype Wakeup = Received(p: Packet) | Alarm | Interrupted

  function Next(n: BlockNumber): BlockNumber { (n + 1) % 65536 }
  function Previous(n: BlockNumber): BlockNumber { (n + 65535) % 65536 }

  /** Up to 512 bytes of `file` from `pos`. */
  function Chunk(file: seq<Byte>, pos: nat): seq<Byte>
    requires pos <= |file|
  {
    file[pos..Min(pos + DATA_SIZE, |file|)]
  }

  // ----- the sender -----

  /** `Final` waits for the acknowledgement of an empty last block. */
  datatype SenderPhase = Sending | Final | SentAll | GaveUp

  /** `pos` is the file position after the block in the send buffer. */
  datatype Sender = Sender(pos: nat, block: BlockNumber, payload: seq<Byte>, retries: nat, phase: SenderPhase)

  datatype SenderStep = SenderStep(state: Sender, sent: set<Packet>)

  function Transmit(s: Sender): SenderStep { SenderStep(s, {Data(s.block, s.payload)}) }

  function SenderStart(file: seq<Byte>): SenderStep {
    var payload := Chunk(file, 0);
    Transmit(Sender(|payload|, 1, payload, 0, if payload == [] then Final else Sending))
  }

  /** An acknowledged block is followed by the next one.  Nothing follows a short
      block; nor does an empty block follow the last full one. */
  function SenderNext(file: seq<Byte>, s: Sender): SenderStep
    requires s.pos <= |file|
  {
    var payload := Chunk(file, s.pos);
    if |s.payload| < DATA_SIZE then SenderStep(s.(block := Next(s.block), phase := SentAll), {})
    else if payload == [] then SenderStep(s.(block := Next(s.block), payload := [], phase := SentAll), {})
    else Transmit(Sender(s.pos + |payload|, Next(s.block), payload, 0, Sending))
  }

  /** Anything but the awaited acknowledgement makes the sender transmit again;
      ten alarms make it give up, unless only the empty block is outstanding. */
  function SenderWakes(file: seq<Byte>, s: Sender, e: Wakeup): SenderStep
    requires s.pos <= |file|
  {
    if s.phase != Sending && s.phase != Final then SenderStep(s, {})
    else
      match e
      case Received(p) =>
        if p == Ack(s.block) then
          if s.phase == Final then SenderStep(s.(phase := SentAll), {}) else SenderNext(file, s)
        else Transmit(s)
      case Alarm =>
        if s.retries + 1 < MAX_RETRIES then Transmit(s.(retries := s.retries + 1))
        else SenderStep(s.(retries := s.retries + 1, phase := if s.phase == Final then SentAll else GaveUp), {})
      case Interrupted => Transmit(s)
  }

  // ----- the receiver -----

  datatype ReceiverPhase = Receiving | Complete | TimedOut | Failed

  /** `disk` is the file written so far; it is removed when the wait times out. */
  datatype Receiver = Receiver(block: BlockNumber, disk: Option<seq<Byte>>, retries: nat, phase: ReceiverPhase)

  datatype ReceiverStep = ReceiverStep(state: Receiver, sent: set<Packet>)

  function ReceiverStart(): ReceiverStep {
    ReceiverStep(Receiver(1, Some([]), 0, Receiving), {Ack(0)})
  }

  function Append(disk: Option<seq<Byte>>, payload: seq<Byte>): Option<seq<Byte>> {
    if disk.Some? then Some(disk.value + payload) else None
  }

  function ReceiverWakes(s: Receiver, e: Wakeup): ReceiverStep {
    if s.phase != Receiving then ReceiverStep(s, {})
    else
      match e
      case Received(Ack(_)) => ReceiverStep(s.(retries := 0, phase := Failed), {})
      case Received(Data(block, payload)) =>
        if block == s.block then
          var stored := s.(disk := Append(s.disk, payload), retries := 0);
          ReceiverStep(if |payload| < DATA_SIZE then stored.(phase := Complete) else stored.(block := Next(s.block)),
                       {Ack(block)})
        else if block < s.block then ReceiverStep(s.(retries := 0), {Ack(block)})
        else ReceiverStep(s.(retries := 0, phase := Failed), {})
      case Alarm =>
        var later := s.(retries := s.retries + 1);
        ReceiverStep(if later.retries == MAX_RETRIES then later.(disk := None, phase := TimedOut) else later,
                     {Ack(Previous(s.block))})
      case Interrupted => ReceiverStep(s, {})
  }

  // ----- the program's own form -----

  class RrqHandler {
    const file: seq<Byte>
    const sendBuffer: array<Byte>
    var bytesRead: nat
    var position: nat
    var blockNumber: BlockNumber
    var retransmitCount: nat
    var phase: SenderPhase

    ghost predicate Valid()
      reads this, sendBuffer
    {
      sendBuffer.Length == DATA_SIZE && bytesRead <= DATA_SIZE && position <= |file|
    }

    ghost function State(): Sender
      requires Valid()
      reads this, sendBuffer
    {
      Sender(position, blockNumber, sendBuffer[..bytesRead], retransmitCount, phase)
    }

    constructor (contents: seq<Byte>)
      ensures Valid() && fresh(sendBuffer) && file == contents
      ensures State() == SenderStart(contents).state
    {
      file, sendBuffer := contents, new Byte[DATA_SIZE];
      bytesRead, position, blockNumber, retransmitCount, phase := 0, 0, 1, 0, Sending;
      new;
      ReadBlock();
      if bytesRead == 0 {
        phase := Final;
      }
    }

    /** `fread` into the send buffer. */
    method ReadBlock()
      requires Valid()
      modifies this`bytesRead, this`position, sendBuffer
      ensures Valid() && sendBuffer[..bytesRead] == Chunk(file, old(position)) && position == old(position) + bytesRead
    {
      bytesRead := Min(DATA_SIZE, |file| - position);
      forall k | 0 <= k < bytesRead {
        sendBuffer[k] := file[position + k];
      }
      position := position + bytesRead;
    }

    method Wake(e: Wakeup) returns (sent: set<Packet>)
      requires Valid()
      modifies this, sendBuffer
      ensures Valid() && SenderStep(State(), sent) == SenderWakes(file, old(State()), e)
    {
      sent := {};
      if phase != Sending && phase != Final {
        return;
      }
      match e {
        case Received(p) =>
          if p.Ack? && p.block == blockNumber {
            if phase == Final {
              phase := SentAll;
              return;
            }
            blockNumber := Next(blockNumber);
            if bytesRead < DATA_SIZE {
              phase := SentAll;
              return;
            }
            ReadBlock();
            if bytesRead == 0 {
              phase := SentAll;
              return;
            }
            retransmitCount := 0;
          }
        case Alarm =>
          retransmitCount := retransmitCount + 1;
          if retransmitCount >= MAX_RETRIES {
            phase := if phase == Final then SentAll else GaveUp;
            return;
          }
        case Interrupted =>
      }
      sent := {Data(blockNumber, sendBuffer[..bytesRead])};
    }
  }

  class WrqHandler {
    var blockNumber: BlockNumber
    var disk: Option<seq<Byte>>
    var retransmitCount: nat
    var phase: ReceiverPhase

    ghost function State(): Receiver
      reads this
    {
      Receiver(blockNumber, disk, retransmitCount, phase)
    }

    constructor ()
      ensures State() == ReceiverStart().state
    {
      blockNumber, disk, retransmitCount, phase := 1, Some([]), 0, Receiving;
    }

    method Wake(e: Wakeup) returns (sent: set<Packet>)
      modifies this
      ensures ReceiverStep(State(), sent) == ReceiverWakes(old(State()), e)
    {
      sent := {};
      if phase != Receiving {
        return;
      }
      match e
      case Received(p) =>
        retransmitCount := 0;
        if !p.Data? {
          phase := Failed;
        } else if p.block == blockNumber {
          disk := Append(disk, p.payload);
          sent := {Ack(blockNumber)};
          if |p.payload| < DATA_SIZE {
            phase := Complete;
          } else {
            blockNumber := Next(blockNumber);
          }
        } else if p.block < blockNumber {
          sent := {Ack(p.block)};
        } else {
          phase := Failed;
        }
      case Alarm =>
        sent := {Ack(Previous(blockNumber))};
        retransmitCount := retransmitCount + 1;
        if retransmitCount == MAX_RETRIES {
          disk, phase := None, TimedOut;
        }
      case Interrupted =>
    }
  }
}
