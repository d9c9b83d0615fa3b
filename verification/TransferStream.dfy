/** The WUSP transfer stream: a go-back-N file transfer with a window of eight chunks,
    cumulative acknowledgements and resend on timeout.  The sending role is the download
    session and the receiving role the upload session of the agent; here they talk over a
    channel that loses, duplicates and reorders frames.  Everything the environment decides
    (read sizes, I/O errors, deliveries, timeouts) is an explicit argument of a step, so a
    run is a script of steps and a statement about every run is a statement about every
    script. */
module TransferStream {
  import opened Options
  import opened Octets
  import opened Sums

  const CHUNK_SIZE: nat := 1120
  const WINDOW: nat := 8
  const ACK_SLOTS: nat := 16
  const U32: nat := 0x1_0000_0000

  type Sequence = n: nat | n < U32

  // `nextSequence++` and `nextSequence - 1` on a uint32.
  function Succ(q: Sequence): Sequence { if q + 1 == U32 then 0 else q + 1 }
  function Pred(q: Sequence): Sequence { if q == 0 then U32 - 1 else q - 1 }

  datatype Frame =
    | Open
    | Chunk(sequence: Sequence, offset: nat, data: Bytes, final: bool)
    | Ack(ack: Sequence, offset: nat, final: bool)
    | Complete(ack: Sequence, offset: nat)
    | Abort

  // ------------------------------------------------------------------ the sender

  datatype PendingChunk = PendingChunk(frame: Frame, size: nat)

  ghost function Sizes(pending: map<Sequence, PendingChunk>): map<Sequence, nat> {
    map q | q in pending :: pending[q].size
  }

  /** `pendingTransferredBytes`. */
  ghost function PendingBytes(pending: map<Sequence, PendingChunk>): nat { Total<Sequence>(Sizes(pending)) }

  /** Where the download loop stands: reading the source, waiting for an acknowledgement,
      or over. */
  datatype Point = Filling | Waiting | Finished | Aborted

  datatype Sender = Sender(
    read: nat, transferred: nat, next: Sequence,
    pending: map<Sequence, PendingChunk>, acks: seq<Sequence>, at: Point)

  datatype ReadError = NoError | Eof | Failed

  /** What the environment does to the sender at its next blocking call.  A choice meant for
      another point of the loop has no effect. */
  datatype Choice =
    | Read(n: nat, err: ReadError, sent: bool)
    | TakeAck
    | Timeout(sends: nat)
    | Finish(sent: bool)

  /** The bytes one `Read` hands over: at most a buffer, never past the end of the source. */
  function Got(source: Bytes, read: nat, n: nat): Bytes
    requires read <= |source|
  {
    var most := if n < CHUNK_SIZE then n else CHUNK_SIZE;
    source[read..if read + most < |source| then read + most else |source|]
  }

  function Top(s: Sender): Sender {
    s.(at := if |s.pending| < WINDOW then Filling else Waiting)
  }

  ghost function NextChunk(s: Sender, got: Bytes, final: bool): Frame {
    Chunk(s.next, s.transferred + PendingBytes(s.pending), got, final)
  }

  ghost function ReadStep(source: Bytes, s: Sender, n: nat, err: ReadError, sent: bool): (Sender, seq<Frame>)
    requires s.read <= |source|
  {
    var got := Got(source, s.read, n);
    var eof := err.Eof? && s.read + |got| == |source|;
    var frame := NextChunk(s, got, eof);
    if got != [] && !sent then
      (s.(read := s.read + |got|, pending := s.pending[s.next := PendingChunk(frame, |got|)], at := Aborted), [frame])
    else
      var s1 := if got == [] then s
                else s.(read := s.read + |got|, next := Succ(s.next),
                        pending := s.pending[s.next := PendingChunk(frame, |got|)]);
      var s2 := if eof then s1.(at := Waiting) else if err.Failed? then s1.(at := Aborted) else Top(s1);
      (s2, if got == [] then [] else [frame])
  }

  ghost function Acked(pending: map<Sequence, PendingChunk>, ack: Sequence): map<Sequence, PendingChunk> {
    map q | q in pending && q <= ack :: pending[q]
  }

  ghost function Unacked(pending: map<Sequence, PendingChunk>, ack: Sequence): map<Sequence, PendingChunk> {
    map q | q in pending && q > ack :: pending[q]
  }

  /** The frames of a resend pass: every pending chunk in ascending sequence order. */
  ghost function ResendFrames(pending: map<Sequence, PendingChunk>): (frames: seq<Frame>)
    ensures |frames| == |pending|
  {
    var keys := Listing(pending.Keys);
    ListingLength(keys, pending.Keys);
    assert forall i :: 0 <= i < |keys| ==> keys[i] in keys;
    seq(|keys|, i requires 0 <= i < |keys| => pending[keys[i]].frame)
  }

  lemma ResendLists(pending: map<Sequence, PendingChunk>)
    ensures var sequences := Listing(pending.Keys);
            && |sequences| == |pending|
            && forall i :: 0 <= i < |sequences| ==>
                 sequences[i] in pending && ResendFrames(pending)[i] == pending[sequences[i]].frame
  {
    var sequences := Listing(pending.Keys);
    ListingLength(sequences, pending.Keys);
    assert forall i :: 0 <= i < |sequences| ==> sequences[i] in sequences;
  }

  ghost function SenderStep(source: Bytes, s: Sender, c: Choice): (Sender, seq<Frame>)
    requires s.read <= |source|
  {
    match c
    case Read(n, err, sent) =>
      if s.at.Filling? && |s.pending| < WINDOW then ReadStep(source, s, n, err, sent) else (s, [])
    case TakeAck =>
      if s.at.Waiting? && s.pending != map[] && s.acks != [] then
        (Top(s.(acks := s.acks[1..], pending := Unacked(s.pending, s.acks[0]),
                transferred := s.transferred + PendingBytes(Acked(s.pending, s.acks[0])))), [])
      else (s, [])
    case Timeout(sends) =>
      if s.at.Waiting? && s.pending != map[] then
        if sends < |s.pending| then (s.(at := Aborted), ResendFrames(s.pending)[..sends])
        else (Top(s), ResendFrames(s.pending))
      else (s, [])
    case Finish(sent) =>
      if s.at.Waiting? && s.pending == map[] then
        (s.(at := if sent then Finished else Aborted), [Complete(Pred(s.next), s.transferred)])
      else (s, [])
  }

  ghost function SenderRun(source: Bytes, s: Sender, script: seq<Choice>): (Sender, seq<Frame>)
    requires s.read <= |source|
    decreases |script|
  {
    if script == [] then (s, [])
    else
      var (s1, out1) := SenderStep(source, s, script[0]);
      ReadStays(source, s, script[0]);
      var (s2, out2) := SenderRun(source, s1, script[1..]);
      (s2, out1 + out2)
  }

  lemma ReadStays(source: Bytes, s: Sender, c: Choice)
    requires s.read <= |source|
    ensures s.read <= SenderStep(source, s, c).0.read <= |source|
  {}

  // `handleDownloadStreamFrame`: a full acknowledgement queue drops.
  function QueueAck(s: Sender, f: Frame): Sender {
    if f.Ack? && |s.acks| < ACK_SLOTS then s.(acks := s.acks + [f.ack]) else s
  }

  /** The download session.  `at` is the program point, kept so that a stopped run can be
      compared with the step function. */
  class DownloadSession {
    const source: Bytes
    var read: nat
    var transferred: nat
    var nextSequence: Sequence
    var pending: map<Sequence, PendingChunk>
    var acks: seq<Sequence>
    var sent: seq<Frame>
    ghost var at: Point

    ghost function View(): Sender reads this {
      Sender(read, transferred, nextSequence, pending, acks, at)
    }

    constructor (source: Bytes)
      ensures this.source == source && sent == [Open]
      ensures View() == Sender(0, 0, 1, map[], [], Filling)
    {
      this.source, read, transferred, nextSequence := source, 0, 0, 1;
      pending, acks, sent, at := map[], [], [Open], Filling;
    }

    static method PendingTransferredBytes(pending: map<Sequence, PendingChunk>) returns (total: nat)
      ensures total == PendingBytes(pending)
    {
      total := 0;
      ghost var left: map<Sequence, nat> := Sizes(pending);
      var todo := pending.Keys;
      while todo != {}
        invariant todo <= pending.Keys
        invariant left == map q | q in todo :: pending[q].size
        invariant total + Total<Sequence>(left) == PendingBytes(pending)
        decreases |todo|
      {
        var q :| q in todo;
        todo := todo - {q};
        TotalRemove<Sequence>(left, q);
        total := total + pending[q].size;
        left := left - {q};
      }
    }

    method ReleaseAckedPendingChunks(ack: Sequence) returns (released: nat)
      modifies this`pending
      ensures released == PendingBytes(Acked(old(pending), ack))
      ensures pending == Unacked(old(pending), ack)
    {
      released := 0;
      ghost var before := pending;
      ghost var left: map<Sequence, nat> := Sizes(Acked(pending, ack));
      var todo := pending.Keys;
      while todo != {}
        invariant todo <= before.Keys
        invariant pending == map q | q in before && (q in todo || q > ack) :: before[q]
        invariant left == map q | q in before && q in todo && q <= ack :: before[q].size
        invariant released + Total<Sequence>(left) == PendingBytes(Acked(before, ack))
        decreases |todo|
      {
        var q :| q in todo;
        todo := todo - {q};
        if q <= ack {
          TotalRemove<Sequence>(left, q);
          released := released + pending[q].size;
          pending := pending - {q};
          left := left - {q};
        }
      }
      assert left == map[];
    }

    static method PendingFrames(pending: map<Sequence, PendingChunk>) returns (frames: seq<Frame>)
      ensures frames == ResendFrames(pending)
    {
      hide ResendFrames, Listing;
      var sequences := SortKeys(pending.Keys);
      ResendLists(pending);
      frames := [];
      for i := 0 to |sequences|
        invariant |frames| == i
        invariant forall j :: 0 <= j < i ==> frames[j] == pending[sequences[j]].frame
      {
        frames := frames + [pending[sequences[i]].frame];
      }
    }

    /** Sends every pending chunk in ascending order; the send after `sends` successes fails. */
    method ResendPendingChunks(sends: nat) returns (ok: bool)
      modifies this`sent
      ensures ok == (sends >= |pending|)
      ensures sent == old(sent) + if ok then ResendFrames(pending) else ResendFrames(pending)[..sends]
    {
      hide ResendFrames;
      var frames := PendingFrames(pending);
      var resent := 0;
      while resent < |frames|
        invariant resent <= |frames| && resent <= sends
        invariant sent == old(sent) + frames[..resent]
      {
        if resent == sends {
          return false;
        }
        sent := sent + [frames[resent]];
        assert frames[..resent + 1] == frames[..resent] + [frames[resent]];
        resent := resent + 1;
      }
      assert frames[..resent] == frames;
      return true;
    }

    /** One `Read` of the fill loop and the frame it sends. */
    method ReadChunk(n: nat, err: ReadError, delivered: bool) returns (eof: bool, over: bool)
      requires read <= |source| && at.Filling? && |pending| < WINDOW
      modifies this
      ensures View() == ReadStep(source, old(View()), n, err, delivered).0
      ensures sent == old(sent) + ReadStep(source, old(View()), n, err, delivered).1
      ensures over == at.Aborted? && (!over ==> at == if eof then Waiting else Top(View()).at)
    {
      hide PendingBytes;
      var got := Got(source, read, n);
      eof := err.Eof? && read + |got| == |source|;
      if got != [] {
        var waiting := PendingTransferredBytes(pending);
        var frame := Chunk(nextSequence, transferred + waiting, got, eof);
        read := read + |got|;
        pending := pending[nextSequence := PendingChunk(frame, |got|)];
        sent := sent + [frame];
        if !delivered {
          at := Aborted;
          return eof, true;
        }
        nextSequence := Succ(nextSequence);
      }
      over := !eof && err.Failed?;
      at := if over then Aborted else if eof then Waiting else Top(View()).at;
      assert sent == old(sent) + ReadStep(source, old(View()), n, err, delivered).1;
    }

    /** One wait for an acknowledgement, or the completion when nothing is pending. */
    method Await(c: Choice) returns (resumed: bool, over: bool)
      requires read <= |source| && at.Waiting?
      modifies this
      ensures View() == SenderStep(source, old(View()), c).0
      ensures sent == old(sent) + SenderStep(source, old(View()), c).1
      ensures over == (at.Finished? || at.Aborted?)
      ensures !over ==> at == if resumed then Top(View()).at else Waiting
    {
      resumed, over := false, false;
      assert sent == sent + [];
      match c
      case TakeAck =>
        if |pending| != 0 && acks != [] {
          var ack := acks[0];
          acks := acks[1..];
          var released := ReleaseAckedPendingChunks(ack);
          transferred := transferred + released;
          at, resumed := Top(View()).at, true;
        }
      case Timeout(sends) =>
        if |pending| != 0 {
          resumed := ResendPendingChunks(sends);
          over := !resumed;
          at := if over then Aborted else Top(View()).at;
        }
      case Finish(delivered) =>
        if |pending| == 0 {
          sent := sent + [Complete(Pred(nextSequence), transferred)];
          at, over := if delivered then Finished else Aborted, true;
        }
      case Read(_, _, _) =>
    }

    /** The fill loop: read and send until the window is full or the source ends. */
    method Fill(script: seq<Choice>, start: nat, ghost before: seq<Frame>, ghost goal: (Sender, seq<Frame>))
      returns (i: nat, over: bool)
      requires start <= |script| && at == Top(View()).at
      requires Reaches(source, View(), sent, script[start..], before, goal)
      modifies this
      ensures start <= i <= |script|
      ensures Reaches(source, View(), sent, script[i..], before, goal)
      ensures if over then at.Aborted? else i < |script| ==> at.Waiting?
    {
      i, over := start, false;
      var eof := false;
      while |pending| < WINDOW && !eof && i < |script|
        invariant start <= i <= |script|
        invariant at == if eof then Waiting else Top(View()).at
        invariant Reaches(source, View(), sent, script[i..], before, goal)
        decreases |script| - i
      {
        Advance(source, View(), sent, script, i, before, goal);
        if script[i].Read? {
          eof, over := ReadChunk(script[i].n, script[i].err, script[i].sent);
        } else {
          assert sent + [] == sent;
        }
        i := i + 1;
        if over {
          return;
        }
      }
    }

    /** The wait: blocks until an acknowledgement, a timeout or the completion. */
    method Wait(script: seq<Choice>, start: nat, ghost before: seq<Frame>, ghost goal: (Sender, seq<Frame>))
      returns (i: nat, over: bool)
      requires start < |script| && at.Waiting?
      requires Reaches(source, View(), sent, script[start..], before, goal)
      modifies this
      ensures start < i <= |script|
      ensures Reaches(source, View(), sent, script[i..], before, goal)
      ensures if over then at.Finished? || at.Aborted? else i < |script| ==> at == Top(View()).at
    {
      i, over := start, false;
      var resumed := false;
      while !resumed && i < |script|
        invariant start <= i <= |script|
        invariant resumed || i == |script| ==> start < i
        invariant at == if resumed then Top(View()).at else Waiting
        invariant Reaches(source, View(), sent, script[i..], before, goal)
        decreases |script| - i
      {
        Advance(source, View(), sent, script, i, before, goal);
        resumed, over := Await(script[i]);
        i := i + 1;
        if over {
          return;
        }
      }
    }

    /** The transfer loop, driven by a script of what its blocking calls return and stopped
        when the script ends. */
    method Stream(script: seq<Choice>)
      requires read <= |source| && at == Top(View()).at
      modifies this
      ensures View() == SenderRun(source, old(View()), script).0
      ensures sent == old(sent) + SenderRun(source, old(View()), script).1
    {
      var i, over := 0, false;
      ghost var goal, before := SenderRun(source, View(), script), sent;
      assert script[0..] == script;
      while i < |script|
        invariant i <= |script|
        invariant i < |script| ==> at == Top(View()).at
        invariant Reaches(source, View(), sent, script[i..], before, goal)
        decreases |script| - i
      {
        i, over := Fill(script, i, before, goal);
        if !over && i < |script| {
          i, over := Wait(script, i, before, goal);
        }
        if over {
          Over(source, View(), script[i..]);
          return;
        }
      }
      assert script[i..] == [] && sent + [] == sent;
    }
  }

  ghost predicate Reaches(source: Bytes, s: Sender, sent: seq<Frame>, rest: seq<Choice>, before: seq<Frame>,
                          goal: (Sender, seq<Frame>))
  {
    s.read <= |source|
    && SenderRun(source, s, rest).0 == goal.0
    && sent + SenderRun(source, s, rest).1 == before + goal.1
  }

  lemma Advance(source: Bytes, s: Sender, sent: seq<Frame>, script: seq<Choice>, i: nat, before: seq<Frame>,
                goal: (Sender, seq<Frame>))
    requires i < |script| && Reaches(source, s, sent, script[i..], before, goal)
    ensures var (s1, out) := SenderStep(source, s, script[i]);
            Reaches(source, s1, sent + out, script[i + 1..], before, goal)
  {
    ReadStays(source, s, script[i]);
    assert script[i..][0] == script[i] && script[i..][1..] == script[i + 1..];
    var (s1, out) := SenderStep(source, s, script[i]);
    var later := SenderRun(source, s1, script[i + 1..]).1;
    assert sent + (out + later) == sent + out + later;
  }

  lemma {:induction false} Over(source: Bytes, s: Sender, rest: seq<Choice>)
    requires s.read <= |source| && (s.at.Finished? || s.at.Aborted?)
    ensures SenderRun(source, s, rest) == (s, [])
    decreases |rest|
  {
    if rest != [] {
      assert SenderStep(source, s, rest[0]) == (s, []);
      Over(source, s, rest[1..]);
      var silent: seq<Frame> := [];
      assert silent + silent == silent;
    }
  }

  // ---------------------------------------------------------------- the receiver

  /** `content` is everything handed to the buffered writer, `disk` the part of it in the
      file.  A failed write or flush is sticky, as in `bufio.Writer`.  `removed` says that the
      peer aborted and the file was deleted. */
  datatype Receiver = Receiver(
    next: Sequence, transferred: nat, content: Bytes, disk: Bytes, broken: bool, open: bool, removed: bool)

  /** What the file system does: whether the write and the flush succeed, and how far the
      buffered writer has spilled into the file by then. */
  datatype Io = Io(writeOk: bool, flushOk: bool, spill: nat)

  function Spilled(disk: Bytes, content: Bytes, spill: nat): (d: Bytes)
    requires disk <= content
    ensures disk <= d <= content
  {
    if spill <= |disk| then disk else if spill < |content| then content[..spill] else content
  }

  function Receive(r: Receiver, f: Frame, io: Io): (Receiver, Option<Frame>)
    requires r.disk <= r.content
  {
    if !r.open then (r, None) else
    match f
    case Open => (r, Some(Ack(0, r.transferred, false)))
    case Chunk(sequence, _, data, final) =>
      if sequence != r.next then (r, Some(Ack(Pred(r.next), r.transferred, false)))
      else if r.broken then (r, None)
      else
        var content := r.content + data;
        if !io.writeOk || (final && !io.flushOk) then
          (r.(content := content, disk := Spilled(r.disk, content, io.spill), broken := true), None)
        else
          (r.(next := Succ(r.next), transferred := r.transferred + |data|, content := content,
              disk := if final then content else Spilled(r.disk, content, io.spill)),
           Some(Ack(sequence, r.transferred + |data|, final)))
    case Complete(_, _) =>
      if r.broken then (r, None)
      else if !io.flushOk then (r.(disk := Spilled(r.disk, r.content, io.spill), broken := true), None)
      else (r.(disk := r.content, open := false), Some(Complete(Pred(r.next), r.transferred)))
    case Abort => (r.(disk := [], open := false, removed := true), None)
    case Ack(_, _, _) => (r, None)
  }

  /** The upload session. */
  class UploadSession {
    var nextSequence: Sequence
    var transferred: nat
    var content: Bytes
    var disk: Bytes
    var broken: bool
    var open: bool
    var removed: bool

    ghost function View(): Receiver reads this {
      Receiver(nextSequence, transferred, content, disk, broken, open, removed)
    }

    constructor ()
      ensures View() == Receiver(1, 0, [], [], false, true, false)
    {
      nextSequence, transferred, content, disk, broken, open, removed := 1, 0, [], [], false, true, false;
    }

    method Write(data: Bytes, io: Io) returns (ok: bool)
      requires disk <= content
      modifies this`content, this`disk, this`broken
      ensures ok == (!old(broken) && io.writeOk) && broken == !ok
      ensures old(broken) ==> content == old(content) && disk == old(disk)
      ensures !old(broken) ==> content == old(content) + data && disk == Spilled(old(disk), content, io.spill)
    {
      ok := !broken && io.writeOk;
      if !broken {
        content := content + data;
        disk := Spilled(disk, content, io.spill);
      }
      broken := !ok;
    }

    method Flush(io: Io) returns (ok: bool)
      requires disk <= content
      modifies this`disk, this`broken
      ensures ok == (!old(broken) && io.flushOk) && broken == !ok
      ensures disk == if ok then content else if old(broken) then old(disk) else Spilled(old(disk), content, io.spill)
    {
      ok := !broken && io.flushOk;
      if ok {
        disk := content;
      } else if !broken {
        disk := Spilled(disk, content, io.spill);
      }
      broken := !ok;
    }

    /** `handleUploadStreamFrame`; the frame of a closed session is refused by its caller. */
    method HandleFrame(f: Frame, io: Io) returns (reply: Option<Frame>)
      requires disk <= content
      modifies this
      ensures disk <= content
      ensures (View(), reply) == Receive(old(View()), f, io)
    {
      reply := None;
      if !open {
        return;
      }
      match f
      case Open =>
        reply := Some(Ack(0, transferred, false));
      case Chunk(sequence, _, data, final) =>
        if sequence != nextSequence {
          return Some(Ack(Pred(nextSequence), transferred, false));
        }
        var ok := Write(data, io);
        if ok && final {
          ok := Flush(io);
        }
        if ok {
          transferred := transferred + |data|;
          nextSequence := Succ(nextSequence);
          reply := Some(Ack(sequence, transferred, final));
        }
      case Complete(_, _) =>
        var ok := Flush(io);
        if ok {
          open := false;
          reply := Some(Complete(Pred(nextSequence), transferred));
        }
      case Abort =>
        disk, open, removed := [], false, true;
      case Ack(_, _, _) =>
    }
  }

  // ------------------------------------------------------ both over one channel

  /** `toReceiver` and `toSender` hold every frame ever sent.  Delivering a member any number
      of times in any order, or never, is exactly loss, duplication and reordering.
      `cuts` records where the source was cut: chunk `q` is `source[cuts[q - 1]..cuts[q]]`. */
  datatype System = System(
    source: Bytes, cuts: seq<nat>, s: Sender, r: Receiver,
    toReceiver: set<Frame>, toSender: set<Frame>)

  datatype Step =
    | SenderMoves(c: Choice)
    | DeliverToReceiver(f: Frame, io: Io)
    | DeliverToSender(f: Frame)
    | PeerAborts

  ghost predicate WellFormed(sys: System) {
    sys.s.read <= |sys.source| && sys.r.disk <= sys.r.content
  }

  function Elements<T>(s: seq<T>): set<T> { set x | x in s }

  ghost function Apply(sys: System, step: Step): (after: System)
    requires WellFormed(sys)
    ensures WellFormed(after) && after.source == sys.source
  {
    match step
    case SenderMoves(c) =>
      ReadStays(sys.source, sys.s, c);
      var (s, out) := SenderStep(sys.source, sys.s, c);
      sys.(s := s, toReceiver := sys.toReceiver + Elements(out),
           cuts := if s.read == sys.s.read then sys.cuts else sys.cuts + [s.read])
    case DeliverToReceiver(f, io) =>
      if f !in sys.toReceiver then sys
      else
        var (r, reply) := Receive(sys.r, f, io);
        sys.(r := r, toSender := sys.toSender + if reply.Some? then {reply.value} else {})
    case DeliverToSender(f) =>
      if f in sys.toSender then sys.(s := QueueAck(sys.s, f)) else sys
    case PeerAborts => sys.(toReceiver := sys.toReceiver + {Abort})
  }

  ghost function Initial(source: Bytes): System {
    System(source, [0], Sender(0, 0, 1, map[], [], Filling), Receiver(1, 0, [], [], false, true, false), {Open}, {})
  }

  ghost function Run(source: Bytes, script: seq<Step>): (after: System)
    ensures WellFormed(after) && after.source == source
    decreases |script|
  {
    if script == [] then Initial(source) else Apply(Run(source, script[..|script| - 1]), script[|script| - 1])
  }

  // ------------------------------------------------------------- the invariant

  /** How many chunks have been cut, and how many the receiver has accepted. */
  ghost function Cut(sys: System): int { |sys.cuts| - 1 }
  ghost function Accepted(r: Receiver): nat { Pred(r.next) }

  ghost predicate CutsOk(source: Bytes, cuts: seq<nat>, read: nat) {
    && 0 < |cuts| && cuts[0] == 0 && cuts[|cuts| - 1] == read <= |source|
    && (forall i, j :: 0 <= i <= j < |cuts| ==> cuts[i] <= cuts[j])
  }

  /** The chunk frame with sequence number `q` carries the `q`-th chunk at its file position. */
  ghost predicate Genuine(source: Bytes, cuts: seq<nat>, f: Frame) {
    f.Chunk? && 1 <= f.sequence < |cuts|
    && f.offset == cuts[f.sequence - 1] <= cuts[f.sequence] <= |source|
    && f.data == source[f.offset..cuts[f.sequence]]
  }

  ghost predicate PendingOk(source: Bytes, cuts: seq<nat>, q: Sequence, p: PendingChunk) {
    Genuine(source, cuts, p.frame) && p.frame.sequence == q && p.size == |p.frame.data|
  }

  /** The keys are the interval above `lo` up to `hi`. */
  ghost predicate Interval<V>(m: map<Sequence, V>, lo: int, hi: int) {
    0 <= lo <= hi < U32 && forall q: Sequence :: q in m <==> lo < q <= hi
  }

  ghost predicate WindowInv(source: Bytes, cuts: seq<nat>, next: Sequence, pending: map<Sequence, PendingChunk>,
                            transferred: nat) {
    var n := |cuts| - 1;
    && next == (if n + 1 == U32 then 0 else n + 1)
    && |pending| <= WINDOW
    && Interval(pending, n - |pending|, n)
    && (forall q :: q in pending ==> PendingOk(source, cuts, q, pending[q]))
    && transferred == cuts[n - |pending|]
  }

  ghost predicate Window(source: Bytes, cuts: seq<nat>, s: Sender) {
    WindowInv(source, cuts, s.next, s.pending, s.transferred)
  }

  ghost predicate SenderInv(source: Bytes, cuts: seq<nat>, s: Sender) {
    && s.read <= |source| && CutsOk(source, cuts, s.read)
    && (!s.at.Aborted? ==> Window(source, cuts, s))
    && (s.at.Filling? ==> |s.pending| < WINDOW)
    && (s.at.Waiting? && |s.pending| < WINDOW ==> s.read == |source|)
    && (s.at.Finished? ==> s.pending == map[] && s.read == |source|)
  }

  /** The receiver has accepted `k` whole chunks; a broken one may also have swallowed the next. */
  ghost predicate ReceiverInv(source: Bytes, cuts: seq<nat>, r: Receiver) {
    var k := Accepted(r);
    && k < |cuts| && cuts[k] <= |source|
    && r.transferred == cuts[k]
    && r.disk <= r.content
    && (r.content == source[..cuts[k]]
        || (r.broken && k + 1 < |cuts| && cuts[k + 1] <= |source| && r.content == source[..cuts[k + 1]]))
    && (r.removed ==> !r.open && r.disk == [])
    && (!r.open ==> r.removed || (!r.broken && r.disk == r.content == source))
  }

  ghost predicate ChannelInv(sys: System) {
    && (forall f :: f in sys.toReceiver ==> f.Open? || Genuine(sys.source, sys.cuts, f) || f.Complete? || f.Abort?)
    && (sys.s.at.Finished? ==> exists f :: f in sys.toReceiver && f.Complete?)
    && (sys.r.removed ==> Abort in sys.toReceiver)
    && (forall f :: f in sys.toReceiver && f.Complete? ==>
          sys.s.read == |sys.source| && Accepted(sys.r) == Cut(sys) && (sys.s.at.Finished? || sys.s.at.Aborted?))
    && (forall f :: f in sys.toSender && f.Ack? ==> f.ack <= Accepted(sys.r))
    && (forall a :: a in sys.s.acks ==> a <= Accepted(sys.r))
    && (!sys.s.at.Aborted? ==> Cut(sys) - |sys.s.pending| <= Accepted(sys.r))
  }

  ghost predicate Inv(sys: System) {
    WellFormed(sys)
    && (Cut(sys) < U32 ==>
          SenderInv(sys.source, sys.cuts, sys.s) && ReceiverInv(sys.source, sys.cuts, sys.r) && ChannelInv(sys))
  }

  /** The pending bytes between two chunk numbers are the file bytes between them. */
  lemma {:induction false} IntervalBytes(source: Bytes, cuts: seq<nat>, pending: map<Sequence, PendingChunk>, lo: nat,
                                         hi: nat)
    requires Interval(pending, lo, hi) && hi < |cuts|
    requires forall q :: q in pending ==> PendingOk(source, cuts, q, pending[q])
    ensures cuts[lo] + PendingBytes(pending) == cuts[hi]
    decreases hi - lo
  {
    if lo == hi {
      assert Sizes(pending) == map[];
    } else {
      var last: Sequence := hi;
      assert PendingOk(source, cuts, last, pending[last]);
      TotalRemove<Sequence>(Sizes(pending), last);
      assert Sizes(pending) - {last} == Sizes(pending - {last});
      IntervalBytes(source, cuts, pending - {last}, lo, hi - 1);
    }
  }

  lemma {:induction false} IntervalSize<V>(m: map<Sequence, V>, lo: nat, hi: nat)
    requires Interval(m, lo, hi)
    ensures |m| == hi - lo
    decreases hi - lo
  {
    if lo == hi {
      assert m == map[];
    } else {
      var last: Sequence := hi;
      IntervalSize(m - {last}, lo, hi - 1);
      assert m == (m - {last})[last := m[last]];
    }
  }

  // --------------------------------------------------- every step keeps the invariant

  ghost function Grown(cuts: seq<nat>, s: Sender, after: Sender): seq<nat> {
    if after.read == s.read then cuts else cuts + [after.read]
  }

  lemma IntervalGrows<V>(m: map<Sequence, V>, lo: int, hi: nat, next: Sequence, v: V)
    requires Interval(m, lo, hi) && next == hi + 1
    ensures Interval(m[next := v], lo, hi + 1) && |m[next := v]| == |m| + 1
  {}

  lemma PendingGrows(source: Bytes, cuts: seq<nat>, more: nat, q: Sequence, p: PendingChunk)
    requires PendingOk(source, cuts, q, p)
    ensures PendingOk(source, cuts + [more], q, p)
  {}

  /** The frame of the next chunk is genuine: its offset, released plus pending bytes, is the
      file position where the chunk was cut. */
  lemma NextChunkGenuine(source: Bytes, cuts: seq<nat>, s: Sender, got: Bytes, final: bool)
    requires |cuts| < U32 && CutsOk(source, cuts, s.read) && Window(source, cuts, s)
    requires s.read + |got| <= |source| && got == source[s.read..s.read + |got|]
    ensures Genuine(source, cuts + [s.read + |got|], NextChunk(s, got, final))
    ensures PendingOk(source, cuts + [s.read + |got|], s.next, PendingChunk(NextChunk(s, got, final), |got|))
  {
    var n := |cuts| - 1;
    IntervalBytes(source, cuts, s.pending, n - |s.pending|, n);
  }

  /** Adding the next chunk to the window keeps it a contiguous, genuine interval. */
  lemma WindowGrows(source: Bytes, cuts: seq<nat>, s: Sender, more: nat, p: PendingChunk)
    requires 0 < |cuts| < U32 && Window(source, cuts, s) && |s.pending| < WINDOW
    requires PendingOk(source, cuts + [more], s.next, p)
    ensures |s.pending[s.next := p]| == |s.pending| + 1
    ensures Window(source, cuts + [more], s.(read := more, next := Succ(s.next), pending := s.pending[s.next := p]))
  {
    hide PendingOk, Interval;
    var n := |cuts| - 1;
    IntervalGrows(s.pending, n - |s.pending|, n, s.next, p);
    forall q | q in s.pending ensures PendingOk(source, cuts + [more], q, s.pending[q]) {
      PendingGrows(source, cuts, more, q, s.pending[q]);
    }
  }

  lemma CutsNonempty(source: Bytes, cuts: seq<nat>, read: nat)
    requires CutsOk(source, cuts, read)
    ensures 0 < |cuts|
  {}

  lemma CutsGrow(source: Bytes, cuts: seq<nat>, read: nat, more: nat)
    requires CutsOk(source, cuts, read) && read <= more <= |source|
    ensures CutsOk(source, cuts + [more], more)
  {}

  lemma ReadSender(source: Bytes, cuts: seq<nat>, s: Sender, n: nat, err: ReadError, sent: bool)
    requires SenderInv(source, cuts, s) && s.at.Filling?
    ensures var (after, out) := ReadStep(source, s, n, err, sent);
            var grown := Grown(cuts, s, after);
            |grown| <= U32 ==>
              && SenderInv(source, grown, after) && after.acks == s.acks
              && (forall f :: f in out ==> f.Chunk? && Genuine(source, grown, f))
              && (!after.at.Aborted? ==> |grown| - |after.pending| == |cuts| - |s.pending|)
  {
    hide NextChunk, WindowInv, Genuine, CutsOk, PendingOk;
    var got := Got(source, s.read, n);
    if got != [] && |cuts| < U32 {
      var final := err.Eof? && s.read + |got| == |source|;
      CutsNonempty(source, cuts, s.read);
      NextChunkGenuine(source, cuts, s, got, final);
      WindowGrows(source, cuts, s, s.read + |got|, PendingChunk(NextChunk(s, got, final), |got|));
      CutsGrow(source, cuts, s.read, s.read + |got|);
    }
  }

  /** A cumulative acknowledgement releases whole chunks from the low end of the window. */
  lemma ReleaseKeeps(source: Bytes, cuts: seq<nat>, s: Sender, ack: Sequence)
    requires |cuts| <= U32 && Window(source, cuts, s) && ack < |cuts|
    ensures var n := |cuts| - 1;
            var base := n - |s.pending|;
            var after := s.(pending := Unacked(s.pending, ack),
                            transferred := s.transferred + PendingBytes(Acked(s.pending, ack)));
            && Window(source, cuts, after)
            && n - |after.pending| == if ack < base then base else ack
  {
    hide PendingOk, PendingBytes;
    var n := |cuts| - 1;
    var base := n - |s.pending|;
    var cut := if ack < base then base else ack;
    IntervalBytes(source, cuts, Acked(s.pending, ack), base, cut);
    IntervalSize(Unacked(s.pending, ack), cut, n);
  }

  lemma AckSender(source: Bytes, cuts: seq<nat>, s: Sender)
    requires |cuts| <= U32 && SenderInv(source, cuts, s)
    requires s.at.Waiting? && s.pending != map[] && s.acks != [] && s.acks[0] < |cuts|
    ensures var after, released := SenderStep(source, s, TakeAck).0, |cuts| - 1 - |s.pending|;
            && SenderInv(source, cuts, after) && after.acks == s.acks[1..]
            && |cuts| - 1 - |after.pending| == if s.acks[0] < released then released else s.acks[0]
  {
    hide PendingBytes, WindowInv, Acked, Unacked, CutsOk;
    ReleaseKeeps(source, cuts, s, s.acks[0]);
  }

  /** Listing a contiguous window in ascending order gives consecutive genuine chunks. */
  lemma ResendOrder(source: Bytes, cuts: seq<nat>, pending: map<Sequence, PendingChunk>, base: nat, n: nat)
    requires Interval(pending, base, n)
    requires forall q :: q in pending ==> PendingOk(source, cuts, q, pending[q])
    ensures |ResendFrames(pending)| == n - base
    ensures forall i :: 0 <= i < n - base ==>
              Genuine(source, cuts, ResendFrames(pending)[i]) && ResendFrames(pending)[i].sequence == base + 1 + i
  {
    var keys := Listing(pending.Keys);
    var direct := seq(n - base, i requires 0 <= i < n - base => base + 1 + i);
    forall q | base < q <= n ensures q in direct {
      assert direct[q - base - 1] == q;
    }
    ListingUnique(keys, direct, pending.Keys);
    ListingLength(keys, pending.Keys);
    forall i | 0 <= i < n - base
      ensures Genuine(source, cuts, ResendFrames(pending)[i]) && ResendFrames(pending)[i].sequence == base + 1 + i
    {
      assert keys[i] == direct[i];
      assert PendingOk(source, cuts, keys[i], pending[keys[i]]);
    }
  }

  /** A resend, whole or cut short, sends only genuine chunks. */
  lemma ResendGenuine(source: Bytes, cuts: seq<nat>, s: Sender, sends: nat)
    requires |cuts| <= U32 && Window(source, cuts, s) && sends <= |s.pending|
    ensures forall f :: f in ResendFrames(s.pending)[..sends] ==> f.Chunk? && Genuine(source, cuts, f)
  {
    ResendOrder(source, cuts, s.pending, |cuts| - 1 - |s.pending|, |cuts| - 1);
  }

  ghost predicate Completes(s: Sender, after: Sender) {
    s.at.Waiting? && s.pending == map[] && after.read == s.read && (after.at.Finished? || after.at.Aborted?)
  }

  ghost predicate ReleasesTo(s: Sender, was: int, now: int) { now == was || exists a :: a in s.acks && now == a }

  /** What one move of the sender guarantees, for the composition: its own invariant, frames
      that are genuine or the one Complete of a finished transfer, and a release point that
      moves only to an acknowledged chunk. */
  ghost predicate MoveOk(source: Bytes, cuts: seq<nat>, s: Sender, c: Choice)
    requires s.read <= |source|
  {
    var (after, out) := SenderStep(source, s, c);
    var grown := Grown(cuts, s, after);
    |grown| <= U32 ==>
      && SenderInv(source, grown, after)
      && (forall a :: a in after.acks ==> a in s.acks)
      && (forall f :: f in out ==> (f.Chunk? && Genuine(source, grown, f)) || (f.Complete? && Completes(s, after)))
      && (!after.at.Aborted? ==>
            !s.at.Aborted? && ReleasesTo(s, |cuts| - 1 - |s.pending|, |grown| - 1 - |after.pending|))
      && (s.at.Finished? || s.at.Aborted? ==> after == s)
      && (after.at.Finished? ==> s.at.Finished? || exists f :: f in out && f.Complete?)
  }

  lemma MoveKeeps(source: Bytes, cuts: seq<nat>, s: Sender, c: Choice)
    requires SenderInv(source, cuts, s) && |cuts| <= U32 && forall a :: a in s.acks ==> a < |cuts|
    ensures MoveOk(source, cuts, s, c)
  {
    match c
    case Read(n, err, sent) => ReadMove(source, cuts, s, n, err, sent);
    case TakeAck => AckMove(source, cuts, s);
    case Timeout(sends) => TimeoutMove(source, cuts, s, sends);
    case Finish(sent) => FinishMove(source, cuts, s, sent);
  }

  lemma ReadMove(source: Bytes, cuts: seq<nat>, s: Sender, n: nat, err: ReadError, sent: bool)
    requires SenderInv(source, cuts, s) && |cuts| <= U32
    ensures MoveOk(source, cuts, s, Read(n, err, sent))
  {
    hide SenderInv, Genuine, ReadStep;
    SenderBounds(source, cuts, s);
    if s.at.Filling? {
      ReadSender(source, cuts, s, n, err, sent);
      ReadNeverFinishes(source, s, n, err, sent);
    }
  }

  lemma ReadNeverFinishes(source: Bytes, s: Sender, n: nat, err: ReadError, sent: bool)
    requires s.read <= |source|
    ensures !ReadStep(source, s, n, err, sent).0.at.Finished? || s.at.Finished?
  {}

  lemma SenderBounds(source: Bytes, cuts: seq<nat>, s: Sender)
    requires SenderInv(source, cuts, s)
    ensures s.read <= |source| && 0 < |cuts| && cuts[|cuts| - 1] == s.read
    ensures s.at.Filling? ==> |s.pending| < WINDOW
  {}

  lemma AckMove(source: Bytes, cuts: seq<nat>, s: Sender)
    requires SenderInv(source, cuts, s) && |cuts| <= U32 && forall a :: a in s.acks ==> a < |cuts|
    ensures MoveOk(source, cuts, s, TakeAck)
  {
    hide SenderInv, Genuine, PendingBytes, Acked, Unacked;
    SenderBounds(source, cuts, s);
    if s.at.Waiting? && s.pending != map[] && s.acks != [] {
      assert s.acks[0] in s.acks;
      AckSender(source, cuts, s);
    }
  }

  lemma TimeoutMove(source: Bytes, cuts: seq<nat>, s: Sender, sends: nat)
    requires SenderInv(source, cuts, s) && |cuts| <= U32
    ensures MoveOk(source, cuts, s, Timeout(sends))
  {
    hide WindowInv, Genuine, ResendFrames, CutsOk;
    if s.at.Waiting? && s.pending != map[] {
      ResendGenuine(source, cuts, s, if sends < |s.pending| then sends else |s.pending|);
      assert ResendFrames(s.pending)[..|s.pending|] == ResendFrames(s.pending);
    }
  }

  lemma FinishMove(source: Bytes, cuts: seq<nat>, s: Sender, sent: bool)
    requires SenderInv(source, cuts, s) && |cuts| <= U32
    ensures MoveOk(source, cuts, s, Finish(sent))
  {
    hide WindowInv, Genuine, CutsOk;
    var out := SenderStep(source, s, Finish(sent)).1;
    assert out != [] ==> out[0] in out && out[0].Complete?;
  }

  lemma GrownKeeps(source: Bytes, cuts: seq<nat>, read: nat, r: Receiver, f: Frame)
    requires 0 < |cuts|
    ensures ReceiverInv(source, cuts, r) ==> ReceiverInv(source, cuts + [read], r)
    ensures Genuine(source, cuts, f) ==> Genuine(source, cuts + [read], f)
  {}

  lemma ReceiverBounds(source: Bytes, cuts: seq<nat>, r: Receiver)
    requires ReceiverInv(source, cuts, r)
    ensures Accepted(r) < |cuts|
  {}

  lemma SenderKeeps(sys: System, c: Choice)
    requires Inv(sys)
    ensures Inv(Apply(sys, SenderMoves(c)))
  {
    hide SenderStep, ReceiverInv, Genuine, WindowInv, CutsOk;
    var after := Apply(sys, SenderMoves(c));
    if Cut(after) < U32 {
      ReadStays(sys.source, sys.s, c);
      SenderBounds(sys.source, sys.cuts, sys.s);
      ReceiverBounds(sys.source, sys.cuts, sys.r);
      MoveKeeps(sys.source, sys.cuts, sys.s, c);
      forall f | f in sys.toReceiver
        ensures ReceiverInv(sys.source, after.cuts, sys.r)
        ensures Genuine(sys.source, sys.cuts, f) ==> Genuine(sys.source, after.cuts, f)
      {
        GrownKeeps(sys.source, sys.cuts, after.s.read, sys.r, f);
      }
      GrownKeeps(sys.source, sys.cuts, after.s.read, sys.r, Open);
    }
  }

  /** One accepted chunk moves the receiver from `k` to `k + 1` whole chunks. */
  lemma ReceiverKeeps(source: Bytes, cuts: seq<nat>, r: Receiver, f: Frame, io: Io)
    requires 0 < |cuts| <= U32 && ReceiverInv(source, cuts, r)
    requires f.Open? || f.Abort? || Genuine(source, cuts, f)
             || (f.Complete? && Accepted(r) == |cuts| - 1 && cuts[|cuts| - 1] == |source|)
    ensures ReceiverInv(source, cuts, Receive(r, f, io).0)
    ensures Accepted(r) <= Accepted(Receive(r, f, io).0)
    ensures var reply := Receive(r, f, io).1;
            reply.Some? && reply.value.Ack? ==> reply.value.ack <= Accepted(Receive(r, f, io).0)
    ensures Receive(r, f, io).0.removed ==> r.removed || f.Abort?
  {
    if f.Chunk? && f.sequence == r.next {
      AcceptKeeps(source, cuts, r, f, io);
    } else {
      assert source[..|source|] == source;
    }
  }

  lemma AcceptKeeps(source: Bytes, cuts: seq<nat>, r: Receiver, f: Frame, io: Io)
    requires 0 < |cuts| <= U32 && ReceiverInv(source, cuts, r) && Genuine(source, cuts, f) && f.sequence == r.next
    ensures ReceiverInv(source, cuts, Receive(r, f, io).0)
    ensures Accepted(Receive(r, f, io).0) == if Receive(r, f, io).1.Some? then f.sequence else Accepted(r)
    ensures var reply := Receive(r, f, io).1; reply.Some? ==> reply.value.Ack? && reply.value.ack == f.sequence
  {
    hide Spilled;
    var k := Accepted(r);
    assert source[..cuts[k]] + f.data == source[..cuts[k + 1]];
    if r.open && !r.broken {
      assert r.content + f.data == source[..cuts[k + 1]];
    }
  }

  lemma DeliveryKeeps(sys: System, f: Frame, io: Io)
    requires Inv(sys)
    ensures Inv(Apply(sys, DeliverToReceiver(f, io)))
  {
    if Cut(sys) < U32 && f in sys.toReceiver {
      ReceiverKeeps(sys.source, sys.cuts, sys.r, f, io);
    }
  }

  lemma QueueKeeps(sys: System, f: Frame)
    requires Inv(sys)
    ensures Inv(Apply(sys, DeliverToSender(f)))
  {}

  lemma {:induction false} RunKeeps(source: Bytes, script: seq<Step>)
    ensures Inv(Run(source, script))
    decreases |script|
  {
    if script != [] {
      var before := script[..|script| - 1];
      RunKeeps(source, before);
      match script[|script| - 1]
      case SenderMoves(c) => SenderKeeps(Run(source, before), c);
      case DeliverToReceiver(f, io) => DeliveryKeeps(Run(source, before), f, io);
      case DeliverToSender(f) => QueueKeeps(Run(source, before), f);
      case PeerAborts => AbortKeeps(Run(source, before));
    }
  }

  lemma AbortKeeps(sys: System)
    requires Inv(sys)
    ensures Inv(Apply(sys, PeerAborts))
  {
    hide SenderInv, ReceiverInv, Genuine;
  }

  ghost predicate OnlyChunks(pending: map<Sequence, PendingChunk>) {
    forall q :: q in pending ==> pending[q].frame.Chunk?
  }

  lemma ResendsOnlyChunks(pending: map<Sequence, PendingChunk>, sends: nat)
    requires OnlyChunks(pending) && sends <= |pending|
    ensures Abort !in ResendFrames(pending)[..sends]
  {
    ResendLists(pending);
    hide ResendFrames;
  }

  lemma ReadSendsNoAbort(source: Bytes, s: Sender, n: nat, err: ReadError, sent: bool)
    requires s.read <= |source| && OnlyChunks(s.pending)
    ensures var (after, out) := ReadStep(source, s, n, err, sent);
            OnlyChunks(after.pending) && Abort !in out && !after.at.Finished?
  {
    hide PendingBytes, Got;
  }

  lemma SendsNoAbort(source: Bytes, s: Sender, c: Choice)
    requires s.read <= |source| && OnlyChunks(s.pending)
    ensures OnlyChunks(SenderStep(source, s, c).0.pending) && Abort !in SenderStep(source, s, c).1
  {
    hide ResendFrames, PendingBytes, ReadStep;
    match c
    case Read(n, err, sent) => ReadSendsNoAbort(source, s, n, err, sent);
    case Timeout(sends) =>
      ResendsOnlyChunks(s.pending, |s.pending|);
      if sends < |s.pending| {
        ResendsOnlyChunks(s.pending, sends);
      } else {
        assert ResendFrames(s.pending)[..|s.pending|] == ResendFrames(s.pending);
      }
    case TakeAck =>
    case Finish(_) =>
  }

  /** Only the peer aborts. */
  lemma {:induction false} AbortIsThePeers(source: Bytes, script: seq<Step>)
    ensures Abort in Run(source, script).toReceiver ==> PeerAborts in script
    ensures OnlyChunks(Run(source, script).s.pending)
    decreases |script|
  {
    hide SenderStep, Receive;
    if script != [] {
      var before, step := script[..|script| - 1], script[|script| - 1];
      assert script == before + [step];
      AbortIsThePeers(source, before);
      if step.SenderMoves? {
        SendsNoAbort(source, Run(source, before).s, step.c);
      }
    }
  }

  // ---------------------------------------------------------------- main results

  /** Whatever the channel does, while fewer than 2^32 chunks have been cut: the bytes the
      receiver has accepted are whole chunks and a prefix of the source; what is in its file
      is a prefix of the source; the sender sends Complete only when the receiver holds the
      whole source; and a receiver that closed has the whole source in its file, unless the
      peer aborted, and then the file is gone. */
  lemma TransferIsSafe(source: Bytes, script: seq<Step>)
    ensures var sys := Run(source, script);
            Cut(sys) < U32 ==>
              && CutsOk(source, sys.cuts, sys.s.read)
              && Accepted(sys.r) <= Cut(sys)
              && sys.r.transferred == sys.cuts[Accepted(sys.r)]
              && (!sys.r.broken ==> sys.r.content == source[..sys.cuts[Accepted(sys.r)]])
              && sys.r.content <= source && sys.r.disk <= source
              && (forall f :: f in sys.toReceiver && f.Complete? ==>
                    sys.r.content == source && sys.r.transferred == |source|)
              && (!sys.r.open && !sys.r.removed ==> sys.r.disk == source)
              && (sys.r.removed ==> PeerAborts in script && !sys.r.open && sys.r.disk == [])
  {
    hide Apply, WindowInv, Genuine, Run;
    RunKeeps(source, script);
    AbortIsThePeers(source, script);
    assert source[..|source|] == source;
  }

  // ------------------------------------------------- what the other frames promise

  /** An acknowledgement gives the position after its chunk; one marked final means that the bytes
      up to there are in the file. */
  ghost predicate AckHonest(source: Bytes, cuts: seq<nat>, r: Receiver, f: Frame) {
    f.Ack? ==>
      && (f.ack > 0 ==> f.ack < |cuts| && f.offset == cuts[f.ack])
      && (f.final ==> f.ack < |cuts| && cuts[f.ack] <= |source| && (r.removed || source[..cuts[f.ack]] <= r.disk))
      && f.offset in cuts && f.offset <= r.transferred
  }

  /** A completion comes from a receiver with the whole source in its file. */
  ghost predicate DoneHonest(source: Bytes, r: Receiver, f: Frame) {
    f.Complete? ==> f.offset == |source| && (r.removed || r.disk == source)
  }

  /** The receiver only adds to its file, until the peer aborts. */
  lemma FileGrows(r: Receiver, f: Frame, io: Io)
    requires r.disk <= r.content
    ensures var after := Receive(r, f, io).0;
            && (after.removed || (r.disk <= after.disk && !r.removed)) && (r.removed ==> after.removed)
            && r.transferred <= after.transferred
  {
    hide Spilled;
  }

  lemma HonestStays(source: Bytes, cuts: seq<nat>, r: Receiver, f: Frame, after: Receiver, more: seq<nat>)
    requires AckHonest(source, cuts, r, f) && DoneHonest(source, r, f) && cuts <= more
    requires (after.removed || (r.disk <= after.disk && !r.removed)) && after.transferred >= r.transferred
    requires after.disk <= source
    ensures AckHonest(source, more, after, f) && DoneHonest(source, after, f)
  {
    assert forall i :: 0 <= i < |cuts| ==> more[i] == cuts[i];
  }

  lemma ReplyHonest(source: Bytes, cuts: seq<nat>, r: Receiver, f: Frame, io: Io)
    requires 0 < |cuts| <= U32 && ReceiverInv(source, cuts, r)
    requires f.Open? || f.Abort? || Genuine(source, cuts, f)
             || (f.Complete? && Accepted(r) == |cuts| - 1 && cuts[|cuts| - 1] == |source|)
    ensures var (after, reply) := Receive(r, f, io);
            reply.Some? ==> AckHonest(source, cuts, after, reply.value) && DoneHonest(source, after, reply.value)
  {
    hide Spilled;
    var k := Accepted(r);
    if f.Chunk? && f.sequence == r.next {
      assert source[..cuts[k]] + f.data == source[..cuts[k + 1]];
    }
    assert source[..|source|] == source;
  }

  /** A working receiver answers an opening with number 0 and the bytes it has, and every chunk with
      the number of the last one it has accepted. */
  lemma ReceiverAnswers(r: Receiver, f: Frame)
    requires r.open && !r.broken && r.disk <= r.content && (f.Open? || f.Chunk?)
    ensures var (after, reply) := Receive(r, f, Io(true, true, 0));
            && reply.Some? && reply.value.Ack? && reply.value.offset == after.transferred
            && reply.value.ack == (if f.Open? then 0 else Pred(after.next))
            && (f.Open? ==> after == r && !reply.value.final)
  {
    hide Spilled;
  }

  /** Whatever fails at the sender ends the transfer: a read, a send, a resend or the completion. */
  lemma FailureAborts(source: Bytes, s: Sender)
    requires s.read <= |source|
    ensures s.at.Filling? && |s.pending| < 8 ==>
              forall n, sent :: SenderStep(source, s, Read(n, Failed, sent)).0.at.Aborted?
    ensures s.at.Filling? && |s.pending| < 8 && s.read < |source| ==>
              forall n, err :: n > 0 ==> SenderStep(source, s, Read(n, err, false)).0.at.Aborted?
    ensures s.at.Waiting? && s.pending != map[] ==>
              forall sends: nat :: sends < |s.pending| ==> SenderStep(source, s, Timeout(sends)).0.at.Aborted?
    ensures s.at.Waiting? && s.pending == map[] ==> SenderStep(source, s, Finish(false)).0.at.Aborted?
  {
    hide PendingBytes, ResendFrames;
  }

  /** Acknowledgements are queued in order while there is room for 16, and dropped otherwise. */
  lemma QueueMeans(s: Sender, f: Frame)
    ensures var after := QueueAck(s, f);
            && after == s.(acks := after.acks)
            && (f.Ack? && |s.acks| < 16 ==> |after.acks| == |s.acks| + 1 && after.acks[|s.acks|] == f.ack)
            && (!f.Ack? || |s.acks| >= 16 ==> after.acks == s.acks)
            && s.acks <= after.acks
  {}

  ghost predicate RepliesHonest(sys: System) {
    forall f :: f in sys.toSender ==> AckHonest(sys.source, sys.cuts, sys.r, f) && DoneHonest(sys.source, sys.r, f)
  }

  lemma HonestDelivery(sys: System, f: Frame, io: Io)
    requires Inv(sys) && Cut(sys) < U32 && RepliesHonest(sys)
    ensures RepliesHonest(Apply(sys, DeliverToReceiver(f, io)))
  {
    hide AckHonest, DoneHonest, Receive, SenderInv, Genuine;
    var after := Apply(sys, DeliverToReceiver(f, io));
    if f in sys.toReceiver {
      FileGrows(sys.r, f, io);
      SenderBounds(sys.source, sys.cuts, sys.s);
      ReceiverKeeps(sys.source, sys.cuts, sys.r, f, io);
      ReplyHonest(sys.source, sys.cuts, sys.r, f, io);
      DiskIsSource(sys.source, sys.cuts, after.r);
      forall g | g in sys.toSender
        ensures AckHonest(sys.source, sys.cuts, after.r, g) && DoneHonest(sys.source, after.r, g)
      {
        HonestStays(sys.source, sys.cuts, sys.r, g, after.r, sys.cuts);
      }
    }
  }

  lemma DiskIsSource(source: Bytes, cuts: seq<nat>, r: Receiver)
    requires ReceiverInv(source, cuts, r)
    ensures r.disk <= source
  {}

  lemma HonestMove(sys: System, c: Choice)
    requires Inv(sys) && Cut(sys) < U32 && RepliesHonest(sys)
    ensures RepliesHonest(Apply(sys, SenderMoves(c)))
  {
    hide AckHonest, DoneHonest, SenderStep, SenderInv, ChannelInv;
    var after := Apply(sys, SenderMoves(c));
    DiskIsSource(sys.source, sys.cuts, sys.r);
    forall g | g in sys.toSender
      ensures AckHonest(sys.source, after.cuts, sys.r, g) && DoneHonest(sys.source, sys.r, g)
    {
      if sys.r.removed {
        RemovedHonest(sys.source, sys.cuts, sys.r, g, after.cuts);
      } else {
        HonestStays(sys.source, sys.cuts, sys.r, g, sys.r, after.cuts);
      }
    }
  }

  lemma RemovedHonest(source: Bytes, cuts: seq<nat>, r: Receiver, f: Frame, more: seq<nat>)
    requires AckHonest(source, cuts, r, f) && DoneHonest(source, r, f) && cuts <= more && r.removed
    ensures AckHonest(source, more, r, f) && DoneHonest(source, r, f)
  {
    assert forall i :: 0 <= i < |cuts| ==> more[i] == cuts[i];
  }

  lemma {:induction false} CutsGrowOnly(source: Bytes, script: seq<Step>, k: nat)
    requires k <= |script|
    ensures Cut(Run(source, script[..k])) <= Cut(Run(source, script))
    decreases |script| - k
  {
    hide SenderStep, Receive;
    if k < |script| {
      CutsGrowOnly(source, script, k + 1);
      assert script[..k + 1][..k] == script[..k];
    } else {
      assert script[..k] == script;
    }
  }

  /** Over every run with fewer than 2^32 chunks: an acknowledgement of a chunk gives the file
      position after it; a final one means that the source up to there is in the file, and the
      receiver's completion that the whole source is, unless the peer aborted. */
  lemma {:induction false} RepliesAreHonest(source: Bytes, script: seq<Step>)
    ensures var sys := Run(source, script);
            Cut(sys) < U32 ==>
              forall f :: f in sys.toSender ==>
                AckHonest(source, sys.cuts, sys.r, f) && DoneHonest(source, sys.r, f)
    decreases |script|
  {
    hide AckHonest, DoneHonest, Inv, Apply;
    if script != [] && Cut(Run(source, script)) < U32 {
      var before, step := script[..|script| - 1], script[|script| - 1];
      CutsGrowOnly(source, script, |script| - 1);
      RepliesAreHonest(source, before);
      RunKeeps(source, before);
      match step
      case SenderMoves(c) => HonestMove(Run(source, before), c);
      case DeliverToReceiver(f, io) => HonestDelivery(Run(source, before), f, io);
      case DeliverToSender(f) => HonestQuiet(Run(source, before), step);
      case PeerAborts => HonestQuiet(Run(source, before), step);
    } else if script == [] {
      NothingToSender(source);
    }
  }

  lemma NothingToSender(source: Bytes)
    ensures Run(source, []).toSender == {}
  {}

  lemma HonestQuiet(sys: System, step: Step)
    requires WellFormed(sys) && RepliesHonest(sys) && (step.DeliverToSender? || step.PeerAborts?)
    ensures RepliesHonest(Apply(sys, step))
  {
    hide AckHonest, DoneHonest;
  }

  /** A chunk marked final ends the source; the sender's completion gives the size of the source
      and the number of its last chunk. */
  ghost predicate SentHonest(source: Bytes, cuts: seq<nat>, f: Frame) {
    && (f.Chunk? && f.final ==> 1 <= f.sequence < |cuts| && cuts[f.sequence] == |source|)
    && (f.Complete? ==> f.offset == |source| && f.ack == |cuts| - 1)
  }

  /** Chunks are not empty and at most 1120 bytes long. */
  ghost predicate FairCuts(cuts: seq<nat>) { forall i :: 1 <= i < |cuts| ==>
                                             cuts[i - 1] < cuts[i] <= cuts[i - 1] + 1120 }

  /** What the sender has sent, and may send again. */
  ghost predicate SenderHonest(sys: System) {
    && FairCuts(sys.cuts) && |sys.s.acks| <= 16
    && (forall f :: f in sys.toReceiver ==> SentHonest(sys.source, sys.cuts, f))
    && (forall q :: q in sys.s.pending ==> sys.s.pending[q].frame in sys.toReceiver)
  }

  lemma ResendsSent(pending: map<Sequence, PendingChunk>, sent: set<Frame>, n: nat)
    requires n <= |pending| && forall q :: q in pending ==> pending[q].frame in sent
    ensures forall f :: f in ResendFrames(pending)[..n] ==> f in sent
  {
    ResendLists(pending);
    hide ResendFrames;
  }

  ghost predicate MoveHonest(source: Bytes, cuts: seq<nat>, s: Sender, sent: set<Frame>, after: Sender,
                             out: seq<Frame>) {
    var grown := Grown(cuts, s, after);
    && FairCuts(grown) && |after.acks| <= 16
    && (forall f :: f in out ==> SentHonest(source, grown, f))
    && (forall q :: q in after.pending ==> after.pending[q].frame in sent || after.pending[q].frame in out)
  }

  lemma ReadHonest(source: Bytes, cuts: seq<nat>, s: Sender, sent: set<Frame>, n: nat, err: ReadError, ok: bool)
    requires SenderInv(source, cuts, s) && |cuts| < U32 && FairCuts(cuts) && |s.acks| <= 16 && s.at.Filling?
    requires forall q :: q in s.pending ==> s.pending[q].frame in sent
    ensures var (after, out) := ReadStep(source, s, n, err, ok); MoveHonest(source, cuts, s, sent, after, out)
  {
    hide PendingBytes, Genuine, PendingOk, Interval;
    var got := Got(source, s.read, n);
    var (after, out) := ReadStep(source, s, n, err, ok);
    if got != [] {
      assert Grown(cuts, s, after) == cuts + [after.read];
      assert out[0] in out;
    }
  }

  lemma MoveIsHonest(source: Bytes, cuts: seq<nat>, s: Sender, sent: set<Frame>, c: Choice)
    requires SenderInv(source, cuts, s) && |cuts| < U32 && FairCuts(cuts) && |s.acks| <= 16
    requires forall q :: q in s.pending ==> s.pending[q].frame in sent
    requires forall f :: f in sent ==> SentHonest(source, cuts, f)
    ensures var (after, out) := SenderStep(source, s, c); MoveHonest(source, cuts, s, sent, after, out)
  {
    hide PendingBytes, Genuine, PendingOk, Interval, ReadStep, ResendFrames, FairCuts, SentHonest;
    match c
    case Read(n, err, ok) =>
      if s.at.Filling? {
        ReadHonest(source, cuts, s, sent, n, err, ok);
      }
    case Timeout(sends) =>
      ResendsSent(s.pending, sent, if sends < |s.pending| then sends else |s.pending|);
      assert ResendFrames(s.pending)[..|s.pending|] == ResendFrames(s.pending);
    case TakeAck =>
    case Finish(_) =>
      FinishHonest(source, cuts, s);
  }

  lemma FinishHonest(source: Bytes, cuts: seq<nat>, s: Sender)
    requires SenderInv(source, cuts, s) && |cuts| <= U32
    ensures s.at.Waiting? && s.pending == map[] ==> SentHonest(source, cuts, Complete(Pred(s.next), s.transferred))
  {}

  lemma HonestSenderMove(sys: System, c: Choice)
    requires Inv(sys) && Cut(sys) + 1 < U32 && SenderHonest(sys)
    ensures SenderHonest(Apply(sys, SenderMoves(c)))
  {
    hide SenderStep, ReceiverInv, Genuine, WindowInv, FairCuts;
    var after := Apply(sys, SenderMoves(c));
    SenderBounds(sys.source, sys.cuts, sys.s);
    ReceiverBounds(sys.source, sys.cuts, sys.r);
    MoveKeeps(sys.source, sys.cuts, sys.s, c);
    MoveIsHonest(sys.source, sys.cuts, sys.s, sys.toReceiver, c);
    ReadStays(sys.source, sys.s, c);
    forall f | f in sys.toReceiver ensures SentHonest(sys.source, after.cuts, f) {
      if after.cuts != sys.cuts {
        assert after.cuts == sys.cuts + [after.s.read];
      }
    }
  }

  lemma HonestOtherStep(sys: System, step: Step)
    requires WellFormed(sys) && SenderHonest(sys) && !step.SenderMoves?
    ensures SenderHonest(Apply(sys, step))
  {
    hide Receive, FairCuts;
  }

  /** Over every run with fewer than 2^32 - 1 chunks: no chunk is empty or longer than 1120 bytes,
      a chunk marked final ends the source, the sender's completion gives the size of the source
      and the number of its last chunk, and at most 16 acknowledgements are queued. */
  lemma {:induction false} SenderIsHonest(source: Bytes, script: seq<Step>)
    ensures Cut(Run(source, script)) + 1 < U32 ==> SenderHonest(Run(source, script))
    decreases |script|
  {
    hide SenderHonest, Inv, Apply;
    if script == [] {
      HonestStart(source);
    } else if Cut(Run(source, script)) + 1 < U32 {
      var before, step := script[..|script| - 1], script[|script| - 1];
      CutsGrowOnly(source, script, |script| - 1);
      SenderIsHonest(source, before);
      RunKeeps(source, before);
      if step.SenderMoves? {
        HonestSenderMove(Run(source, before), step.c);
      } else {
        HonestOtherStep(Run(source, before), step);
      }
    }
  }

  lemma HonestStart(source: Bytes)
    ensures SenderHonest(Initial(source))
  {}

  /** Sender invariant over every run: the pending chunks are the contiguous interval ending
      at `nextSequence - 1`, at most eight; released and pending bytes add up to the bytes
      read; and each pending chunk carries its own bytes at its own file position. */
  lemma WindowIsContiguous(source: Bytes, script: seq<Step>)
    ensures var sys := Run(source, script);
            Cut(sys) < U32 && !sys.s.at.Aborted? ==>
              && |sys.s.pending| <= 8
              && Pred(sys.s.next) == Cut(sys)
              && Interval(sys.s.pending, Cut(sys) - |sys.s.pending|, Cut(sys))
              && sys.s.transferred + PendingBytes(sys.s.pending) == sys.s.read
              && (forall q :: q in sys.s.pending ==> InPlace(source, sys.cuts, q, sys.s.pending[q].frame))
  {
    RunKeeps(source, script);
    var sys := Run(source, script);
    if Cut(sys) < U32 && !sys.s.at.Aborted? {
      WindowMeans(source, sys.cuts, sys.s);
    }
  }

  /** Chunk `q` carries the bytes between its two cuts, under its number and its position. */
  ghost predicate InPlace(source: Bytes, cuts: seq<nat>, q: Sequence, f: Frame) {
    && f.Chunk? && f.sequence == q && 1 <= q < |cuts| && f.offset == cuts[q - 1] <= cuts[q] <= |source|
    && f.data == source[cuts[q - 1]..cuts[q]]
  }

  lemma WindowMeans(source: Bytes, cuts: seq<nat>, s: Sender)
    requires 0 < |cuts| <= U32 && Window(source, cuts, s)
    ensures s.transferred + PendingBytes(s.pending) == cuts[|cuts| - 1]
    ensures forall q :: q in s.pending ==> InPlace(source, cuts, q, s.pending[q].frame)
  {
    hide PendingBytes, PendingOk, InPlace;
    IntervalBytes(source, cuts, s.pending, |cuts| - 1 - |s.pending|, |cuts| - 1);
    forall q | q in s.pending ensures InPlace(source, cuts, q, s.pending[q].frame) {
      PendingInPlace(source, cuts, q, s.pending[q]);
    }
  }

  lemma PendingInPlace(source: Bytes, cuts: seq<nat>, q: Sequence, p: PendingChunk)
    requires PendingOk(source, cuts, q, p)
    ensures InPlace(source, cuts, q, p.frame)
  {}

  // One loss-free pass over the pending chunks, and the last acknowledgement it draws.
  function Deliver(r: Receiver, frames: seq<Frame>): (result: (Receiver, Option<Frame>))
    requires r.disk <= r.content
    ensures result.0.disk <= result.0.content
    decreases |frames|
  {
    if frames == [] then (r, None)
    else Receive(Deliver(r, frames[..|frames| - 1]).0, frames[|frames| - 1], Io(true, true, 0))
  }

  /** After the first `i` frames of the pass the receiver has accepted everything up to the
      `i`-th pending chunk, or what it already had. */
  lemma {:induction false} PassReaches(source: Bytes, cuts: seq<nat>, r: Receiver, frames: seq<Frame>, base: nat)
    requires 0 < |cuts| <= U32 && ReceiverInv(source, cuts, r) && r.open && !r.broken
    requires base <= Accepted(r) && base + |frames| < |cuts|
    requires forall i :: 0 <= i < |frames| ==> Genuine(source, cuts, frames[i]) && frames[i].sequence == base + 1 + i
    ensures var (after, reply) := Deliver(r, frames);
            var reached := if Accepted(r) < base + |frames| then base + |frames| else Accepted(r);
            && ReceiverInv(source, cuts, after) && after.open && !after.broken
            && Accepted(after) == reached
            && (frames != [] ==> reply.Some? && reply.value.Ack? && reply.value.ack == reached)
    decreases |frames|
  {
    if frames != [] {
      var front := frames[..|frames| - 1];
      PassReaches(source, cuts, r, front, base);
      ReceiverKeeps(source, cuts, Deliver(r, front).0, frames[|frames| - 1], Io(true, true, 0));
    }
  }

  /** Progress: from every reachable state with a working receiver, one loss-free resend pass
      makes it accept every pending chunk it lacks, and the acknowledgement drawn by the last
      frame, once taken, empties the window. */
  lemma ResendPassCatchesUp(source: Bytes, script: seq<Step>)
    ensures var sys := Run(source, script);
            Cut(sys) < U32 && !sys.s.at.Aborted? && sys.s.pending != map[] && sys.r.open && !sys.r.broken ==>
              var (after, reply) := Deliver(sys.r, ResendFrames(sys.s.pending));
              && Accepted(after) == Cut(sys)
              && after.content == source[..sys.s.read]
              && reply.Some? && reply.value.Ack?
              && Unacked(sys.s.pending, reply.value.ack) == map[]
              && sys.s.transferred + PendingBytes(Acked(sys.s.pending, reply.value.ack)) == sys.s.read
  {
    RunKeeps(source, script);
    var sys := Run(source, script);
    if Cut(sys) < U32 && !sys.s.at.Aborted? && sys.s.pending != map[] && sys.r.open && !sys.r.broken {
      PassEmpties(source, sys.cuts, sys.s, sys.r);
    }
  }

  lemma PassEmpties(source: Bytes, cuts: seq<nat>, s: Sender, r: Receiver)
    requires 0 < |cuts| <= U32 && Window(source, cuts, s) && ReceiverInv(source, cuts, r)
    requires |cuts| - 1 - |s.pending| <= Accepted(r) && s.pending != map[] && r.open && !r.broken
    ensures var (after, reply) := Deliver(r, ResendFrames(s.pending));
            && Accepted(after) == |cuts| - 1 && after.open && !after.broken
            && cuts[|cuts| - 1] <= |source| && after.content == source[..cuts[|cuts| - 1]]
            && reply.Some? && reply.value.Ack?
            && Unacked(s.pending, reply.value.ack) == map[]
            && s.transferred + PendingBytes(Acked(s.pending, reply.value.ack)) == cuts[|cuts| - 1]
  {
    hide PendingOk, PendingBytes, Genuine, Receive, ResendFrames, Deliver, Acked, Unacked, Interval;
    var n := |cuts| - 1;
    var base := n - |s.pending|;
    AckingAll(s.pending, base, n);
    ResendOrder(source, cuts, s.pending, base, n);
    PassReaches(source, cuts, r, ResendFrames(s.pending), base);
    IntervalBytes(source, cuts, s.pending, base, n);
  }

  lemma AckingAll(pending: map<Sequence, PendingChunk>, base: int, n: Sequence)
    requires Interval(pending, base, n)
    ensures 0 <= base <= n && Acked(pending, n) == pending && Unacked(pending, n) == map[]
  {}

  // -------------------------------------------------------- every transfer can still finish

  ghost function Goes(sys: System, steps: seq<Step>): (after: System)
    requires WellFormed(sys)
    ensures WellFormed(after) && after.source == sys.source
    decreases |steps|
  {
    if steps == [] then sys else Goes(Apply(sys, steps[0]), steps[1..])
  }

  lemma {:induction false} GoesThen(sys: System, a: seq<Step>, b: seq<Step>)
    requires WellFormed(sys)
    ensures Goes(sys, a + b) == Goes(Goes(sys, a), b)
    decreases |a|
  {
    hide Apply, WellFormed;
    if a == [] {
      assert a + b == b;
    } else {
      assert (a + b)[1..] == a[1..] + b;
      GoesThen(Apply(sys, a[0]), a[1..], b);
    }
  }

  lemma GoesOne(sys: System, step: Step)
    requires WellFormed(sys)
    ensures Goes(sys, [step]) == Apply(sys, step)
  {
    hide Apply, WellFormed;
    assert [step][1..] == [];
  }

  lemma {:induction false} RunGoes(source: Bytes, script: seq<Step>, more: seq<Step>)
    ensures Run(source, script + more) == Goes(Run(source, script), more)
    decreases |more|
  {
    hide Apply, WellFormed;
    if more == [] {
      assert script + more == script;
    } else {
      var front, last := more[..|more| - 1], more[|more| - 1];
      assert more == front + [last];
      assert (script + more)[..|script + more| - 1] == script + front;
      RunGoes(source, script, front);
      GoesThen(Run(source, script), front, [last]);
      GoesOne(Run(source, script + front), last);
    }
  }

  /** How many full reads the rest of the source takes. */
  function ChunksLeft(rest: nat): nat {
    if rest == 0 then 0 else if rest <= CHUNK_SIZE then 1 else 1 + ChunksLeft(rest - CHUNK_SIZE)
  }

  ghost function Rest(sys: System): nat requires WellFormed(sys) { |sys.source| - sys.s.read }

  /** The sender has not aborted, the receiver works, and the numbers suffice for the rest. */
  ghost predicate Healthy(sys: System) {
    Inv(sys) && !sys.s.at.Aborted? && sys.r.open && !sys.r.broken && Cut(sys) + ChunksLeft(Rest(sys)) < U32
  }

  ghost predicate Delivered(sys: System) { sys.s.at.Finished? && !sys.r.open && sys.r.disk == sys.source }

  lemma ReadOn(sys: System) returns (step: Step)
    requires Healthy(sys) && sys.s.at.Filling?
    ensures var after := Apply(sys, step);
            && Healthy(after) && after.s.acks == sys.s.acks
            && (Rest(sys) > 0 ==> Rest(after) < Rest(sys))
            && (Rest(sys) == 0 ==> after.s == sys.s.(at := Waiting))
  {
    hide SenderInv, ReceiverInv, ChannelInv, PendingBytes;
    var c := Read(CHUNK_SIZE, if Rest(sys) <= CHUNK_SIZE then Eof else NoError, true);
    step := SenderMoves(c);
    SenderBounds(sys.source, sys.cuts, sys.s);
    SenderKeeps(sys, c);
  }

  lemma Drain(sys: System)
    requires Healthy(sys) && sys.s.at.Waiting? && sys.s.pending != map[] && sys.s.acks != []
    ensures var after := Apply(sys, SenderMoves(TakeAck));
            && Healthy(after) && after.s.acks == sys.s.acks[1..] && Rest(after) == Rest(sys)
            && after.s.pending == Unacked(sys.s.pending, sys.s.acks[0])
  {
    hide SenderInv, ReceiverInv, ChannelInv, PendingBytes, Acked, Unacked;
    SenderKeeps(sys, TakeAck);
  }

  const WORKS := Io(true, true, 0)

  ghost function Deliveries(frames: seq<Frame>): seq<Step> {
    seq(|frames|, i requires 0 <= i < |frames| => DeliverToReceiver(frames[i], WORKS))
  }

  /** Delivering frames that are in the channel, one after the other. */
  lemma {:induction false} DeliverInOrder(sys: System, frames: seq<Frame>)
    requires Inv(sys) && forall f :: f in frames ==> f in sys.toReceiver
    ensures var after, (r, reply) := Goes(sys, Deliveries(frames)), Deliver(sys.r, frames);
            && after == sys.(r := r, toSender := after.toSender) && Inv(after)
            && (reply.Some? ==> reply.value in after.toSender)
    decreases |frames|
  {
    hide SenderInv, ReceiverInv, ChannelInv, Receive;
    if frames != [] {
      var front, last := frames[..|frames| - 1], frames[|frames| - 1];
      assert frames == front + [last];
      DeliverInOrder(sys, front);
      assert Deliveries(frames) == Deliveries(front) + [DeliverToReceiver(last, WORKS)];
      GoesThen(sys, Deliveries(front), [DeliverToReceiver(last, WORKS)]);
      var mid := Goes(sys, Deliveries(front));
      GoesOne(mid, DeliverToReceiver(last, WORKS));
      DeliveryKeeps(mid, last, WORKS);
    }
  }

  /** One resend pass: everything pending reaches the receiver, and its last acknowledgement is
      waiting at the sender. */
  lemma PassSteps(sys: System) returns (steps: seq<Step>)
    requires Healthy(sys) && sys.s.at.Waiting? && sys.s.pending != map[] && sys.s.acks == []
    ensures var after := Goes(sys, steps);
            && Healthy(after) && after.s == Top(sys.s).(acks := after.s.acks) && |after.s.acks| == 1
            && Unacked(sys.s.pending, after.s.acks[0]) == map[]
  {
    hide SenderInv, ReceiverInv, ChannelInv, ResendFrames, Unacked, Deliver, SenderStep;
    var frames := ResendFrames(sys.s.pending);
    var resend := SenderMoves(Timeout(|sys.s.pending|));
    SenderKeeps(sys, Timeout(|sys.s.pending|));
    ResendStep(sys);
    var resent := Apply(sys, resend);
    DeliverInOrder(resent, frames);
    var (r, reply) := Deliver(sys.r, frames);
    var passed := Goes(resent, Deliveries(frames));
    PassFacts(sys);
    var queue := DeliverToSender(reply.value);
    QueueKeeps(passed, reply.value);
    steps := [resend] + Deliveries(frames) + [queue];
    GoesThen(sys, [resend] + Deliveries(frames), [queue]);
    GoesThen(sys, [resend], Deliveries(frames));
    GoesOne(sys, resend);
    GoesOne(passed, queue);
  }

  lemma ResendStep(sys: System)
    requires WellFormed(sys) && sys.s.at.Waiting? && sys.s.pending != map[]
    ensures var after := Apply(sys, SenderMoves(Timeout(|sys.s.pending|)));
            && after == sys.(s := Top(sys.s), toReceiver := after.toReceiver)
            && forall f :: f in ResendFrames(sys.s.pending) ==> f in after.toReceiver
  {
    hide ResendFrames;
  }

  lemma PassFacts(sys: System)
    requires Healthy(sys) && sys.s.at.Waiting? && sys.s.pending != map[]
    ensures var (r, reply) := Deliver(sys.r, ResendFrames(sys.s.pending));
            && r.open && !r.broken
            && reply.Some? && reply.value.Ack? && Unacked(sys.s.pending, reply.value.ack) == map[]
  {
    hide ResendFrames, Deliver, Unacked, Acked, PendingBytes, ReceiverInv, WindowInv, CutsOk;
    CutsNonempty(sys.source, sys.cuts, sys.s.read);
    PassEmpties(sys.source, sys.cuts, sys.s, sys.r);
  }

  /** From a full or final window with no acknowledgement queued to an empty window. */
  lemma Round(sys: System) returns (steps: seq<Step>)
    requires Healthy(sys) && sys.s.at.Waiting? && sys.s.pending != map[] && sys.s.acks == []
    ensures var after := Goes(sys, steps);
            Healthy(after) && after.s.acks == [] && after.s.pending == map[] && Rest(after) == Rest(sys)
  {
    hide ReceiverInv, ChannelInv, Apply, Unacked, WindowInv, CutsOk;
    steps := PassSteps(sys);
    var passed := Goes(sys, steps);
    if passed.s.at.Filling? {
      var read := ReadOn(passed);
      GoesThen(sys, steps, [read]);
      GoesOne(passed, read);
      steps, passed := steps + [read], Apply(passed, read);
    }
    Drain(passed);
    GoesThen(sys, steps, [SenderMoves(TakeAck)]);
    GoesOne(passed, SenderMoves(TakeAck));
    steps := steps + [SenderMoves(TakeAck)];
  }

  lemma FinishUp(sys: System) returns (steps: seq<Step>)
    requires Healthy(sys) && sys.s.at.Waiting? && sys.s.pending == map[]
    ensures Delivered(Goes(sys, steps))
  {
    hide WindowInv, CutsOk, Genuine;
    var finish := SenderMoves(Finish(true));
    SenderKeeps(sys, Finish(true));
    var last := DeliverLast(Apply(sys, finish));
    steps := [finish] + last;
    GoesThen(sys, [finish], last);
    GoesOne(sys, finish);
  }

  lemma DeliverLast(sys: System) returns (steps: seq<Step>)
    requires Inv(sys) && Cut(sys) < U32 && sys.s.at.Finished? && sys.r.open && !sys.r.broken
    ensures Delivered(Goes(sys, steps))
  {
    hide WindowInv, CutsOk, Genuine;
    var f :| f in sys.toReceiver && f.Complete?;
    steps := [DeliverToReceiver(f, WORKS)];
    GoesOne(sys, steps[0]);
    DeliveryKeeps(sys, f, WORKS);
  }

  lemma {:induction false} CanFinish(sys: System) returns (steps: seq<Step>)
    requires Healthy(sys)
    ensures Delivered(Goes(sys, steps))
    decreases Rest(sys), |sys.s.acks|, |sys.s.pending|, if sys.s.at.Filling? then 1 else 0
  {
    hide SenderInv, ReceiverInv, ChannelInv, Apply, Delivered, ChunksLeft;
    var first: seq<Step>;
    if sys.s.at.Finished? {
      steps := DeliverLast(sys);
      return;
    } else if sys.s.at.Filling? {
      var read := ReadOn(sys);
      first := [read];
      GoesOne(sys, read);
    } else if sys.s.pending == map[] {
      steps := FinishUp(sys);
      return;
    } else if sys.s.acks != [] {
      Drain(sys);
      first := [SenderMoves(TakeAck)];
      GoesOne(sys, first[0]);
    } else {
      first := Round(sys);
    }
    var rest := CanFinish(Goes(sys, first));
    GoesThen(sys, first, rest);
    steps := first + rest;
  }

  /** From every reachable state with a sender that has not aborted, a working receiver and
      numbers enough for the rest of the source, the transfer can still run to its end: some
      continuation finishes the sender with the whole source in the receiver's file. */
  lemma TransferCanFinish(source: Bytes, script: seq<Step>) returns (more: seq<Step>)
    requires var sys := Run(source, script);
             !sys.s.at.Aborted? && sys.r.open && !sys.r.broken && Cut(sys) + ChunksLeft(|source| - sys.s.read) < U32
    ensures var sys := Run(source, script + more);
            sys.s.at.Finished? && !sys.r.open && sys.r.disk == source
  {
    hide Inv, Run, Goes, Apply, ChunksLeft;
    RunKeeps(source, script);
    more := CanFinish(Run(source, script));
    RunGoes(source, script, more);
  }
}
