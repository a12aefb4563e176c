/** Frames of the election protocol, cut out of a byte stream that arrives in arbitrary pieces. */
module VoteStream {
  import opened Common

  const BUFFER_SIZE := 1024
  const HEADER_SIZE := 4
  const VOTE_SIZE := 24
  const PONG := 1
  const VOTE := 2

  function Int16(lo: byte, hi: byte): int {
    var u := lo as int + 256 * (hi as int);
    if u < 0x8000 then u else u - 0x1_0000
  }

  function SizeOf(b: Bytes): int
    requires HEADER_SIZE <= |b|
  {
    Int16(b[0], b[1])
  }

  function IdOf(b: Bytes): int
    requires HEADER_SIZE <= |b|
  {
    Int16(b[2], b[3])
  }

  /** A header the loop can act on: it moves forward, and a vote lies inside its frame. */
  predicate HeaderOk(b: Bytes)
    requires HEADER_SIZE <= |b|
  {
    0 < SizeOf(b) && (IdOf(b) == VOTE ==> HEADER_SIZE + VOTE_SIZE <= SizeOf(b))
  }

  /** What the code does on one complete frame. */
  datatype Action = Alive | Deliver(vote: Bytes) | Ignore

  function ActionOf(b: Bytes): Action
    requires HEADER_SIZE <= |b| && HeaderOk(b) && SizeOf(b) <= |b|
  {
    if IdOf(b) == PONG then Alive
    else if IdOf(b) == VOTE then Deliver(b[HEADER_SIZE..HEADER_SIZE + VOTE_SIZE])
    else Ignore
  }

  /** How a turn ends: all complete frames have been acted on; or a frame declares no positive size,
      and the loop repeats itself or leaves the buffer; or a vote's frame is too short for a vote, and
      the loop goes on with a vote that it has read past the frame's end. */
  datatype End = Waiting | Backward | ShortVote

  function Verdict(b: Bytes): End
    requires HEADER_SIZE <= |b|
  {
    if SizeOf(b) <= 0 then Backward else if HeaderOk(b) then Waiting else ShortVote
  }

  datatype Parsed = Parsed(actions: seq<Action>, rest: Bytes, end: End) {
    predicate Ok() {
      end.Waiting?
    }
  }

  function After(actions: seq<Action>, p: Parsed): Parsed {
    p.(actions := actions + p.actions)
  }

  function Parse(b: Bytes): (p: Parsed)
    ensures |p.rest| <= |b|
    decreases |b|
  {
    if |b| < HEADER_SIZE || |b| < SizeOf(b) then Parsed([], b, Waiting)
    else if !HeaderOk(b) then Parsed([], b, Verdict(b))
    else After([ActionOf(b)], Parse(b[SizeOf(b)..]))
  }

  function Votes(actions: seq<Action>): seq<Bytes> {
    if actions == [] then []
    else (if actions[0].Deliver? then [actions[0].vote] else []) + Votes(actions[1..])
  }

  /** What a receiver has to show: the votes on the channel and the time of the last sign of life. */
  datatype Outcome = Outcome(ch: seq<Bytes>, tick: int)

  function Act(o: Outcome, action: Action, now: int): Outcome {
    match action
    case Alive => o.(tick := now)
    case Deliver(vote) => o.(ch := o.ch + [vote])
    case Ignore => o
  }

  datatype Played = Played(o: Outcome, end: End, rest: Bytes)

  /** What becomes of the first frame, by its four header bytes: size and type, each as a signed 16-bit
      number with its low byte first. */
  lemma FirstHeaderDecides(b: Bytes)
    requires 4 <= |b|
    ensures var size := b[0] as int + 256 * b[1] as int - if 128 <= b[1] then 0x1_0000 else 0;
            var id := b[2] as int + 256 * b[3] as int - if 128 <= b[3] then 0x1_0000 else 0;
            if |b| < size then Parse(b) == Parsed([], b, Waiting)
            else if size <= 0 then Parse(b) == Parsed([], b, Backward)
            else if id == 2 && size < 28 then Parse(b) == Parsed([], b, ShortVote)
            else Parse(b) == After([if id == 1 then Alive else if id == 2 then Deliver(b[4..28]) else Ignore],
                                   Parse(b[size..]))
  {
  }

  /** Acting on the frames of `b` one by one. */
  function Play(o: Outcome, b: Bytes, now: int): Played
    decreases |b|
  {
    if |b| < HEADER_SIZE || |b| < SizeOf(b) then Played(o, Waiting, b)
    else if !HeaderOk(b) then Played(o, Verdict(b), b)
    else Play(Act(o, ActionOf(b), now), b[SizeOf(b)..], now)
  }

  ghost predicate Comes(o: Outcome, b: Bytes, now: int, r: Played) {
    Play(o, b, now) == r
  }

  /** Whatever comes of acting on `b'` from `o'` comes of acting on `b` from `o`. */
  ghost predicate SameFrom(o: Outcome, b: Bytes, now: int, o': Outcome, b': Bytes) {
    forall r :: Comes(o', b', now, r) ==> Comes(o, b, now, r)
  }

  /** That delivers exactly the votes that the bytes hold, in order. */
  lemma {:induction false} PlayIsParse(o: Outcome, b: Bytes, now: int)
    ensures var p := Parse(b);
            var o' := Outcome(o.ch + Votes(p.actions), if Alive in p.actions then now else o.tick);
            Play(o, b, now) == Played(o', p.end, p.rest)
    decreases |b|
  {
    if |b| < HEADER_SIZE || |b| < SizeOf(b) || !HeaderOk(b) {
      assert o.ch + [] == o.ch;
    } else {
      var p := Parse(b[SizeOf(b)..]);
      PlayIsParse(Act(o, ActionOf(b), now), b[SizeOf(b)..], now);
      VotesThen(o.ch, ActionOf(b), p.actions);
    }
  }

  lemma VotesThen(ch: seq<Bytes>, action: Action, actions: seq<Action>)
    ensures ch + Votes([action] + actions) ==
              (if action.Deliver? then ch + [action.vote] else ch) + Votes(actions)
  {
    assert ([action] + actions)[1..] == actions;
  }

  /** Nothing in `b` can be acted on, and `end` says why. */
  ghost predicate Ends(b: Bytes, end: End) {
    if |b| < HEADER_SIZE || |b| < SizeOf(b) then end.Waiting? else !HeaderOk(b) && end == Verdict(b)
  }

  /** The receiving side of one connection; `ch` is the channel votes are put on. */
  class VoteReceiver {
    const buff: array<byte>
    var offset: int
    var activeTick: int
    var ch: seq<Bytes>

    ghost predicate Valid()
      reads this
    {
      buff.Length == BUFFER_SIZE && 0 <= offset <= BUFFER_SIZE
    }

    ghost function Contents(): Bytes
      requires Valid()
      reads this, buff
    {
      buff[..offset]
    }

    ghost function Shown(): Outcome
      reads this
    {
      Outcome(ch, activeTick)
    }

    constructor (now: int)
      ensures Valid() && fresh(buff) && Contents() == [] && ch == [] && activeTick == now
    {
      buff := new byte[BUFFER_SIZE];
      offset, activeTick, ch := 0, now, [];
    }

    method Store(data: Bytes)
      requires Valid() && offset + |data| <= BUFFER_SIZE
      modifies this`offset, buff
      ensures Valid() && Contents() == old(Contents()) + data
    {
      forall i | 0 <= i < |data| {
        buff[offset + i] := data[i];
      }
      offset := offset + |data|;
    }

    /** Moves what has not been used to the front. */
    method Compact(pos: int)
      requires Valid() && 0 <= pos <= offset
      modifies this`offset, buff
      ensures Valid() && Contents() == old(Contents())[pos..]
    {
      if pos < offset {
        forall i | 0 <= i < offset - pos {
          buff[i] := buff[pos + i];
        }
        offset := offset - pos;
      } else {
        offset := 0;
      }
    }

    method Header(pos: int) returns (size: int, id: int)
      requires Valid() && 0 <= pos && HEADER_SIZE <= offset - pos
      ensures size == SizeOf(Contents()[pos..]) && id == IdOf(Contents()[pos..])
    {
      size, id := Int16(buff[pos], buff[pos + 1]), Int16(buff[pos + 2], buff[pos + 3]);
    }

    /** Looks at the frame `b` at `pos` and acts on it, unless it is incomplete or malformed. */
    method Frame(pos: int, now: int, ghost b: Bytes) returns (size: int, stop: bool, end: End)
      requires Valid() && 0 <= pos && HEADER_SIZE <= offset - pos && b == Contents()[pos..]
      modifies this`ch, this`activeTick
      ensures size == SizeOf(b)
      ensures if stop then Ends(b, end) && Shown() == old(Shown())
              else size <= |b| && HeaderOk(b) && end.Waiting? && Shown() == Act(old(Shown()), ActionOf(b), now)
    {
      var id;
      size, id := Header(pos);
      stop, end := false, Waiting;
      if offset - pos < size {
        stop := true;
      } else if size <= 0 {
        stop, end := true, Backward;
      } else if id == PONG {
        activeTick := now;
      } else if id == VOTE {
        if size < HEADER_SIZE + VOTE_SIZE {
          stop, end := true, ShortVote;
        } else {
          SliceOfTail(buff[..offset], pos, HEADER_SIZE, HEADER_SIZE + VOTE_SIZE);
          ch := ch + [buff[..offset][pos + HEADER_SIZE..pos + HEADER_SIZE + VOTE_SIZE]];
        }
      }
    }

    /** The loop over the frames in the buffer; `pos` is where it stops. */
    method Drain(now: int, ghost all: Bytes) returns (end: End, pos: int)
      requires Valid() && all == Contents()
      modifies this`ch, this`activeTick
      ensures 0 <= pos <= offset
      ensures Comes(old(Shown()), all, now, Played(Shown(), end, all[pos..]))
    {
      var stop := false;
      pos, end := 0, Waiting;
      PlayFromFirst(Shown(), all, now);
      while !stop && HEADER_SIZE <= offset - pos
        invariant 0 <= pos <= offset && SameFrom(old(Shown()), all, now, Shown(), all[pos..])
        invariant if stop then Ends(all[pos..], end) else end.Waiting?
        decreases offset - pos, !stop
      {
        ghost var o := Shown();
        var size;
        size, stop, end := Frame(pos, now, all[pos..]);
        if !stop {
          PlayNext(old(Shown()), o, all, pos, now);
          pos := pos + size;
        }
      }
      PlayStops(old(Shown()), Shown(), all, pos, now, end);
    }

    /** One turn of the receive loop, up to the first header that the loop cannot act on properly. */
    method OnRecv(data: Bytes, now: int) returns (end: End)
      requires Valid() && offset + |data| <= BUFFER_SIZE
      modifies this, buff
      ensures Valid()
      ensures var p := Parse(old(Contents()) + data);
              && end == p.end
              && (end.Waiting? ==> Contents() == p.rest)
              && ch == old(ch) + Votes(p.actions)
              && activeTick == if Alive in p.actions then now else old(activeTick)
    {
      Store(data);
      ghost var all := Contents();
      var pos;
      end, pos := Drain(now, all);
      PlayIsParse(old(Shown()), all, now);
      if end.Waiting? {
        Compact(pos);
      }
    }
  }

  lemma SliceOfTail(b: Bytes, pos: nat, from: nat, to: nat)
    requires from <= to && pos + to <= |b|
    ensures b[pos..][from..to] == b[pos + from..pos + to]
  {
  }

  lemma PlayFromFirst(o: Outcome, all: Bytes, now: int)
    ensures SameFrom(o, all, now, o, all[0..])
  {
    assert all[0..] == all;
  }

  /** One turn. */
  lemma PlayNext(o0: Outcome, o: Outcome, all: Bytes, pos: nat, now: int)
    requires pos <= |all| && SameFrom(o0, all, now, o, all[pos..])
    requires var b := all[pos..]; HEADER_SIZE <= |b| && SizeOf(b) <= |b| && HeaderOk(b)
    ensures var b := all[pos..]; SameFrom(o0, all, now, Act(o, ActionOf(b), now), all[pos + SizeOf(b)..])
  {
    var b := all[pos..];
    assert b[SizeOf(b)..] == all[pos + SizeOf(b)..];
    forall r | Comes(Act(o, ActionOf(b), now), all[pos + SizeOf(b)..], now, r)
      ensures Comes(o, b, now, r)
    {
    }
  }

  lemma PlayStops(o0: Outcome, o: Outcome, all: Bytes, pos: nat, now: int, end: End)
    requires pos <= |all| && SameFrom(o0, all, now, o, all[pos..]) && Ends(all[pos..], end)
    ensures Comes(o0, all, now, Played(o, end, all[pos..]))
  {
    assert Comes(o, all[pos..], now, Played(o, end, all[pos..]));
  }

  // ---- The stream, however it is split ----

  lemma FirstOfTwo(a: Bytes, b: Bytes)
    requires HEADER_SIZE <= |a| && SizeOf(a) <= |a| && HeaderOk(a)
    ensures Parse(a + b) == After([ActionOf(a)], Parse(a[SizeOf(a)..] + b))
  {
    assert SizeOf(a + b) == SizeOf(a) && IdOf(a + b) == IdOf(a);
    assert ActionOf(a + b) == ActionOf(a);
    assert (a + b)[SizeOf(a)..] == a[SizeOf(a)..] + b;
  }

  lemma AfterTwice(x: seq<Action>, y: seq<Action>, p: Parsed)
    ensures After(x, After(y, p)) == After(x + y, p)
  {
    assert x + (y + p.actions) == x + y + p.actions;
  }

  lemma {:induction false} ParseInTwo(a: Bytes, b: Bytes)
    ensures Parse(a).Ok() ==> Parse(a + b) == After(Parse(a).actions, Parse(Parse(a).rest + b))
    ensures !Parse(a).Ok() ==> Parse(a + b).end == Parse(a).end
    decreases |a|
  {
    if HEADER_SIZE <= |a| && SizeOf(a) <= |a| {
      if HeaderOk(a) {
        var p := Parse(a[SizeOf(a)..]);
        FirstOfTwo(a, b);
        ParseInTwo(a[SizeOf(a)..], b);
        AfterTwice([ActionOf(a)], p.actions, Parse(p.rest + b));
      } else {
        assert SizeOf(a + b) == SizeOf(a) && IdOf(a + b) == IdOf(a);
      }
    } else {
      AfterNothing(Parse(a + b));
    }
  }

  lemma AfterNothing(p: Parsed)
    ensures After([], p) == p
  {
    assert [] + p.actions == p.actions;
  }

  /** All that recv returns on one connection, turn by turn: actions, what stays in the buffer, and
      how it ends. */
  function Feed(rest: Bytes, chunks: seq<Bytes>): Parsed
    decreases |chunks|
  {
    if chunks == [] then Parsed([], rest, Waiting)
    else
      var p := Parse(rest + chunks[0]);
      if !p.Ok() then p else After(p.actions, Feed(p.rest, chunks[1..]))
  }

  function Concat(chunks: seq<Bytes>): Bytes {
    if chunks == [] then [] else chunks[0] + Concat(chunks[1..])
  }

  /** What is left over has nothing in it to act on. */
  lemma {:induction false} RestIsIncomplete(b: Bytes)
    requires Parse(b).Ok()
    ensures Parse(Parse(b).rest) == Parsed([], Parse(b).rest, Waiting)
    decreases |b|
  {
    if HEADER_SIZE <= |b| && SizeOf(b) <= |b| {
      RestIsIncomplete(b[SizeOf(b)..]);
    }
  }

  /** However the stream is split, the outcome is that of the whole stream in one piece. */
  lemma {:induction false} SplittingDoesNotMatter(rest: Bytes, chunks: seq<Bytes>)
    requires Parse(rest) == Parsed([], rest, Waiting)
    ensures Feed(rest, chunks).end == Parse(rest + Concat(chunks)).end
    ensures Feed(rest, chunks).Ok() ==> Feed(rest, chunks) == Parse(rest + Concat(chunks))
    decreases |chunks|
  {
    if chunks == [] {
      assert rest + [] == rest;
    } else {
      var first, more := rest + chunks[0], Concat(chunks[1..]);
      assert rest + Concat(chunks) == first + more;
      ParseInTwo(first, more);
      if Parse(first).Ok() {
        RestIsIncomplete(first);
        SplittingDoesNotMatter(Parse(first).rest, chunks[1..]);
      }
    }
  }

  /** Every header, the incomplete last one included, declares a size the buffer can hold. */
  ghost predicate WellFormed(b: Bytes)
    decreases |b|
  {
    HEADER_SIZE <= |b| ==>
      HeaderOk(b) && SizeOf(b) <= BUFFER_SIZE && (SizeOf(b) <= |b| ==> WellFormed(b[SizeOf(b)..]))
  }

  /** The buffer is left without free space exactly when a frame is declared larger than the buffer. */
  lemma {:induction false} RoomIsLeftIff(b: Bytes)
    requires Parse(b).Ok() && |b| <= BUFFER_SIZE
    ensures |Parse(b).rest| == BUFFER_SIZE <==> |b| == BUFFER_SIZE && BUFFER_SIZE < SizeOf(b)
  {
    if HEADER_SIZE <= |b| && SizeOf(b) <= |b| {
      assert |Parse(b).rest| <= |b[SizeOf(b)..]|;
    }
  }

  lemma {:induction false} WellFormedPrefix(a: Bytes, b: Bytes)
    requires WellFormed(a + b)
    ensures Parse(a).Ok() && WellFormed(a) && WellFormed(Parse(a).rest + b) && |Parse(a).rest| < BUFFER_SIZE
    decreases |a|
  {
    if HEADER_SIZE <= |a| {
      assert SizeOf(a + b) == SizeOf(a) && IdOf(a + b) == IdOf(a);
      if SizeOf(a) <= |a| {
        assert (a + b)[SizeOf(a)..] == a[SizeOf(a)..] + b;
        WellFormedPrefix(a[SizeOf(a)..], b);
      }
    }
  }

  /** Whenever recv is called there is room, so `len` bytes are asked for with 0 < len. */
  ghost predicate AlwaysRoom(rest: Bytes, chunks: seq<Bytes>)
    decreases |chunks|
  {
    && |rest| < BUFFER_SIZE
    && (chunks != [] && Parse(rest + chunks[0]).Ok() ==> AlwaysRoom(Parse(rest + chunks[0]).rest, chunks[1..]))
  }

  lemma {:induction false} WellFormedStreamsAlwaysLeaveRoom(rest: Bytes, chunks: seq<Bytes>)
    requires WellFormed(rest + Concat(chunks)) && |rest| < BUFFER_SIZE
    ensures AlwaysRoom(rest, chunks)
    decreases |chunks|
  {
    if chunks != [] {
      assert rest + Concat(chunks) == rest + chunks[0] + Concat(chunks[1..]);
      WellFormedPrefix(rest + chunks[0], Concat(chunks[1..]));
      WellFormedStreamsAlwaysLeaveRoom(Parse(rest + chunks[0]).rest, chunks[1..]);
    }
  }

  // ---- What the other servers send ----

  datatype Message = PongMsg | VoteMsg(vote: Bytes)

  predicate Proper(m: Message) {
    m.VoteMsg? ==> |m.vote| == VOTE_SIZE
  }

  function Encode(m: Message): Bytes {
    match m
    case PongMsg => [HEADER_SIZE as byte, 0, PONG as byte, 0]
    case VoteMsg(vote) => [(HEADER_SIZE + VOTE_SIZE) as byte, 0, VOTE as byte, 0] + vote
  }

  function EncodeAll(ms: seq<Message>): Bytes {
    if ms == [] then [] else Encode(ms[0]) + EncodeAll(ms[1..])
  }

  function Sent(ms: seq<Message>): seq<Bytes> {
    if ms == [] then [] else (if ms[0].VoteMsg? then [ms[0].vote] else []) + Sent(ms[1..])
  }

  /** `p` is what comes of the first `k` messages and a piece of the next. */
  ghost predicate Delivers(p: Parsed, ms: seq<Message>, k: nat, b: Bytes)
    requires k <= |ms|
  {
    && p.Ok() && Votes(p.actions) == Sent(ms[..k]) && (Alive in p.actions <==> PongMsg in ms[..k])
    && b == EncodeAll(ms[..k]) + p.rest
    && (if k < |ms| then |p.rest| < |Encode(ms[k])| else p.rest == [])
  }

  lemma EncodedHeader(m: Message, b: Bytes, rest: Bytes)
    requires Proper(m) && HEADER_SIZE <= |b| && b <= Encode(m) + rest
    ensures HeaderOk(b) && SizeOf(b) == |Encode(m)|
  {
    assert b[..HEADER_SIZE] == Encode(m)[..HEADER_SIZE];
    assert b[0] == Encode(m)[0] && b[1] == Encode(m)[1] && b[2] == Encode(m)[2] && b[3] == Encode(m)[3];
  }

  lemma ParseFirst(m: Message, b: Bytes)
    requires Proper(m) && Encode(m) <= b
    ensures var action := if m.VoteMsg? then Deliver(m.vote) else Alive;
            Parse(b) == After([action], Parse(b[|Encode(m)|..]))
  {
    var n := |Encode(m)|;
    assert b == Encode(m) + b[n..];
    EncodedHeader(m, b, b[n..]);
    assert m.VoteMsg? ==> b[HEADER_SIZE..HEADER_SIZE + VOTE_SIZE] == m.vote;
  }

  lemma TakeOneMore(ms: seq<Message>, k: nat)
    requires ms != [] && k < |ms|
    ensures EncodeAll(ms[..k + 1]) == Encode(ms[0]) + EncodeAll(ms[1..][..k])
    ensures Sent(ms[..k + 1]) == (if ms[0].VoteMsg? then [ms[0].vote] else []) + Sent(ms[1..][..k])
  {
    assert ms[..k + 1][1..] == ms[1..][..k];
  }

  lemma OneMoreVote(m: Message, actions: seq<Action>, sent: seq<Bytes>)
    requires Votes(actions) == sent
    ensures Votes([if m.VoteMsg? then Deliver(m.vote) else Alive] + actions) ==
            (if m.VoteMsg? then [m.vote] else []) + sent
  {
    var action := if m.VoteMsg? then Deliver(m.vote) else Alive;
    assert ([action] + actions)[1..] == actions;
  }

  lemma OneMoreFrame(front: Bytes, b: Bytes, n: nat, middle: Bytes, rest: Bytes)
    requires n <= |b| && b[..n] == front && b[n..] == middle + rest
    ensures b == front + middle + rest
  {
    assert b == front + b[n..];
  }

  lemma DeliversOneMore(ms: seq<Message>, k: nat, b: Bytes, p: Parsed)
    requires ms != [] && k < |ms| && Encode(ms[0]) <= b
    requires Delivers(p, ms[1..], k, b[|Encode(ms[0])|..])
    ensures Delivers(After([if ms[0].VoteMsg? then Deliver(ms[0].vote) else Alive], p), ms, k + 1, b)
  {
    TakeOneMore(ms, k);
    OneMoreVote(ms[0], p.actions, Sent(ms[1..][..k]));
    OneMoreFrame(Encode(ms[0]), b, |Encode(ms[0])|, EncodeAll(ms[1..][..k]), p.rest);
  }

  /** `b` starts with the first message's frame; what follows is a piece of the others. */
  lemma TakeFrame(ms: seq<Message>, b: Bytes)
    requires ms != [] && b <= EncodeAll(ms) && |Encode(ms[0])| <= |b|
    ensures var n := |Encode(ms[0])|; Encode(ms[0]) <= b && b[n..] <= EncodeAll(ms[1..])
    ensures b[|Encode(ms[0])|..] == EncodeAll(ms[1..]) ==> b == EncodeAll(ms)
    ensures b == EncodeAll(ms) ==> b[|Encode(ms[0])|..] == EncodeAll(ms[1..])
  {
    var n, whole := |Encode(ms[0])|, EncodeAll(ms);
    assert whole[n..] == EncodeAll(ms[1..]) && whole[..n] == Encode(ms[0]);
    assert b == whole[..|b|];
  }

  lemma {:induction false} EncodedIsWellFormed(ms: seq<Message>, b: Bytes)
    requires (forall m :: m in ms ==> Proper(m)) && b <= EncodeAll(ms)
    ensures WellFormed(b)
    decreases |ms|
  {
    if ms != [] && HEADER_SIZE <= |b| {
      assert Proper(ms[0]);
      EncodedHeader(ms[0], b, EncodeAll(ms[1..]));
      if |Encode(ms[0])| <= |b| {
        TakeFrame(ms, b);
        EncodedIsWellFormed(ms[1..], b[|Encode(ms[0])|..]);
      }
    }
  }

  lemma ParseNothing(m: Message, b: Bytes, rest: Bytes)
    requires Proper(m) && b <= Encode(m) + rest && |b| < |Encode(m)|
    ensures Parse(b) == Parsed([], b, Waiting)
  {
    if HEADER_SIZE <= |b| {
      EncodedHeader(m, b, rest);
    }
  }

  lemma {:induction false} ParseEncoded(ms: seq<Message>, b: Bytes) returns (k: nat)
    requires (forall m :: m in ms ==> Proper(m)) && b <= EncodeAll(ms)
    ensures k <= |ms| && Delivers(Parse(b), ms, k, b)
    ensures b == EncodeAll(ms) ==> k == |ms|
    decreases |ms|
  {
    k := 0;
    if ms != [] {
      assert Proper(ms[0]);
      var n := |Encode(ms[0])|;
      if n <= |b| {
        TakeFrame(ms, b);
        var k' := ParseEncoded(ms[1..], b[n..]);
        ParseFirst(ms[0], b);
        DeliversOneMore(ms, k', b, Parse(b[n..]));
        k := k' + 1;
      } else {
        ParseNothing(ms[0], b, EncodeAll(ms[1..]));
      }
    }
  }

  lemma FeedIsParse(chunks: seq<Bytes>)
    requires Parse(Concat(chunks)).Ok()
    ensures Feed([], chunks) == Parse(Concat(chunks))
  {
    assert [] + Concat(chunks) == Concat(chunks);
    SplittingDoesNotMatter([], chunks);
  }

  /** However the bytes sent are split, and however many of them have arrived, the votes of the
      complete frames have been delivered once and in order, and the buffer holds the incomplete
      frame and nothing else. */
  lemma VotesArriveHoweverSplit(ms: seq<Message>, chunks: seq<Bytes>) returns (k: nat)
    requires (forall m :: m in ms ==> Proper(m)) && Concat(chunks) <= EncodeAll(ms)
    ensures k <= |ms| && Delivers(Feed([], chunks), ms, k, Concat(chunks))
    ensures Concat(chunks) == EncodeAll(ms) ==> k == |ms|
  {
    var whole := Concat(chunks);
    k := ParseEncoded(ms, whole);
    FeedIsParse(chunks);
  }

  /** And every time recv is called there is room for more. */
  lemma VotesAlwaysLeaveRoom(ms: seq<Message>, chunks: seq<Bytes>)
    requires (forall m :: m in ms ==> Proper(m)) && Concat(chunks) <= EncodeAll(ms)
    ensures AlwaysRoom([], chunks)
  {
    EncodedIsWellFormed(ms, Concat(chunks));
    assert [] + Concat(chunks) == Concat(chunks);
    WellFormedStreamsAlwaysLeaveRoom([], chunks);
  }
}
