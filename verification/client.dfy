/**
 * One connected client (client.go): the inbound frame filter, the outbound
 * writer, the channels that signal their shutdown, and `Close`/`Wait`.
 */
module Clients {
  import opened Wrappers
  import opened Messages

  /** Identity of a client: the `*Client` pointer the hub keeps in its list. */
  type ClientId = nat

  /** Opaque handle of the WebSocket connection a client owns. */
  type ConnId = nat

  // ---------------------------------------------------------------------------
  // readLoop: the inbound frame filter
  // ---------------------------------------------------------------------------

  /**
   * One result of the transport's `ReadMessage`: an error, a non-text frame,
   * or a text frame together with what JSON decoding makes of its payload
   * (`None` when the payload is not a valid message).
   */
  datatype Frame = ReadError | NonText | Text(decoded: Option<Message>)

  /** What readLoop has done once the transport has delivered `frames`. */
  datatype ReadOutcome = ReadOutcome(
    forwarded: seq<Message>,   // messages sent on readChan, in order
    stoppedAt: Option<nat>     // index of the read error that ended the loop, if any
  )

  /** No frame of the sequence is a read error. */
  predicate ErrorFree(frames: seq<Frame>)
    decreases |frames|
  {
    |frames| == 0 || (!frames[0].ReadError? && ErrorFree(frames[1..]))
  }

  /** A stop index moved `n` frames later, as when `n` error-free frames are read first. */
  function Shifted(n: nat, stop: Option<nat>): Option<nat> {
    if stop.Some? then Some(n + stop.value) else None
  }

  /** Two shifts add up. */
  lemma ShiftedTwice(m: nat, n: nat, stop: Option<nat>)
    ensures Shifted(m, Shifted(n, stop)) == Shifted(m + n, stop)
  {
  }

  /** Shifts an outcome computed for `frames[1..]` to be about `frames`. */
  function Later(r: ReadOutcome): ReadOutcome {
    ReadOutcome(r.forwarded, Shifted(1, r.stoppedAt))
  }

  /**
   * Past a leading frame that is not an error, error-freedom of the whole and
   * of a prefix carry over from the rest.
   */
  lemma ErrorFreeTail(frames: seq<Frame>, j: nat)
    requires |frames| > 0 && !frames[0].ReadError?
    ensures ErrorFree(frames) <==> ErrorFree(frames[1..])
    ensures j < |frames| && ErrorFree(frames[1..][..j]) ==> ErrorFree(frames[..j + 1])
  {
    if j < |frames| {
      assert frames[..j + 1][1..] == frames[1..][..j];
    }
  }

  /**
   * The read loop over the frames the transport delivers: a read error ends
   * it, a non-text frame or a text frame that does not decode is skipped, and
   * every decoded message is forwarded. When the frames run out without an
   * error the loop is still waiting for the next frame.
   */
  function ReadLoop(frames: seq<Frame>): (r: ReadOutcome)
    ensures |r.forwarded| <= |frames|
    ensures r.stoppedAt.None? <==> ErrorFree(frames)
    ensures r.stoppedAt.Some? ==>
      && r.stoppedAt.value < |frames|
      && frames[r.stoppedAt.value].ReadError?
      && ErrorFree(frames[..r.stoppedAt.value])
    decreases |frames|
  {
    if |frames| == 0 then ReadOutcome([], None)
    else if frames[0].ReadError? then
      ReadOutcome([], Some(0))
    else
      var rest := ReadLoop(frames[1..]);
      ErrorFreeTail(frames, if rest.stoppedAt.Some? then rest.stoppedAt.value else 0);
      var r := Later(rest);
      match frames[0]
      case Text(decoded) =>
        (match decoded
         case Some(m) => ReadOutcome([m] + r.forwarded, r.stoppedAt)
         case None => r)
      case _ => r
  }

  /** The messages a single frame contributes when it is read. */
  function Accepted(f: Frame): seq<Message> {
    if f.Text? && f.decoded.Some? then [f.decoded.value] else []
  }

  /** One iteration: a frame that is not an error contributes its messages ahead of the rest's. */
  lemma ReadLoopCons(frames: seq<Frame>)
    requires |frames| > 0 && !frames[0].ReadError?
    ensures ReadLoop(frames)
         == ReadOutcome(Accepted(frames[0]) + ReadLoop(frames[1..]).forwarded,
                        Later(ReadLoop(frames[1..])).stoppedAt)
  {
    var r := Later(ReadLoop(frames[1..]));
    match frames[0] {
      case Text(decoded) =>
        assert ReadLoop(frames)
            == (match decoded case Some(m) => ReadOutcome([m] + r.forwarded, r.stoppedAt) case None => r);
      case NonText =>
        assert ReadLoop(frames) == r;
    }
  }

  /**
   * Reference definition: the decoded text frames of a sequence, in order,
   * built from the back.
   */
  function Decoded(frames: seq<Frame>): seq<Message>
    decreases |frames|
  {
    if |frames| == 0 then []
    else Decoded(frames[..|frames| - 1]) + Accepted(frames[|frames| - 1])
  }

  lemma {:induction false} DecodedPrepend(f: Frame, fs: seq<Frame>)
    ensures Decoded([f] + fs) == Accepted(f) + Decoded(fs)
    decreases |fs|
  {
    var whole := [f] + fs;
    if |fs| == 0 {
      assert whole[..0] == [];
    } else {
      var init := fs[..|fs| - 1];
      assert whole[..|whole| - 1] == [f] + init;
      assert whole[|whole| - 1] == fs[|fs| - 1];
      DecodedPrepend(f, init);
    }
  }

  /** How many frames precede the one that ended the loop: all of them when no error ended it. */
  function ReadPrefixLength(frames: seq<Frame>, r: ReadOutcome): nat
    requires r.stoppedAt.Some? ==> r.stoppedAt.value < |frames|
  {
    if r.stoppedAt.Some? then r.stoppedAt.value else |frames|
  }

  /**
   * The read loop forwards exactly the decodable text frames that precede the
   * first read error, in the order the transport delivered them.
   */
  lemma {:induction false} ReadLoopForwardsDecoded(frames: seq<Frame>)
    ensures ReadLoop(frames).forwarded
         == Decoded(frames[..ReadPrefixLength(frames, ReadLoop(frames))])
    decreases |frames|
  {
    if |frames| > 0 && !frames[0].ReadError? {
      var tail := frames[1..];
      var rest := ReadLoop(tail);
      ReadLoopCons(frames);
      ReadLoopForwardsDecoded(tail);
      var n := ReadPrefixLength(tail, rest);
      assert ReadPrefixLength(frames, ReadLoop(frames)) == n + 1;
      assert frames[..n + 1] == [frames[0]] + tail[..n];
      DecodedPrepend(frames[0], tail[..n]);
    } else if |frames| > 0 {
      assert frames[..0] == [];
    }
  }

  /** A frame the loop reads past without forwarding anything. */
  predicate Dropped(f: Frame) {
    f.NonText? || (f.Text? && f.decoded.None?)
  }

  /** Removing a dropped frame from anywhere in the input changes nothing that is forwarded. */
  lemma {:induction false} DroppedFrameIsInvisible(pre: seq<Frame>, f: Frame, post: seq<Frame>)
    requires Dropped(f)
    ensures ReadLoop(pre + [f] + post).forwarded == ReadLoop(pre + post).forwarded
    decreases |pre|
  {
    var with := pre + [f] + post;
    var without := pre + post;
    if |pre| == 0 {
      assert with == [f] + post && with[1..] == post && without == post;
      ReadLoopCons(with);
    } else {
      DroppedFrameIsInvisible(pre[1..], f, post);
      assert with[1..] == pre[1..] + [f] + post;
      assert without[1..] == pre[1..] + post;
      assert with[0] == pre[0] && without[0] == pre[0];
      if !pre[0].ReadError? {
        ReadLoopCons(with);
        ReadLoopCons(without);
      }
    }
  }

  /** A non-text frame is skipped and reading continues past it. */
  lemma NonTextSkipped(pre: seq<Frame>, post: seq<Frame>)
    ensures ReadLoop(pre + [NonText] + post).forwarded == ReadLoop(pre + post).forwarded
  {
    DroppedFrameIsInvisible(pre, NonText, post);
  }

  /** A text frame that does not decode is skipped and reading continues past it. */
  lemma UndecodableSkipped(pre: seq<Frame>, post: seq<Frame>)
    ensures ReadLoop(pre + [Text(None)] + post).forwarded == ReadLoop(pre + post).forwarded
  {
    DroppedFrameIsInvisible(pre, Text(None), post);
  }

  /** The first read error ends the loop: nothing after it is read or forwarded. */
  lemma {:induction false} ReadErrorEndsLoop(pre: seq<Frame>, post: seq<Frame>)
    requires ErrorFree(pre)
    ensures ReadLoop(pre + [ReadError] + post) == ReadOutcome(ReadLoop(pre).forwarded, Some(|pre|))
    decreases |pre|
  {
    var frames := pre + [ReadError] + post;
    if |pre| == 0 {
      assert frames[0] == ReadError;
    } else {
      assert !pre[0].ReadError?;
      ReadErrorEndsLoop(pre[1..], post);
      assert frames[1..] == pre[1..] + [ReadError] + post;
      assert frames[0] == pre[0];
      ReadLoopCons(frames);
      ReadLoopCons(pre);
    }
  }

  /**
   * Until the first error, reading more frames only appends: the messages of
   * later frames come after those of earlier ones, and the loop stops where
   * the later frames alone would make it stop.
   */
  lemma {:induction false} ReadLoopAppend(pre: seq<Frame>, post: seq<Frame>)
    requires ErrorFree(pre)
    ensures ReadLoop(pre + post).forwarded == ReadLoop(pre).forwarded + ReadLoop(post).forwarded
    ensures ReadLoop(pre + post).stoppedAt == Shifted(|pre|, ReadLoop(post).stoppedAt)
    decreases |pre|
  {
    if |pre| == 0 {
      assert pre + post == post;
      assert ReadLoop(pre).forwarded == [];
    } else {
      var tail := pre[1..];
      ReadLoopAppend(tail, post);
      ReadLoopAppendStep(pre, post);
    }
  }

  /** The inductive step of `ReadLoopAppend`: the claim for `pre[1..]` gives it for `pre`. */
  lemma ReadLoopAppendStep(pre: seq<Frame>, post: seq<Frame>)
    requires |pre| > 0 && ErrorFree(pre)
    requires ReadLoop(pre[1..] + post).forwarded == ReadLoop(pre[1..]).forwarded + ReadLoop(post).forwarded
    requires ReadLoop(pre[1..] + post).stoppedAt == Shifted(|pre| - 1, ReadLoop(post).stoppedAt)
    ensures ReadLoop(pre + post).forwarded == ReadLoop(pre).forwarded + ReadLoop(post).forwarded
    ensures ReadLoop(pre + post).stoppedAt == Shifted(|pre|, ReadLoop(post).stoppedAt)
  {
    var whole := pre + post;
    HeadOfAppend(pre, post);
    var tail := ReadLoop(pre[1..]);
    var rest := ReadLoop(post);
    assert ReadLoop(whole).forwarded == ReadLoop(pre).forwarded + rest.forwarded by {
      ReadLoopCons(whole);
      ReadLoopCons(pre);
      AppendAssociates(Accepted(pre[0]), tail.forwarded, rest.forwarded);
    }
    assert ReadLoop(whole).stoppedAt == Shifted(|pre|, rest.stoppedAt) by {
      ReadLoopCons(whole);
      ShiftedTwice(1, |pre| - 1, rest.stoppedAt);
    }
  }

  /** Concatenation is associative. */
  lemma AppendAssociates<T>(a: seq<T>, b: seq<T>, c: seq<T>)
    ensures a + (b + c) == (a + b) + c
  {
  }

  /** Taking the first element off a concatenation takes it off the front part. */
  lemma HeadOfAppend<T>(a: seq<T>, b: seq<T>)
    requires |a| > 0
    ensures (a + b)[0] == a[0] && (a + b)[1..] == a[1..] + b
  {
  }

  /** A well-formed text frame after any number of skipped frames is still forwarded. */
  lemma WellFormedFrameForwarded(pre: seq<Frame>, m: Message)
    requires ErrorFree(pre)
    ensures ReadLoop(pre + [Text(Some(m))]).forwarded == ReadLoop(pre).forwarded + [m]
    ensures ReadLoop(pre + [Text(Some(m))]).stoppedAt == None
  {
    ReadLoopAppend(pre, [Text(Some(m))]);
    assert [Text(Some(m))][1..] == [];
    ReadLoopCons([Text(Some(m))]);
  }

  // ---------------------------------------------------------------------------
  // writeLoop: the outbound writer
  // ---------------------------------------------------------------------------

  /**
   * The writer drains the queued messages in FIFO order, encoding each one and
   * handing it to `WriteMessage`. It stops when the queue is closed and empty
   * or when encoding fails; the outcome of each write is discarded, so it is
   * not an input here and cannot stop the loop.
   */
  method WriteLoop(queued: seq<Message>, marshal: Message -> Option<Bytes>)
    returns (written: seq<Bytes>, taken: nat, encodeFailed: bool)
    ensures taken <= |queued|
    ensures encodeFailed <==> exists k :: 0 <= k < |queued| && marshal(queued[k]).None?
    ensures !encodeFailed ==> taken == |queued| && |written| == |queued|
    ensures encodeFailed ==> 0 < taken && marshal(queued[taken - 1]).None? && |written| == taken - 1
    ensures forall k :: 0 <= k < |written| ==> marshal(queued[k]) == Some(written[k])
  {
    written, taken, encodeFailed := [], 0, false;
    while taken < |queued|
      invariant taken <= |queued|
      invariant |written| == taken
      invariant forall k :: 0 <= k < taken ==> marshal(queued[k]) == Some(written[k])
    {
      var b := marshal(queued[taken]);
      taken := taken + 1;
      if b.None? {
        encodeFailed := true;
        return;
      }
      written := written + [b.value];
    }
  }

  // ---------------------------------------------------------------------------
  // The client record, its channels, Close and the shutdown signals
  // ---------------------------------------------------------------------------

  /** A Go channel as the client sees it: never made (nil), open, or closed. */
  datatype Chan = NilChan | OpenChan | ClosedChan

  /** The record `AddClient` builds for each accepted connection. */
  datatype Client<D> = Client(
    id: ClientId,
    data: D,
    conn: ConnId,
    connOpen: bool,
    readChan: Chan,
    writeChan: Chan,
    writeCapacity: nat,
    writeClosedChan: Chan,
    closedChan: Chan
  )

  /** Disconnects the client. Only the connection is affected; the goroutines unwind on their own. */
  function Close<D>(c: Client<D>): (r: Client<D>)
    ensures !r.connOpen
    ensures r.id == c.id && r.data == c.data && r.conn == c.conn
    ensures r.readChan == c.readChan && r.writeChan == c.writeChan && r.writeCapacity == c.writeCapacity
    ensures r.writeClosedChan == c.writeClosedChan && r.closedChan == c.closedChan
  {
    c.(connOpen := false)
  }

  lemma CloseIdempotent<D>(c: Client<D>)
    ensures Close(Close(c)) == Close(c)
    ensures !c.connOpen ==> Close(c) == c
  {
  }

  /** A shutdown action of the client's goroutines, or of the hub acting on the client. */
  datatype Action =
    | CloseReadChan          // readLoop's last deferred call
    | HubClosesWriteChan     // the hub reacting to readChan being closed
    | CloseWriteClosedChan   // writeLoop's deferred call, once it leaves its range
    | AwaitWriteClosed       // readLoop waiting for the writer
    | CloseClosedChan        // readLoop's first deferred call
    | WaitReturns            // `Wait` unblocking

  /** How a teardown ends: all actions done, stuck forever on a receive, or a runtime panic. */
  datatype Ending = Finished | BlockedAt(blocked: Action) | PanickedAt(panicked: Action)

  datatype Teardown = Teardown(done: seq<Action>, ending: Ending)

  /** readLoop's deferred calls in the order they are registered. */
  const ReadLoopDeferred: seq<Action> := [CloseClosedChan, AwaitWriteClosed, CloseReadChan]

  /** Deferred calls run last-registered first. */
  function DeferOrder(registered: seq<Action>): (r: seq<Action>)
    ensures |r| == |registered|
    ensures forall i :: 0 <= i < |r| ==> r[i] == registered[|registered| - 1 - i]
  {
    if |registered| == 0 then [] else [registered[|registered| - 1]] + DeferOrder(registered[..|registered| - 1])
  }

  lemma ReadLoopExitOrder()
    ensures DeferOrder(ReadLoopDeferred) == [CloseReadChan, AwaitWriteClosed, CloseClosedChan]
  {
  }

  /** Go's `close`: closing a nil or an already closed channel panics (`None`). */
  function TryClose(ch: Chan): (r: Option<Chan>)
    ensures r.Some? <==> ch == OpenChan
    ensures r.Some? ==> r.value == ClosedChan
  {
    if ch == OpenChan then Some(ClosedChan) else None
  }

  /** Whether an action closes its channel; the others receive from it. */
  predicate Closes(a: Action) {
    a != AwaitWriteClosed && a != WaitReturns
  }

  /** The four channels of a client that its shutdown closes and waits on. */
  datatype Channels = Channels(readChan: Chan, writeChan: Chan, writeClosedChan: Chan, closedChan: Chan)

  function ChannelsOf<D>(c: Client<D>): Channels {
    Channels(c.readChan, c.writeChan, c.writeClosedChan, c.closedChan)
  }

  /** The channel an action closes or receives from. */
  function ChannelOf(chans: Channels, a: Action): Chan {
    match a
    case CloseReadChan => chans.readChan
    case HubClosesWriteChan => chans.writeChan
    case CloseWriteClosedChan => chans.writeClosedChan
    case AwaitWriteClosed => chans.writeClosedChan
    case CloseClosedChan => chans.closedChan
    case WaitReturns => chans.closedChan
  }

  /** The channels with the one of action `a` set to `ch`. */
  function WithChannel(chans: Channels, a: Action, ch: Chan): (r: Channels)
    ensures ChannelOf(r, a) == ch
  {
    match a
    case CloseReadChan => chans.(readChan := ch)
    case HubClosesWriteChan => chans.(writeChan := ch)
    case CloseWriteClosedChan => chans.(writeClosedChan := ch)
    case AwaitWriteClosed => chans.(writeClosedChan := ch)
    case CloseClosedChan => chans.(closedChan := ch)
    case WaitReturns => chans.(closedChan := ch)
  }

  /**
   * Performs the shutdown actions from position `i` of the schedule on, under
   * Go's channel rules, and returns where it stopped and why. A close panics
   * unless its channel is open. Nothing is ever sent on these channels, so a
   * receive returns only from a closed one; a receive from a nil channel, or
   * from one not yet closed when it is reached, waits forever.
   */
  function RunFrom(chans: Channels, schedule: seq<Action>, i: nat): (r: (nat, Ending))
    requires i <= |schedule|
    ensures i <= r.0 <= |schedule|
    ensures r.1.Finished? <==> r.0 == |schedule|
    ensures r.1.PanickedAt? ==> Closes(r.1.panicked) && r.1.panicked == schedule[r.0]
    ensures r.1.BlockedAt? ==> !Closes(r.1.blocked) && r.1.blocked == schedule[r.0]
    decreases |schedule| - i
  {
    if i == |schedule| then (i, Finished)
    else
      var a := schedule[i];
      if Closes(a) then
        match TryClose(ChannelOf(chans, a))
        case None => (i, PanickedAt(a))
        case Some(closed) => RunFrom(WithChannel(chans, a, closed), schedule, i + 1)
      else if ChannelOf(chans, a) == ClosedChan then RunFrom(chans, schedule, i + 1)
      else (i, BlockedAt(a))
  }

  /** A nil channel is never made: no run gets past a close of it, or a receive from it. */
  lemma {:induction false} NilStops(chans: Channels, schedule: seq<Action>, i: nat, k: nat)
    requires i <= k < |schedule| && ChannelOf(chans, schedule[k]) == NilChan
    ensures RunFrom(chans, schedule, i).0 <= k
    decreases |schedule| - i
  {
    var a := schedule[i];
    if i < k && Closes(a) && ChannelOf(chans, a) == OpenChan {
      NilStops(WithChannel(chans, a, ClosedChan), schedule, i + 1, k);
    } else if i < k && !Closes(a) && ChannelOf(chans, a) == ClosedChan {
      NilStops(chans, schedule, i + 1, k);
    }
  }

  /** Performs a whole schedule: the actions done, in order, and how it ended. */
  function Execute(chans: Channels, schedule: seq<Action>): (t: Teardown)
    ensures |t.done| <= |schedule| && t.done == schedule[..|t.done|]
    ensures t.ending.Finished? <==> t.done == schedule
    ensures t.ending.PanickedAt? ==> t.ending.panicked == schedule[|t.done|]
    ensures t.ending.BlockedAt? ==> t.ending.blocked == schedule[|t.done|]
  {
    var r := RunFrom(chans, schedule, 0);
    Teardown(schedule[..r.0], r.1)
  }

  /** Every channel of the client was made and none is closed yet. */
  predicate AllOpen<D>(c: Client<D>) {
    Open(ChannelsOf(c))
  }

  /**
   * How writeLoop leaves its range: after the hub closed writeChan and the
   * queue is drained, or early, on a message that fails to encode. `after`
   * counts how many of readLoop's close of readChan and the hub's close of
   * writeChan happened before that failure (2 or more: both).
   */
  datatype WriterExit = Drained | EncodeFailed(after: nat)

  /** Both `a` and `b` occur in `s`, and every `a` comes before every `b`. */
  predicate Precedes(s: seq<Action>, a: Action, b: Action) {
    && a in s && b in s
    && forall i, j :: 0 <= i < |s| && 0 <= j < |s| && s[i] == a && s[j] == b ==> i < j
  }

  /** Where in front of the hub's close of writeChan the writer's close of writeClosedChan falls. */
  function WriterSlot(exit: WriterExit): (k: nat)
    ensures k <= 2
    ensures exit.Drained? ==> k == 2
  {
    if exit.EncodeFailed? && exit.after < 2 then exit.after else 2
  }

  /**
   * The order in which the shutdown actions happen once readLoop's read fails.
   * readLoop runs its deferred calls; the hub closes writeChan once readChan
   * is closed; the writer closes writeClosedChan when it leaves its range,
   * which without an encoding failure is only after writeChan was closed; the
   * wait for the writer returns only after that; `Wait` returns only after
   * closedChan is closed.
   */
  function Schedule(exit: WriterExit): (s: seq<Action>)
    ensures |s| == 6
    ensures s[3..] == [AwaitWriteClosed, CloseClosedChan, WaitReturns]
    ensures forall k, l :: 0 <= k < l < |s| ==> s[k] != s[l]
  {
    match WriterSlot(exit)
    case 0 => [CloseWriteClosedChan, CloseReadChan, HubClosesWriteChan, AwaitWriteClosed, CloseClosedChan, WaitReturns]
    case 1 => [CloseReadChan, CloseWriteClosedChan, HubClosesWriteChan, AwaitWriteClosed, CloseClosedChan, WaitReturns]
    case _ => [CloseReadChan, HubClosesWriteChan, CloseWriteClosedChan, AwaitWriteClosed, CloseClosedChan, WaitReturns]
  }

  /** readLoop's shutdown actions happen in the order its deferred calls run. */
  lemma ScheduleFollowsDefers(exit: WriterExit)
    ensures var d := DeferOrder(ReadLoopDeferred);
      forall k :: 0 <= k < |d| - 1 ==> Precedes(Schedule(exit), d[k], d[k + 1])
  {
    ReadLoopExitOrder();
  }

  /** An action that occurs only at `i` precedes one that occurs only at a later `j`. */
  lemma PrecedesAt(s: seq<Action>, a: Action, b: Action, i: nat, j: nat)
    requires i < j < |s| && s[i] == a && s[j] == b
    requires forall k, l :: 0 <= k < l < |s| ==> s[k] != s[l]
    ensures Precedes(s, a, b)
  {
  }

  /**
   * The rest of the happens-before order of the schedule: readChan is closed
   * before the hub closes writeChan, the writer closes writeClosedChan before
   * readLoop's wait on it returns, closedChan is closed before `Wait`
   * returns, and a writer that did not fail closes writeClosedChan only after
   * writeChan is closed.
   */
  lemma ScheduleOrder(exit: WriterExit)
    ensures Precedes(Schedule(exit), CloseReadChan, HubClosesWriteChan)
    ensures Precedes(Schedule(exit), CloseWriteClosedChan, AwaitWriteClosed)
    ensures Precedes(Schedule(exit), CloseClosedChan, WaitReturns)
    ensures exit.Drained? ==> Precedes(Schedule(exit), HubClosesWriteChan, CloseWriteClosedChan)
  {
    var s := Schedule(exit);
    match WriterSlot(exit)
    case 0 =>
      assert s == [CloseWriteClosedChan, CloseReadChan, HubClosesWriteChan, AwaitWriteClosed, CloseClosedChan, WaitReturns];
      PrecedesAt(s, CloseReadChan, HubClosesWriteChan, 1, 2);
      PrecedesAt(s, CloseWriteClosedChan, AwaitWriteClosed, 0, 3);
      PrecedesAt(s, CloseClosedChan, WaitReturns, 4, 5);
    case 1 =>
      assert s == [CloseReadChan, CloseWriteClosedChan, HubClosesWriteChan, AwaitWriteClosed, CloseClosedChan, WaitReturns];
      PrecedesAt(s, CloseReadChan, HubClosesWriteChan, 0, 2);
      PrecedesAt(s, CloseWriteClosedChan, AwaitWriteClosed, 1, 3);
      PrecedesAt(s, CloseClosedChan, WaitReturns, 4, 5);
    case _ =>
      assert s == [CloseReadChan, HubClosesWriteChan, CloseWriteClosedChan, AwaitWriteClosed, CloseClosedChan, WaitReturns];
      PrecedesAt(s, CloseReadChan, HubClosesWriteChan, 0, 1);
      PrecedesAt(s, CloseWriteClosedChan, AwaitWriteClosed, 2, 3);
      PrecedesAt(s, CloseClosedChan, WaitReturns, 4, 5);
      PrecedesAt(s, HubClosesWriteChan, CloseWriteClosedChan, 1, 2);
  }

  /** A client's shutdown, once its read loop has ended, for a given way the writer leaves. */
  function ShutDown<D>(c: Client<D>, exit: WriterExit): (t: Teardown)
    ensures |t.done| <= 6 && t.done == Schedule(exit)[..|t.done|]
    ensures t.ending.Finished? <==> t.done == Schedule(exit)
  {
    Execute(ChannelsOf(c), Schedule(exit))
  }

  /** All four channels are open. */
  predicate Open(chans: Channels) {
    chans.readChan == OpenChan && chans.writeChan == OpenChan
    && chans.writeClosedChan == OpenChan && chans.closedChan == OpenChan
  }

  /** The three closes that may come in any order before readLoop waits for the writer. */
  predicate EarlyClose(a: Action) {
    a == CloseReadChan || a == HubClosesWriteChan || a == CloseWriteClosedChan
  }

  /**
   * Running a schedule that closes readChan, writeChan and writeClosedChan in
   * some order, and then ends as readLoop and `Wait` do: it completes exactly
   * on open channels, never blocks, and panics only on a channel not open.
   */
  lemma ClosesThenWaitRuns(chans: Channels, x: Action, y: Action, z: Action)
    requires EarlyClose(x) && EarlyClose(y) && EarlyClose(z) && x != y && y != z && x != z
    ensures var s := [x, y, z, AwaitWriteClosed, CloseClosedChan, WaitReturns];
      && (RunFrom(chans, s, 0).1 == Finished <==> Open(chans))
      && !RunFrom(chans, s, 0).1.BlockedAt?
      && (RunFrom(chans, s, 0).1.PanickedAt? ==> ChannelOf(chans, RunFrom(chans, s, 0).1.panicked) != OpenChan)
  {
    var s := [x, y, z, AwaitWriteClosed, CloseClosedChan, WaitReturns];
    var c1 := WithChannel(chans, x, ClosedChan);
    var c2 := WithChannel(c1, y, ClosedChan);
    var c3 := WithChannel(c2, z, ClosedChan);
    var c4 := WithChannel(c3, CloseClosedChan, ClosedChan);
    assert closeX: RunFrom(chans, s, 0) == if ChannelOf(chans, x) == OpenChan then RunFrom(c1, s, 1) else (0, PanickedAt(x));
    assert closeY: RunFrom(c1, s, 1) == if ChannelOf(c1, y) == OpenChan then RunFrom(c2, s, 2) else (1, PanickedAt(y));
    assert closeZ: RunFrom(c2, s, 2) == if ChannelOf(c2, z) == OpenChan then RunFrom(c3, s, 3) else (2, PanickedAt(z));
    assert writerSeen: ChannelOf(c3, AwaitWriteClosed) == ClosedChan ==> RunFrom(c3, s, 3) == RunFrom(c3, s, 4);
    assert closeClosed: RunFrom(c3, s, 4) == if ChannelOf(c3, CloseClosedChan) == OpenChan then RunFrom(c4, s, 5) else (4, PanickedAt(CloseClosedChan));
    assert waited: RunFrom(c4, s, 5) == (6, Finished);
  }

  /** Running a schedule: it completes exactly on open channels, and it never blocks. */
  lemma ScheduleRuns(chans: Channels, exit: WriterExit)
    ensures RunFrom(chans, Schedule(exit), 0).1 == Finished <==> Open(chans)
    ensures !RunFrom(chans, Schedule(exit), 0).1.BlockedAt?
    ensures RunFrom(chans, Schedule(exit), 0).1.PanickedAt? ==>
      ChannelOf(chans, RunFrom(chans, Schedule(exit), 0).1.panicked) != OpenChan
  {
    var s := Schedule(exit);
    assert s == [s[0], s[1], s[2], AwaitWriteClosed, CloseClosedChan, WaitReturns];
    ClosesThenWaitRuns(chans, s[0], s[1], s[2]);
  }

  /**
   * Shutdown never hangs on a receive: it completes exactly when all four of
   * the client's channels were made and open, and otherwise it panics on the
   * first close of a channel that was not.
   */
  lemma ShutDownEnds<D>(c: Client<D>, exit: WriterExit)
    ensures ShutDown(c, exit).ending == Finished <==> AllOpen(c)
    ensures !ShutDown(c, exit).ending.BlockedAt?
    ensures ShutDown(c, exit).ending.PanickedAt? ==>
      ChannelOf(ChannelsOf(c), ShutDown(c, exit).ending.panicked) != OpenChan
  {
    ScheduleRuns(ChannelsOf(c), exit);
  }

  /**
   * However the writer leaves, `Wait` returns only once the whole shutdown has
   * happened, after the writer closed writeClosedChan and readLoop saw it,
   * and only if every one of the client's four channels was made.
   */
  lemma WaitOnlyAfterWriter<D>(c: Client<D>, exit: WriterExit)
    requires WaitReturns in ShutDown(c, exit).done
    ensures ShutDown(c, exit).ending == Finished && ShutDown(c, exit).done == Schedule(exit)
    ensures AllOpen(c)
    ensures CloseWriteClosedChan in ShutDown(c, exit).done
    ensures Precedes(ShutDown(c, exit).done, CloseWriteClosedChan, AwaitWriteClosed)
    ensures Precedes(ShutDown(c, exit).done, CloseClosedChan, WaitReturns)
  {
    var t := ShutDown(c, exit);
    var s := Schedule(exit);
    var i :| 0 <= i < |t.done| && t.done[i] == WaitReturns;
    assert s[i] == WaitReturns;
    assert i == 5 by {
      match WriterSlot(exit)
      case 0 => assert s[..3] == [CloseWriteClosedChan, CloseReadChan, HubClosesWriteChan];
      case 1 => assert s[..3] == [CloseReadChan, CloseWriteClosedChan, HubClosesWriteChan];
      case _ => assert s[..3] == [CloseReadChan, HubClosesWriteChan, CloseWriteClosedChan];
    }
    ShutDownEnds(c, exit);
    ScheduleOrder(exit);
  }
}
