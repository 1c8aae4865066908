/**
 * The hub's control loop (herald.go): each iteration builds the list of
 * channels to wait on, takes exactly one event from one of them, and updates
 * the client list and the shutting-down flag. The runtime's choice of ready
 * channel is an input: `Step` is given the event that was chosen.
 */
module Herald {
  import opened Wrappers
  import opened Messages
  import opened Clients

  // ---------------------------------------------------------------------------
  // The select cases built at the top of each iteration
  // ---------------------------------------------------------------------------

  /** A channel the loop waits on. */
  datatype Source = ClientRead(k: nat) | AddClientChan | MessageChan | CloseChan

  /** The assembled select cases and the indices the switch compares `chosen` against. */
  datatype SelectLayout = SelectLayout(cases: seq<Source>, addClientIdx: int, messageIdx: int, closeIdx: int)

  /** One receive case per client, appended in list order. */
  function ClientCases(n: nat): (cs: seq<Source>)
    ensures |cs| == n
    ensures forall k :: 0 <= k < n ==> cs[k] == ClientRead(k)
  {
    if n == 0 then [] else ClientCases(n - 1) + [ClientRead(n - 1)]
  }

  /**
   * Builds the cases as the loop does: the clients' read channels, then the
   * add-client channel and the message channel, each at the index the list had
   * before it was appended, then the close channel unless shutting down.
   */
  function Layout(n: nat, shuttingDown: bool): (l: SelectLayout)
    ensures |l.cases| == n + (if shuttingDown then 2 else 3)
    ensures forall k :: 0 <= k < n ==> l.cases[k] == ClientRead(k)
    ensures l.addClientIdx == n && l.cases[n] == AddClientChan
    ensures l.messageIdx == n + 1 && l.cases[n + 1] == MessageChan
    ensures shuttingDown <==> l.closeIdx == -1
    ensures !shuttingDown ==> l.closeIdx == n + 2 && l.cases[n + 2] == CloseChan
  {
    var clientCases := ClientCases(n);
    var addClientIdx := |clientCases|;
    var withAdd := clientCases + [AddClientChan];
    var messageIdx := |withAdd|;
    var withMessage := withAdd + [MessageChan];
    if !shuttingDown then
      SelectLayout(withMessage + [CloseChan], addClientIdx, messageIdx, |withMessage|)
    else
      SelectLayout(withMessage, addClientIdx, messageIdx, -1)
  }

  /** The branch of the switch that handles a chosen case. */
  datatype Branch = FromClient(k: nat) | AddBranch | MessageBranch | CloseBranch | NoBranch

  /** The switch on `chosen`: its cases are tried in order and the first that matches is taken. */
  function Route(l: SelectLayout, nClients: nat, chosen: nat): (b: Branch)
    ensures b.FromClient? <==> chosen < nClients
    ensures b.FromClient? ==> b.k == chosen
    ensures b == AddBranch <==> nClients <= chosen && chosen == l.addClientIdx
    ensures b == MessageBranch <==> nClients <= chosen && chosen != l.addClientIdx && chosen == l.messageIdx
    ensures b == CloseBranch ==> nClients <= chosen && chosen == l.closeIdx
    ensures b == NoBranch <==> nClients <= chosen && chosen !in {l.addClientIdx, l.messageIdx, l.closeIdx}
  {
    if chosen < nClients then FromClient(chosen)
    else if chosen == l.addClientIdx then AddBranch
    else if chosen == l.messageIdx then MessageBranch
    else if chosen == l.closeIdx then CloseBranch
    else NoBranch
  }

  /** The branch each channel's events belong in. */
  function BranchFor(src: Source): Branch {
    match src
    case ClientRead(k) => FromClient(k)
    case AddClientChan => AddBranch
    case MessageChan => MessageBranch
    case CloseChan => CloseBranch
  }

  /**
   * Whatever case the select chooses, the switch sends it to the branch that
   * belongs to its channel; in particular `chosen < len(clients)` holds
   * exactly for the clients' read channels.
   */
  lemma RouteMatchesLayout(n: nat, shuttingDown: bool, chosen: nat)
    requires chosen < |Layout(n, shuttingDown).cases|
    ensures Route(Layout(n, shuttingDown), n, chosen) == BranchFor(Layout(n, shuttingDown).cases[chosen])
    ensures Route(Layout(n, shuttingDown), n, chosen).FromClient? <==> chosen < n
  {
  }

  // ---------------------------------------------------------------------------
  // Configuration, events, state
  // ---------------------------------------------------------------------------

  /** Who handles a message from a client: the caller's function, or the default installed by `New`. */
  datatype Receiver = CustomReceiver | Rebroadcast

  /** The hooks in effect: the receiver, and whether each lifecycle hook was supplied. */
  datatype Config = Config(receiver: Receiver, clientAdded: bool, clientRemoved: bool)

  /** Which of the three optional functions the caller supplied. */
  datatype Options = Options(receiverFunc: bool, clientAddedFunc: bool, clientRemovedFunc: bool)

  /** The loop's state: the ordered client list, the shutting-down flag, and whether `run` has returned. */
  datatype State = State(clients: seq<ClientId>, shuttingDown: bool, stopped: bool)

  /** What the select delivered this iteration. */
  datatype Event =
    | ClientMsg(i: nat, m: Message)   // a message on the i-th client's read channel
    | ClientGone(i: nat)              // the i-th client's read channel was closed
    | Add(c: ClientId)                // a client on the add-client channel
    | Broadcast(m: Message)           // a message on the message channel
    | CloseReq                        // a value on the close channel

  /** A hook invocation, with the arguments the loop passes. */
  datatype Hook =
    | Received(m: Message)
    | ClientAdded(clients: seq<ClientId>, c: ClientId)
    | ClientRemoved(clients: seq<ClientId>, c: ClientId)

  /** What one iteration does besides updating the state. */
  datatype Output = Output(
    hooks: seq<Hook>,                       // hook calls, in order
    sends: seq<Message>,                    // messages handed to `Send` for a later broadcast
    delivered: seq<(ClientId, Message)>,    // `c.Send(m)` calls, in order
    connsClosed: seq<ClientId>,             // connections closed
    writeChanClosed: Option<ClientId>       // the client whose writeChan was closed
  )

  const Quiet := Output([], [], [], [], None)

  /** `New`: installs the rebroadcasting receiver when none is given, and starts the loop. */
  function New(opts: Options): (r: (Config, State))
    ensures r.1 == State([], false, false)
    ensures r.0.receiver == Rebroadcast <==> !opts.receiverFunc
    ensures r.0.clientAdded == opts.clientAddedFunc && r.0.clientRemoved == opts.clientRemovedFunc
  {
    (Config(if opts.receiverFunc then CustomReceiver else Rebroadcast, opts.clientAddedFunc, opts.clientRemovedFunc),
     State([], false, false))
  }

  /** The channel an event arrives on. */
  function SourceOf(e: Event): Source {
    match e
    case ClientMsg(i, _) => ClientRead(i)
    case ClientGone(i) => ClientRead(i)
    case Add(_) => AddClientChan
    case Broadcast(_) => MessageChan
    case CloseReq => CloseChan
  }

  /** The select can deliver `e`: its channel is among this iteration's cases. */
  predicate Offered(s: State, e: Event) {
    match e
    case ClientMsg(i, _) => i < |s.clients|
    case ClientGone(i) => i < |s.clients|
    case CloseReq => !s.shuttingDown
    case _ => true
  }

  /** An event is offered exactly when the layout holds a case for its channel, and the switch routes it there. */
  lemma OfferedIffBuilt(s: State, e: Event)
    ensures Offered(s, e) <==> SourceOf(e) in Layout(|s.clients|, s.shuttingDown).cases
    ensures Offered(s, e) ==>
      exists chosen: nat :: chosen < |Layout(|s.clients|, s.shuttingDown).cases|
        && Route(Layout(|s.clients|, s.shuttingDown), |s.clients|, chosen) == BranchFor(SourceOf(e))
  {
    var n := |s.clients|;
    var l := Layout(n, s.shuttingDown);
    var idx: nat := match e
      case ClientMsg(i, _) => i
      case ClientGone(i) => i
      case Add(_) => n
      case Broadcast(_) => n + 1
      case CloseReq => n + 2;
    if Offered(s, e) {
      assert l.cases[idx] == SourceOf(e);
      RouteMatchesLayout(n, s.shuttingDown, idx);
    }
    if SourceOf(e) in l.cases {
      var k :| 0 <= k < |l.cases| && l.cases[k] == SourceOf(e);
      if e.ClientMsg? || e.ClientGone? {
        assert k < n;
      }
    }
  }

  // ---------------------------------------------------------------------------
  // Handling a client's message
  // ---------------------------------------------------------------------------

  /** A goroutine, as far as channel rendezvous is concerned. */
  datatype Goroutine = RunLoop | Other

  /** The message channel is unbuffered. */
  const MessageChanCapacity: nat := 0

  /** The only goroutine that ever receives from the message channel is the loop's select. */
  const MessageChanReceivers: set<Goroutine> := {RunLoop}

  /**
   * A send on a channel completes when the buffer has room or a goroutine
   * other than the sender can take the value.
   */
  predicate SendCompletes(capacity: nat, buffered: nat, receivers: set<Goroutine>, sender: Goroutine) {
    buffered < capacity || exists g :: g in receivers && g != sender
  }

  datatype Handling = Handled(out: Output) | Deadlock

  /**
   * The receiver as the loop runs it: on the loop's own goroutine. The default
   * receiver calls `Send`, a send on the message channel, made from the loop.
   */
  function ReceiveAsWritten(cfg: Config, m: Message): (h: Handling)
    ensures cfg.receiver == CustomReceiver ==> h == Handled(Quiet.(hooks := [Received(m)]))
  {
    match cfg.receiver
    case CustomReceiver => Handled(Quiet.(hooks := [Received(m)]))
    case Rebroadcast =>
      // The loop is the message channel's only receiver, so this send never completes.
      if SendCompletes(MessageChanCapacity, 0, MessageChanReceivers, RunLoop)
      then Handled(Quiet.(sends := [m]))
      else Deadlock
  }

  /** With the default receiver the loop blocks forever on the first message from any client. */
  lemma DefaultReceiverDeadlocks(cfg: Config, m: Message)
    requires cfg.receiver == Rebroadcast
    ensures ReceiveAsWritten(cfg, m) == Deadlock
  {
  }

  /**
   * The receiver with the default's `Send` handed off to another goroutine, so
   * that the message reaches the message channel once the loop is back in its
   * select.
   */
  function Receive(cfg: Config, m: Message): (out: Output)
    ensures cfg.receiver == CustomReceiver ==> out.hooks == [Received(m)] && out.sends == []
    ensures cfg.receiver == Rebroadcast ==> out.hooks == [] && out.sends == [m]
    ensures out.delivered == [] && out.connsClosed == [] && out.writeChanClosed == None
  {
    match cfg.receiver
    case CustomReceiver => Quiet.(hooks := [Received(m)])
    case Rebroadcast => Quiet.(sends := [m])
  }

  /** The handed-off send completes: its receiver, the loop, is not its sender. */
  lemma HandedOffSendCompletes()
    ensures SendCompletes(MessageChanCapacity, 0, MessageChanReceivers, Other)
  {
    assert RunLoop in MessageChanReceivers;
  }

  // ---------------------------------------------------------------------------
  // One iteration
  // ---------------------------------------------------------------------------

  /** Every client of `s`, in order, is given `m`. */
  function SendToAll(clients: seq<ClientId>, m: Message): (d: seq<(ClientId, Message)>)
    ensures |d| == |clients|
    ensures forall k :: 0 <= k < |d| ==> d[k] == (clients[k], m)
  {
    if |clients| == 0 then [] else [(clients[0], m)] + SendToAll(clients[1..], m)
  }

  /** `clients` with the element at `i` taken out. */
  function RemoveAt(clients: seq<ClientId>, i: nat): (r: seq<ClientId>)
    requires i < |clients|
    ensures |r| == |clients| - 1
    ensures forall k :: 0 <= k < i ==> r[k] == clients[k]
    ensures forall k :: i <= k < |r| ==> r[k] == clients[k + 1]
  {
    clients[..i] + clients[i + 1..]
  }

  /** One iteration of the loop on the event the select delivered. */
  function Step(cfg: Config, s: State, e: Event): (r: (State, Output))
    requires !s.stopped && Offered(s, e)
    ensures r.0.shuttingDown == (s.shuttingDown || (e == CloseReq && |s.clients| > 0))
    ensures r.0.stopped <==> (e == CloseReq && |s.clients| == 0) || (e.ClientGone? && s.shuttingDown && |s.clients| == 1)
    ensures r.0.stopped ==> r.0.clients == []
    ensures !e.ClientGone? && !e.Add? ==> r.0.clients == s.clients
    ensures e.ClientMsg? ==> r.1 == Receive(cfg, e.m)
    ensures e.Broadcast? ==> r.1.delivered == SendToAll(s.clients, e.m) && r.1.hooks == []
    ensures e == CloseReq ==> r.1.connsClosed == s.clients
    ensures !e.CloseReq? ==> r.1.connsClosed == []
    ensures r.1.writeChanClosed.Some? <==> e.ClientGone?
  {
    match e
    case ClientMsg(i, m) => (s, Receive(cfg, m))
    case ClientGone(i) =>
      var c := s.clients[i];
      var rest := RemoveAt(s.clients, i);
      var hooks := if cfg.clientRemoved then [ClientRemoved(rest, c)] else [];
      (s.(clients := rest, stopped := s.shuttingDown && |rest| == 0),
       Quiet.(hooks := hooks, writeChanClosed := Some(c)))
    case Add(c) =>
      var hooks := if cfg.clientAdded then [ClientAdded(s.clients, c)] else [];
      (s.(clients := s.clients + [c]), Quiet.(hooks := hooks))
    case Broadcast(m) => (s, Quiet.(delivered := SendToAll(s.clients, m)))
    case CloseReq =>
      if |s.clients| > 0 then (s.(shuttingDown := true), Quiet.(connsClosed := s.clients))
      else (s.(stopped := true), Quiet)
  }

  /** An iteration of the loop as written: it either completes, or its goroutine never leaves it. */
  datatype Iteration = Completes(state: State, out: Output) | BlocksForever

  /**
   * One iteration with the receiver run as written. The default receiver's
   * send blocks the loop, so only that case differs from `Step`, which hands
   * the send off.
   */
  function StepAsWritten(cfg: Config, s: State, e: Event): (r: Iteration)
    requires !s.stopped && Offered(s, e)
    ensures r.BlocksForever? <==> e.ClientMsg? && cfg.receiver == Rebroadcast
    ensures r.Completes? ==> (r.state, r.out) == Step(cfg, s, e)
  {
    match e
    case ClientMsg(_, m) =>
      (match ReceiveAsWritten(cfg, m)
       case Handled(out) => Completes(s, out)
       case Deadlock => BlocksForever)
    case _ =>
      var (next, out) := Step(cfg, s, e);
      Completes(next, out)
  }

  /** Adding a client appends it and leaves the others, in order; the hook sees the list before the append. */
  lemma AddAppends(cfg: Config, s: State, c: ClientId)
    requires !s.stopped
    ensures Step(cfg, s, Add(c)).0.clients[..|s.clients|] == s.clients
    ensures Step(cfg, s, Add(c)).0.clients[|s.clients|] == c
    ensures |Step(cfg, s, Add(c)).0.clients| == |s.clients| + 1
    ensures cfg.clientAdded ==> Step(cfg, s, Add(c)).1.hooks == [ClientAdded(s.clients, c)]
    ensures !cfg.clientAdded ==> Step(cfg, s, Add(c)).1.hooks == []
  {
  }

  /** Every client occurs at most once. */
  predicate NoDuplicates(ids: seq<ClientId>) {
    forall x | x in ids :: multiset(ids)[x] <= 1
  }

  /**
   * A departing client is removed from its position and the rest keep their
   * order; its writeChan is closed, and the removal hook sees the new list,
   * which no longer holds it when the list had no duplicates.
   */
  lemma GoneRemoves(cfg: Config, s: State, i: nat)
    requires !s.stopped && i < |s.clients|
    ensures Step(cfg, s, ClientGone(i)).0.clients == RemoveAt(s.clients, i)
    ensures Step(cfg, s, ClientGone(i)).1.writeChanClosed == Some(s.clients[i])
    ensures cfg.clientRemoved ==>
      Step(cfg, s, ClientGone(i)).1.hooks == [ClientRemoved(RemoveAt(s.clients, i), s.clients[i])]
    ensures NoDuplicates(s.clients) ==> s.clients[i] !in RemoveAt(s.clients, i)
    ensures NoDuplicates(s.clients) ==> NoDuplicates(RemoveAt(s.clients, i))
    ensures multiset(RemoveAt(s.clients, i)) + multiset{s.clients[i]} == multiset(s.clients)
  {
    var r := RemoveAt(s.clients, i);
    var c := s.clients[i];
    assert s.clients == s.clients[..i] + [c] + s.clients[i + 1..];
    var whole := multiset(s.clients);
    assert multiset(r) + multiset{c} == whole;
    if NoDuplicates(s.clients) {
      assert whole[c] == multiset(r)[c] + 1;
      forall x | x in r ensures multiset(r)[x] <= 1 {
        assert whole[x] >= multiset(r)[x] > 0;
        assert x in s.clients;
      }
    }
  }

  /** With the default receiver, a client's message is rebroadcast to every client, the sender included. */
  lemma DefaultRebroadcastReachesAll(cfg: Config, s: State, i: nat, m: Message)
    requires cfg.receiver == Rebroadcast && !s.stopped && i < |s.clients|
    ensures Step(cfg, s, ClientMsg(i, m)).1.sends == [m]
    ensures Step(cfg, Step(cfg, s, ClientMsg(i, m)).0, Broadcast(m)).1.delivered == SendToAll(s.clients, m)
    ensures (s.clients[i], m) in Step(cfg, Step(cfg, s, ClientMsg(i, m)).0, Broadcast(m)).1.delivered
  {
    assert SendToAll(s.clients, m)[i] == (s.clients[i], m);
  }

  // ---------------------------------------------------------------------------
  // AddClient: building the client record
  // ---------------------------------------------------------------------------

  /** Capacity of each client's outbound queue. */
  const WriteQueueCapacity: nat := 10

  /**
   * The client record as `AddClient` builds it: readChan and writeChan are
   * made, while writeClosedChan and closedChan are left nil.
   */
  function NewClientAsWritten<D>(id: ClientId, data: D, conn: ConnId): (c: Client<D>)
    ensures c.id == id && c.data == data && c.conn == conn && c.connOpen
    ensures c.writeCapacity == WriteQueueCapacity
    ensures c.readChan == OpenChan && c.writeChan == OpenChan
    ensures c.writeClosedChan == NilChan && c.closedChan == NilChan
  {
    Client(id, data, conn, true, OpenChan, OpenChan, WriteQueueCapacity, NilChan, NilChan)
  }

  /**
   * However its writer leaves, the record as built panics when writeLoop
   * closes its nil writeClosedChan, and `Wait` never returns.
   */
  lemma AsWrittenClientPanics<D>(id: ClientId, data: D, conn: ConnId, exit: WriterExit)
    ensures ShutDown(NewClientAsWritten(id, data, conn), exit).ending == PanickedAt(CloseWriteClosedChan)
    ensures WaitReturns !in ShutDown(NewClientAsWritten(id, data, conn), exit).done
  {
    var c := NewClientAsWritten(id, data, conn);
    var s := Schedule(exit);
    var k := WriterSlot(exit);
    assert s[k] == CloseWriteClosedChan && forall j :: 0 <= j < k ==> s[j] in {CloseReadChan, HubClosesWriteChan} by {
      match k
      case 0 => assert s[..3] == [CloseWriteClosedChan, CloseReadChan, HubClosesWriteChan];
      case 1 => assert s[..3] == [CloseReadChan, CloseWriteClosedChan, HubClosesWriteChan];
      case _ => assert s[..3] == [CloseReadChan, HubClosesWriteChan, CloseWriteClosedChan];
    }
    NilStops(ChannelsOf(c), s, 0, k);
    ShutDownEnds(c, exit);
  }

  /** The client record with all four of its channels made. */
  function NewClient<D>(id: ClientId, data: D, conn: ConnId): (c: Client<D>)
    ensures c.id == id && c.data == data && c.conn == conn && c.connOpen
    ensures c.writeCapacity == WriteQueueCapacity
    ensures AllOpen(c)
    ensures forall exit :: ShutDown(c, exit) == Teardown(Schedule(exit), Finished)
  {
    var c := Client(id, data, conn, true, OpenChan, OpenChan, WriteQueueCapacity, OpenChan, OpenChan);
    assert forall exit :: ShutDown(c, exit) == Teardown(Schedule(exit), Finished) by {
      forall exit ensures ShutDown(c, exit) == Teardown(Schedule(exit), Finished) {
        ShutDownEnds(c, exit);
      }
    }
    c
  }

  /**
   * `AddClient`: a failed upgrade is returned to the caller and nothing
   * reaches the loop; otherwise a new client is built and offered to the loop
   * as an `Add` event. `id` is the new record's identity.
   */
  function AddClient<D, E>(upgraded: Result<ConnId, E>, id: ClientId, data: D): (r: Result<(Client<D>, Event), E>)
    ensures upgraded.Failure? <==> r.Failure?
    ensures upgraded.Failure? ==> r.error == upgraded.error
    ensures upgraded.Success? ==>
      && r.value.1 == Add(id)
      && r.value.0.id == id && r.value.0.data == data && r.value.0.conn == upgraded.value
      && r.value.0.connOpen && r.value.0.writeCapacity == WriteQueueCapacity
      && AllOpen(r.value.0)
  {
    match upgraded
    case Failure(e) => Failure(e)
    case Success(conn) => Success((NewClient(id, data, conn), Add(id)))
  }
}
