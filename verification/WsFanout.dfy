/**
 The notification fan-out of `backend/ws_manager.py`: every client has a bounded queue drained by its
 own writer task, and queued playback positions are replaced by newer ones.  One event loop runs
 everything, so each stretch of code between two awaits is one step.
 */
module WsFanout {
  import opened Collections
  import opened Journals

  type Ws = nat
  type ConnId = nat

  datatype Item = Item(payload: string, progress: bool)

  /** A writer awaits `ready`, awaits the delivery of one item, or has ended. */
  datatype Writer = Waiting | Sending(item: Item) | Ended

  /** One connection object; `accepted` and `taken` record what was queued for it and handed to the socket. */
  datatype Conn = Conn(
    ws: Ws,
    pending: seq<Item>,
    ready: bool,
    writer: Writer,
    cancelled: bool,
    accepted: seq<Item>,
    taken: seq<Item>)

  datatype State = State(
    maxPending: nat,
    connections: map<Ws, ConnId>,
    conns: map<ConnId, Conn>,   // every connection object ever made, by identity
    next: ConnId)

  function Start(maxPending: nat): State {
    State(maxPending, map[], map[], 0)
  }

  // ---------------------------------------------------------------- steps

  function NonProgress(items: seq<Item>): seq<Item> {
    Filter((i: Item) => !i.progress, items)
  }

  /** What stays queued when an item is offered: obsolete positions are replaceable. */
  function Base(c: Conn, item: Item): seq<Item> {
    if item.progress then NonProgress(c.pending) else c.pending
  }

  /** What enqueuing does to one connection, and whether it is dropped as too slow. */
  function Offer(c: Conn, item: Item, maxPending: nat): (Conn, bool) {
    var base := Base(c, item);
    if |base| >= maxPending then (c.(pending := [], cancelled := true), true)
    else (c.(pending := base + [item], ready := true, accepted := c.accepted + [item]), false)
  }

  /** Is the object the one its socket is registered with? */
  predicate Registered(s: State, id: ConnId) {
    id in s.conns && s.conns[id].ws in s.connections && s.connections[s.conns[id].ws] == id
  }

  /** `connect` after the awaited handshake; a socket registered before it returned without a step.  A
      second handshake for the same socket may have been awaited meanwhile, so the entry may be replaced. */
  function Accept(s: State, ws: Ws): State {
    s.(connections := s.connections[ws := s.next],
       conns := s.conns[s.next := Conn(ws, [], false, Waiting, false, [], [])],
       next := s.next + 1)
  }

  function Enqueue(s: State, ws: Ws, item: Item): State {
    if ws !in s.connections || s.connections[ws] !in s.conns then s
    else
      var id := s.connections[ws];
      var (c, dropped) := Offer(s.conns[id], item, s.maxPending);
      s.(conns := s.conns[id := c], connections := if dropped then s.connections - {ws} else s.connections)
  }

  function Disconnect(s: State, ws: Ws): State {
    if ws !in s.connections || s.connections[ws] !in s.conns then s
    else
      var id := s.connections[ws];
      s.(conns := s.conns[id := s.conns[id].(pending := [], cancelled := true)], connections := s.connections - {ws})
  }

  /** The writer's inner loop up to its next await. */
  function TakeNext(c: Conn): Conn {
    if c.pending == [] then c.(ready := false, writer := Waiting)
    else c.(pending := c.pending[1..], writer := Sending(c.pending[0]), taken := c.taken + [c.pending[0]])
  }

  /** `ready` is set, or a delivery succeeded: the writer runs on. */
  predicate CanContinue(s: State, id: ConnId) {
    id in s.conns && ((s.conns[id].writer == Waiting && s.conns[id].ready) || s.conns[id].writer.Sending?)
  }

  function Continue(s: State, id: ConnId): State
    requires CanContinue(s, id)
  {
    s.(conns := s.conns[id := TakeNext(s.conns[id])])
  }

  /** A failed delivery or a cancellation ends a writer; it deregisters its own object only. */
  predicate CanEnd(s: State, id: ConnId) {
    id in s.conns && (s.conns[id].writer.Sending? || (s.conns[id].cancelled && s.conns[id].writer != Ended))
  }

  function End(s: State, id: ConnId): State
    requires CanEnd(s, id)
  {
    var c := s.conns[id];
    s.(conns := s.conns[id := c.(pending := [], writer := Ended)],
       connections := if Registered(s, id) then s.connections - {c.ws} else s.connections)
  }

  /** One message to every connected client. */
  function Broadcast(s: State, item: Item): State {
    s.(conns := map id | id in s.conns ::
         if Registered(s, id) then Offer(s.conns[id], item, s.maxPending).0 else s.conns[id],
       connections := map ws | ws in s.connections &&
         !(s.connections[ws] in s.conns && Offer(s.conns[s.connections[ws]], item, s.maxPending).1) :: s.connections[ws])
  }

  datatype Action =
    | DoAccept(ws: Ws) | DoSend(ws: Ws, payload: string) | DoBroadcast(item: Item)
    | DoDisconnect(ws: Ws) | DoContinue(id: ConnId) | DoEnd(id: ConnId)

  predicate Enabled(s: State, a: Action) {
    match a
    case DoContinue(id) => CanContinue(s, id)
    case DoEnd(id) => CanEnd(s, id)
    case _ => true
  }

  function Step(s: State, a: Action): State
    requires Enabled(s, a)
  {
    match a
    case DoAccept(ws) => Accept(s, ws)
    case DoSend(ws, payload) => Enqueue(s, ws, Item(payload, false))
    case DoBroadcast(item) => Broadcast(s, item)
    case DoDisconnect(ws) => Disconnect(s, ws)
    case DoContinue(id) => Continue(s, id)
    case DoEnd(id) => End(s, id)
  }

  ghost predicate IsRun(maxPending: nat, run: seq<State>, acts: seq<Action>) {
    && |run| == |acts| + 1 && run[0] == Start(maxPending)
    && forall i :: 0 <= i < |acts| ==> Enabled(run[i], acts[i]) && run[i + 1] == Step(run[i], acts[i])
  }

  // ---------------------------------------------------------------- what a client may miss

  /**
   `out` is `all` without some progress items, each of which is followed in `all` by a newer one
   (`superseded`: a newer one follows the whole of `all`).
   */
  ghost predicate Thinned(all: seq<Item>, out: seq<Item>, superseded: bool) {
    if all == [] then out == []
    else
      var last := all[|all| - 1];
      var before := all[..|all| - 1];
      || (out != [] && out[|out| - 1] == last && Thinned(before, out[..|out| - 1], superseded || last.progress))
      || (last.progress && superseded && Thinned(before, out, true))
  }

  lemma {:induction false} Weaken(all: seq<Item>, out: seq<Item>, superseded: bool)
    requires Thinned(all, out, superseded)
    ensures Thinned(all, out, true)
  {
    if all != [] {
      var last := all[|all| - 1];
      var before := all[..|all| - 1];
      if out != [] && out[|out| - 1] == last && Thinned(before, out[..|out| - 1], superseded || last.progress) {
        Weaken(before, out[..|out| - 1], superseded || last.progress);
      }
    }
  }

  lemma LastOf(items: seq<Item>, x: Item)
    ensures NonProgress(items + [x]) == NonProgress(items) + (if x.progress then [] else [x])
  {
    FilterAppend((i: Item) => !i.progress, items, [x]);
    assert Filter((i: Item) => !i.progress, [x]) == if x.progress then [] else [x];
  }

  /** Replacing queued positions: legitimate because a newer one is about to follow. */
  lemma {:induction false} DroppingProgress(all: seq<Item>, sent: seq<Item>, queued: seq<Item>, superseded: bool)
    requires Thinned(all, sent + queued, superseded)
    ensures Thinned(all, sent + NonProgress(queued), true)
    decreases |all|
  {
    hide Filter, NonProgress;
    if queued == [] {
      NothingQueued();
      assert sent + queued == sent && sent + [] == sent;
      Weaken(all, sent, superseded);
    } else {
      var out := sent + queued;
      var x, rest := queued[|queued| - 1], queued[..|queued| - 1];
      assert queued == rest + [x] && out[..|out| - 1] == sent + rest && out[|out| - 1] == x;
      LastOf(rest, x);
      var last, before := all[|all| - 1], all[..|all| - 1];
      if x == last && Thinned(before, sent + rest, superseded || last.progress) {
        DroppingProgress(before, sent, rest, superseded || last.progress);
        var kept := sent + NonProgress(rest);
        if x.progress {
          assert sent + NonProgress(queued) == kept;
        } else {
          assert sent + NonProgress(queued) == kept + [x];
          assert (kept + [x])[..|kept|] == kept;
        }
      } else {
        DroppingProgress(before, sent, queued, true);
      }
    }
  }

  lemma NothingQueued()
    ensures NonProgress([]) == []
  {
  }

  /** Every state change and reply is there, in order. */
  lemma {:induction false} ThinnedKeepsNonProgress(all: seq<Item>, out: seq<Item>, superseded: bool)
    requires Thinned(all, out, superseded)
    ensures NonProgress(out) == NonProgress(all)
    decreases |all|
  {
    hide Filter, NonProgress;
    NothingQueued();
    if all != [] {
      var last, before := all[|all| - 1], all[..|all| - 1];
      assert all == before + [last];
      LastOf(before, last);
      if out != [] && out[|out| - 1] == last && Thinned(before, out[..|out| - 1], superseded || last.progress) {
        assert out == out[..|out| - 1] + [last];
        LastOf(out[..|out| - 1], last);
        ThinnedKeepsNonProgress(before, out[..|out| - 1], superseded || last.progress);
      } else {
        ThinnedKeepsNonProgress(before, out, true);
      }
    }
  }

  /** The newest playback position in a list. */
  function Newest(items: seq<Item>): Option<Item> {
    if items == [] then None
    else if items[|items| - 1].progress then Some(items[|items| - 1])
    else Newest(items[..|items| - 1])
  }

  lemma {:induction false} ThinnedKeepsNewest(all: seq<Item>, out: seq<Item>)
    requires Thinned(all, out, false)
    ensures Newest(out) == Newest(all)
    decreases |all|
  {
    if all != [] && !all[|all| - 1].progress {
      ThinnedKeepsNewest(all[..|all| - 1], out[..|out| - 1]);
    }
  }

  /** Nothing is invented or reordered. */
  ghost predicate Subsequence(out: seq<Item>, all: seq<Item>) {
    out == [] ||
    (all != [] &&
      ((out[|out| - 1] == all[|all| - 1] && Subsequence(out[..|out| - 1], all[..|all| - 1]))
        || Subsequence(out, all[..|all| - 1])))
  }

  lemma {:induction false} ThinnedIsSubsequence(all: seq<Item>, out: seq<Item>, superseded: bool)
    requires Thinned(all, out, superseded)
    ensures Subsequence(out, all)
    decreases |all|
  {
    if all != [] {
      var last, before := all[|all| - 1], all[..|all| - 1];
      if out != [] && out[|out| - 1] == last && Thinned(before, out[..|out| - 1], superseded || last.progress) {
        ThinnedIsSubsequence(before, out[..|out| - 1], superseded || last.progress);
      } else {
        ThinnedIsSubsequence(before, out, true);
      }
    }
  }

  // ---------------------------------------------------------------- the invariant

  function Positions(items: seq<Item>): seq<Item> {
    Filter((i: Item) => i.progress, items)
  }

  /** A connection whose socket is registered with it. */
  ghost predicate Sound(c: Conn, maxPending: nat) {
    && !c.cancelled && c.writer != Ended
    && Thinned(c.accepted, c.taken + c.pending, false)
    && |c.pending| <= maxPending
    && |Positions(c.pending)| <= 1
    && (c.pending != [] ==> c.ready)
  }

  ghost predicate Ok(s: State) {
    && (forall id :: id in s.conns ==> id < s.next)
    && (forall ws :: ws in s.connections ==>
          s.connections[ws] in s.conns && s.conns[s.connections[ws]].ws == ws
          && Sound(s.conns[s.connections[ws]], s.maxPending))
  }

  lemma PositionsAfter(items: seq<Item>, x: Item)
    ensures Positions(items + [x]) == Positions(items) + (if x.progress then [x] else [])
    ensures Positions(NonProgress(items)) == []
    ensures |NonProgress(items)| <= |items|
  {
    var isProgress := (i: Item) => i.progress;
    FilterAppend(isProgress, items, [x]);
    assert Filter(isProgress, [x]) == if x.progress then [x] else [];
    FilterMembers((i: Item) => !i.progress, items);
    FilterNone(isProgress, NonProgress(items));
  }

  lemma OfferKeepsThinned(c: Conn, item: Item)
    requires Thinned(c.accepted, c.taken + c.pending, false)
    ensures Thinned(c.accepted + [item], c.taken + (Base(c, item) + [item]), false)
  {
    hide Filter, NonProgress;
    var out := c.taken + Base(c, item);
    assert c.taken + (Base(c, item) + [item]) == out + [item];
    assert (out + [item])[..|out|] == out;
    assert (c.accepted + [item])[..|c.accepted|] == c.accepted;
    if item.progress {
      DroppingProgress(c.accepted, c.taken, c.pending, false);
    }
  }

  /** A connection that is not dropped stays sound. */
  lemma OfferKeepsSound(c: Conn, item: Item, maxPending: nat)
    requires Sound(c, maxPending) && !Offer(c, item, maxPending).1
    ensures Sound(Offer(c, item, maxPending).0, maxPending)
  {
    hide Filter, NonProgress, Positions, Thinned;
    PositionsAfter(Base(c, item), item);
    PositionsAfter(c.pending, item);
    OfferKeepsThinned(c, item);
  }

  lemma TakeNextKeepsSound(c: Conn, maxPending: nat)
    requires Sound(c, maxPending)
    ensures Sound(TakeNext(c), maxPending)
  {
    hide Thinned;
    if c.pending != [] {
      var x, rest := c.pending[0], c.pending[1..];
      assert c.pending == [x] + rest;
      assert c.taken + [x] + rest == c.taken + c.pending;
    }
  }

  lemma AcceptKeepsOk(s: State, ws: Ws)
    requires Ok(s)
    ensures Ok(Accept(s, ws))
  {
    assert Positions([]) == [];
  }

  lemma EnqueueKeepsOk(s: State, ws: Ws, item: Item)
    requires Ok(s)
    ensures Ok(Enqueue(s, ws, item))
  {
    hide Sound, Offer;
    OfferKeepsSocket(s, item);
    if ws in s.connections && !Offer(s.conns[s.connections[ws]], item, s.maxPending).1 {
      OfferKeepsSound(s.conns[s.connections[ws]], item, s.maxPending);
    }
  }

  lemma OfferKeepsSocket(s: State, item: Item)
    ensures forall id :: id in s.conns ==> Offer(s.conns[id], item, s.maxPending).0.ws == s.conns[id].ws
  {
  }

  lemma BroadcastKeepsOk(s: State, item: Item)
    requires Ok(s)
    ensures Ok(Broadcast(s, item))
  {
    hide Sound, Offer;
    OfferKeepsSocket(s, item);
    forall ws | ws in s.connections && !Offer(s.conns[s.connections[ws]], item, s.maxPending).1
      ensures Sound(Offer(s.conns[s.connections[ws]], item, s.maxPending).0, s.maxPending)
    {
      OfferKeepsSound(s.conns[s.connections[ws]], item, s.maxPending);
    }
  }

  lemma WriterKeepsOk(s: State, id: ConnId)
    requires Ok(s)
    ensures CanContinue(s, id) ==> Ok(Continue(s, id))
    ensures CanEnd(s, id) ==> Ok(End(s, id))
  {
    hide Sound, Thinned;
    if CanContinue(s, id) && Registered(s, id) {
      TakeNextKeepsSound(s.conns[id], s.maxPending);
    }
  }

  lemma StepKeepsOk(s: State, a: Action)
    requires Ok(s) && Enabled(s, a)
    ensures Ok(Step(s, a)) && Step(s, a).maxPending == s.maxPending
  {
    match a
    case DoAccept(ws) => AcceptKeepsOk(s, ws);
    case DoSend(ws, payload) => EnqueueKeepsOk(s, ws, Item(payload, false));
    case DoBroadcast(item) => BroadcastKeepsOk(s, item);
    case DoDisconnect(ws) =>
    case DoContinue(id) => WriterKeepsOk(s, id);
    case DoEnd(id) => WriterKeepsOk(s, id);
  }

  lemma {:induction false} RunKeepsOk(maxPending: nat, run: seq<State>, acts: seq<Action>, i: nat)
    requires IsRun(maxPending, run, acts) && i < |run|
    ensures Ok(run[i]) && run[i].maxPending == maxPending
  {
    hide Ok, Step, Enabled;
    if i == 0 {
      StartOk(maxPending);
    } else {
      RunKeepsOk(maxPending, run, acts, i - 1);
      StepKeepsOk(run[i - 1], acts[i - 1]);
    }
  }

  lemma StartOk(maxPending: nat)
    ensures Ok(Start(maxPending))
  {
  }

  // ---------------------------------------------------------------- the theorems

  /**
   In every run and for every connected client: what was handed to the socket followed by what is
   queued misses only positions that a newer one replaced; it has every other message in order and the
   newest position; the queue is bounded and holds at most one position; and a writer with work to do
   is awake.
   */
  lemma ClientMissesOnlyOldPositions(maxPending: nat, run: seq<State>, acts: seq<Action>, i: nat, ws: Ws)
    requires IsRun(maxPending, run, acts) && i < |run| && ws in run[i].connections
    ensures run[i].connections[ws] in run[i].conns
    ensures
      var c := run[i].conns[run[i].connections[ws]];
      var out := c.taken + c.pending;
      && NonProgress(out) == NonProgress(c.accepted)
      && Newest(out) == Newest(c.accepted)
      && Subsequence(out, c.accepted)
      && |c.pending| <= maxPending && |Positions(c.pending)| <= 1
      && (c.pending != [] ==> c.ready)
      && (c.pending != [] ==> CanContinue(run[i], run[i].connections[ws]))
  {
    hide Thinned, NonProgress, Positions, Subsequence, Newest, Step, Enabled;
    RunKeepsOk(maxPending, run, acts, i);
    var c := run[i].conns[run[i].connections[ws]];
    ThinnedKeepsNonProgress(c.accepted, c.taken + c.pending, false);
    ThinnedKeepsNewest(c.accepted, c.taken + c.pending);
    ThinnedIsSubsequence(c.accepted, c.taken + c.pending, false);
  }

  /** A message for a connected client is either queued behind everything else or the client is dropped,
      and it is dropped exactly when the queue is full of messages that cannot be replaced. */
  lemma QueuedOrDropped(s: State, ws: Ws, item: Item)
    requires Ok(s) && ws in s.connections
    ensures
      var c := s.conns[s.connections[ws]];
      var room := if item.progress then |NonProgress(c.pending)| else |c.pending|;
      var t := Enqueue(s, ws, item);
      && (ws in t.connections <==> room < s.maxPending)
      && (ws in t.connections ==>
            t.connections[ws] == s.connections[ws]
            && t.conns[t.connections[ws]].accepted == c.accepted + [item]
            && t.conns[t.connections[ws]].taken == c.taken)
      && (ws !in t.connections ==>
            t.conns[s.connections[ws]].pending == [] && t.conns[s.connections[ws]].cancelled)
  {
    hide Thinned, Filter;
  }

  /** A client that only ever received positions can always take another one. */
  lemma PositionsNeverOverflow(maxPending: nat, run: seq<State>, acts: seq<Action>, i: nat, ws: Ws, item: Item)
    requires IsRun(maxPending, run, acts) && i < |run| && ws in run[i].connections && maxPending > 0 && item.progress
    requires run[i].connections[ws] in run[i].conns
    requires NonProgress(run[i].conns[run[i].connections[ws]].accepted) == []
    ensures ws in Enqueue(run[i], ws, item).connections
  {
    hide Thinned, Step, Enabled, Filter;
    RunKeepsOk(maxPending, run, acts, i);
    var c := run[i].conns[run[i].connections[ws]];
    ThinnedKeepsNonProgress(c.accepted, c.taken + c.pending, false);
    FilterAppend((x: Item) => !x.progress, c.taken, c.pending);
    assert NonProgress(c.taken) + NonProgress(c.pending) == [];
  }

  /** A broadcast does to each connected client what a message for it alone would do, and nothing to others. */
  lemma BroadcastReachesEach(s: State, item: Item, ws: Ws)
    requires Ok(s) && ws in s.connections
    ensures
      var alone := Enqueue(s, ws, item);
      var all := Broadcast(s, item);
      && (ws in all.connections <==> ws in alone.connections)
      && s.connections[ws] in all.conns
      && all.conns[s.connections[ws]] == alone.conns[s.connections[ws]]
      && (ws in all.connections ==> all.connections[ws] == s.connections[ws])
      && forall other :: other in s.connections && other != ws ==>
           alone.conns[s.connections[other]] == s.conns[s.connections[other]] && other in alone.connections
  {
    hide Offer, Sound;
  }

  /** The writer of an older connection never deregisters the newer connection of the same socket. */
  lemma StaleWriterIsHarmless(s: State, id: ConnId, ws: Ws)
    requires Ok(s) && CanEnd(s, id) && ws in s.connections && s.connections[ws] != id
    ensures
      var t := End(s, id);
      ws in t.connections && t.connections[ws] == s.connections[ws]
      && t.conns[t.connections[ws]] == s.conns[s.connections[ws]]
  {
    hide Sound;
  }

  /** A new connection starts empty under an identity of its own and leaves the other clients alone. */
  lemma AcceptStartsEmpty(s: State, ws: Ws)
    requires Ok(s)
    ensures
      var t := Accept(s, ws);
      && ws in t.connections && t.connections[ws] !in s.conns && t.connections[ws] in t.conns
      && (var c := t.conns[t.connections[ws]];
          c.pending == c.taken == c.accepted == [] && c.writer == Waiting && !c.cancelled && c.ws == ws)
      && forall other :: other in s.connections && other != ws ==>
           other in t.connections && t.connections[other] == s.connections[other]
           && t.conns[t.connections[other]] == s.conns[s.connections[other]]
  {
    hide Sound;
  }

  /** After a disconnect the client is gone and nothing is left for its writer to send. */
  lemma DisconnectEmpties(s: State, ws: Ws)
    requires Ok(s) && ws in s.connections
    ensures
      var t := Disconnect(s, ws);
      var id := s.connections[ws];
      ws !in t.connections && t.conns[id].pending == [] && t.conns[id].cancelled && t.conns[id].taken == s.conns[id].taken
  {
    hide Sound;
  }

  /** Of what it had queued, an unregistered connection sends a first part and receives nothing new. */
  ghost predicate OnlyDrains(before: Conn, after: Conn) {
    && after.accepted == before.accepted
    && (after.taken + after.pending == before.taken + before.pending
        || (after.pending == [] && after.taken <= before.taken + before.pending))
  }

  lemma UnregisteredDrains(s: State, a: Action, id: ConnId, before: Conn)
    requires Ok(s) && Enabled(s, a) && id in s.conns && !Registered(s, id) && OnlyDrains(before, s.conns[id])
    ensures var t := Step(s, a); id in t.conns && !Registered(t, id) && OnlyDrains(before, t.conns[id])
  {
    hide Sound, Filter;
    var c := s.conns[id];
    if a == DoContinue(id) && c.pending != [] {
      assert c.taken + [c.pending[0]] + c.pending[1..] == c.taken + c.pending;
    }
  }

  /** A connection that is no longer registered never is again, receives nothing and at most drains. */
  lemma {:induction false} GoneStaysGone(maxPending: nat, run: seq<State>, acts: seq<Action>, i: nat, j: nat, id: ConnId)
    requires IsRun(maxPending, run, acts) && i <= j < |run| && id in run[i].conns && !Registered(run[i], id)
    ensures id in run[j].conns && !Registered(run[j], id) && OnlyDrains(run[i].conns[id], run[j].conns[id])
  {
    hide Ok, Step, Enabled, Registered;
    if i < j {
      GoneStaysGone(maxPending, run, acts, i, j - 1, id);
      RunKeepsOk(maxPending, run, acts, j - 1);
      UnregisteredDrains(run[j - 1], acts[j - 1], id, run[i].conns[id]);
      assert run[j - 1 + 1] == Step(run[j - 1], acts[j - 1]);
    }
  }

  /** The writer's own steps, one after the other. */
  function WriterRun(c: Conn, steps: nat): Conn
    decreases steps
  {
    if steps == 0 then c else WriterRun(TakeNext(c), steps - 1)
  }

  /** A writer left alone hands over everything in order and goes back to waiting. */
  lemma {:induction false} WriterEmptiesQueue(c: Conn)
    ensures
      var done := WriterRun(c, |c.pending| + 1);
      && done.pending == [] && done.writer == Waiting && !done.ready
      && done.taken == c.taken + c.pending && done.accepted == c.accepted
    decreases |c.pending|
  {
    if c.pending == [] {
      assert WriterRun(c, 1) == WriterRun(TakeNext(c), 0);
      assert c.taken + c.pending == c.taken;
    } else {
      WriterEmptiesQueue(TakeNext(c));
      assert c.taken + [c.pending[0]] + c.pending[1..] == c.taken + c.pending;
    }
  }

  // ---------------------------------------------------------------- the manager

  /** A broadcast that has reached the sockets in `done`. */
  ghost function Partly(s: State, item: Item, done: set<Ws>): State {
    s.(conns := map id | id in s.conns ::
         if Registered(s, id) && s.conns[id].ws in done then Offer(s.conns[id], item, s.maxPending).0 else s.conns[id],
       connections := map ws | ws in s.connections &&
         !(ws in done && s.connections[ws] in s.conns && Offer(s.conns[s.connections[ws]], item, s.maxPending).1) :: s.connections[ws])
  }

  lemma PartlyStarts(s: State, item: Item)
    ensures Partly(s, item, {}) == s
    ensures Partly(s, item, s.connections.Keys) == Broadcast(s, item)
  {
    hide Offer;
  }

  lemma PartlyGoesOn(s: State, item: Item, done: set<Ws>, ws: Ws)
    requires Ok(s) && ws in s.connections && ws !in done
    ensures Enqueue(Partly(s, item, done), ws, item) == Partly(s, item, done + {ws})
  {
    hide Offer, Sound;
    var t, u := Partly(s, item, done), Partly(s, item, done + {ws});
    var id := s.connections[ws];
    assert ws in t.connections && t.connections[ws] == id && t.conns[id] == s.conns[id];
    var v := Enqueue(t, ws, item);
    assert v.connections == u.connections;
    assert v.conns == u.conns;
  }

  /** The manager's dictionary and the connection objects it has created, updated in place. */
  class WsManager {
    const maxPending: nat
    var connections: map<Ws, ConnId>
    var objects: map<ConnId, Conn>
    var nextId: ConnId
    const journal: Journal<State, Action>

    ghost function View(): State
      reads this
    {
      State(maxPending, connections, objects, nextId)
    }

    /** The manager is where a run of the steps has led. */
    ghost predicate Valid()
      reads this, journal
    {
      IsRun(maxPending, journal.run, journal.acts) && View() == journal.run[|journal.acts|]
    }

    twostate predicate Did(a: Action)
      reads this, journal
    {
      Valid() && journal.acts == old(journal.acts) + [a] && journal.run == old(journal.run) + [View()]
    }

    constructor (maxPending: nat)
      requires maxPending >= 1
      ensures Valid() && View() == Start(maxPending) && fresh(journal) && journal.acts == []
    {
      this.maxPending := maxPending;
      connections, objects, nextId := map[], map[], 0;
      journal := new Journal(Start(maxPending));
    }

    ghost method Record(a: Action)
      requires IsRun(maxPending, journal.run, journal.acts)
      requires Enabled(journal.run[|journal.acts|], a) && View() == Step(journal.run[|journal.acts|], a)
      modifies journal
      ensures Did(a)
    {
      hide Step, Enabled;
      journal.Note(a, View());
    }

    /** What every connected client can rely on whenever no method is running. */
    lemma NothingButOldPositionsMissed(ws: Ws)
      requires Valid() && ws in connections
      ensures connections[ws] in objects
      ensures
        var c := objects[connections[ws]];
        && NonProgress(c.taken + c.pending) == NonProgress(c.accepted)
        && Newest(c.taken + c.pending) == Newest(c.accepted)
        && |c.pending| <= maxPending && |Positions(c.pending)| <= 1
        && (c.pending != [] ==> CanContinue(View(), connections[ws]))
    {
      hide Step, Enabled, NonProgress, Newest, Positions, Subsequence;
      ClientMissesOnlyOldPositions(maxPending, journal.run, journal.acts, |journal.acts|, ws);
    }

    method FinishConnect(ws: Ws)
      requires Valid()
      modifies this, journal
      ensures Did(DoAccept(ws)) && View() == Accept(old(View()), ws)
    {
      var connection := Conn(ws, [], false, Waiting, false, [], []);
      connections := connections[ws := nextId];
      objects := objects[nextId := connection];
      nextId := nextId + 1;
      Record(DoAccept(ws));
    }

    /** The body of `disconnect`, also of dropping a slow client. */
    method DropConnection(ws: Ws)
      modifies this
      ensures View() == Disconnect(old(View()), ws)
    {
      if ws in connections && connections[ws] in objects {
        var id := connections[ws];
        connections := connections - {ws};
        objects := objects[id := objects[id].(pending := [], cancelled := true)];
      }
    }

    method DisconnectClient(ws: Ws)
      requires Valid()
      modifies this, journal
      ensures Did(DoDisconnect(ws)) && View() == Disconnect(old(View()), ws)
    {
      DropConnection(ws);
      Record(DoDisconnect(ws));
    }

    method EnqueueItem(ws: Ws, item: Item)
      modifies this
      ensures View() == Enqueue(old(View()), ws, item)
    {
      if ws !in connections || connections[ws] !in objects {
        return;
      }
      var id := connections[ws];
      var pending := objects[id].pending;
      if item.progress {
        pending := Filter((i: Item) => !i.progress, pending);
      }
      if |pending| >= maxPending {
        DropConnection(ws);
        return;
      }
      objects := objects[id := objects[id].(pending := pending + [item], ready := true, accepted := objects[id].accepted + [item])];
    }

    /** A message for one client. */
    method SendTo(ws: Ws, payload: string)
      requires Valid()
      modifies this, journal
      ensures Did(DoSend(ws, payload)) && View() == Enqueue(old(View()), ws, Item(payload, false))
    {
      hide Enqueue;
      EnqueueItem(ws, Item(payload, false));
      Record(DoSend(ws, payload));
    }

    /** The loop over a snapshot of the connected sockets, in any order. */
    method EnqueueForAll(item: Item)
      requires Ok(View())
      modifies this
      ensures View() == Broadcast(old(View()), item)
    {
      hide Enqueue, Partly, Broadcast, Ok, Offer;
      ghost var before := View();
      PartlyStarts(before, item);
      var rest := connections.Keys;
      ghost var done := {};
      while rest != {}
        invariant rest + done == before.connections.Keys && rest !! done
        invariant View() == Partly(before, item, done)
        decreases |rest|
      {
        var ws :| ws in rest;
        PartlyGoesOn(before, item, done, ws);
        EnqueueItem(ws, item);
        rest, done := rest - {ws}, done + {ws};
      }
      assert done == before.connections.Keys;
    }

    method BroadcastItem(item: Item)
      requires Valid()
      modifies this, journal
      ensures Did(DoBroadcast(item)) && View() == Broadcast(old(View()), item)
    {
      hide Broadcast, Ok;
      RunKeepsOk(maxPending, journal.run, journal.acts, |journal.acts|);
      EnqueueForAll(item);
      Record(DoBroadcast(item));
    }

    /** One turn of `_drain` from the await it was suspended in to the next. */
    method WriterRuns(id: ConnId)
      requires Valid() && CanContinue(View(), id)
      modifies this, journal
      ensures Did(DoContinue(id)) && View() == Continue(old(View()), id)
    {
      var c := objects[id];
      if c.pending != [] {
        objects := objects[id := c.(pending := c.pending[1..], writer := Sending(c.pending[0]), taken := c.taken + [c.pending[0]])];
      } else {
        objects := objects[id := c.(ready := false, writer := Waiting)];
      }
      Record(DoContinue(id));
    }

    /** The exception and `finally` clauses of `_drain`. */
    method WriterEnds(id: ConnId)
      requires Valid() && CanEnd(View(), id)
      modifies this, journal
      ensures Did(DoEnd(id)) && View() == End(old(View()), id)
    {
      var c := objects[id];
      objects := objects[id := c.(pending := [], writer := Ended)];
      if c.ws in connections && connections[c.ws] == id {
        connections := connections - {c.ws};
      }
      Record(DoEnd(id));
    }
  }
}
