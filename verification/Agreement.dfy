/** The replica theorems: over every steady run, from the subscription to the quiet state. */
module Agreement {
  import opened Options
  import opened OrderedKeys
  import opened Sequences
  import opened Events
  import opened EventSystems
  import opened ComponentTables
  import opened Server
  import opened Protocol
  import opened Mirror
  import opened Ordering
  import opened Replica
  import SystemModule
  import IntrospectionSystem
  import StorageSystem
  import NetworkSystem
  import Publishing

  /** The mirror of e once p has handled everything that is in flight. */
  function ExpectedView(n: Net, p: PeerId, e: EntityId): View
    requires p in n.clients && p in n.down
  {
    Fold(ViewOf(n.clients[p].store, e), InFlight(n, p), e)
  }

  function ServerView(n: Net, e: EntityId): View { ViewOf(n.server.store, e) }

  ghost predicate Subscribed(n: Net, p: PeerId, e: EntityId) {
    && Consistent(n) && p in n.connected
    && Some(p) in NetworkSystem.Subscribers(n.server.subs, e)
  }

  /** What a client has queued for itself does not touch its mirror of e. */
  predicate QuietAtHome(q: seq<QueueItem>, e: EntityId) {
    forall i | 0 <= i < |q| && q[i].Command? && q[i].event.origin != Foreign :: Harmless(q[i].event, e)
  }

  /** The replica invariant. */
  ghost predicate Mirroring(n: Net, p: PeerId, e: EntityId) {
    && Subscribed(n, p, e) && QuietAtHome(n.clients[p].queue, e)
    && Related(ExpectedView(n, p, e), ServerView(n, e), n.server.queue, p, e)
  }

  /** p's mirror has, or will get, the component names of the server's entity. */
  ghost predicate NamesAgree(n: Net, p: PeerId, e: EntityId)
    requires Mirroring(n, p, e)
  { Names(ExpectedView(n, p, e), n.server.queue, p, e) == ServerView(n, e).value.Keys }

  // ---------------------------------------------------------------------------------------------
  // Steady moves
  // ---------------------------------------------------------------------------------------------

  /** The item that is handled next does not remove the entity, end a subscription to it or change it secretly. */
  predicate SteadyTurn(s: Server, e: EntityId) {
    s.queue != [] &&
    (s.queue[0].Command? && s.queue[0].event.entity == e ==>
      var ev := s.queue[0].event;
      && !ev.IsEntity(EntityRemove) && !ev.IsEntity(Unsubscribe)
      && (Changes(ev) ==> Visible(ev))
      && Publishing.FetchAnswerable(s.store.tables, ev))
  }

  /** The next item adds a component to the entity or removes one. */
  predicate Restructures(s: Server, e: EntityId) {
    && s.queue != [] && s.queue[0].Command? && s.queue[0].event.entity == e
    && (s.queue[0].event.IsComponent(ComponentAdd) || s.queue[0].event.IsComponent(ComponentRemove))
  }

  predicate Steady(n: Net, move: Move, p: PeerId, e: EntityId) {
    match move
    case ServerTurn(_) => SteadyTurn(n.server, e)
    case ClientPost(x, ev) => x == p ==> Harmless(ev, e)
    case Disconnect(x, _) => x != p
    case _ => true
  }

  // ---------------------------------------------------------------------------------------------
  // One move
  // ---------------------------------------------------------------------------------------------

  /** The view of the future changes only by what a move addresses to p. */
  lemma ExpectedFollows(n: Net, move: Move, p: PeerId, e: EntityId)
    requires Subscribed(n, p, e) && QuietAtHome(n.clients[p].queue, e)
    requires Enabled(n, move) && Steady(n, move, p, e)
    ensures var n' := After(n, move);
      && p in n'.clients && p in n'.down && p in n'.connected && QuietAtHome(n'.clients[p].queue, e)
      && ExpectedView(n', p, e) == Fold(ExpectedView(n, p, e), Good(Added(n, move, p)), e)
  {
    var n' := After(n, move);
    Flow(n, move, p);
    HomeStaysQuiet(n, move, p, e);
    MirrorTakes(n, move, p, e);
    var v := ViewOf(n.clients[p].store, e);
    FoldSum(v, Taken(n, move, p), InFlight(n', p), e);
    FoldSum(v, InFlight(n, p), Good(Added(n, move, p)), e);
  }

  /** The same for the turn of a command, steady or not. */
  lemma ExpectedAfterTurn(n: Net, sur: SystemModule.Surroundings, p: PeerId, e: EntityId)
    requires Consistent(n) && p in n.connected && n.server.queue != [] && n.server.queue[0].Command?
    ensures var n' := After(n, ServerTurn(sur));
      && p in n'.clients && p in n'.down && p in n'.connected
      && ExpectedView(n', p, e) == ViewAfter(sur, n.server, n.server.queue[0].event, p, ExpectedView(n, p, e), e)
      && ServerView(n', e) == EntityAfter(sur, n.server, n.server.queue[0].event, e)
      && n'.server.subs == Dispatch(sur, n.server, n.server.queue[0].event).state.subs
  {
    Flow(n, ServerTurn(sur), p);
    FoldSum(ViewOf(n.clients[p].store, e), InFlight(n, p), Good(Added(n, ServerTurn(sur), p)), e);
    NothingAdded(InFlight(After(n, ServerTurn(sur)), p));
  }

  lemma HomeStaysQuiet(n: Net, move: Move, p: PeerId, e: EntityId)
    requires Consistent(n) && p in n.clients && QuietAtHome(n.clients[p].queue, e)
    requires Enabled(n, move) && Steady(n, move, p, e) && p in After(n, move).clients
    ensures QuietAtHome(After(n, move).clients[p].queue, e)
  {
    var q, q' := n.clients[p].queue, After(n, move).clients[p].queue;
    if move == ClientTurn(p) {
      TurnStaysQuiet(n.clients[p], e);
    } else {
      assert forall i | 0 <= i < |q| :: q'[i] == q[i];
    }
  }

  lemma TurnStaysQuiet(c: Client, e: EntityId)
    requires c.queue != [] && QuietAtHome(c.queue, e)
    ensures QuietAtHome(ClientHandle(c).queue, e)
  {
    var q' := ClientHandle(c).queue;
    forall i | 0 <= i < |q'| && q'[i].Command? && q'[i].event.origin != Foreign ensures Harmless(q'[i].event, e) {
      if i < |c.queue| - 1 { assert q'[i] == c.queue[i + 1]; }
    }
  }

  /** The client's store changes by what it takes from the line and by nothing else. */
  lemma MirrorTakes(n: Net, move: Move, p: PeerId, e: EntityId)
    requires Consistent(n) && p in n.clients && QuietAtHome(n.clients[p].queue, e)
    requires Enabled(n, move) && p in After(n, move).clients
    ensures ViewOf(After(n, move).clients[p].store, e) == Fold(ViewOf(n.clients[p].store, e), Taken(n, move, p), e)
  {
    if move == ClientTurn(p) {
      var c := n.clients[p];
      var item, v := c.queue[0], ViewOf(c.store, e);
      Single(item, p);
      if item.Command? {
        if item.event.origin == Foreign {
          StoreFollowsMessages(c.store, item.event, e);
          assert [Wire(item.event)][1..] == [];
        } else {
          HarmlessKeepsView(c.store, item.event, e);
        }
      }
    }
  }

  /** Subscribers stay subscribed in steady turns. */
  lemma StaysSubscribed(n: Net, move: Move, p: PeerId, e: EntityId)
    requires Subscribed(n, p, e) && Enabled(n, move) && Steady(n, move, p, e)
    ensures Some(p) in NetworkSystem.Subscribers(After(n, move).server.subs, e)
  {
    if move.ServerTurn? {
      var item := n.server.queue[0];
      assert Expected(n, item);
      if item.Command? { DispatchKeepsSubscriber(move.sur, n.server, item.event, p, e); }
    }
  }

  lemma DispatchKeepsSubscriber(sur: SystemModule.Surroundings, s: Server, ev: CommandEvent, p: PeerId, e: EntityId)
    requires Some(p) in NetworkSystem.Subscribers(s.subs, e)
    requires ev.entity == e ==> !ev.IsEntity(EntityRemove) && !ev.IsEntity(Unsubscribe)
    ensures Some(p) in NetworkSystem.Subscribers(Dispatch(sur, s, ev).state.subs, e)
  {
    var v := SystemModule.Process(sur, s.system, ev);
    Publishing.ValidatorKeepsHeader(sur, s.system, ev);
    var st := StorageSystem.Process(s.store, v.event);
    Publishing.StorageKeepsHeader(s.store, v.event);
    StorageKeepsEntityData(s.store, v.event);
    NetworkKeepsSubscriber(s.subs, st.event, p, e);
  }

  lemma StorageKeepsEntityData(s: Store, ev: CommandEvent)
    ensures var f := StorageSystem.Process(s, ev).event;
      f.IsEntity(EntityRemove) == ev.IsEntity(EntityRemove) && f.IsEntity(Unsubscribe) == ev.IsEntity(Unsubscribe)
  {
  }

  lemma NetworkKeepsSubscriber(subs: NetworkSystem.Subscriptions, f: CommandEvent, p: PeerId, e: EntityId)
    requires Some(p) in NetworkSystem.Subscribers(subs, e)
    requires f.entity == e ==> !f.IsEntity(EntityRemove) && !f.IsEntity(Unsubscribe)
    ensures Some(p) in NetworkSystem.Subscribers(NetworkSystem.ProcessCommand(NetworkSystem.Subscribed, subs, f).state, e)
  {
  }

  /** A command about e at the head of the queue. */
  lemma CommandStep(sur: SystemModule.Surroundings, s: Server, p: PeerId, v: View, e: EntityId)
    requires SteadyTurn(s, e) && s.queue[0].Command? && s.queue[0].event.entity == e
    requires Some(p) in NetworkSystem.Subscribers(s.subs, e)
    requires Related(v, ViewOf(s.store, e), s.queue, p, e)
    requires Restructures(s, e) ==> Names(v, s.queue, p, e) == ViewOf(s.store, e).value.Keys
    ensures var ev, rest := s.queue[0].event, s.queue[1..];
      var v', d, d' := ViewAfter(sur, s, ev, p, v, e), ViewOf(s.store, e), EntityAfter(sur, s, ev, e);
      && Related(v', d', rest, p, e)
      && (!Restructures(s, e) ==> Names(v', rest, p, e) == Names(v, s.queue, p, e) && d'.value.Keys == d.value.Keys)
      && (Restructures(s, e) ==> (Names(v', rest, p, e) == d'.value.Keys <==> v.Some? || d'.value.Keys == d.value.Keys))
  {
    var ev, q, d := s.queue[0].event, s.queue, ViewOf(s.store, e);
    if Changes(ev) {
      RelatedWithoutHead(v, d, q, p, e);
      var made := ChangeEffect(sur, s, ev, p, v, e);
      if made {
        var m := Wrote(e, ev.payload.componentCommand, ev.payload.name, ev.payload.newValue);
        RelatedAfterChange(v, d, q[1..], p, e, m);
      }
    } else if ev.IsComponent(ComponentFetch) {
      var x := FetchEffect(sur, s, ev, p, v, e);
      if IsFetchOf(q[0], e, ev.payload.name) {
        RelatedAfterFetch(v, d, q, p, e, ev.payload.name, x);
      } else {
        RelatedWithoutHead(v, d, q, p, e);
      }
    } else if ev.payload.IntrospectionData? {
      IntrospectionEffect(sur, s, ev, p, v, e);
      if !IsIntroFor(q[0], p, e) || v.Some? { RelatedPastIntro(v, d, q, p, e); }
    } else {
      OtherEffect(sur, s, ev, p, v, e);
      RelatedWithoutHead(v, d, q, p, e);
    }
  }

  lemma RelatedPastIntro(v: View, d: View, q: seq<QueueItem>, p: PeerId, e: EntityId)
    requires q != [] && Related(v, d, q, p, e) && (v.Some? || !IsIntroFor(q[0], p, e))
    requires forall c :: !IsFetchOf(q[0], e, c)
    ensures Related(v, d, q[1..], p, e) && Names(v, q[1..], p, e) == Names(v, q, p, e)
  {
    if v.None? {
      RelatedWithoutHead(v, d, q, p, e);
    } else {
      forall c | c in v.value && c in d.value && v.value[c] != d.value[c] ensures FetchPending(q[1..], e, c) {
        PendingInTail(q, e, c);
      }
    }
  }

  /** A turn of the server's event loop. */
  lemma TurnStep(n: Net, sur: SystemModule.Surroundings, p: PeerId, e: EntityId)
    requires Mirroring(n, p, e) && SteadyTurn(n.server, e)
    requires Restructures(n.server, e) ==> NamesAgree(n, p, e)
    ensures var s, s' := n.server, Handle(sur, n.server);
      var v, d, d' := ExpectedView(n, p, e), ServerView(n, e), ViewOf(s'.store, e);
      var v' := Fold(v, Good(Added(n, ServerTurn(sur), p)), e);
      && Related(v', d', s'.queue, p, e)
      && (!Restructures(s, e) ==> Names(v', s'.queue, p, e) == Names(v, s.queue, p, e) && d'.value.Keys == d.value.Keys)
      && (Restructures(s, e) ==> (Names(v', s'.queue, p, e) == d'.value.Keys <==> v.Some? || d'.value.Keys == d.value.Keys))
  {
    var s, s' := n.server, Handle(sur, n.server);
    var v, d := ExpectedView(n, p, e), ServerView(n, e);
    var item, rest := s.queue[0], s.queue[1..];
    var posted := s'.queue[|rest|..];
    assert s'.queue == rest + posted;
    if item.Command? && item.event.entity == e {
      CommandStep(sur, s, p, v, e);
      RelatedGrows(ViewAfter(sur, s, item.event, p, v, e), EntityAfter(sur, s, item.event, e), rest, posted, p, e);
    } else {
      RelatedWithoutHead(v, d, s.queue, p, e);
      RelatedGrows(v, d, rest, posted, p, e);
      if item.Command? { ElsewhereEffect(sur, s, item.event, p, v, e); }
    }
  }

  /** Any other move: the store stays, nothing is addressed to p, and the queue may grow. */
  lemma OtherMoveStep(n: Net, move: Move, p: PeerId, e: EntityId)
    requires Mirroring(n, p, e) && Enabled(n, move) && !move.ServerTurn?
    ensures Added(n, move, p) == [] && After(n, move).server.store == n.server.store
    ensures Related(ExpectedView(n, p, e), ServerView(n, e), After(n, move).server.queue, p, e)
    ensures Names(ExpectedView(n, p, e), After(n, move).server.queue, p, e)
      == Names(ExpectedView(n, p, e), n.server.queue, p, e)
  {
    var q, q' := n.server.queue, After(n, move).server.queue;
    assert q' == q + q'[|q|..];
    RelatedGrows(ExpectedView(n, p, e), ServerView(n, e), q, q'[|q|..], p, e);
  }

  /**
   The invariant over one move. Adding or removing a component does no harm exactly when the mirror exists or is
   in flight; any other steady move leaves both sets of names as they are.
   */
  lemma StepKeepsMirroring(n: Net, move: Move, p: PeerId, e: EntityId)
    requires Mirroring(n, p, e) && Enabled(n, move) && Steady(n, move, p, e)
    requires move.ServerTurn? && Restructures(n.server, e) ==> NamesAgree(n, p, e)
    ensures Mirroring(After(n, move), p, e)
    ensures !(move.ServerTurn? && Restructures(n.server, e)) ==> (NamesAgree(After(n, move), p, e) <==> NamesAgree(n, p, e))
    ensures move.ServerTurn? && Restructures(n.server, e) ==>
      (NamesAgree(After(n, move), p, e)
       <==> ExpectedView(n, p, e).Some? || ServerView(After(n, move), e).value.Keys == ServerView(n, e).value.Keys)
  {
    var n' := After(n, move);
    MoveKeepsConsistent(n, move);
    StaysSubscribed(n, move, p, e);
    ExpectedFollows(n, move, p, e);
    if move.ServerTurn? { TurnStep(n, move.sur, p, e); } else { OtherMoveStep(n, move, p, e); }
  }

  // ---------------------------------------------------------------------------------------------
  // The subscription
  // ---------------------------------------------------------------------------------------------

  /** p's request to subscribe to e, and e is known and not empty. */
  predicate Subscribes(s: Server, p: PeerId, e: EntityId) {
    && s.queue != [] && s.queue[0].Command?
    && s.queue[0].event.IsEntity(Subscribe) && s.queue[0].event.entity == e && s.queue[0].event.peer == Some(p)
    && (s.queue[0].event.subtype == Transaction || s.queue[0].event.Publishable())
    && e in s.store.tables.stored && s.store.tables.stored[e] != map[]
  }

  lemma SubscribeDispatch(sur: SystemModule.Surroundings, s: Server, p: PeerId, e: EntityId)
    requires Subscribes(s, p, e)
    ensures var o := Dispatch(sur, s, s.queue[0].event);
      && o.posted == IntrospectionSystem.Answer(s.store, e, Some(p))
      && o.state.store == s.store && Some(p) in NetworkSystem.Subscribers(o.state.subs, e)
  {
    var ev := s.queue[0].event;
    var v := SystemModule.Process(sur, s.system, ev);
    var answer := IntrospectionSystem.Answer(s.store, e, Some(p));
    assert v.event.Publishable() && v.event.subtype == Notification && v.posted == [] && !v.accepted;
    assert v.event.IsEntity(Subscribe) && v.event.entity == e && v.event.peer == Some(p);
    SubscriptionAnswered(s.store, v.event, p);
    var n := NetworkSystem.ProcessCommand(NetworkSystem.Subscribed, s.subs, v.event);
    SubscriptionEntered(s.subs, v.event, p);
    NothingAdded(answer);
  }

  lemma SubscriptionAnswered(s: Store, ev: CommandEvent, p: PeerId)
    requires ev.subtype == Notification && ev.IsEntity(Subscribe) && ev.peer == Some(p)
    requires ev.entity in s.tables.stored && s.tables.stored[ev.entity] != map[]
    ensures IntrospectionSystem.Process(s, ev) == Outcome(s, ev, false, IntrospectionSystem.Answer(s, ev.entity, Some(p)))
    ensures StorageSystem.Process(s, ev) == Pass(s, ev)
  {
  }

  lemma SubscriptionEntered(subs: NetworkSystem.Subscriptions, ev: CommandEvent, p: PeerId)
    requires NetworkSystem.IsSubscription(ev) && ev.peer == Some(p)
    ensures var o := NetworkSystem.ProcessCommand(NetworkSystem.Subscribed, subs, ev);
      o.accepted && o.posted == [] && Some(p) in NetworkSystem.Subscribers(o.state, ev.entity)
  {
  }

  lemma AnswerIntroduces(s: Store, p: PeerId, e: EntityId)
    requires e in s.tables.stored && s.tables.stored[e] != map[]
    ensures var items := IntrospectionSystem.Answer(s, e, Some(p));
      items != [] && IsIntroFor(items[0], p, e) && NextIntro(items, p, e) == Some(s.tables.stored[e])
      && AfterIntro(items, p, e) == items[1..]
  {
    IntrospectionSystem.AnswerStart(s, e, Some(p));
  }

  lemma AnswerFetches(s: Store, p: PeerId, e: EntityId, c: string)
    requires e in s.tables.stored && c in s.tables.stored[e]
    ensures var items := IntrospectionSystem.Answer(s, e, Some(p));
      items != [] && FetchPending(items[1..], e, c)
  {
    var items := IntrospectionSystem.Answer(s, e, Some(p));
    var i := IntrospectionSystem.AnswerFetches(s, e, Some(p), c);
    assert IsFetchOf(items[i], e, c);
    assert items[1..][i - 1] == items[i];
  }

  lemma AllPendingAfterAnswer(s: Store, q: seq<QueueItem>, p: PeerId, e: EntityId, c: string)
    requires e in s.tables.stored && c in s.tables.stored[e]
    ensures var all := q + IntrospectionSystem.Answer(s, e, Some(p));
      FetchPending(all, e, c) && FetchPending(AfterIntro(all, p, e), e, c)
  {
    var items := IntrospectionSystem.Answer(s, e, Some(p));
    AnswerIntroduces(s, p, e);
    AnswerFetches(s, p, e, c);
    HeadAndTail(items);
    PendingInSum([items[0]], items[1..], e, c);
    PendingInSum(q, items, e, c);
    if NextIntro(q, p, e).Some? {
      IntroStays(q, items, p, e);
      PendingInSum(AfterIntro(q, p, e), items, e, c);
    } else {
      IntroComes(q, items, p, e);
    }
  }

  lemma NextIntroAfterAnswer(s: Store, q: seq<QueueItem>, p: PeerId, e: EntityId)
    requires e in s.tables.stored && s.tables.stored[e] != map[]
    ensures NextIntro(q + IntrospectionSystem.Answer(s, e, Some(p)), p, e)
      == if NextIntro(q, p, e).Some? then NextIntro(q, p, e) else Some(s.tables.stored[e])
  {
    var items := IntrospectionSystem.Answer(s, e, Some(p));
    AnswerIntroduces(s, p, e);
    if NextIntro(q, p, e).Some? { IntroStays(q, items, p, e); } else { IntroComes(q, items, p, e); }
  }

  /** The answer appended: whatever the mirror was, it is going to be repaired value by value. */
  lemma RelatedAfterAnswer(s: Store, v: View, q: seq<QueueItem>, p: PeerId, e: EntityId)
    requires e in s.tables.stored && s.tables.stored[e] != map[]
    ensures var d, items := s.tables.stored[e], IntrospectionSystem.Answer(s, e, Some(p));
      && Related(v, Some(d), q + items, p, e)
      && (Names(v, q + items, p, e) == d.Keys <==> (v.None? && NextIntro(q, p, e).None?) || Names(v, q, p, e) == d.Keys)
  {
    var d, all := s.tables.stored[e], q + IntrospectionSystem.Answer(s, e, Some(p));
    NextIntroAfterAnswer(s, q, p, e);
    forall c | c in d ensures FetchPending(all, e, c) && FetchPending(AfterIntro(all, p, e), e, c) {
      AllPendingAfterAnswer(s, q, p, e, c);
    }
  }

  /** p has no mirror of e and none is on its way to it. */
  predicate Unintroduced(n: Net, p: PeerId, e: EntityId)
    requires p in n.clients && p in n.down
  { ExpectedView(n, p, e).None? && NextIntro(n.server.queue, p, e).None? }

  /**
   Handling a SUBSCRIBE establishes the invariant, however stale p's view of the entity is by then. The names
   agree afterwards exactly when p starts from nothing or from the entity's names.
   */
  lemma SubscribeStartsMirroring(n: Net, sur: SystemModule.Surroundings, p: PeerId, e: EntityId)
    requires Consistent(n) && p in n.connected && QuietAtHome(n.clients[p].queue, e) && Subscribes(n.server, p, e)
    ensures var n' := After(n, ServerTurn(sur));
      && Mirroring(n', p, e)
      && (NamesAgree(n', p, e) <==>
          Unintroduced(n, p, e) || Names(ExpectedView(n, p, e), n.server.queue, p, e) == ServerView(n, e).value.Keys)
  {
    var n' := After(n, ServerTurn(sur));
    var s, rest, v := n.server, n.server.queue[1..], ExpectedView(n, p, e);
    MoveKeepsConsistent(n, ServerTurn(sur));
    SubscribeDispatch(sur, s, p, e);
    ExpectedAfterTurn(n, sur, p, e);
    Publishing.AnswerIsCommands(s.store, e, Some(p));
    CommandsSendNothing(IntrospectionSystem.Answer(s.store, e, Some(p)), p);
    assert NextIntro(rest, p, e) == NextIntro(s.queue, p, e);
    RelatedAfterAnswer(s.store, v, rest, p, e);
  }

  // ---------------------------------------------------------------------------------------------
  // Runs
  // ---------------------------------------------------------------------------------------------

  /** Steady all the way, components of e added and removed only once the introspection is on its way. */
  ghost predicate SteadyRun(n: Net, moves: seq<Move>, p: PeerId, e: EntityId)
    requires Runs(n, moves)
    decreases |moves|
  {
    moves == [] || (
      && p in n.clients && p in n.down && Steady(n, moves[0], p, e)
      && (moves[0].ServerTurn? && Restructures(n.server, e) ==> ExpectedView(n, p, e).Some?)
      && SteadyRun(After(n, moves[0]), moves[1..], p, e))
  }

  /** Steady all the way, and the set of components of e stays as it is. */
  ghost predicate CalmRun(n: Net, moves: seq<Move>, p: PeerId, e: EntityId)
    requires Runs(n, moves)
    decreases |moves|
  {
    moves == [] || (
      && Steady(n, moves[0], p, e) && !(moves[0].ServerTurn? && Restructures(n.server, e))
      && CalmRun(After(n, moves[0]), moves[1..], p, e))
  }

  /** The mirror with everything in flight applied is the entity, except where a FETCH is still queued. */
  ghost predicate AgreesUpToFetches(n: Net, p: PeerId, e: EntityId)
    requires p in n.clients && p in n.down
  {
    var v, d := ExpectedView(n, p, e), ServerView(n, e);
    && v.Some? && d.Some? && v.value.Keys == d.value.Keys
    && forall c | c in d.value :: v.value[c] == d.value[c] || FetchPending(n.server.queue, e, c)
  }

  /** Safety over every steady run: once the introspection is handled, the mirror is right up to pending FETCHes. */
  lemma {:induction false} SteadyRunsAgree(n: Net, moves: seq<Move>, p: PeerId, e: EntityId)
    requires Mirroring(n, p, e) && NamesAgree(n, p, e) && Runs(n, moves) && SteadyRun(n, moves, p, e)
    ensures var r := Protocol.Run(n, moves);
      && Mirroring(r, p, e) && NamesAgree(r, p, e)
      && (AgreesUpToFetches(r, p, e) || (ExpectedView(r, p, e).None? && NextIntro(r.server.queue, p, e).Some?))
    decreases |moves|
  {
    if moves != [] {
      StepKeepsMirroring(n, moves[0], p, e);
      SteadyRunsAgree(After(n, moves[0]), moves[1..], p, e);
    }
  }

  lemma {:induction false} CalmRunKeepsNames(n: Net, moves: seq<Move>, p: PeerId, e: EntityId)
    requires Mirroring(n, p, e) && Runs(n, moves) && CalmRun(n, moves, p, e)
    ensures var r := Protocol.Run(n, moves);
      Mirroring(r, p, e) && (NamesAgree(r, p, e) <==> NamesAgree(n, p, e))
    decreases |moves|
  {
    if moves != [] {
      StepKeepsMirroring(n, moves[0], p, e);
      CalmRunKeepsNames(After(n, moves[0]), moves[1..], p, e);
    }
  }

  /** Nothing left to do for p: the server is idle and p has handled everything that was sent to it. */
  predicate Settled(n: Net, p: PeerId)
    requires p in n.clients && p in n.down
  { n.server.queue == [] && InFlight(n, p) == [] }

  /** Settled and mirroring: the mirror is the entity exactly when the names agreed. */
  lemma SettledMirror(n: Net, p: PeerId, e: EntityId)
    requires Mirroring(n, p, e) && Settled(n, p)
    ensures ViewOf(n.clients[p].store, e) == ServerView(n, e) <==> NamesAgree(n, p, e)
  {
    var v, d := ExpectedView(n, p, e), ServerView(n, e);
    assert v == ViewOf(n.clients[p].store, e) && v.Some?;
    if NamesAgree(n, p, e) {
      assert forall c | c in v.value :: v.value[c] == d.value[c];
      assert v.value == d.value;
    }
  }

  /** A calm run that settles ends with the mirror being the entity exactly when the names agreed at its start. */
  lemma SettledCalmRun(n: Net, moves: seq<Move>, p: PeerId, e: EntityId)
    requires Mirroring(n, p, e) && Runs(n, moves) && CalmRun(n, moves, p, e)
    requires var r := Protocol.Run(n, moves); p in r.clients && p in r.down && Settled(r, p)
    ensures var r := Protocol.Run(n, moves);
      ViewOf(r.clients[p].store, e) == ServerView(r, e) <==> NamesAgree(n, p, e)
  {
    CalmRunKeepsNames(n, moves, p, e);
    SettledMirror(Protocol.Run(n, moves), p, e);
  }

  /**
   Replica agreement, exactly: p's SUBSCRIBE is handled, the system runs steadily without changes to the set of
   e's components, and everything settles. Then p's mirror equals the server's entity if and only if, when the
   SUBSCRIBE was handled, p had no mirror of e (nor one on its way) or one with the entity's component names.
   */
  lemma ReplicaAgreesIff(n: Net, moves: seq<Move>, p: PeerId, e: EntityId)
    requires Consistent(n) && p in n.connected && QuietAtHome(n.clients[p].queue, e) && Subscribes(n.server, p, e)
    requires moves != [] && moves[0].ServerTurn? && Runs(n, moves) && CalmRun(n, moves, p, e)
    requires var r := Protocol.Run(n, moves); p in r.clients && p in r.down && Settled(r, p)
    ensures var r := Protocol.Run(n, moves);
      ViewOf(r.clients[p].store, e) == ServerView(r, e) <==>
      Unintroduced(n, p, e) || Names(ExpectedView(n, p, e), n.server.queue, p, e) == ServerView(n, e).value.Keys
  {
    SubscribeStartsMirroring(n, moves[0].sur, p, e);
    SettledCalmRun(After(n, moves[0]), moves[1..], p, e);
  }

  /**
   With components of e added and removed on the way: p subscribes with nothing of e, or with the entity's
   component names, the system runs steadily and settles. Then p's mirror equals the server's entity.
   */
  lemma ReplicaAgreesThroughChanges(n: Net, moves: seq<Move>, p: PeerId, e: EntityId)
    requires Consistent(n) && p in n.connected && QuietAtHome(n.clients[p].queue, e) && Subscribes(n.server, p, e)
    requires Unintroduced(n, p, e) || Names(ExpectedView(n, p, e), n.server.queue, p, e) == ServerView(n, e).value.Keys
    requires moves != [] && moves[0].ServerTurn? && Runs(n, moves) && SteadyRun(n, moves, p, e)
    requires var r := Protocol.Run(n, moves); p in r.clients && p in r.down && Settled(r, p)
    ensures var r := Protocol.Run(n, moves); ViewOf(r.clients[p].store, e) == ServerView(r, e)
  {
    SubscribeStartsMirroring(n, moves[0].sur, p, e);
    SteadyRunsAgree(After(n, moves[0]), moves[1..], p, e);
    SettledMirror(Protocol.Run(n, moves), p, e);
  }

  // ---------------------------------------------------------------------------------------------
  // What steadiness rules out, and why it has to
  // ---------------------------------------------------------------------------------------------

  /** A component added or removed while the introspection is still queued: no calm run ever repairs the mirror. */
  lemma LateStructureIsNeverRepaired(n: Net, sur: SystemModule.Surroundings, moves: seq<Move>, p: PeerId, e: EntityId)
    requires Mirroring(n, p, e) && NamesAgree(n, p, e) && ExpectedView(n, p, e).None?
    requires SteadyTurn(n.server, e) && Restructures(n.server, e)
    requires ServerView(After(n, ServerTurn(sur)), e) != ServerView(n, e)
    requires Runs(After(n, ServerTurn(sur)), moves) && CalmRun(After(n, ServerTurn(sur)), moves, p, e)
    requires var r := Protocol.Run(After(n, ServerTurn(sur)), moves); p in r.clients && p in r.down && Settled(r, p)
    ensures var r := Protocol.Run(After(n, ServerTurn(sur)), moves);
      ViewOf(r.clients[p].store, e) != ServerView(r, e)
  {
    RestructuringChangesNames(n, sur, p, e);
    StepKeepsMirroring(n, ServerTurn(sur), p, e);
    SettledCalmRun(After(n, ServerTurn(sur)), moves, p, e);
  }

  lemma RestructuringChangesNames(n: Net, sur: SystemModule.Surroundings, p: PeerId, e: EntityId)
    requires Mirroring(n, p, e) && SteadyTurn(n.server, e) && Restructures(n.server, e)
    requires ServerView(After(n, ServerTurn(sur)), e) != ServerView(n, e)
    ensures ServerView(After(n, ServerTurn(sur)), e).Some?
    ensures ServerView(After(n, ServerTurn(sur)), e).value.Keys != ServerView(n, e).value.Keys
  {
    var ev, d := n.server.queue[0].event, ServerView(n, e);
    var made := ChangeEffect(sur, n.server, ev, p, None, e);
    var c := ev.payload.name;
    assert c in ServerView(After(n, ServerTurn(sur)), e).value.Keys <==> c !in d.value.Keys;
  }

  /** Another peer's UNSUBSCRIBE is sent to p too, and p drops its mirror although it stays subscribed. */
  lemma OthersUnsubscribeDropsMirror(n: Net, sur: SystemModule.Surroundings, p: PeerId, other: Peer, e: EntityId)
    requires Subscribed(n, p, e) && QuietAtHome(n.clients[p].queue, e) && other != Some(p)
    requires n.server.queue != [] && n.server.queue[0].Command?
    requires var ev := n.server.queue[0].event;
      ev.IsEntity(Unsubscribe) && ev.entity == e && ev.peer == other && (ev.subtype == Transaction || ev.Publishable())
    ensures var n' := After(n, ServerTurn(sur));
      && p in n'.clients && p in n'.down && ExpectedView(n', p, e).None?
      && Some(p) in NetworkSystem.Subscribers(n'.server.subs, e) && ServerView(n', e) == ServerView(n, e)
  {
    var s, ev := n.server, n.server.queue[0].event;
    ExpectedAfterTurn(n, sur, p, e);
    BothSides(sur, s, ev, p, ExpectedView(n, p, e), e);
    UnsubscribeForwarded(sur, s, ev, other, p);
  }

  lemma UnsubscribeForwarded(sur: SystemModule.Surroundings, s: Server, ev: CommandEvent, other: Peer, p: PeerId)
    requires ev.IsEntity(Unsubscribe) && ev.peer == other != Some(p) && (ev.subtype == Transaction || ev.Publishable())
    ensures var vo := SystemModule.Process(sur, s.system, ev);
      && !vo.accepted && vo.event.Publishable() && vo.event.subtype == Notification && Wire(vo.event).payload == ev.payload
      && vo.event.entity == ev.entity
      && IntrospectionSystem.Process(s.store, vo.event) == Pass(s.store, vo.event)
      && StorageSystem.Process(s.store, vo.event) == Pass(s.store, vo.event)
      && (Some(p) in NetworkSystem.Subscribers(s.subs, ev.entity) ==>
          Some(p) in NetworkSystem.Subscribers(Dispatch(sur, s, ev).state.subs, ev.entity))
  {
    var f := SystemModule.Process(sur, s.system, ev).event;
    assert f.Publishable() && f.subtype == Notification && f.payload == ev.payload && f.peer == other;
    assert Dispatch(sur, s, ev).state.subs
      == NetworkSystem.ProcessCommand(NetworkSystem.Subscribed, s.subs, f).state;
  }

  /** A queued introspection reaches p although it unsubscribed meanwhile: a mirror nobody updates. */
  lemma LateIntroductionMakesZombie(n: Net, sur: SystemModule.Surroundings, p: PeerId, e: EntityId)
    requires Consistent(n) && p in n.connected && ExpectedView(n, p, e).None?
    requires n.server.queue != [] && IsIntroFor(n.server.queue[0], p, e)
    requires e in n.server.subs && Some(p) !in n.server.subs[e]
    ensures var n' := After(n, ServerTurn(sur));
      && p in n'.clients && p in n'.down
      && ExpectedView(n', p, e) == Some(n.server.queue[0].event.payload.values)
      && Some(p) !in NetworkSystem.Subscribers(n'.server.subs, e)
  {
    var s, ev := n.server, n.server.queue[0].event;
    ExpectedAfterTurn(n, sur, p, e);
    IntrospectionEffect(sur, s, ev, p, None, e);
    IntrospectionKeepsTable(sur, s, ev);
  }

  lemma IntrospectionKeepsTable(sur: SystemModule.Surroundings, s: Server, ev: CommandEvent)
    requires ev.payload.IntrospectionData?
    ensures Dispatch(sur, s, ev).state.subs == s.subs
  {
    var f := SystemModule.Process(sur, s.system, ev).event;
    assert f.payload == ev.payload;
    assert StorageSystem.Process(s.store, f) == Pass(s.store, f);
  }

  /** A foreign or local-only SET changes the server's value and no subscriber hears of it. */
  lemma SecretSetIsNotMirrored(n: Net, sur: SystemModule.Surroundings, p: PeerId, e: EntityId, c: string)
    requires Mirroring(n, p, e) && AgreesUpToFetches(n, p, e) && c in ServerView(n, e).value
    requires n.server.queue != [] && n.server.queue[0].Command?
    requires var ev := n.server.queue[0].event;
      && ev.IsComponent(ComponentSet) && ev.entity == e && ev.payload.name == c && ev.subtype == Notification
      && !Visible(ev) && ev.payload.newValue != Invalid
    ensures var n' := After(n, ServerTurn(sur));
      && p in n'.clients && p in n'.down && ExpectedView(n', p, e) == ExpectedView(n, p, e)
      && ServerView(n', e) == Some(ServerView(n, e).value[c := n.server.queue[0].event.payload.newValue])
  {
    ExpectedAfterTurn(n, sur, p, e);
    BothSides(sur, n.server, n.server.queue[0].event, p, ExpectedView(n, p, e), e);
  }
}
