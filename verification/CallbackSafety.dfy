/** What holds in every run of one webhook event. */
module CallbackSafety {
  import opened Contracts
  import opened CallbackProtocol

  // ---- the client's part ----

  /** Neither a response nor completion is on record: a load made now would start the handler. */
  predicate Blank(stored: Option<Stored>)
  {
    stored.Some? ==> stored.value.response.None? && !stored.value.completed
  }

  predicate BeforeHandler(st: Stage) { st.Idle? || st.Entered? || st.Loaded? }

  predicate StartsOk(s: Side)
  {
    && s.starts <= s.stops + 1
    && (Blank(s.stored) && BeforeHandler(s.stage) ==> s.starts <= s.stops)
  }

  predicate Own(id: DeliveryId, client: ClientId, r: Response) { r.delivery == id && r.client == client }

  /** Unless a response was lost, whatever is on the bus is the stored response, or the one that is
      about to be stored. */
  predicate PublishedOk(id: DeliveryId, client: ClientId, s: Side)
  {
    && (s.stage.Delivering? ==> Own(id, client, s.stage.response))
    && (s.stored.Some? && s.stored.value.response.Some? ==> Own(id, client, s.stored.value.response.value))
    && (forall r :: r in s.published ==> Own(id, client, r))
    && (!s.lost ==> forall r :: r in s.published ==>
          && s.stored.Some?
          && (s.stored.value.response == Some(r)
              || (s.stored.value.response.None? && s.stage.Delivering? && s.stage.response == r)))
  }

  predicate StageOk(responded: bool, replies: bool, s: Side)
  {
    && (s.stage.Loaded? ==> s.stored == Some(s.stage.snapshot))
    && (s.stored.None? ==> s.stage.Idle? || s.stage.Entered?)
    && (s.stage.Handling? ==> Blank(s.stored))
    && (s.stage.Acking? || s.stage.Completing? ==> !replies)
    && (s.stage.ReAcking? ==> s.stored.Some? && s.stored.value.completed)
    && (s.stage.Delivering? ==>
          && replies && s.stored.Some?
          && (s.stage.saved ==> s.stored.value.response == Some(s.stage.response))
          && (!s.stage.saved ==> s.stored.value.response.None? || s.stored.value.response == Some(s.stage.response))
          && (s.stage.confirmed ==> responded))
    && (s.stored.Some? && replies && s.stored.value.completed ==> responded && s.stored.value.response.Some?)
    && (s.stored.Some? && s.stored.value.response.Some? ==> replies)
  }

  predicate SideOk(responded: bool, id: DeliveryId, d: Del, s: Side)
  {
    StartsOk(s) && PublishedOk(id, d.client, s) && StageOk(responded, d.replies, s)
  }

  // ---- the proxy's part ----

  predicate DeskOk(desk: Desk)
  {
    && (desk.response.Some? <==> desk.status == Responded)
    && (desk.channel.Some? ==> desk.channel == desk.response)
    && (desk.returned.Some? ==> desk.returned == desk.response)
    && (desk.status == TimedOut ==> !desk.waiting)
  }

  predicate MadeBy(w: World, r: Response)
  {
    r.delivery in w.dels && r.delivery in w.sides && w.dels[r.delivery].replies && r in w.sides[r.delivery].published
  }

  predicate MessageOk(w: World, m: Message)
  {
    match m
    case EventMsg(d) => true
    case AckMsg(d, c) => d in w.dels && w.dels[d].replies ==> w.desk.status == Responded
    case ResponseMsg(r) => MadeBy(w, r)
    case ConfirmedMsg(c, d) => d in w.dels && w.dels[d].replies ==> w.desk.status == Responded
  }

  predicate OnBus(published: set<Response>, net: set<Message>)
  {
    forall r :: r in published ==> ResponseMsg(r) in net
  }

  predicate NetOk(w: World) { forall m :: m in w.net ==> MessageOk(w, m) }

  predicate Inv(w: World)
  {
    && w.dels.Keys == w.sides.Keys && OneReply(w.dels)
    && DeskOk(w.desk) && (w.desk.response.Some? ==> MadeBy(w, w.desk.response.value))
    && (forall d :: d in w.sides ==> SideOk(w.desk.status == Responded, d, w.dels[d], w.sides[d]))
    && NetOk(w)
    && (forall d :: d in w.sides ==> OnBus(w.sides[d].published, w.net))
  }

  // ---- preservation ----

  lemma ActKeepsStarts(id: DeliveryId, d: Del, s: Side, net: set<Message>, ev: ClientEvent)
    requires StartsOk(s) && StageOk(true, d.replies, s)
    ensures StartsOk(Act(id, d, s, net, ev).side)
  {
  }

  lemma ActKeepsPublished(id: DeliveryId, d: Del, s: Side, net: set<Message>, ev: ClientEvent, responded: bool)
    requires PublishedOk(id, d.client, s) && StageOk(responded, d.replies, s)
    ensures PublishedOk(id, d.client, Act(id, d, s, net, ev).side)
    ensures s.published <= Act(id, d, s, net, ev).side.published
  {
  }

  lemma ActKeepsStage(id: DeliveryId, d: Del, s: Side, net: set<Message>, ev: ClientEvent, responded: bool)
    requires StageOk(responded, d.replies, s)
    requires ConfirmedMsg(d.client, id) in net && d.replies ==> responded
    ensures StageOk(responded, d.replies, Act(id, d, s, net, ev).side)
  {
  }

  lemma ActOk(id: DeliveryId, d: Del, s: Side, net: set<Message>, ev: ClientEvent, responded: bool)
    requires SideOk(responded, id, d, s)
    requires ConfirmedMsg(d.client, id) in net && d.replies ==> responded
    ensures var out := Act(id, d, s, net, ev);
            && SideOk(responded, id, d, out.side) && s.published <= out.side.published
            && (out.sent.Some? ==>
                  || (out.sent.value.AckMsg? && out.sent.value.delivery == id && (d.replies ==> responded))
                  || (out.sent.value.ResponseMsg? && d.replies && out.sent.value.response in out.side.published
                      && out.sent.value.response.delivery == id))
            && (forall r :: r in out.side.published ==> r in s.published || out.sent == Some(ResponseMsg(r)))
  {
    assert StageOk(true, d.replies, s);
    ActKeepsStarts(id, d, s, net, ev);
    ActKeepsPublished(id, d, s, net, ev, responded);
    ActKeepsStage(id, d, s, net, ev, responded);
  }

  lemma ActInWorld(w: World, d: DeliveryId, ev: ClientEvent)
    requires Inv(w) && d in w.sides
    ensures var out := Act(d, w.dels[d], w.sides[d], w.net, ev);
            && SideOk(w.desk.status == Responded, d, w.dels[d], out.side) && w.sides[d].published <= out.side.published
            && (forall r :: r in out.side.published ==> r in w.sides[d].published || out.sent == Some(ResponseMsg(r)))
            && (out.sent.Some? ==> MessageOk(w.(sides := w.sides[d := out.side]), out.sent.value))
  {
    assert SideOk(w.desk.status == Responded, d, w.dels[d], w.sides[d]);
    assert ConfirmedMsg(w.dels[d].client, d) in w.net ==> MessageOk(w, ConfirmedMsg(w.dels[d].client, d));
    ActOk(d, w.dels[d], w.sides[d], w.net, ev, w.desk.status == Responded);
  }

  /** A side that only publishes more keeps what the bus relies on. */
  lemma SideReplaced(w: World, d: DeliveryId, side: Side, m: Message)
    requires d in w.sides && w.sides[d].published <= side.published && MessageOk(w, m)
    ensures MessageOk(w.(sides := w.sides[d := side]), m)
  {
  }

  function Replaced(w: World, d: DeliveryId, out: Out): World
  {
    World(w.desk, w.dels, w.sides[d := out.side], if out.sent.Some? then w.net + {out.sent.value} else w.net)
  }

  lemma ReplacedNet(w: World, d: DeliveryId, out: Out)
    requires NetOk(w) && d in w.sides && w.sides[d].published <= out.side.published
    requires out.sent.Some? ==> MessageOk(w.(sides := w.sides[d := out.side]), out.sent.value)
    ensures NetOk(Replaced(w, d, out))
  {
    var u, v := w.(sides := w.sides[d := out.side]), Replaced(w, d, out);
    forall m | m in v.net
      ensures MessageOk(u, m)
    {
      if m in w.net {
        SideReplaced(w, d, out.side, m);
      }
    }
    NetMatters(u, v);
  }

  /** A step that replaces one side and publishes at most one message. */
  lemma SideStep(w: World, d: DeliveryId, out: Out)
    requires Inv(w) && d in w.sides
    requires SideOk(w.desk.status == Responded, d, w.dels[d], out.side)
    requires w.sides[d].published <= out.side.published
    requires forall r :: r in out.side.published ==> r in w.sides[d].published || out.sent == Some(ResponseMsg(r))
    requires out.sent.Some? ==> MessageOk(w.(sides := w.sides[d := out.side]), out.sent.value)
    ensures Inv(Replaced(w, d, out))
  {
    ReplacedNet(w, d, out);
  }

  lemma ClientInv(w: World, d: DeliveryId, ev: ClientEvent)
    requires Inv(w)
    ensures Inv(Apply(w, AtClient(d, ev)))
  {
    if d in w.sides {
      ActInWorld(w, d, ev);
      SideStep(w, d, Act(d, w.dels[d], w.sides[d], w.net, ev));
    }
  }

  /** MessageOk does not read the bus. */
  lemma NetMatters(u: World, v: World)
    requires v == u.(net := v.net)
    requires forall m :: m in v.net ==> MessageOk(u, m)
    ensures NetOk(v)
  {
    forall m | m in v.net
      ensures MessageOk(v, m)
    {
      assert MessageOk(u, m);
    }
  }

  /** Facts that the proxy never takes back. */
  predicate DeskGrows(a: Desk, b: Desk)
  {
    && (a.response.Some? ==> b.response == a.response)
    && (a.status == Responded ==> b.status == Responded)
    && (a.status == TimedOut ==> b.status == TimedOut)
    && (a.status == Received ==> b.status == Received)
  }

  predicate SameTargets(a: map<DeliveryId, Del>, b: map<DeliveryId, Del>)
  {
    && a.Keys == b.Keys
    && (forall d :: d in a ==> b[d].(closed := a[d].closed) == a[d] && (a[d].closed ==> b[d].closed))
  }

  lemma ProxyTargets(w: World, ev: ProxyEvent)
    ensures SameTargets(w.dels, Proxy(w, ev).dels)
  {
  }

  lemma ProxyFrame(w: World, ev: ProxyEvent)
    requires DeskOk(w.desk)
    ensures var v := Proxy(w, ev);
            && DeskOk(v.desk) && DeskGrows(w.desk, v.desk)
            && v.sides == w.sides && w.net <= v.net
            && (v.desk.response != w.desk.response ==>
                  v.desk.response.Some? && ResponseMsg(v.desk.response.value) in w.net)
  {
  }

  lemma ProxyMessages(w: World, ev: ProxyEvent, m: Message)
    requires Inv(w) && m in Proxy(w, ev).net && m !in w.net
    ensures MessageOk(Proxy(w, ev), m)
  {
    if ev.HandleAck? {
      assert MessageOk(w, AckMsg(ev.delivery, ev.client));
    }
  }

  /** A desk and deliveries that only move on, and messages that are allowed, keep the invariant. */
  lemma GrownInv(w: World, v: World)
    requires Inv(w) && v.sides == w.sides && w.net <= v.net
    requires DeskOk(v.desk) && DeskGrows(w.desk, v.desk) && SameTargets(w.dels, v.dels)
    requires v.desk.response != w.desk.response ==>
               v.desk.response.Some? && ResponseMsg(v.desk.response.value) in w.net
    requires forall m :: m in v.net && m !in w.net ==> MessageOk(v, m)
    ensures Inv(v)
  {
    assert v.desk.response != w.desk.response ==> MessageOk(w, ResponseMsg(v.desk.response.value));
    forall d | d in v.sides
      ensures SideOk(v.desk.status == Responded, d, v.dels[d], v.sides[d])
    {
      assert SideOk(w.desk.status == Responded, d, w.dels[d], w.sides[d]);
    }
    forall m | m in v.net
      ensures MessageOk(v, m)
    {
      assert m in w.net ==> MessageOk(w, m);
    }
  }

  lemma ProxyInv(w: World, ev: ProxyEvent)
    requires Inv(w)
    ensures Inv(Proxy(w, ev))
  {
    var v := Proxy(w, ev);
    ProxyFrame(w, ev);
    ProxyTargets(w, ev);
    forall m | m in v.net && m !in w.net
      ensures MessageOk(v, m)
    {
      ProxyMessages(w, ev, m);
    }
    GrownInv(w, v);
  }

  lemma StartInv(delegated: bool, responder: ClientId, dels: map<DeliveryId, Del>)
    requires OneReply(dels)
    ensures Inv(Start(delegated, responder, dels))
  {
  }

  lemma ApplyInv(w: World, ev: Event)
    requires Inv(w)
    ensures Inv(Apply(w, ev))
  {
    match ev
    case AtClient(d, e) => ClientInv(w, d, e);
    case AtProxy(e) => ProxyInv(w, e);
  }

  lemma {:induction false} RunInv(w: World, events: seq<Event>)
    requires Inv(w)
    ensures Inv(Run(w, events))
    decreases |events|
  {
    if events != [] {
      ApplyInv(w, events[0]);
      RunInv(Apply(w, events[0]), events[1..]);
    }
  }

  // ---- over time ----

  /** What the client's record and counters keep from one moment to a later one. */
  predicate SideLater(a: Side, b: Side)
  {
    && (a.stored.Some? ==> b.stored.Some?)
    && (a.stored.Some? && a.stored.value.response.Some? ==> b.stored.value.response == a.stored.value.response)
    && (a.stored.Some? && a.stored.value.completed ==> b.stored.value.completed)
    && (!Blank(a.stored) ==> b.starts == a.starts)
    && a.starts <= b.starts && a.stops <= b.stops
  }

  predicate Later(w: World, v: World)
  {
    && DeskGrows(w.desk, v.desk) && SameTargets(w.dels, v.dels) && w.net <= v.net
    && w.sides.Keys == v.sides.Keys
    && forall d :: d in w.sides ==> SideLater(w.sides[d], v.sides[d])
  }

  lemma ActLater(id: DeliveryId, d: Del, s: Side, net: set<Message>, ev: ClientEvent, responded: bool)
    requires StageOk(responded, d.replies, s)
    ensures SideLater(s, Act(id, d, s, net, ev).side)
  {
  }

  lemma ApplyLater(w: World, ev: Event)
    requires Inv(w)
    ensures Later(w, Apply(w, ev))
  {
    match ev
    case AtClient(d, e) =>
      if d in w.sides {
        assert SideOk(w.desk.status == Responded, d, w.dels[d], w.sides[d]);
        ActLater(d, w.dels[d], w.sides[d], w.net, e, w.desk.status == Responded);
      }
    case AtProxy(e) =>
      ProxyFrame(w, e);
      ProxyTargets(w, e);
  }

  lemma LaterTransitive(u: World, v: World, w: World)
    requires Later(u, v) && Later(v, w)
    ensures Later(u, w)
  {
  }

  lemma {:induction false} RunLater(w: World, events: seq<Event>)
    requires Inv(w)
    ensures Later(w, Run(w, events))
    decreases |events|
  {
    if events != [] {
      var v := Apply(w, events[0]);
      ApplyLater(w, events[0]);
      ApplyInv(w, events[0]);
      RunLater(v, events[1..]);
      LaterTransitive(w, v, Run(w, events));
    }
  }

  /** The world after `events`, from the fan-out of one event. */
  function After(delegated: bool, responder: ClientId, dels: map<DeliveryId, Del>, events: seq<Event>): World
  {
    Run(Start(delegated, responder, dels), events)
  }

  // ---- the theorems ----

  /** `responded` and `timed_out` are final, the stored response never changes, the external caller
      receives only the stored response, and no reply-bearing delivery of a timed-out event is
      ever confirmed. */
  lemma DelegatedAnswer(delegated: bool, responder: ClientId, dels: map<DeliveryId, Del>, early: seq<Event>,
                        late: seq<Event>)
    requires OneReply(dels)
    ensures var w := After(delegated, responder, dels, early);
            var v := Run(w, late);
            && (w.desk.status == Responded || w.desk.status == TimedOut ==> v.desk.status == w.desk.status)
            && (w.desk.response.Some? ==> v.desk.response == w.desk.response)
            && (w.desk.returned.Some? ==> w.desk.status == Responded && w.desk.returned == w.desk.response)
            && (w.desk.status == TimedOut ==>
                  forall c, d :: ConfirmedMsg(c, d) in v.net ==> !(d in v.dels && v.dels[d].replies))
  {
    StartInv(delegated, responder, dels);
    RunInv(Start(delegated, responder, dels), early);
    var w := After(delegated, responder, dels, early);
    RunInv(w, late);
    RunLater(w, late);
    var v := Run(w, late);
    forall c, d | ConfirmedMsg(c, d) in v.net
      ensures MessageOk(v, ConfirmedMsg(c, d))
    {
    }
  }

  /** A handler starts at most once more often than its process stops, and never again once its
      response (or the completion of the delivery) is on record. */
  lemma HandlerStarts(delegated: bool, responder: ClientId, dels: map<DeliveryId, Del>, early: seq<Event>,
                      late: seq<Event>, d: DeliveryId)
    requires OneReply(dels) && d in dels
    ensures var w := After(delegated, responder, dels, early);
            var v := Run(w, late);
            && d in w.sides && d in v.sides
            && w.sides[d].starts <= 1 + w.sides[d].stops
            && (!Blank(w.sides[d].stored) ==> v.sides[d].starts == w.sides[d].starts)
            && (w.sides[d].stored.Some? && w.sides[d].stored.value.response.Some? ==>
                  v.sides[d].stored.Some? && v.sides[d].stored.value.response == w.sides[d].stored.value.response)
  {
    var s := Start(delegated, responder, dels);
    StartInv(delegated, responder, dels);
    RunInv(s, early);
    RunLater(s, early);
    var w := After(delegated, responder, dels, early);
    RunLater(w, late);
    assert SideOk(w.desk.status == Responded, d, w.dels[d], w.sides[d]);
  }

  /** A delivery that asks for a reply is complete at the client only when the proxy has stored a
      response, and unless a stop fell between the publication of a response and its save, the
      client's own stored response is that one. */
  lemma BothSidesAgree(delegated: bool, responder: ClientId, dels: map<DeliveryId, Del>, events: seq<Event>,
                       d: DeliveryId)
    requires OneReply(dels) && d in dels
    ensures var w := After(delegated, responder, dels, events);
            && d in w.sides
            && (!w.sides[d].lost && w.sides[d].stored.Some? && w.sides[d].stored.value.response.Some?
                && w.desk.response.Some? ==>
                  w.sides[d].stored.value.response == w.desk.response)
            && (dels[d].replies && w.sides[d].stored.Some? && w.sides[d].stored.value.completed ==>
                  w.desk.status == Responded && w.desk.response.Some? && w.sides[d].stored.value.response.Some?)
  {
    var s := Start(delegated, responder, dels);
    StartInv(delegated, responder, dels);
    RunInv(s, events);
    RunLater(s, events);
    var w := After(delegated, responder, dels, events);
    assert SideOk(w.desk.status == Responded, d, w.dels[d], w.sides[d]);
  }

  lemma {:induction false} RunConcat(w: World, a: seq<Event>, b: seq<Event>)
    ensures Run(w, a + b) == Run(Run(w, a), b)
    decreases |a|
  {
    if a == [] {
      assert a + b == b;
    } else {
      assert (a + b)[1..] == a[1..] + b;
      RunConcat(Apply(w, a[0]), a[1..], b);
    }
  }

  function Turn(d: DeliveryId, code: int): seq<Event>
  {
    [AtClient(d, Receive), AtClient(d, SaveCallback(Reported)), AtClient(d, Decide(true)),
     AtClient(d, HandlerReturns(code, [], []))]
  }

  lemma RunFour(w: World, t: seq<Event>)
    requires |t| == 4
    ensures Run(w, t) == Apply(Apply(Apply(Apply(w, t[0]), t[1]), t[2]), t[3])
  {
    assert t[1..][1..] == t[2..] && t[2..][1..] == t[3..] && t[3..][1..] == [];
    assert Run(w, t) == Run(Apply(w, t[0]), t[1..]);
    assert Run(Apply(w, t[0]), t[1..]) == Run(Apply(Apply(w, t[0]), t[1]), t[2..]);
    var u := Apply(Apply(Apply(w, t[0]), t[1]), t[2]);
    assert Run(Apply(Apply(w, t[0]), t[1]), t[2..]) == Run(u, t[3..]);
    assert Run(u, t[3..]) == Run(Apply(u, t[3]), []);
  }

  /** From receipt of the event to the return of its handler. */
  lemma TurnRuns(w: World, d: DeliveryId, code: int)
    requires d in w.dels && d in w.sides && w.dels[d].replies && EventMsg(d) in w.net
    requires w.sides[d].stage == Idle && Blank(w.sides[d].stored)
    ensures var s, r := w.sides[d], Response(d, w.dels[d].client, code, [], []);
            Run(w, Turn(d, code)) ==
            w.(sides := w.sides[d := s.(stored := Some(Stored(None, false)), stage := Delivering(r, false, false),
                                        starts := s.starts + 1)])
  {
    var t := Turn(d, code);
    RunFour(w, t);
    var w1 := Apply(w, t[0]);
    var w2 := Apply(w1, t[1]);
    var w3 := Apply(w2, t[2]);
    assert w1.sides[d].stage == Entered;
    assert w2.sides[d].stage == Loaded(Stored(None, false));
    assert w3.sides[d].stage == Handling;
  }

  lemma RunOne(w: World, ev: Event)
    ensures Run(w, [ev]) == Apply(w, ev)
  {
    assert [ev][1..] == [];
    assert Run(Apply(w, ev), []) == Apply(w, ev);
  }

  /** The handler runs and its response is saved. */
  function AnswerAndSave(d: DeliveryId, code: int): seq<Event>
  {
    [AtProxy(PublishEvent(d))] + Turn(d, code) + [AtClient(d, SaveResponse(Reported))]
  }

  lemma AnswerAndSaveRuns(w: World, d: DeliveryId, code: int)
    requires d in w.dels && d in w.sides && w.dels[d].replies
    requires w.sides[d].stage == Idle && Blank(w.sides[d].stored)
    ensures var v := Run(w, AnswerAndSave(d, code));
            && v.desk == w.desk && d in v.sides
            && v.sides[d].stored == Some(Stored(Some(Response(d, w.dels[d].client, code, [], [])), false))
  {
    var publish, save := AtProxy(PublishEvent(d)), AtClient(d, SaveResponse(Reported));
    RunConcat(w, [publish] + Turn(d, code), [save]);
    RunConcat(w, [publish], Turn(d, code));
    RunOne(w, publish);
    var w1 := Apply(w, publish);
    TurnRuns(w1, d, code);
    RunOne(Run(w1, Turn(d, code)), save);
  }

  /** The proxy accepts a response on the bus while the event waits, once its client is responder. */
  function Accepting(r: Response): seq<Event>
  {
    [AtProxy(UpdateRoute(true, r.client)), AtProxy(HandleResponse(r, Reported))]
  }

  lemma AcceptingRuns(w: World, r: Response)
    requires w.desk.status == AwaitingResponse && ResponseMsg(r) in w.net
    requires r.delivery in w.dels && w.dels[r.delivery].client == r.client && r.client != ""
    ensures var v := Run(w, Accepting(r));
            v.desk.response == Some(r) && v.sides == w.sides && SameTargets(w.dels, v.dels)
  {
    var es := Accepting(r);
    var w1 := Apply(w, es[0]);
    RunConcat(w, [es[0]], [es[1]]);
    assert [es[0]] + [es[1]] == es;
    RunOne(w, es[0]);
    RunOne(w1, es[1]);
  }

  /** Client and proxy hold different responses. */
  predicate Differ(w: World, d: DeliveryId)
  {
    && d in w.sides && w.sides[d].stored.Some? && w.sides[d].stored.value.response.Some? && w.desk.response.Some?
    && w.sides[d].stored.value.response != w.desk.response
  }

  lemma DifferForever(w: World, d: DeliveryId, more: seq<Event>)
    requires Inv(w) && Differ(Run(w, more), d)
    ensures forall late :: Differ(Run(w, more + late), d)
  {
    RunInv(w, more);
    forall late
      ensures Differ(Run(w, more + late), d)
    {
      RunConcat(w, more, late);
      RunLater(Run(w, more), late);
    }
  }

  /** What follows the stop: the proxy takes the response that is on the bus, unless it has one
      already, and the handler runs again and answers differently. */
  function Divergence(w: World, d: DeliveryId): seq<Event>
    requires d in w.sides && w.sides[d].stage.Delivering?
  {
    var r := w.sides[d].stage.response;
    if w.desk.response.Some? then AnswerAndSave(d, w.desk.response.value.statusCode + 1)
    else Accepting(r) + AnswerAndSave(d, r.statusCode + 1)
  }

  /** After the stop the client is idle, with nothing on record. */
  lemma StopForgets(w: World, d: DeliveryId)
    requires Inv(w) && d in w.dels && w.dels[d].replies && InWindow(w.sides[d])
    ensures var v := Apply(w, AtClient(d, Stop));
            && v.desk == w.desk && v.dels == w.dels && v.net == w.net && d in v.sides
            && v.sides[d].stage == Idle && Blank(v.sides[d].stored)
    ensures Own(d, w.dels[d].client, w.sides[d].stage.response) && ResponseMsg(w.sides[d].stage.response) in w.net
    ensures w.desk.status == AwaitingResponse ==> w.desk.response.None?
  {
    assert SideOk(w.desk.status == Responded, d, w.dels[d], w.sides[d]);
  }

  lemma StopThenDiffers(w: World, d: DeliveryId)
    requires Inv(w) && d in w.dels && w.dels[d].replies && w.dels[d].client != "" && InWindow(w.sides[d])
    requires w.desk.status == AwaitingResponse || w.desk.status == Responded
    ensures Differ(Run(Apply(w, AtClient(d, Stop)), Divergence(w, d)), d)
  {
    var v, r := Apply(w, AtClient(d, Stop)), w.sides[d].stage.response;
    StopForgets(w, d);
    if w.desk.response.Some? {
      AnswerAndSaveRuns(v, d, w.desk.response.value.statusCode + 1);
    } else {
      AcceptThenAnswer(v, r);
    }
  }

  lemma AcceptThenAnswer(w: World, r: Response)
    requires w.desk.status == AwaitingResponse && ResponseMsg(r) in w.net
    requires r.delivery in w.dels && w.dels[r.delivery].client == r.client && r.client != ""
             && w.dels[r.delivery].replies
    requires r.delivery in w.sides && w.sides[r.delivery].stage == Idle && Blank(w.sides[r.delivery].stored)
    ensures Differ(Run(w, Accepting(r) + AnswerAndSave(r.delivery, r.statusCode + 1)), r.delivery)
  {
    AcceptingRuns(w, r);
    RunConcat(w, Accepting(r), AnswerAndSave(r.delivery, r.statusCode + 1));
    AnswerAndSaveRuns(Run(w, Accepting(r)), r.delivery, r.statusCode + 1);
  }

  lemma NoFurtherStop(w: World, d: DeliveryId)
    requires d in w.sides && w.sides[d].stage.Delivering?
    ensures AtClient(d, Stop) !in Divergence(w, d)
  {
  }

  /** The condition of BothSidesAgree is exact.  From every reachable state in the window (a response
      is published and not saved) whose event can still be or has been answered, a stop may be
      followed, without any further stop, by records that differ for ever. */
  lemma StopInWindowDiverges(w: World, d: DeliveryId)
    requires Inv(w) && d in w.dels && w.dels[d].replies && w.dels[d].client != "" && InWindow(w.sides[d])
    requires w.desk.status == AwaitingResponse || w.desk.status == Responded
    ensures AtClient(d, Stop) !in Divergence(w, d)
    ensures forall late :: Differ(Run(Apply(w, AtClient(d, Stop)), Divergence(w, d) + late), d)
  {
    NoFurtherStop(w, d);
    ApplyInv(w, AtClient(d, Stop));
    StopThenDiffers(w, d);
    DifferForever(Apply(w, AtClient(d, Stop)), d, Divergence(w, d));
  }

  function IntoWindow(d: DeliveryId, code: int): seq<Event>
  {
    [AtProxy(PublishEvent(d))] + Turn(d, code) + [AtClient(d, PublishResponse)]
  }

  lemma IntoWindowRuns(w: World, d: DeliveryId, code: int)
    requires d in w.dels && d in w.sides && w.dels[d].replies
    requires w.sides[d].stage == Idle && Blank(w.sides[d].stored) && !w.sides[d].lost
    ensures var v := Run(w, IntoWindow(d, code));
            v.dels == w.dels && v.desk == w.desk && d in v.sides && InWindow(v.sides[d]) && !v.sides[d].lost
  {
    var publish, respond := AtProxy(PublishEvent(d)), AtClient(d, PublishResponse);
    RunConcat(w, [publish] + Turn(d, code), [respond]);
    RunConcat(w, [publish], Turn(d, code));
    RunOne(w, publish);
    TurnRuns(Apply(w, publish), d, code);
    RunOne(Run(Apply(w, publish), Turn(d, code)), respond);
  }

  /** The window is reachable for every reply-bearing delivery of every waiting event. */
  lemma WindowReachable(responder: ClientId, dels: map<DeliveryId, Del>, d: DeliveryId, code: int)
    requires OneReply(dels) && d in dels && dels[d].replies
    ensures var w := After(true, responder, dels, IntoWindow(d, code));
            && Inv(w) && w.dels == dels && InWindow(w.sides[d]) && w.desk.status == AwaitingResponse
            && !w.sides[d].lost
  {
    StartInv(true, responder, dels);
    RunInv(Start(true, responder, dels), IntoWindow(d, code));
    IntoWindowRuns(Start(true, responder, dels), d, code);
  }

  /** One step of TimedOutReplyStaysOpen: an acknowledgement of `d` would need a responded event. */
  lemma TimedOutStepStaysOpen(w: World, ev: Event, d: DeliveryId)
    requires DeskOk(w.desk) && w.desk.status == TimedOut
    requires forall c :: AckMsg(d, c) !in w.net
    requires d in w.dels && !w.dels[d].closed
    ensures d in Apply(w, ev).dels && !Apply(w, ev).dels[d].closed
  {
  }

  lemma TimedOutUnacknowledged(w: World, d: DeliveryId)
    requires Inv(w) && w.desk.status == TimedOut && d in w.dels && w.dels[d].replies
    ensures forall c :: AckMsg(d, c) !in w.net
  {
    forall c
      ensures AckMsg(d, c) in w.net ==> MessageOk(w, AckMsg(d, c))
    {
    }
  }

  /** A reply-bearing delivery that is still open when its event has timed out stays open for ever. */
  lemma {:induction false} TimedOutReplyStaysOpen(w: World, events: seq<Event>, d: DeliveryId)
    requires Inv(w) && w.desk.status == TimedOut
    requires d in w.dels && w.dels[d].replies && !w.dels[d].closed
    ensures d in Run(w, events).dels && !Run(w, events).dels[d].closed
    decreases |events|
  {
    if events != [] {
      ApplyInv(w, events[0]);
      ApplyLater(w, events[0]);
      TimedOutUnacknowledged(w, d);
      TimedOutStepStaysOpen(w, events[0], d);
      TimedOutReplyStaysOpen(Apply(w, events[0]), events[1..], d);
    }
  }

  /** At the moment an event times out, its reply-bearing delivery is closed for good if and only if
      it was closed before or its client is still the route's responder.  So a route update while the
      event is waiting leaves the first responder's delivery open for ever. */
  lemma TimeoutCloses(w: World, report: Report, late: seq<Event>, d: DeliveryId)
    requires Inv(w) && w.desk.status == AwaitingResponse && w.desk.waiting && report != NotCommitted
    requires d in w.dels && w.dels[d].replies
    ensures var v := Run(Apply(w, AtProxy(Timeout(report))), late);
            && d in v.dels
            && (v.dels[d].closed <==> w.dels[d].closed || Responds(w.desk, w.dels[d].client))
  {
    var u := Apply(w, AtProxy(Timeout(report)));
    ApplyInv(w, AtProxy(Timeout(report)));
    RunLater(u, late);
    if !u.dels[d].closed {
      TimedOutReplyStaysOpen(u, late, d);
    }
  }

  /** Such an event is reachable: after a route update to another responder and a timeout, the first
      responder's delivery is open in every continuation. */
  lemma RouteUpdateStrands(responder: ClientId, other: ClientId, dels: map<DeliveryId, Del>, d: DeliveryId,
                           late: seq<Event>)
    requires OneReply(dels) && d in dels && dels[d].replies && !dels[d].closed
    requires dels[d].client == responder && other != responder
    ensures var events := [AtProxy(UpdateRoute(true, other)), AtProxy(Timeout(Reported))];
            var w := Run(After(true, responder, dels, events), late);
            w.desk.status == TimedOut && d in w.dels && !w.dels[d].closed
  {
    var update, timeout := AtProxy(UpdateRoute(true, other)), AtProxy(Timeout(Reported));
    var w := Start(true, responder, dels);
    var w1 := Apply(w, update);
    StartInv(true, responder, dels);
    ApplyInv(w, update);
    RunConcat(w, [update], [timeout]);
    assert [update] + [timeout] == [update, timeout];
    RunOne(w, update);
    RunOne(w1, timeout);
    TimeoutCloses(w1, Reported, late, d);
    ApplyInv(w1, timeout);
    RunLater(Apply(w1, timeout), late);
  }

  /** What can close a delivery. */
  lemma ClosesOnlyBy(w: World, ev: Event, d: DeliveryId)
    requires d in w.dels && !w.dels[d].closed && d in Apply(w, ev).dels && Apply(w, ev).dels[d].closed
    ensures ev.AtProxy?
    ensures || ev.happening == HandleAck(d, w.dels[d].client, ev.happening.report)
            || (ev.happening.HandleResponse? && ev.happening.response.delivery == d
                && ev.happening.response.client == w.dels[d].client
                && Apply(w, ev).desk.response == Some(ev.happening.response))
            || (ev.happening.Timeout? && w.desk.waiting && Responds(w.desk, w.dels[d].client))
  {
  }
}
