/** The shortener's queue consumer
    (shortener/internal/v1/infrastructure/rabbitmq.go): one consumer per
    queue, each handling its deliveries one after another. */
module ShortConsumer {
  import opened Errors
  import opened Documents
  import opened ShortRepository
  import opened ShortService
  import opened ShortController

  /** The two queue names of Config.RabbitMQ. */
  datatype QueueConfig = QueueConfig(createShortener: string, updateVisitor: string)

  /** A delivered message body, with the outcome of the store calls its
      handling makes. */
  datatype Delivery = Delivery(body: Body, io: StoreIo)

  /** One delivery: the body is decoded into the request of the queue's kind
      (a body that does not decode leaves the zero request, which is handled
      anyway), and the handler's error is dropped. The create queue is tested
      first; a queue of neither name consumes without effect. */
  function Handle(s: Stores, cfg: QueueConfig, queue: string, parse: UriParser, d: Delivery): (t: Stores)
    requires StoresValid(s)
    ensures StoresValid(t)
    ensures queue != cfg.createShortener && queue != cfg.updateVisitor ==> t == s
  {
    if queue == cfg.createShortener then
      var req := DecodeCreate(d.body).0;
      CreateStepValid(s, req, parse, d.io);
      CreateStep(s, req, parse, d.io).1
    else if queue == cfg.updateVisitor then
      var req := DecodeVisit(d.body).0;
      VisitStepValid(s, req, d.io);
      VisitStep(s, req, d.io).1
    else s
  }

  /** The deliveries handled in order. */
  function Drain(s: Stores, cfg: QueueConfig, queue: string, parse: UriParser, ds: seq<Delivery>): (t: Stores)
    requires StoresValid(s)
    ensures StoresValid(t)
    decreases |ds|
  {
    if ds == [] then s
    else Handle(Drain(s, cfg, queue, parse, ds[..|ds| - 1]), cfg, queue, parse, ds[|ds| - 1])
  }

  /** The body of the consume loop: decode one delivery for the queue's kind
      and run its handler, dropping the handler's error. */
  method Deliver(ctrl: ShortController, cfg: QueueConfig, queue: string, d: Delivery)
    requires ctrl.svc.repo.Valid()
    modifies ctrl.svc.repo
    ensures ctrl.svc.repo.Valid()
    ensures ctrl.svc.repo.Snapshot() == Handle(old(ctrl.svc.repo.Snapshot()), cfg, queue, ctrl.svc.parse, d)
  {
    if queue == cfg.createShortener {
      var req := DecodeCreate(d.body).0;
      var err := ctrl.ProcessCreateShortUser(req, d.io);
    } else if queue == cfg.updateVisitor {
      var req := DecodeVisit(d.body).0;
      var err := ctrl.ProcessUpdateVisitorCount(req, d.io);
    }
  }

  /** ConsumeMessages: subscribe, then handle every delivery. When the
      subscription fails the delivery channel is nil and nothing is ever
      handled. */
  method ConsumeMessages(ctrl: ShortController, cfg: QueueConfig, queue: string,
                         consumeFault: Option<Error>, ds: seq<Delivery>)
    requires ctrl.svc.repo.Valid()
    modifies ctrl.svc.repo
    ensures ctrl.svc.repo.Valid()
    ensures ctrl.svc.repo.Snapshot()
         == if consumeFault.Some? then old(ctrl.svc.repo.Snapshot())
            else Drain(old(ctrl.svc.repo.Snapshot()), cfg, queue, ctrl.svc.parse, ds)
  {
    if consumeFault.Some? {
      return;
    }
    ghost var s0 := ctrl.svc.repo.Snapshot();
    var i := 0;
    while i < |ds|
      invariant 0 <= i <= |ds|
      invariant ctrl.svc.repo.Valid()
      invariant ctrl.svc.repo.Snapshot() == Drain(s0, cfg, queue, ctrl.svc.parse, ds[..i])
    {
      Deliver(ctrl, cfg, queue, ds[i]);
      assert ds[..i + 1][..i] == ds[..i];
      i := i + 1;
    }
    assert ds[..i] == ds;
  }

  /** Deliveries on a queue of neither configured name change nothing. */
  lemma {:induction false} DrainOtherQueue(s: Stores, cfg: QueueConfig, queue: string, parse: UriParser, ds: seq<Delivery>)
    requires StoresValid(s) && queue != cfg.createShortener && queue != cfg.updateVisitor
    ensures Drain(s, cfg, queue, parse, ds) == s
    decreases |ds|
  {
    if ds != [] {
      DrainOtherQueue(s, cfg, queue, parse, ds[..|ds| - 1]);
    }
  }

  /** The visit events a click publishes for `code`, each handled without a
      store fault. */
  predicate CleanVisits(ds: seq<Delivery>, code: string) {
    forall i :: 0 <= i < |ds| ==>
      ds[i].body == EncodeVisit(UpdateVisitorRequest(code)) && ds[i].io.read.None? && ds[i].io.write.None?
  }

  /** Two links that differ at most in their counter and update time. */
  predicate SameButCounters(a: Short, b: Short) {
    a.(visited := 0, updatedAt := None) == b.(visited := 0, updatedAt := None)
  }

  /** Draining N clean visit events for a stored code raises the counter of
      the link the code resolves to by exactly N (while it stays within
      int64), and changes nothing else but that link's update time. */
  lemma {:induction false} VisitsAccumulate(s: Stores, cfg: QueueConfig, parse: UriParser,
                                            code: string, k: nat, ds: seq<Delivery>)
    requires StoresValid(s) && cfg.createShortener != cfg.updateVisitor
    requires FindByCode(s.links, code) == Some(k) && CleanVisits(ds, code)
    requires s.links[k].visited + |ds| <= MaxInt64
    ensures var t := Drain(s, cfg, cfg.updateVisitor, parse, ds);
      && |t.links| == |s.links| && t.cache == s.cache && t.visits == s.visits && t.nextId == s.nextId
      && FindByCode(t.links, code) == Some(k)
      && t.links[k].visited == s.links[k].visited + |ds| && SameButCounters(t.links[k], s.links[k])
      && forall j :: 0 <= j < |s.links| && j != k ==> t.links[j] == s.links[j]
    decreases |ds|
  {
    if ds != [] {
      var prev := ds[..|ds| - 1];
      assert CleanVisits(prev, code) by {
        forall i | 0 <= i < |prev| ensures prev[i] == ds[i] { }
      }
      VisitsAccumulate(s, cfg, parse, code, k, prev);
      var p := Drain(s, cfg, cfg.updateVisitor, parse, prev);
      var d := ds[|ds| - 1];
      VisitRoundTrip(UpdateVisitorRequest(code));
      SetVisitedFrame(p, code, p.links[k].visited, d.io.now);
      var t := Drain(s, cfg, cfg.updateVisitor, parse, ds);
      assert t == SetVisited(p, code, p.links[k].visited, d.io.now);
      SameCodesSameFind(p.links, t.links, code);
    }
  }
}
