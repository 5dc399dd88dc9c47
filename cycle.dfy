/** A model of the request-lifecycle pipeline of package `cycle`.

    A `Cycle` keeps one append-only list of handlers per lifecycle phase.
    On a matched route every registered handler runs, phase by phase in the
    fixed order Request, PreAuth, Auth, PostAuth, Validate and each list in
    registration order, and then the route's own (terminal) handler runs.
    On an unmatched route only the Request handlers run, followed by the
    standard not-found response.

    Handlers, response writers, requests and routers are opaque: they are
    represented by identifiers, and running a handler is represented by an
    event in a trace recording which handler was called with which writer
    and which request.
 */
module CycleModel {

  type HandlerId = nat
  type WriterId = nat
  type RequestId = nat
  type RouterId = nat

  /** The lifecycle phases, in the order in which they run. */
  datatype Phase = Request | PreAuth | Auth | PostAuth | Validate

  /** Position of a phase in the fixed execution order. */
  function Rank(p: Phase): (k: nat)
    ensures k < 5
  {
    match p
    case Request => 0
    case PreAuth => 1
    case Auth => 2
    case PostAuth => 3
    case Validate => 4
  }

  /** One observable step of a run: a phase handler called, the terminal
      handler served, or the standard not-found response written. Every
      step records the writer and the request it was given. */
  datatype Event =
    | Call(phase: Phase, handler: HandlerId, w: WriterId, r: RequestId)
    | Terminal(handler: HandlerId, w: WriterId, r: RequestId)
    | NotFound(w: WriterId, r: RequestId)

  /** The five handler lists of a `Cycle`, as a value. */
  datatype Registry = Registry(
    onRequest: seq<HandlerId>,
    onPreAuth: seq<HandlerId>,
    onAuth: seq<HandlerId>,
    onPostAuth: seq<HandlerId>,
    onValidate: seq<HandlerId>)
  {
    /** The list registered for phase `p`. */
    function Handlers(p: Phase): seq<HandlerId> {
      match p
      case Request => onRequest
      case PreAuth => onPreAuth
      case Auth => onAuth
      case PostAuth => onPostAuth
      case Validate => onValidate
    }

    /** Registering `h` for phase `p`: it goes at the end of that phase's
        list and no other list changes. */
    function Add(p: Phase, h: HandlerId): (reg: Registry)
      ensures reg.Handlers(p) == Handlers(p) + [h]
      ensures forall q :: q != p ==> reg.Handlers(q) == Handlers(q)
    {
      match p
      case Request => this.(onRequest := onRequest + [h])
      case PreAuth => this.(onPreAuth := onPreAuth + [h])
      case Auth => this.(onAuth := onAuth + [h])
      case PostAuth => this.(onPostAuth := onPostAuth + [h])
      case Validate => this.(onValidate := onValidate + [h])
    }

    /** Every registered handler, phase by phase in execution order. */
    function All(): seq<HandlerId> {
      onRequest + onPreAuth + onAuth + onPostAuth + onValidate
    }
  }

  /** The registry of a freshly constructed `Cycle`. */
  const Empty := Registry([], [], [], [], [])

  lemma EmptyHasNoHandlers(reg: Registry)
    ensures reg == Empty <==> forall p :: reg.Handlers(p) == []
  {
    if forall p :: reg.Handlers(p) == [] {
      assert reg.Handlers(Request) == [] && reg.Handlers(PreAuth) == [];
      assert reg.Handlers(Auth) == [] && reg.Handlers(PostAuth) == [];
      assert reg.Handlers(Validate) == [];
    }
  }

  // ---------------------------------------------------------------------
  // Traces

  /** The events of running the handlers `hs` of phase `p`, one after the
      other, each with the same writer and request. */
  function PhaseCalls(p: Phase, hs: seq<HandlerId>, w: WriterId, r: RequestId): (t: seq<Event>)
    ensures |t| == |hs|
    ensures forall i :: 0 <= i < |hs| ==> t[i] == Call(p, hs[i], w, r)
    decreases |hs|
  {
    if hs == [] then [] else PhaseCalls(p, hs[..|hs| - 1], w, r) + [Call(p, hs[|hs| - 1], w, r)]
  }

  /** What a matched-route run does: all five phases, then the terminal handler. */
  function MiddlewareTrace(reg: Registry, h: HandlerId, w: WriterId, r: RequestId): seq<Event> {
    PhaseCalls(Request, reg.onRequest, w, r)
    + PhaseCalls(PreAuth, reg.onPreAuth, w, r)
    + PhaseCalls(Auth, reg.onAuth, w, r)
    + PhaseCalls(PostAuth, reg.onPostAuth, w, r)
    + PhaseCalls(Validate, reg.onValidate, w, r)
    + [Terminal(h, w, r)]
  }

  /** What an unmatched-route run does: the Request phase, then not-found. */
  function NotFoundTrace(reg: Registry, w: WriterId, r: RequestId): seq<Event> {
    PhaseCalls(Request, reg.onRequest, w, r) + [NotFound(w, r)]
  }

  /** The handlers called in a trace, in call order. */
  function Callees(t: seq<Event>): seq<HandlerId> {
    if t == [] then []
    else (if t[0].Call? then [t[0].handler] else []) + Callees(t[1..])
  }

  /** The handlers called in a trace for phase `p`, in call order. */
  function CalleesIn(t: seq<Event>, p: Phase): seq<HandlerId> {
    if t == [] then []
    else (if t[0].Call? && t[0].phase == p then [t[0].handler] else []) + CalleesIn(t[1..], p)
  }

  /** Every step of the trace was given writer `w` and request `r`. */
  ghost predicate SameArguments(t: seq<Event>, w: WriterId, r: RequestId) {
    forall i :: 0 <= i < |t| ==> t[i].w == w && t[i].r == r
  }

  /** Phase handlers are called in non-decreasing phase order. */
  ghost predicate PhaseOrdered(t: seq<Event>) {
    forall i, j :: 0 <= i < j < |t| && t[i].Call? && t[j].Call? ==> Rank(t[i].phase) <= Rank(t[j].phase)
  }

  /** Every phase handler called in `t` belongs to a phase ranked `lo` to `hi`. */
  ghost predicate CallsWithin(t: seq<Event>, lo: nat, hi: nat) {
    forall i :: 0 <= i < |t| && t[i].Call? ==> lo <= Rank(t[i].phase) <= hi
  }

  lemma {:induction false} CalleesAppend(a: seq<Event>, b: seq<Event>)
    ensures Callees(a + b) == Callees(a) + Callees(b)
    decreases |a|
  {
    if a == [] {
      assert a + b == b;
    } else {
      assert (a + b)[1..] == a[1..] + b;
      CalleesAppend(a[1..], b);
    }
  }

  lemma {:induction false} CalleesInAppend(a: seq<Event>, b: seq<Event>, p: Phase)
    ensures CalleesIn(a + b, p) == CalleesIn(a, p) + CalleesIn(b, p)
    decreases |a|
  {
    if a == [] {
      assert a + b == b;
    } else {
      assert (a + b)[1..] == a[1..] + b;
      CalleesInAppend(a[1..], b, p);
    }
  }

  /** Running one phase calls exactly its handlers, in registration order. */
  lemma {:induction false} PhaseCallsCallees(p: Phase, hs: seq<HandlerId>, w: WriterId, r: RequestId)
    ensures Callees(PhaseCalls(p, hs, w, r)) == hs
    decreases |hs|
  {
    if hs != [] {
      var init := hs[..|hs| - 1];
      var e := Call(p, hs[|hs| - 1], w, r);
      PhaseCallsCallees(p, init, w, r);
      CalleesAppend(PhaseCalls(p, init, w, r), [e]);
      assert Callees([e]) == [hs[|hs| - 1]];
      assert init + [hs[|hs| - 1]] == hs;
    }
  }

  /** Running phase `p` calls handlers of phase `p` only. */
  lemma {:induction false} PhaseCallsCalleesIn(p: Phase, hs: seq<HandlerId>, w: WriterId, r: RequestId, q: Phase)
    ensures CalleesIn(PhaseCalls(p, hs, w, r), q) == if q == p then hs else []
    decreases |hs|
  {
    if hs != [] {
      var init := hs[..|hs| - 1];
      var e := Call(p, hs[|hs| - 1], w, r);
      assert PhaseCalls(p, hs, w, r) == PhaseCalls(p, init, w, r) + [e];
      PhaseCallsCalleesIn(p, init, w, r, q);
      CalleesInAppend(PhaseCalls(p, init, w, r), [e], q);
      assert [e][1..] == [];
      if q == p {
        assert CalleesIn([e], q) == [hs[|hs| - 1]];
        assert init + [hs[|hs| - 1]] == hs;
      } else {
        assert CalleesIn([e], q) == [];
      }
    }
  }

  lemma OrderedConcat(a: seq<Event>, b: seq<Event>, lo: nat, mid: nat, mid': nat, hi: nat)
    requires lo <= mid <= mid' <= hi
    requires PhaseOrdered(a) && CallsWithin(a, lo, mid)
    requires PhaseOrdered(b) && CallsWithin(b, mid', hi)
    ensures PhaseOrdered(a + b) && CallsWithin(a + b, lo, hi)
  {
    var ab := a + b;
    forall i, j | 0 <= i < j < |ab| && ab[i].Call? && ab[j].Call?
      ensures Rank(ab[i].phase) <= Rank(ab[j].phase)
    {
      if j < |a| {
        assert ab[i] == a[i] && ab[j] == a[j];
      } else if i >= |a| {
        assert ab[i] == b[i - |a|] && ab[j] == b[j - |a|];
      } else {
        assert ab[i] == a[i] && ab[j] == b[j - |a|];
      }
    }
    forall i | 0 <= i < |ab| && ab[i].Call? ensures lo <= Rank(ab[i].phase) <= hi {
      if i < |a| {
        assert ab[i] == a[i];
      } else {
        assert ab[i] == b[i - |a|];
      }
    }
  }

  lemma PhaseCallsOrdered(p: Phase, hs: seq<HandlerId>, w: WriterId, r: RequestId)
    ensures PhaseOrdered(PhaseCalls(p, hs, w, r))
    ensures CallsWithin(PhaseCalls(p, hs, w, r), Rank(p), Rank(p))
  {
  }

  // ---------------------------------------------------------------------
  // Properties of a matched-route run

  /** A matched-route run calls every registered handler, phases in the
      fixed order and each list in registration order, and then serves the
      terminal handler exactly once, as the very last step. */
  lemma MiddlewareRunsAllThenTerminal(reg: Registry, h: HandlerId, w: WriterId, r: RequestId)
    ensures var t := MiddlewareTrace(reg, h, w, r);
      |t| == |reg.All()| + 1
      && Callees(t) == reg.All()
      && (forall i :: 0 <= i < |t| - 1 ==> t[i].Call?)
      && (forall i :: 0 <= i < |t| ==> (t[i].Terminal? <==> i == |t| - 1))
      && t[|t| - 1] == Terminal(h, w, r)
  {
    var a := PhaseCalls(Request, reg.onRequest, w, r);
    var b := PhaseCalls(PreAuth, reg.onPreAuth, w, r);
    var c := PhaseCalls(Auth, reg.onAuth, w, r);
    var d := PhaseCalls(PostAuth, reg.onPostAuth, w, r);
    var e := PhaseCalls(Validate, reg.onValidate, w, r);
    var calls := a + b + c + d + e;
    var t := MiddlewareTrace(reg, h, w, r);
    assert t == calls + [Terminal(h, w, r)];
    PhaseCallsCallees(Request, reg.onRequest, w, r);
    PhaseCallsCallees(PreAuth, reg.onPreAuth, w, r);
    PhaseCallsCallees(Auth, reg.onAuth, w, r);
    PhaseCallsCallees(PostAuth, reg.onPostAuth, w, r);
    PhaseCallsCallees(Validate, reg.onValidate, w, r);
    CalleesAppend(a, b);
    CalleesAppend(a + b, c);
    CalleesAppend(a + b + c, d);
    CalleesAppend(a + b + c + d, e);
    CalleesAppend(calls, [Terminal(h, w, r)]);
    assert Callees([Terminal(h, w, r)]) == [];
    forall i | 0 <= i < |calls| ensures calls[i].Call? {
      if i < |a| {
        assert calls[i] == a[i];
      } else if i < |a + b| {
        assert calls[i] == b[i - |a|];
      } else if i < |a + b + c| {
        assert calls[i] == c[i - |a + b|];
      } else if i < |a + b + c + d| {
        assert calls[i] == d[i - |a + b + c|];
      } else {
        assert calls[i] == e[i - |a + b + c + d|];
      }
    }
    forall i | 0 <= i < |t| - 1 ensures t[i].Call? {
      assert t[i] == calls[i];
    }
  }

  /** Handlers of phase `p` run in a matched-route run exactly as registered
      for `p`: all of them, in registration order, and no others. */
  lemma CalleesInPhases(reg: Registry, a: seq<Event>, b: seq<Event>, c: seq<Event>, d: seq<Event>, e: seq<Event>, x: seq<Event>, p: Phase)
    requires CalleesIn(a, p) == if p == Request then reg.onRequest else []
    requires CalleesIn(b, p) == if p == PreAuth then reg.onPreAuth else []
    requires CalleesIn(c, p) == if p == Auth then reg.onAuth else []
    requires CalleesIn(d, p) == if p == PostAuth then reg.onPostAuth else []
    requires CalleesIn(e, p) == if p == Validate then reg.onValidate else []
    requires CalleesIn(x, p) == []
    ensures CalleesIn(a + b + c + d + e + x, p) == reg.Handlers(p)
  {
    CalleesInAppend(a, b, p);
    CalleesInAppend(a + b, c, p);
    CalleesInAppend(a + b + c, d, p);
    CalleesInAppend(a + b + c + d, e, p);
    CalleesInAppend(a + b + c + d + e, x, p);
    var all := CalleesIn(a, p) + CalleesIn(b, p) + CalleesIn(c, p) + CalleesIn(d, p) + CalleesIn(e, p) + CalleesIn(x, p);
    assert CalleesIn(a + b + c + d + e + x, p) == all;
    match p
    case Request =>
      assert all == reg.onRequest + [] + [] + [] + [] + [];
    case PreAuth =>
      assert all == [] + reg.onPreAuth + [] + [] + [] + [];
    case Auth =>
      assert all == [] + [] + reg.onAuth + [] + [] + [];
    case PostAuth =>
      assert all == [] + [] + [] + reg.onPostAuth + [] + [];
    case Validate =>
      assert all == [] + [] + [] + [] + reg.onValidate + [];
  }

  lemma MiddlewareRunsPhaseInOrder(reg: Registry, h: HandlerId, w: WriterId, r: RequestId, p: Phase)
    ensures CalleesIn(MiddlewareTrace(reg, h, w, r), p) == reg.Handlers(p)
  {
    var x := [Terminal(h, w, r)];
    assert CalleesIn(x, p) == [] by {
      assert x[1..] == [];
    }
    PhaseCallsCalleesIn(Request, reg.onRequest, w, r, p);
    PhaseCallsCalleesIn(PreAuth, reg.onPreAuth, w, r, p);
    PhaseCallsCalleesIn(Auth, reg.onAuth, w, r, p);
    PhaseCallsCalleesIn(PostAuth, reg.onPostAuth, w, r, p);
    PhaseCallsCalleesIn(Validate, reg.onValidate, w, r, p);
    CalleesInPhases(reg, PhaseCalls(Request, reg.onRequest, w, r), PhaseCalls(PreAuth, reg.onPreAuth, w, r),
      PhaseCalls(Auth, reg.onAuth, w, r), PhaseCalls(PostAuth, reg.onPostAuth, w, r),
      PhaseCalls(Validate, reg.onValidate, w, r), x, p);
  }

  /** No handler of a later phase runs before a handler of an earlier one. */
  lemma MiddlewarePhaseOrdered(reg: Registry, h: HandlerId, w: WriterId, r: RequestId)
    ensures PhaseOrdered(MiddlewareTrace(reg, h, w, r))
  {
    var a := PhaseCalls(Request, reg.onRequest, w, r);
    var b := PhaseCalls(PreAuth, reg.onPreAuth, w, r);
    var c := PhaseCalls(Auth, reg.onAuth, w, r);
    var d := PhaseCalls(PostAuth, reg.onPostAuth, w, r);
    var e := PhaseCalls(Validate, reg.onValidate, w, r);
    PhaseCallsOrdered(Request, reg.onRequest, w, r);
    PhaseCallsOrdered(PreAuth, reg.onPreAuth, w, r);
    PhaseCallsOrdered(Auth, reg.onAuth, w, r);
    PhaseCallsOrdered(PostAuth, reg.onPostAuth, w, r);
    PhaseCallsOrdered(Validate, reg.onValidate, w, r);
    OrderedConcat(a, b, 0, 0, 1, 1);
    OrderedConcat(a + b, c, 0, 1, 2, 2);
    OrderedConcat(a + b + c, d, 0, 2, 3, 3);
    OrderedConcat(a + b + c + d, e, 0, 3, 4, 4);
    OrderedConcat(a + b + c + d + e, [Terminal(h, w, r)], 0, 4, 4, 4);
  }

  /** Every step of a run is given the writer and the request the run got. */
  lemma MiddlewareSameArguments(reg: Registry, h: HandlerId, w: WriterId, r: RequestId)
    ensures SameArguments(MiddlewareTrace(reg, h, w, r), w, r)
  {
    var t := MiddlewareTrace(reg, h, w, r);
    MiddlewareRunsAllThenTerminal(reg, h, w, r);
    forall i | 0 <= i < |t| ensures t[i].w == w && t[i].r == r {
      SameArgumentsAt(reg, h, w, r, i);
    }
  }

  lemma SameArgumentsAt(reg: Registry, h: HandlerId, w: WriterId, r: RequestId, i: nat)
    requires i < |MiddlewareTrace(reg, h, w, r)|
    ensures MiddlewareTrace(reg, h, w, r)[i].w == w && MiddlewareTrace(reg, h, w, r)[i].r == r
  {
    var a := PhaseCalls(Request, reg.onRequest, w, r);
    var b := PhaseCalls(PreAuth, reg.onPreAuth, w, r);
    var c := PhaseCalls(Auth, reg.onAuth, w, r);
    var d := PhaseCalls(PostAuth, reg.onPostAuth, w, r);
    var e := PhaseCalls(Validate, reg.onValidate, w, r);
    var t := MiddlewareTrace(reg, h, w, r);
    if i < |a| {
      assert t[i] == a[i];
    } else if i < |a + b| {
      assert t[i] == b[i - |a|];
    } else if i < |a + b + c| {
      assert t[i] == c[i - |a + b|];
    } else if i < |a + b + c + d| {
      assert t[i] == d[i - |a + b + c|];
    } else if i < |a + b + c + d + e| {
      assert t[i] == e[i - |a + b + c + d|];
    } else {
      assert t[i] == Terminal(h, w, r);
    }
  }

  /** With nothing registered a run only serves the terminal handler, and
      only then. */
  lemma MiddlewareWithoutHandlers(reg: Registry, h: HandlerId, w: WriterId, r: RequestId)
    ensures MiddlewareTrace(reg, h, w, r) == [Terminal(h, w, r)] <==> reg == Empty
  {
    MiddlewareRunsAllThenTerminal(reg, h, w, r);
    if MiddlewareTrace(reg, h, w, r) == [Terminal(h, w, r)] {
      assert |reg.All()| == 0;
    }
  }

  /** Registering `h` for phase `p` makes it the last handler of phase `p`
      in every later matched-route run and leaves the other phases' runs
      as they were; an unmatched-route run only notices Request handlers. */
  lemma RegistrationExtendsRuns(reg: Registry, p: Phase, h: HandlerId, th: HandlerId, w: WriterId, r: RequestId)
    ensures CalleesIn(MiddlewareTrace(reg.Add(p, h), th, w, r), p)
         == CalleesIn(MiddlewareTrace(reg, th, w, r), p) + [h]
    ensures forall q :: q != p ==>
      CalleesIn(MiddlewareTrace(reg.Add(p, h), th, w, r), q) == CalleesIn(MiddlewareTrace(reg, th, w, r), q)
    ensures p != Request <==> NotFoundTrace(reg.Add(p, h), w, r) == NotFoundTrace(reg, w, r)
  {
    MiddlewareRunsPhaseInOrder(reg, th, w, r, p);
    MiddlewareRunsPhaseInOrder(reg.Add(p, h), th, w, r, p);
    forall q | q != p
      ensures CalleesIn(MiddlewareTrace(reg.Add(p, h), th, w, r), q) == CalleesIn(MiddlewareTrace(reg, th, w, r), q)
    {
      MiddlewareRunsPhaseInOrder(reg, th, w, r, q);
      MiddlewareRunsPhaseInOrder(reg.Add(p, h), th, w, r, q);
    }
    if p == Request {
      NotFoundRunsOnlyRequestPhase(reg, w, r);
      NotFoundRunsOnlyRequestPhase(reg.Add(p, h), w, r);
      assert reg.Add(p, h).Handlers(Request) == reg.onRequest + [h];
    } else {
      assert reg.Add(p, h).Handlers(Request) == reg.onRequest;
    }
  }

  // ---------------------------------------------------------------------
  // Properties of an unmatched-route run

  /** An unmatched-route run calls exactly the Request handlers, in
      registration order, never a handler of a later phase and never the
      terminal handler, and ends with the not-found response. */
  lemma NotFoundRunsOnlyRequestPhase(reg: Registry, w: WriterId, r: RequestId)
    ensures var t := NotFoundTrace(reg, w, r);
      |t| == |reg.onRequest| + 1
      && Callees(t) == reg.onRequest
      && (forall p :: CalleesIn(t, p) == if p == Request then reg.onRequest else [])
      && (forall i :: 0 <= i < |t| - 1 ==> t[i].Call? && t[i].phase == Request)
      && (forall i :: 0 <= i < |t| ==> !t[i].Terminal?)
      && t[|t| - 1] == NotFound(w, r)
      && SameArguments(t, w, r)
  {
    var a := PhaseCalls(Request, reg.onRequest, w, r);
    var t := NotFoundTrace(reg, w, r);
    PhaseCallsCallees(Request, reg.onRequest, w, r);
    CalleesAppend(a, [NotFound(w, r)]);
    assert Callees([NotFound(w, r)]) == [];
    forall p ensures CalleesIn(t, p) == if p == Request then reg.onRequest else [] {
      PhaseCallsCalleesIn(Request, reg.onRequest, w, r, p);
      CalleesInAppend(a, [NotFound(w, r)], p);
      assert CalleesIn([NotFound(w, r)], p) == [];
    }
    forall i | 0 <= i < |t| - 1 ensures t[i].Call? && t[i].phase == Request {
      assert t[i] == a[i];
    }
  }

  // ---------------------------------------------------------------------
  // Running the handlers

  /** Calls the handlers of one phase, one after the other, in list order. */
  method RunPhase(p: Phase, hs: seq<HandlerId>, w: WriterId, r: RequestId) returns (t: seq<Event>)
    ensures t == PhaseCalls(p, hs, w, r)
  {
    t := [];
    for i := 0 to |hs|
      invariant t == PhaseCalls(p, hs[..i], w, r)
    {
      assert hs[..i + 1][..i] == hs[..i];
      t := t + [Call(p, hs[i], w, r)];
    }
    assert hs[..|hs|] == hs;
  }

  /** The pipeline object: five handler lists that only ever grow. */
  class Cycle {
    const router: RouterId
    var onRequest: seq<HandlerId>
    var onPreAuth: seq<HandlerId>
    var onAuth: seq<HandlerId>
    var onPostAuth: seq<HandlerId>
    var onValidate: seq<HandlerId>

    /** The registered handler lists as a value. */
    function Model(): Registry
      reads this
    {
      Registry(onRequest, onPreAuth, onAuth, onPostAuth, onValidate)
    }

    /** A new pipeline for `router`, with nothing registered. */
    constructor (router: RouterId)
      ensures this.router == router
      ensures onRequest == [] && onPreAuth == [] && onAuth == [] && onPostAuth == [] && onValidate == []
      ensures Model() == Empty
    {
      this.router := router;
      onRequest, onPreAuth, onAuth, onPostAuth, onValidate := [], [], [], [], [];
    }

    method OnRequest(h: HandlerId)
      modifies this`onRequest
      ensures onRequest == old(onRequest) + [h]
      ensures onPreAuth == old(onPreAuth) && onAuth == old(onAuth)
      ensures onPostAuth == old(onPostAuth) && onValidate == old(onValidate)
      ensures Model() == old(Model()).Add(Request, h)
    {
      onRequest := onRequest + [h];
    }

    method OnPreAuth(h: HandlerId)
      modifies this`onPreAuth
      ensures onPreAuth == old(onPreAuth) + [h]
      ensures onRequest == old(onRequest) && onAuth == old(onAuth)
      ensures onPostAuth == old(onPostAuth) && onValidate == old(onValidate)
      ensures Model() == old(Model()).Add(PreAuth, h)
    {
      onPreAuth := onPreAuth + [h];
    }

    method OnAuth(h: HandlerId)
      modifies this`onAuth
      ensures onAuth == old(onAuth) + [h]
      ensures onRequest == old(onRequest) && onPreAuth == old(onPreAuth)
      ensures onPostAuth == old(onPostAuth) && onValidate == old(onValidate)
      ensures Model() == old(Model()).Add(Auth, h)
    {
      onAuth := onAuth + [h];
    }

    method OnPostAuth(h: HandlerId)
      modifies this`onPostAuth
      ensures onPostAuth == old(onPostAuth) + [h]
      ensures onRequest == old(onRequest) && onPreAuth == old(onPreAuth)
      ensures onAuth == old(onAuth) && onValidate == old(onValidate)
      ensures Model() == old(Model()).Add(PostAuth, h)
    {
      onPostAuth := onPostAuth + [h];
    }

    method OnValidate(h: HandlerId)
      modifies this`onValidate
      ensures onValidate == old(onValidate) + [h]
      ensures onRequest == old(onRequest) && onPreAuth == old(onPreAuth)
      ensures onAuth == old(onAuth) && onPostAuth == old(onPostAuth)
      ensures Model() == old(Model()).Add(Validate, h)
    {
      onValidate := onValidate + [h];
    }

    /** Serves one matched request through the middleware wrapped around the
        route handler `h`. Each phase's loop reads its list when it starts,
        so handlers registered after the pipeline was built still run;
        handlers are taken to return normally and not to register handlers
        themselves, so every list is the one the request found. */
    method Middleware(h: HandlerId, w: WriterId, r: RequestId) returns (trace: seq<Event>)
      ensures trace == MiddlewareTrace(Model(), h, w, r)
    {
      trace := RunPhase(Request, onRequest, w, r);
      var t := RunPhase(PreAuth, onPreAuth, w, r);
      trace := trace + t;
      t := RunPhase(Auth, onAuth, w, r);
      trace := trace + t;
      t := RunPhase(PostAuth, onPostAuth, w, r);
      trace := trace + t;
      t := RunPhase(Validate, onValidate, w, r);
      trace := trace + t;
      trace := trace + [Terminal(h, w, r)];
    }

    /** Serves one request that matched no route. */
    method NotFoundHandler(w: WriterId, r: RequestId) returns (trace: seq<Event>)
      ensures trace == NotFoundTrace(Model(), w, r)
    {
      trace := RunPhase(Request, onRequest, w, r);
      trace := trace + [NotFound(w, r)];
    }
  }

  /** One Request handler registered on a fresh pipeline runs exactly once
      for a matched request, and the route handler still runs after it. */
  method RequestHandlerRunsOnce(router: RouterId, k: HandlerId, h: HandlerId, w: WriterId, r: RequestId)
    returns (trace: seq<Event>)
    ensures trace == [Call(Request, k, w, r), Terminal(h, w, r)]
    ensures CalleesIn(trace, Request) == [k]
  {
    var c := new Cycle(router);
    c.OnRequest(k);
    trace := c.Middleware(h, w, r);
    ghost var reg := c.Model();
    assert reg == Registry([k], [], [], [], []);
    MiddlewareRunsPhaseInOrder(reg, h, w, r, Request);
    assert CalleesIn(trace, Request) == [k];
    assert [k][..0] == [];
    assert PhaseCalls(Request, [k], w, r) == [Call(Request, k, w, r)];
  }
}
