/** The `Foward` endpoint of src/endpoints/forward.js: a navigation command whose
    acknowledgment is parked in a single-slot mailbox, `session.storage.confirm`,
    and collected by the endpoint's `transform` hook on a later response pass.

    The storage of a session is a string-keyed map; only the `confirm` key is
    touched by this endpoint. The state of the handshake is read off that key:
    Idle (absent or null) or Awaiting (a staged confirmation). */
module Forward {

  /** The storage key of the confirmation slot. */
  const ConfirmKey: string := "confirm"

  /** The human-readable status staged with every forward confirmation. */
  const ForwardComplete: string := "forward complete"

  /** The command name derived from the class name, spelled as in the source. */
  const CommandName: string := "Foward"

  /** The verb of routes added with `router.post`. */
  const PostVerb: string := "POST"

  /** The path the endpoint registers on the router. */
  const ForwardPath: string := "/session/:sid/forward"

  /** The serialisable view of an endpoint instance: its identifier and its command name. */
  datatype CommandDto = CommandDto(id: nat, name: string)

  /** What the forward route stages: `{cmd, data}`. */
  datatype Confirmation = Confirmation(cmd: CommandDto, data: string)

  /** A value held in session storage. `Other` stands for whatever code outside
      this endpoint keeps there, by its serialised form. */
  datatype Value = Null | Pending(confirmation: Confirmation) | Other(json: string)

  type Storage = map<string, Value>

  /** The handshake state of a session, read off its `confirm` slot. `Foreign`
      is a value under `confirm` that this endpoint did not write. */
  datatype Handshake = Idle | Awaiting(confirmation: Confirmation) | Foreign(json: string)

  function StateOf(s: Storage): Handshake
  {
    if ConfirmKey !in s then Idle
    else match s[ConfirmKey]
      case Null => Idle
      case Pending(c) => Awaiting(c)
      case Other(j) => Foreign(j)
  }

  /** The DTO of the endpoint instance with identifier `id`. */
  function DtoFor(id: nat): CommandDto
  {
    CommandDto(id, CommandName)
  }

  /** `a` and `b` hold the same keys and values everywhere except under `confirm`. */
  ghost predicate AgreeOffConfirm(a: Storage, b: Storage)
  {
    forall k :: k != ConfirmKey ==> (k in a <==> k in b) && (k in a ==> a[k] == b[k])
  }

  /** The storage after the forward route has staged a confirmation for `dto`. */
  function Staged(s: Storage, dto: CommandDto): (r: Storage)
    ensures StateOf(r) == Awaiting(Confirmation(dto, ForwardComplete))
    ensures AgreeOffConfirm(s, r)
    ensures r.Keys == s.Keys + {ConfirmKey}
  {
    s[ConfirmKey := Pending(Confirmation(dto, ForwardComplete))]
  }

  /** The storage after `transform` has emptied the slot. */
  function Cleared(s: Storage): (r: Storage)
    ensures StateOf(r) == Idle
    ensures ConfirmKey in r && r[ConfirmKey] == Null
    ensures AgreeOffConfirm(s, r)
    ensures r.Keys == s.Keys + {ConfirmKey}
  {
    s[ConfirmKey := Null]
  }

  /** `transform` run twice leaves the same storage as run once. */
  lemma TransformIdempotent(s: Storage)
    ensures Cleared(Cleared(s)) == Cleared(s)
  {
  }

  /** Staging and then clearing ends Idle, with the storage every earlier value
      of the slot would have led to. */
  lemma StageThenTransform(s: Storage, dto: CommandDto)
    ensures Cleared(Staged(s, dto)) == Cleared(s)
    ensures StateOf(Cleared(Staged(s, dto))) == Idle
  {
  }

  /** A second staging replaces the first: the slot holds one entry, nothing is queued. */
  lemma StageOverwrites(s: Storage, first: CommandDto, second: CommandDto)
    ensures Staged(Staged(s, first), second) == Staged(s, second)
    ensures StateOf(Staged(Staged(s, first), second)) == Awaiting(Confirmation(second, ForwardComplete))
  {
  }

  /** One step of a session's sequential request stream, as it affects storage:
      a forward request served by the endpoint instance with identifier `id`, or
      a response pass through the `transform` hook. */
  datatype Call = ForwardRequest(id: nat) | TransformPass

  function Step(s: Storage, c: Call): Storage
  {
    match c
    case ForwardRequest(id) => Staged(s, DtoFor(id))
    case TransformPass => Cleared(s)
  }

  /** The storage after the calls in order. */
  function Replay(s: Storage, calls: seq<Call>): Storage
    decreases |calls|
  {
    if calls == [] then s else Step(Replay(s, calls[..|calls| - 1]), calls[|calls| - 1])
  }

  /** The state a call leaves the slot in, whatever it held before. */
  function StateAfter(c: Call): Handshake
  {
    match c
    case ForwardRequest(id) => Awaiting(Confirmation(DtoFor(id), ForwardComplete))
    case TransformPass => Idle
  }

  /** No run of forward requests and response passes touches any storage key but
      `confirm`, and a non-empty run always leaves `confirm` present. */
  lemma {:induction false} ReplayFrame(s: Storage, calls: seq<Call>)
    ensures AgreeOffConfirm(s, Replay(s, calls))
    ensures Replay(s, calls).Keys == if calls == [] then s.Keys else s.Keys + {ConfirmKey}
    decreases |calls|
  {
    if calls != [] {
      ReplayFrame(s, calls[..|calls| - 1]);
    }
  }

  /** The slot after a non-empty run is decided by the last call alone. */
  lemma ReplayLastCallDecides(s: Storage, calls: seq<Call>)
    requires calls != []
    ensures StateOf(Replay(s, calls)) == StateAfter(calls[|calls| - 1])
  {
  }

  /** The slot is a mailbox of one: two storages that differ only in what
      `confirm` holds end up identical after the same non-empty run, so no earlier
      pending confirmation survives behind a later one. */
  lemma {:induction false} ReplayForgetsSlot(s1: Storage, s2: Storage, calls: seq<Call>)
    requires AgreeOffConfirm(s1, s2)
    requires calls != []
    ensures Replay(s1, calls) == Replay(s2, calls)
    decreases |calls|
  {
    var init := calls[..|calls| - 1];
    var last := calls[|calls| - 1];
    if init == [] {
      assert Step(s1, last) == Step(s2, last);
    } else {
      ReplayForgetsSlot(s1, s2, init);
    }
  }

  /** The per-session storage reachable as `req.session.storage`. */
  class Session {
    var storage: Storage

    constructor (initial: Storage)
      ensures storage == initial
    {
      storage := initial;
    }
  }

  /** The continuation `next` handed to a route handler; it counts its calls. */
  class Continuation {
    var calls: nat

    constructor ()
      ensures calls == 0
    {
      calls := 0;
    }

    method Invoke()
      modifies this
      ensures calls == old(calls) + 1
    {
      calls := calls + 1;
    }
  }

  /** The HTTP response; a route handler of this endpoint never writes it. */
  class Response {
    var body: seq<char>
    var ended: bool

    constructor ()
      ensures body == [] && !ended
    {
      body, ended := [], false;
    }
  }

  /** An incoming request with its session and its active endpoint. */
  class Request {
    const session: Session
    var endpoint: Foward?

    constructor (session: Session)
      ensures this.session == session && endpoint == null
    {
      this.session := session;
      endpoint := null;
    }
  }

  /** The handler a route is bound to. `ForwardHandler` is the closure that
      `Foward.Express` registers, whose body is `Foward.ForwardRoute`. */
  datatype RouteHandler = ForwardHandler

  /** A route registered on the router: verb, path pattern and bound handler. */
  datatype Route = Route(verb: string, path: string, handler: RouteHandler)

  class Router {
    var routes: seq<Route>

    constructor ()
      ensures routes == []
    {
      routes := [];
    }

    /** `router.post(path, handler)`. */
    method Post(path: string, handler: RouteHandler)
      modifies this
      ensures routes == old(routes) + [Route(PostVerb, path, handler)]
    {
      routes := routes + [Route(PostVerb, path, handler)];
    }
  }

  /** The endpoint. Its identifier is assigned at construction by the endpoint
      base class, which is not part of this model, so it is a constructor argument. */
  class Foward {
    const id: nat

    constructor (id: nat)
      ensures this.id == id
    {
      this.id := id;
    }

    /** `dto()` of the base class: a function of the instance. */
    function Dto(): CommandDto
    {
      DtoFor(id)
    }

    /** `static express(router)`: registers the forward route. */
    static method Express(router: Router)
      modifies router
      ensures router.routes == old(router.routes) + [Route(PostVerb, ForwardPath, ForwardHandler)]
    {
      router.Post(ForwardPath, ForwardHandler);
    }

    /** The handler registered by `Express`, run on one forward request. `id`
        is the identifier the new instance receives. */
    static method ForwardRoute(req: Request, res: Response, next: Continuation, id: nat)
      modifies req, req.session, next
      ensures req.endpoint != null && fresh(req.endpoint) && req.endpoint.id == id
      ensures req.session.storage == Staged(old(req.session.storage), req.endpoint.Dto())
      ensures StateOf(req.session.storage) == Awaiting(Confirmation(req.endpoint.Dto(), ForwardComplete))
      ensures next.calls == old(next.calls) + 1
      ensures unchanged(res)
    {
      req.endpoint := new Foward(id);
      req.session.storage := req.session.storage[ConfirmKey := Pending(Confirmation(req.endpoint.Dto(), ForwardComplete))];
      next.Invoke();
    }

    /** The response hook: empties the slot and hands the payload back untouched. */
    method Transform<T>(data: T, session: Session) returns (r: T)
      modifies session
      ensures r == data
      ensures session.storage == Cleared(old(session.storage))
      ensures StateOf(session.storage) == Idle
    {
      session.storage := session.storage[ConfirmKey := Null];
      r := data;
    }
  }
}
