/** The checkpoint stores: none, a file, and the guarded HTTP service. */
module ResumeStore {
  import opened Prelude

  /** What the checkpoint service answers; `envelope` is the decoded body, if it decodes. */
  datatype Response = Unreachable | Status(code: int, envelope: Option<string>)

  datatype LoadResult = NotFound | Found(rv: string) | LoadError

  datatype Request = Load(response: Response) | Save(rv: string, response: Response)

  /** The guard, and the versions PUT so far. */
  datatype Guard = Guard(baseline: bool, puts: seq<string>)

  predicate Accepted(response: Response) {
    response.Status? && 200 <= response.code < 300
  }

  /** A load that answers 404, or 200 with a decodable envelope. */
  predicate Establishes(request: Request) {
    request.Load? && request.response.Status?
    && (request.response.code == 404 || (request.response.code == 200 && request.response.envelope.Some?))
  }

  /** A save that reports failure: it was sent and not accepted. */
  predicate SaveFails(g: Guard, response: Response) {
    g.baseline && !Accepted(response)
  }

  function Served(g: Guard, request: Request): Guard {
    if request.Load? then g.(baseline := g.baseline || Establishes(request))
    else if g.baseline then g.(puts := g.puts + [request.rv])
    else g
  }

  function ServedAll(g: Guard, requests: seq<Request>): Guard
    decreases |requests|
  {
    if requests == [] then g else ServedAll(Served(g, requests[0]), requests[1..])
  }

  /** The guard lets a save of `rv` through to the service. */
  predicate LetsThrough(g: Guard, rv: string) {
    Served(g, Request.Save(rv, Unreachable)).puts == g.puts + [rv]
  }

  class HTTPResumeStore {
    var baseline: bool
    var puts: seq<string>

    function State(): Guard
      reads this
    {
      Guard(baseline, puts)
    }

    constructor ()
      ensures State() == Guard(false, [])
    {
      baseline, puts := false, [];
    }

    method Load(response: Response) returns (r: LoadResult)
      modifies this
      ensures State() == Served(old(State()), Request.Load(response))
      ensures r.NotFound? <==> response.Status? && response.code == 404
      ensures forall rv :: r == Found(rv) <==> response == Status(200, Some(rv))
      ensures puts == old(puts) && (baseline <==> old(baseline) || !r.LoadError?)
    {
      if response.Unreachable? {
        return LoadError;
      }
      if response.code == 404 {
        baseline := true;
        return NotFound;
      }
      if response.code != 200 {
        return LoadError;
      }
      match response.envelope
      case None => r := LoadError;
      case Some(rv) =>
        baseline := true;
        r := Found(rv);
    }

    /** Reports whether the save failed; a refused save reports success. */
    method Save(rv: string, response: Response) returns (failed: bool)
      modifies this
      ensures State() == Served(old(State()), Request.Save(rv, response))
      ensures failed <==> old(baseline) && (response.Status? ==> response.code < 200 || response.code > 299)
      ensures baseline == old(baseline) && puts == old(puts) + if old(baseline) then [rv] else []
    {
      if !baseline {
        return false;
      }
      puts := puts + [rv];
      failed := response.Unreachable? || response.code < 200 || response.code >= 300;
    }
  }

  /** The checkpoint file: absent, not decodable, or an envelope. */
  datatype Content = Missing | Garbled | Envelope(rv: string)

  class FileResumeStore {
    var content: Content

    constructor (content: Content)
      ensures this.content == content
    {
      this.content := content;
    }

    method Load(readable: bool) returns (r: LoadResult)
      ensures r.NotFound? <==> content.Missing?
      ensures forall rv :: r == Found(rv) <==> readable && content == Envelope(rv)
    {
      match content
      case Missing => r := NotFound;
      case Garbled => r := LoadError;
      case Envelope(rv) => r := if readable then Found(rv) else LoadError;
    }

    /** The envelope is written beside the file and then renamed; `replaced` when all of that succeeds. */
    method Save(rv: string, replaced: bool) returns (failed: bool)
      modifies this
      ensures failed <==> !replaced
      ensures content == if failed then old(content) else Envelope(rv)
    {
      if !replaced {
        return true;
      }
      content := Envelope(rv);
      failed := false;
    }
  }

  /** The store a watcher was given. */
  datatype Checkpoint = NoStore | Nop | InFile(file: FileResumeStore) | OverHTTP(http: HTTPResumeStore)

  /** What the world answers a call: whether the file operations succeed, and the service's response. */
  datatype Answer = Answer(ok: bool, response: Response)

  function Objects(store: Checkpoint): set<object> {
    match store
    case NoStore => {}
    case Nop => {}
    case InFile(file) => {file}
    case OverHTTP(http) => {http}
  }

  /** The position a store gives at the start, if any. */
  ghost function Position(store: Checkpoint, a: Answer): Option<string>
    reads Objects(store)
  {
    match store
    case NoStore => None
    case Nop => None
    case InFile(file) => if a.ok && file.content.Envelope? then Some(file.content.rv) else None
    case OverHTTP(_) =>
      if Establishes(Request.Load(a.response)) && a.response.code == 200 then a.response.envelope else None
  }

  /** A save that the store reports as failed. */
  ghost predicate Fails(store: Checkpoint, a: Answer)
    reads Objects(store)
  {
    match store
    case NoStore => false
    case Nop => false
    case InFile(_) => !a.ok
    case OverHTTP(http) => SaveFails(http.State(), a.response)
  }

  method LoadFrom(store: Checkpoint, a: Answer) returns (r: LoadResult)
    modifies Objects(store)
    ensures (if r.Found? then Some(r.rv) else None) == old(Position(store, a))
    ensures store.InFile? ==> store.file.content == old(store.file.content)
    ensures store.OverHTTP? ==> store.http.State() == Served(old(store.http.State()), Request.Load(a.response))
  {
    match store
    case NoStore => r := NotFound;
    case Nop => r := NotFound;
    case InFile(file) => r := file.Load(a.ok);
    case OverHTTP(http) => r := http.Load(a.response);
  }

  method SaveTo(store: Checkpoint, rv: string, a: Answer) returns (failed: bool)
    modifies Objects(store)
    ensures failed <==> old(Fails(store, a))
    ensures store.InFile? ==> store.file.content == if a.ok then Envelope(rv) else old(store.file.content)
    ensures store.OverHTTP? ==> store.http.State() == Served(old(store.http.State()), Request.Save(rv, a.response))
  {
    match store
    case NoStore => failed := false;
    case Nop => failed := false;
    case InFile(file) => failed := file.Save(rv, a.ok);
    case OverHTTP(http) => failed := http.Save(rv, a.response);
  }

  /** The versions of all save requests. */
  function Saves(requests: seq<Request>): seq<string> {
    if requests == [] then []
    else (if requests[0].Save? then [requests[0].rv] else []) + Saves(requests[1..])
  }

  /** What follows the first load that establishes a baseline. */
  function SinceBaseline(requests: seq<Request>): seq<Request> {
    if requests == [] then []
    else if Establishes(requests[0]) then requests[1..]
    else SinceBaseline(requests[1..])
  }

  lemma {:induction false} ReadyPutsAll(g: Guard, requests: seq<Request>)
    requires g.baseline
    ensures ServedAll(g, requests).puts == g.puts + Saves(requests)
    decreases |requests|
  {
    if requests != [] {
      ReadyPutsAll(Served(g, requests[0]), requests[1..]);
      Associates(g.puts, if requests[0].Save? then [requests[0].rv] else [], Saves(requests[1..]));
      assert g.puts + [] == g.puts;
    } else {
      assert g.puts + [] == g.puts;
    }
  }

  /** A new store PUTs exactly the saves that follow the first successful load, whatever the service answers. */
  lemma {:induction false} NoPutBeforeBaseline(requests: seq<Request>)
    ensures ServedAll(Guard(false, []), requests).puts == Saves(SinceBaseline(requests))
  {
    if requests != [] {
      var g := Served(Guard(false, []), requests[0]);
      if g.baseline {
        ReadyPutsAll(g, requests[1..]);
        assert [] + Saves(requests[1..]) == Saves(requests[1..]);
      } else {
        NoPutBeforeBaseline(requests[1..]);
      }
    }
  }
}
