/** A request in the table is what its own events, since it got there, have made of it. */
module BlockRequests {
  import opened Basics
  import opened BlockTrack

  /** The events of request `id` since it entered the table, the one that put it there first. */
  function Own(c: Config, s0: Tables, es: seq<Event>, id: nat): seq<Event> {
    if es == [] || id !in After(c, s0, es).requests then []
    else
      var (before, e) := (es[..|es| - 1], es[|es| - 1]);
      if id !in After(c, s0, before).requests then [e]
      else Own(c, s0, before, id) + if e.id == id then [e] else []
  }

  /** When it was first seen. */
  function Birth(h: seq<Event>): nat { if h == [] || h[0].Merge? then 0 else h[0].now }

  /** The issue time of the attempt in service. An attempt requeued at the reading of
      its issue is kept, from then on as if issued at boot. */
  function Attempt(h: seq<Event>): Option<nat> {
    if h == [] then None
    else
      var (t, e) := (Attempt(h[..|h| - 1]), h[|h| - 1]);
      if e.Issue? then Some(e.now)
      else if e.Requeue? && t.Some? then (if t.value < e.now then None else Some(0))
      else t
  }

  /** The time of the attempts that have ended. */
  function Served(h: seq<Event>): nat {
    if h == [] then 0
    else
      var (t, e) := (Attempt(h[..|h| - 1]), h[|h| - 1]);
      Served(h[..|h| - 1]) + if e.Requeue? && t.Some? && t.value < e.now then e.now - t.value else 0
  }

  /** It was inserted, while not in service, and not issued since. */
  predicate Waiting(h: seq<Event>) {
    h != []
    && var (before, e) := (h[..|h| - 1], h[|h| - 1]);
       if e.Issue? then false else Waiting(before) || (e.Insert? && Attempt(before).None?)
  }

  /** The bytes still to be completed. */
  function Left(h: seq<Event>): nat {
    if h == [] then 0
    else
      var (left, e) := (Left(h[..|h| - 1]), h[|h| - 1]);
      match e
      case Insert(_, _, bytes, _, _) => if bytes > left then bytes else left
      case Issue(_, _, bytes, _, _) => if left == 0 then bytes else left
      case Merge(_, bytes) => bytes
      case Complete(_, _, _, bytes, _) => if bytes < left then left - bytes else left
      case Requeue(_, _, _) => left
  }

  /** The state a history leaves a request in. */
  predicate IsLeftBy(r: Request, h: seq<Event>) {
    && h != [] && (h[0].Insert? || h[0].Issue?)
    && r.firstSeen == Birth(h) && r.serviceNs == Served(h) && r.remaining == Left(h)
    && r.inserted == Waiting(h) && r.issued == Attempt(h).Some?
    && (r.issued ==> r.issueNs == Attempt(h).value)
  }

  lemma OneMore(h: seq<Event>, e: Event)
    ensures (h + [e])[..|h + [e]| - 1] == h && (h + [e])[|h + [e]| - 1] == e
    ensures h != [] ==> Birth(h + [e]) == Birth(h)
  {
    assert (h + [e])[..|h|] == h;
  }

  lemma NewIsLeftBy(c: Config, s: Tables, e: Event)
    requires e.id !in s.requests && e.id in Handle(c, s, e).requests
    ensures IsLeftBy(Handle(c, s, e).requests[e.id], [e])
  {
    OneMore([], e);
    assert [e] == [] + [e];
  }

  lemma KnownIsLeftBy(c: Config, s: Tables, e: Event, h: seq<Event>)
    requires e.id in s.requests && IsLeftBy(s.requests[e.id], h) && e.id in Handle(c, s, e).requests
    requires c.requestTracking && ShouldTrack(c, e.id)
    ensures IsLeftBy(Handle(c, s, e).requests[e.id], h + [e])
  {
    OneMore(h, e);
  }

  lemma OthersUntouched(c: Config, s: Tables, e: Event, id: nat)
    requires id != e.id
    ensures id in Handle(c, s, e).requests <==> id in s.requests
    ensures id in s.requests ==> Handle(c, s, e).requests[id] == s.requests[id]
  {
  }

  /** Only tracked requests get into the table. */
  predicate AllTracked(c: Config, s: Tables) {
    s.requests != map[] ==> c.requestTracking && forall id | id in s.requests :: ShouldTrack(c, id)
  }

  lemma {:induction false} StaysTracked(c: Config, s0: Tables, start: nat, es: seq<Event>)
    requires Initial(s0, start)
    ensures AllTracked(c, After(c, s0, es))
  {
    if es != [] { StaysTracked(c, s0, start, es[..|es| - 1]); }
  }

  /** In every run each request in the table is in the state its own events since it
      entered leave it in: first seen at the first of them, in service since the last
      issue that was not requeued later, with the sum of the attempts before, waiting
      if inserted since, with what is left of its bytes. */
  lemma {:induction false} RequestIsItsHistory(c: Config, s0: Tables, start: nat, es: seq<Event>, id: nat)
    requires Initial(s0, start) && id in After(c, s0, es).requests
    ensures IsLeftBy(After(c, s0, es).requests[id], Own(c, s0, es, id))
  {
    var before, e := es[..|es| - 1], es[|es| - 1];
    var s := After(c, s0, before);
    StaysTracked(c, s0, start, before);
    if id != e.id {
      OthersUntouched(c, s, e, id);
      RequestIsItsHistory(c, s0, start, before, id);
      assert Own(c, s0, before, id) + [] == Own(c, s0, before, id);
    } else if id in s.requests {
      RequestIsItsHistory(c, s0, start, before, id);
      KnownIsLeftBy(c, s, e, Own(c, s0, before, id));
    } else {
      NewIsLeftBy(c, s, e);
    }
  }
}
