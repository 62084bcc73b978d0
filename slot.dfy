/**
 * The form's single connection slot (`_client`), described on values: every
 * connection the form has ever created, in creation order (its index is its
 * id), and which one the slot currently holds.
 */
module Slot {
  import opened Wrappers

  /** What the form can observe of one `WebSocket`. */
  datatype Conn = Conn(url: string, onMessage: nat, onError: nat, closed: bool, connectCalled: bool)

  /** `current` is the id held in `_client`, `None` for `null`. */
  datatype State = State(current: Option<nat>, conns: seq<Conn>)

  /** The two events the form subscribes to. */
  datatype Event = Message | ErrorEvent

  /** The slot of a newly constructed form. */
  const Initial := State(None, [])

  /** The held id, if any, names an existing connection. */
  predicate WellFormed(s: State)
  {
    s.current.Some? ==> s.current.value < |s.conns|
  }

  /** The number of registrations of a handler left after `-=`, given how many there were. */
  function Unsubscribe(n: nat): (m: nat)
  {
    if n == 0 then 0 else n - 1
  }

  /**
   * `-=` on a C# event's invocation list (`Delegate.Remove`): the last
   * registration of `h` is deleted; a list without `h` is left as it is.
   */
  function Remove<H(==)>(list: seq<H>, h: H): (r: seq<H>)
  {
    if list == [] then []
    else if list[|list| - 1] == h then list[..|list| - 1]
    else Remove(list[..|list| - 1], h) + [list[|list| - 1]]
  }

  /** How many times `h` is registered in an invocation list. */
  function Registrations<H(==)>(list: seq<H>, h: H): (n: nat)
  {
    if list == [] then 0
    else Registrations(list[..|list| - 1], h) + (if list[|list| - 1] == h then 1 else 0)
  }

  /**
   * Counting registrations is faithful to invocation lists: `-=` takes away
   * exactly one registration of `h` when there is one, none otherwise, and
   * leaves every other handler's registrations alone.
   */
  lemma {:induction false} RemoveDropsOneRegistration<H>(list: seq<H>, h: H, g: H)
    ensures Registrations(Remove(list, h), h) == Unsubscribe(Registrations(list, h))
    ensures g != h ==> Registrations(Remove(list, h), g) == Registrations(list, g)
  {
    if list != [] {
      var n := |list| - 1;
      var init := Remove(list[..n], h);
      RemoveDropsOneRegistration(list[..n], h, g);
      if list[n] != h {
        assert (init + [list[n]])[..|init|] == init;
      }
    }
  }

  /** `OpenClient` on the previous connection: both handlers removed, then `Close()`. */
  function Retire(c: Conn): (d: Conn)
    ensures d.closed && d.url == c.url && d.connectCalled == c.connectCalled
    ensures c.onMessage <= 1 && c.onError <= 1 ==> d.onMessage == 0 && d.onError == 0
  {
    c.(onMessage := Unsubscribe(c.onMessage), onError := Unsubscribe(c.onError), closed := true)
  }

  /** The connection `OpenClient` creates: both handlers registered, `Connect()` issued. */
  function Opened(url: string): (c: Conn)
    ensures c.url == url && c.connectCalled
    ensures forall e :: Handlers(c, e) == 1
  {
    Conn(url, 1, 1, false, true)
  }

  /** `OpenClient(url)`: retire the held connection, then hold a new one. */
  function Open(s: State, url: string): (t: State)
    requires WellFormed(s)
    ensures WellFormed(t)
    ensures t.current == Some(|s.conns|) && |t.conns| == |s.conns| + 1
    ensures t.conns[|s.conns|] == Opened(url)
    ensures forall i :: 0 <= i < |s.conns| ==>
              t.conns[i] == (if s.current == Some(i) then Retire(s.conns[i]) else s.conns[i])
  {
    var conns := if s.current.Some? then s.conns[s.current.value := Retire(s.conns[s.current.value])]
                 else s.conns;
    State(Some(|conns|), conns + [Opened(url)])
  }

  /** `OnApplicationExit`: close the held connection (its handlers stay) and clear the slot. */
  function Exit(s: State): (t: State)
    requires WellFormed(s)
    ensures WellFormed(t) && t.current == None && |t.conns| == |s.conns|
    ensures forall i :: 0 <= i < |s.conns| ==>
              t.conns[i] == (if s.current == Some(i) then s.conns[i].(closed := true) else s.conns[i])
  {
    match s.current
    case None => s
    case Some(i) => State(None, s.conns[i := s.conns[i].(closed := true)])
  }

  /**
   * The replacement invariant: only the held connection is open, it is the
   * newest one, it carries exactly one handler per event, and no connection
   * ever carries two registrations of the same handler.
   */
  predicate Inv(s: State)
  {
    WellFormed(s) &&
    (s.current.Some? ==>
       s.current.value == |s.conns| - 1 &&
       s.conns[s.current.value] == Opened(s.conns[s.current.value].url)) &&
    (forall i :: 0 <= i < |s.conns| && s.current != Some(i) ==> s.conns[i].closed) &&
    (forall i :: 0 <= i < |s.conns| ==> s.conns[i].onMessage <= 1 && s.conns[i].onError <= 1)
  }

  /** How many times connection `c` invokes the form's handler for `e`. */
  function Handlers(c: Conn, e: Event): (n: nat)
  {
    if c.closed then 0 else match e case Message => c.onMessage case ErrorEvent => c.onError
  }

  /** How many handler invocations one event arriving on every connection causes. */
  function Subscribers(cs: seq<Conn>, e: Event): (n: nat)
  {
    if cs == [] then 0 else Subscribers(cs[..|cs| - 1], e) + Handlers(cs[|cs| - 1], e)
  }

  lemma InitialInv()
    ensures Inv(Initial)
  {
  }

  lemma {:induction false} ClosedHaveNoSubscribers(cs: seq<Conn>, e: Event)
    requires forall i :: 0 <= i < |cs| ==> cs[i].closed
    ensures Subscribers(cs, e) == 0
  {
    if cs != [] {
      ClosedHaveNoSubscribers(cs[..|cs| - 1], e);
    }
  }

  /**
   * No duplicate delivery: in a state that keeps the invariant, an inbound
   * message or error reaches the form's handler exactly once when a connection
   * is held, and not at all otherwise.
   */
  lemma {:induction false} SubscribersOfInv(s: State, e: Event)
    requires Inv(s)
    ensures Subscribers(s.conns, e) == if s.current.Some? then 1 else 0
  {
    if s.current.Some? {
      var n := |s.conns| - 1;
      ClosedHaveNoSubscribers(s.conns[..n], e);
    } else {
      ClosedHaveNoSubscribers(s.conns, e);
    }
  }

  lemma OpenKeepsInv(s: State, url: string)
    requires Inv(s)
    ensures Inv(Open(s, url))
  {
  }

  lemma ExitKeepsInv(s: State)
    requires Inv(s)
    ensures Inv(Exit(s))
  {
  }

  /**
   * After `OpenClient` exactly one connection is open, the fresh one for `url`,
   * and it delivers each message and each error to the form exactly once.
   */
  lemma {:induction false} OpenHoldsExactlyOne(s: State, url: string)
    requires Inv(s)
    ensures var t := Open(s, url);
            t.conns[t.current.value] == Opened(url) &&
            (forall i :: 0 <= i < |t.conns| && !t.conns[i].closed ==> t.current == Some(i))
    ensures forall e :: Subscribers(Open(s, url).conns, e) == 1
  {
    OpenKeepsInv(s, url);
    forall e ensures Subscribers(Open(s, url).conns, e) == 1 {
      SubscribersOfInv(Open(s, url), e);
    }
  }

  /** The connection `OpenClient` replaces is closed and has no handler left. */
  lemma OpenRetiresPrevious(s: State, url: string)
    requires Inv(s) && s.current.Some?
    ensures var t := Open(s, url); var i := s.current.value;
            t.conns[i] == s.conns[i].(onMessage := 0, onError := 0, closed := true)
  {
  }

  /** After `OnApplicationExit` nothing is open and nothing is delivered. */
  lemma {:induction false} ExitSilences(s: State)
    requires Inv(s)
    ensures forall i :: 0 <= i < |Exit(s).conns| ==> Exit(s).conns[i].closed
    ensures forall e :: Subscribers(Exit(s).conns, e) == 0
  {
    ExitKeepsInv(s);
    forall e ensures Subscribers(Exit(s).conns, e) == 0 {
      SubscribersOfInv(Exit(s), e);
    }
  }

  /** A second `OnApplicationExit` changes nothing. */
  lemma ExitIdempotent(s: State)
    requires WellFormed(s)
    ensures Exit(Exit(s)) == Exit(s)
  {
  }
}
