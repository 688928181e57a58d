/** The browser side of the signaling channel in front-end/src/videoChat.js:
    `SignalConn` keeps a table from frame `type` to the handler that the next
    frame of that type is given to. `on` installs a handler for good; `once`
    installs a wrapper that runs the handler and then empties its own slot.

    Handlers are opaque ids. What a handler does when it runs is invisible
    here, except the `on`/`once` calls it makes on the same connection, which
    the caller supplies as `reentrant`. Every run of a handler is recorded in
    the ghost `log`. */
module Client {
  import opened Protocol

  type HandlerId = nat

  /** An open WebSocket; `connect` is not part of this model. */
  type Socket = nat

  /** A slot of `handlerMap`: emptied (`null`), a handler installed by `on`,
      or the wrapper installed by `once`. A missing key reads like `Null`. */
  datatype Slot = Null | Plain(h: HandlerId) | OnceWrapper(h: HandlerId)

  /** One `on(eventType, h)` or `once(eventType, h)` call. */
  datatype Registration = On(eventType: string, h: HandlerId) | Once(eventType: string, h: HandlerId)

  /** The handler `h` was called with `data`. */
  datatype Invocation = Invocation(h: HandlerId, data: Payload)

  /** What `_handleMessage` does with a frame: throw (on an error status),
      return what the handler `h` returned for `arg`, return `undefined` (what
      a `once` wrapper returns), or return `Promise.resolve(data)`. */
  datatype Result = Threw(frame: Envelope) | HandlerReturned(h: HandlerId, arg: Payload)
                  | Undefined | ResolvedWith(data: Payload)

  /** `if (this.handlerMap[type])`: a handler is installed for `t`. */
  predicate Armed(m: map<string, Slot>, t: string): (b: bool)
    ensures t !in m ==> !b
    ensures t in m ==> (b <==> m[t].Plain? || m[t].OnceWrapper?)
  {
    t in m && !m[t].Null?
  }

  /** The table after one registration. */
  function Register(m: map<string, Slot>, r: Registration): (m': map<string, Slot>)
    ensures m'.Keys == m.Keys + {r.eventType}
    ensures Armed(m', r.eventType) && m'[r.eventType].h == r.h
    ensures m'[r.eventType].OnceWrapper? <==> r.Once?
    ensures forall t :: t in m && t != r.eventType ==> m'[t] == m[t]
  {
    m[r.eventType := match r case On(_, h) => Plain(h) case Once(_, h) => OnceWrapper(h)]
  }

  /** The table after a sequence of registrations, first to last. */
  function RegisterAll(m: map<string, Slot>, rs: seq<Registration>): (m': map<string, Slot>)
    ensures m.Keys <= m'.Keys
    ensures forall t :: t in m && (forall i :: 0 <= i < |rs| ==> rs[i].eventType != t) ==> m'[t] == m[t]
    ensures forall i :: 0 <= i < |rs| ==> Armed(m', rs[i].eventType)
    decreases |rs|
  {
    if rs == [] then m
    else
      var m' := RegisterAll(Register(m, rs[0]), rs[1..]);
      assert forall i :: 1 <= i < |rs| ==> rs[i] == rs[1..][i - 1];
      m'
  }

  /** Registering one more at the end is one more `Register`. */
  lemma {:induction false} RegisterAllSnoc(m: map<string, Slot>, rs: seq<Registration>, r: Registration)
    ensures RegisterAll(m, rs + [r]) == Register(RegisterAll(m, rs), r)
    decreases |rs|
  {
    if rs != [] {
      assert (rs + [r])[1..] == rs[1..] + [r];
      RegisterAllSnoc(Register(m, rs[0]), rs[1..], r);
    }
  }

  /** Registering `a` then `b` is registering `a + b`. */
  lemma {:induction false} RegisterAllAppend(m: map<string, Slot>, a: seq<Registration>, b: seq<Registration>)
    ensures RegisterAll(m, a + b) == RegisterAll(RegisterAll(m, a), b)
    decreases |a|
  {
    if a == [] {
      assert a + b == b;
    } else {
      assert (a + b)[1..] == a[1..] + b;
      RegisterAllAppend(Register(m, a[0]), a[1..], b);
    }
  }

  /** The last registration for a type decides its slot: an `on` a handler
      makes leaves `Plain`, a `once` leaves a wrapper, whatever came before. */
  lemma RegisterAllLast(m: map<string, Slot>, before: seq<Registration>, r: Registration, after: seq<Registration>)
    requires forall i :: 0 <= i < |after| ==> after[i].eventType != r.eventType
    ensures var m' := RegisterAll(m, before + [r] + after);
            r.eventType in m' && m'[r.eventType] == (if r.On? then Plain(r.h) else OnceWrapper(r.h))
  {
    assert (before + [r] + after)[|before|] == r;
    RegisterAllAppend(m, before + [r], after);
    RegisterAllSnoc(m, before, r);
  }

  class SignalConn {
    var ws: Option<Socket>
    var handlerMap: map<string, Slot>
    ghost var log: seq<Invocation>

    constructor ()
      ensures ws == None && handlerMap == map[] && log == []
    {
      ws := None;
      handlerMap := map[];
      log := [];
    }

    /** `on(eventType, handler)`: the slot now holds `h`, whatever it held. */
    method On(eventType: string, h: HandlerId)
      modifies this`handlerMap
      ensures handlerMap == Register(old(handlerMap), Registration.On(eventType, h))
    {
      handlerMap := handlerMap[eventType := Plain(h)];
    }

    /** `once(eventType, handler)`: the slot now holds a wrapper around `h`. */
    method Once(eventType: string, h: HandlerId)
      modifies this`handlerMap
      ensures handlerMap == Register(old(handlerMap), Registration.Once(eventType, h))
    {
      handlerMap := handlerMap[eventType := OnceWrapper(h)];
    }

    /** A run of the user's handler `h` on `data`: it is logged, and the
        `on`/`once` calls it makes on this connection take effect in order. */
    method RunHandler(h: HandlerId, data: Payload, reentrant: seq<Registration>)
      modifies this`handlerMap, this`log
      ensures log == old(log) + [Invocation(h, data)]
      ensures handlerMap == RegisterAll(old(handlerMap), reentrant)
    {
      log := log + [Invocation(h, data)];
      for i := 0 to |reentrant|
        invariant handlerMap == RegisterAll(old(handlerMap), reentrant[..i])
        invariant log == old(log) + [Invocation(h, data)]
      {
        RegisterAllSnoc(old(handlerMap), reentrant[..i], reentrant[i]);
        assert reentrant[..i + 1] == reentrant[..i] + [reentrant[i]];
        match reentrant[i] {
          case On(t, g) => this.On(t, g);
          case Once(t, g) => this.Once(t, g);
        }
      }
      assert reentrant[..|reentrant|] == reentrant;
    }

    /** `_handleMessage`: an error frame throws before any handler is looked
        at; otherwise the handler for the frame's type, if any, runs once
        with its `data`, and a `once` wrapper then empties its slot. */
    method HandleMessage(frame: Envelope, reentrant: seq<Registration>) returns (r: Result)
      modifies this`handlerMap, this`log
      ensures frame.status == Some(Error) ==>
                r == Threw(frame) && handlerMap == old(handlerMap) && log == old(log)
      ensures frame.status != Some(Error) && !Armed(old(handlerMap), frame.kind) ==>
                r == ResolvedWith(frame.data) && handlerMap == old(handlerMap) && log == old(log)
      ensures frame.status != Some(Error) && Armed(old(handlerMap), frame.kind) ==>
                log == old(log) + [Invocation(old(handlerMap)[frame.kind].h, frame.data)]
      ensures frame.status != Some(Error) && Armed(old(handlerMap), frame.kind) && old(handlerMap)[frame.kind].Plain? ==>
                r == HandlerReturned(old(handlerMap)[frame.kind].h, frame.data)
                && handlerMap == RegisterAll(old(handlerMap), reentrant)
      ensures frame.status != Some(Error) && Armed(old(handlerMap), frame.kind) && old(handlerMap)[frame.kind].OnceWrapper? ==>
                r == Undefined
                && handlerMap == RegisterAll(old(handlerMap), reentrant)[frame.kind := Null]
    {
      if frame.status == Some(Error) {
        r := Threw(frame);
      } else if Armed(handlerMap, frame.kind) {
        var t := frame.kind;
        match handlerMap[t] {
          case Plain(h) =>
            RunHandler(h, frame.data, reentrant);
            r := HandlerReturned(h, frame.data);
          case OnceWrapper(h) =>
            RunHandler(h, frame.data, reentrant);
            handlerMap := handlerMap[t := Null];
            r := Undefined;
        }
      } else {
        r := ResolvedWith(frame.data);
      }
    }
  }

  /** `h` registered with `once` runs for the first frame of its type and
      not for the second, whatever `h` registered while it ran. */
  method OnceRunsOnce(t: string, h: HandlerId, d1: Payload, d2: Payload,
                      during1: seq<Registration>, during2: seq<Registration>)
    returns (r1: Result, r2: Result, ghost log: seq<Invocation>)
    ensures r1 == Undefined && r2 == ResolvedWith(d2)
    ensures log == [Invocation(h, d1)]
  {
    var c := new SignalConn();
    c.Once(t, h);
    r1 := c.HandleMessage(Envelope(t, Some(Success), d1, None), during1);
    r2 := c.HandleMessage(Envelope(t, Some(Success), d2, None), during2);
    log := c.log;
  }

  /** A handler that `h` installs with `on` for its own type while it runs
      is wiped when the `once` wrapper clears the slot: the next frame of
      that type reaches no handler. */
  method OnceWipesOwnTypeRegistration(t: string, h: HandlerId, g: HandlerId, d1: Payload, d2: Payload)
    returns (r2: Result, ghost log: seq<Invocation>)
    ensures r2 == ResolvedWith(d2)
    ensures log == [Invocation(h, d1)]
  {
    var c := new SignalConn();
    c.Once(t, h);
    var r1 := c.HandleMessage(Envelope(t, None, d1, None), [Registration.On(t, g)]);
    r2 := c.HandleMessage(Envelope(t, None, d2, None), []);
    log := c.log;
  }

  /** A second `on` for a type replaces the first: every later frame of the
      type goes to the second handler, and the first never runs. */
  method OnReplaces(t: string, h1: HandlerId, h2: HandlerId, d1: Payload, d2: Payload)
    returns (r1: Result, r2: Result, ghost log: seq<Invocation>)
    ensures r1 == HandlerReturned(h2, d1) && r2 == HandlerReturned(h2, d2)
    ensures log == [Invocation(h2, d1), Invocation(h2, d2)]
  {
    var c := new SignalConn();
    c.On(t, h1);
    c.On(t, h2);
    r1 := c.HandleMessage(Envelope(t, None, d1, None), []);
    r2 := c.HandleMessage(Envelope(t, None, d2, None), []);
    log := c.log;
  }

  /** An error frame throws even though a `once` handler waits for its type,
      and the handler stays armed for the next frame. */
  method ErrorKeepsHandler(t: string, h: HandlerId, d: Payload, text: string)
    returns (r1: Result, r2: Result)
    ensures r1 == Threw(Envelope(t, Some(Error), Text(text), None))
    ensures r2 == Undefined
  {
    var c := new SignalConn();
    c.Once(t, h);
    r1 := c.HandleMessage(Envelope(t, Some(Error), Text(text), None), []);
    r2 := c.HandleMessage(Envelope(t, Some(Success), d, None), []);
  }
}
