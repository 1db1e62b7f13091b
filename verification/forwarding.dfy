/**
 * The frame distributor the processors subscribe to, seen as an abstract
 * registry of named frame handlers with a running flag, and the
 * subscribe/unsubscribe bookkeeping (`process_video` / `stop_processing`)
 * that the toddler, fall and fusion processors share word for word.
 */
module Forwarding {

  /** A frame distributor: which handlers are registered (name to rate) and whether it runs. */
  class Forwarder {
    const fps: real
    var running: bool
    var handlers: map<string, real>

    constructor (fps: real)
      ensures this.fps == fps && !running && handlers == map[]
    {
      this.fps := fps;
      running := false;
      handlers := map[];
    }

    method Start()
      modifies this
      ensures running && handlers == old(handlers)
    {
      running := true;
    }

    method Stop()
      modifies this
      ensures !running && handlers == old(handlers)
    {
      running := false;
    }

    method AddHandler(name: string, rate: real)
      modifies this
      ensures handlers == old(handlers)[name := rate] && running == old(running)
    {
      handlers := handlers[name := rate];
    }

    method RemoveHandler(name: string)
      modifies this
      ensures handlers == old(handlers) - {name} && running == old(running)
    {
      handlers := handlers - {name};
    }
  }

  /**
   * One processor's link to a distributor: the distributor it uses, whether it
   * created (owns) that distributor, and whether its frame handler is registered.
   */
  class Subscription {
    const handlerName: string
    const forwarderFps: real
    const handlerFps: real
    var forwarder: Forwarder?
    var ownsForwarder: bool
    var handlerRegistered: bool

    /** A handler is registered exactly while a distributor is held; only a held one can be owned. */
    ghost predicate Valid()
      reads this
    {
      (forwarder != null <==> handlerRegistered) && (ownsForwarder ==> forwarder != null)
    }

    constructor (handlerName: string, forwarderFps: real, handlerFps: real)
      ensures Valid()
      ensures this.handlerName == handlerName && this.forwarderFps == forwarderFps && this.handlerFps == handlerFps
      ensures forwarder == null && !ownsForwarder && !handlerRegistered
    {
      this.handlerName := handlerName;
      this.forwarderFps := forwarderFps;
      this.handlerFps := handlerFps;
      forwarder := null;
      ownsForwarder := false;
      handlerRegistered := false;
    }

    /**
     * `process_video`: leave the previous distributor (stopping it only if owned),
     * then register on the shared one, or create, start and own a fresh one.
     */
    method Attach(shared: Forwarder?)
      requires Valid()
      modifies this, forwarder, shared
      ensures Valid() && handlerRegistered && forwarder != null
      ensures shared != null ==> forwarder == shared && !ownsForwarder
      ensures shared == null ==> fresh(forwarder) && ownsForwarder && forwarder.running
                                 && forwarder.handlers == map[handlerName := handlerFps]
      ensures shared != null ==> shared.handlers == old(shared.handlers)[handlerName := handlerFps]
      ensures shared != null ==> shared.running == (old(shared.running) && !(old(forwarder) == shared && old(ownsForwarder)))
      ensures old(forwarder) != null && old(forwarder) != shared ==>
                old(forwarder).handlers == old(forwarder.handlers) - {handlerName}
                && old(forwarder).running == (old(forwarder.running) && !old(ownsForwarder))
    {
      if forwarder != null && handlerRegistered {
        forwarder.RemoveHandler(handlerName);
        if ownsForwarder {
          forwarder.Stop();
        }
        handlerRegistered := false;
        ownsForwarder := false;
      }
      forwarder := shared;
      if forwarder == null {
        var f := new Forwarder(forwarderFps);
        f.Start();
        forwarder := f;
        ownsForwarder := true;
      }
      forwarder.AddHandler(handlerName, handlerFps);
      handlerRegistered := true;
    }

    /**
     * `stop_processing`: unregister, stop the distributor only if owned, forget it.
     * With nothing held it changes nothing, so a second call is harmless.
     */
    method Detach()
      requires Valid()
      modifies this, forwarder
      ensures Valid() && forwarder == null && !ownsForwarder && !handlerRegistered
      ensures old(forwarder) != null ==>
                old(forwarder).handlers == old(forwarder.handlers) - {handlerName}
                && old(forwarder).running == (old(forwarder.running) && !old(ownsForwarder))
      ensures old(forwarder) == null ==> unchanged(this)
    {
      if forwarder != null && handlerRegistered {
        forwarder.RemoveHandler(handlerName);
      }
      if forwarder != null && ownsForwarder {
        forwarder.Stop();
      }
      handlerRegistered := false;
      forwarder := null;
      ownsForwarder := false;
    }
  }

  /** Stopping twice: the second stop finds nothing held and leaves the distributor as the first left it. */
  method StopTwice(s: Subscription)
    requires s.Valid()
    modifies s, s.forwarder
    ensures s.forwarder == null && !s.ownsForwarder && !s.handlerRegistered
    ensures old(s.forwarder) != null ==> old(s.forwarder).handlers == old(s.forwarder.handlers) - {s.handlerName}
  {
    s.Detach();
    s.Detach();
  }
}
