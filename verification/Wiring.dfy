// The poller's requests as the lookup worker meets them.

module Wiring {
  import opened Flows
  import T = Tracker
  import opened Reputation
  import B = Budget

  /** What the poller asks for: public addresses, with priority 0. */
  ghost predicate PlainAsks(env: T.Env, asked: seq<T.Ask>) {
    forall i :: 0 <= i < |asked| ==> asked[i].priority == 0 && !env.isPrivate(asked[i].ip)
  }

  lemma StepAsks(env: T.Env, w: T.World, e: T.Event)
    requires PlainAsks(env, w.asked)
    ensures PlainAsks(env, T.Step(env, w, e).asked)
  {
    if T.Enabled(w, e) && e.Observe? {
      var key := SessionKey(e.flow);
      var st := T.View(w, e.fw);
      if key !in st.open && e.calls > 2 {
        assert T.ApplyFlow(env, e.fw, st, e.flow, key, e.now, e.calls).asked == w.asked + T.Asks(env, e.fw, e.flow);
      } else {
        assert T.ApplyFlow(env, e.fw, st, e.flow, key, e.now, e.calls).asked == w.asked;
      }
    }
  }

  /** Over any run of polls, restarts and prunes, failing store calls included, no private address is ever asked for. */
  lemma {:induction false} RunAsks(env: T.Env, events: seq<T.Event>)
    ensures PlainAsks(env, T.Run(env, T.START, events).asked)
  {
    if events != [] {
      var n := |events| - 1;
      RunAsks(env, events[..n]);
      StepAsks(env, T.Run(env, T.START, events[..n]), events[n]);
    }
  }

  /** What one event is to ask for: the destination of a flow that starts a session, all of whose calls succeeded, if it
      is public, once and with priority 0. */
  function Owed(env: T.Env, w: T.World, e: T.Event): seq<T.Ask> {
    if T.Enabled(w, e) && e.Observe? && SessionKey(e.flow) !in w.pollers[e.fw].open && e.calls >= 3
       && !env.isPrivate(e.flow.originDst)
    then [T.Ask(e.fw, e.flow.originDst, 0)] else []
  }

  lemma StepOwes(env: T.Env, w: T.World, e: T.Event)
    ensures T.Step(env, w, e).asked == w.asked + Owed(env, w, e)
  {
    if T.Enabled(w, e) && e.Observe? {
      var key, st := SessionKey(e.flow), T.View(w, e.fw);
      var v := T.ApplyFlow(env, e.fw, st, e.flow, key, e.now, e.calls);
      assert v.asked == st.asked + Owed(env, w, e);
    }
  }

  function AllOwed(env: T.Env, events: seq<T.Event>): seq<T.Ask> {
    if events == [] then []
    else
      var n := |events| - 1;
      AllOwed(env, events[..n]) + Owed(env, T.Run(env, T.START, events[..n]), events[n])
  }

  /** Over any run, failing store calls included, the requests are exactly those: none is missing, made twice or out of
      order. */
  lemma {:induction false} RunOwes(env: T.Env, events: seq<T.Event>)
    ensures T.Run(env, T.START, events).asked == AllOwed(env, events)
  {
    if events != [] {
      var n := |events| - 1;
      RunOwes(env, events[..n]);
      StepOwes(env, T.Run(env, T.START, events[..n]), events[n]);
    }
  }

  /** The request was handed over by some poller. */
  ghost predicate FromPoller(asked: seq<T.Ask>, e: B.Event) {
    e.Consult? ==> exists i :: 0 <= i < |asked| && asked[i].ip == e.ip && asked[i].priority == e.priority
  }

  /** Poller and worker together: whatever the polls were and however the worker, the pollers' requests and the status
      reads interleaved, failed or were cut short by a stop, no address that the address test calls private was ever sent
      to the provider, and every accepted address without a verdict is queued or in hand unless it is recorded as lost. */
  lemma PrivateNeverLookedUp(env: T.Env, polls: seq<T.Event>, m: Settings, events: seq<B.Event>)
    requires forall e :: e in events ==> FromPoller(T.Run(env, T.START, polls).asked, e)
    ensures var s := B.Run(m, B.FRESH, events);
      && (forall ip :: ip in s.looked ==> !env.isPrivate(ip))
      && (forall ip :: ip in s.waiting ==> ((Queued(s.rep.queue, ip) || B.InHand(s.worker, ip)) <==> ip !in s.lost))
  {
    RunAsks(env, polls);
    var public := (ip: string) => !env.isPrivate(ip);
    forall e | e in events ensures B.Public(e, public) {
      assert FromPoller(T.Run(env, T.START, polls).asked, e);
    }
    B.FreshMeetsLaws(public);
    B.OnlyPublic(m, B.FRESH, events, public);
    B.RequestsKept(m, B.FRESH, events);
  }
}
