/** What holds of every world reachable by handling updates one at a time, in
    one chat per user: the data keys each handler reads are present, and no
    user holds two open trips. */
module Invariantes {

  import opened Viajes
  import opened Sesion
  import opened Bot

  /** User u's session has the keys its state needs, and a user in the middle
      of a flow has no open trip (the guard let them in and nothing since has
      written a record for them). */
  predicate UserOk(w: World, u: UserId)
  {
    var s := Lookup(w.sessions, u);
    KeysPresent(s) && (Collecting(s.state) ==> !HasOpenTrip(w.trips, u))
  }

  ghost predicate Inv(w: World)
  {
    AtMostOneOpen(w.trips) && forall u :: UserOk(w, u)
  }

  /** Empty session storage over a store with at most one open trip per user:
      the first start (an empty store) and every restart, which loses the
      in-memory sessions but keeps the `viajes` table. */
  lemma StartInv(stored: seq<Trip>)
    requires AtMostOneOpen(stored)
    ensures Inv(World(map[], stored))
  {
  }

  /** One update keeps the invariant, and from a world that satisfies it no
      handler reads a missing key. */
  lemma StepKeepsInv(w: World, e: Event)
    requires Inv(w)
    ensures Inv(Step(w, e).world)
    ensures Step(w, e).reply != Crashed
  {
    var u := e.sender;
    var r := Step(w, e);
    assert UserOk(w, u);
    match Route(Lookup(w.sessions, u).state, e)
    case StartHandler =>
    case NoHandler =>
    case RoleHandler =>
      forall v
        ensures UserOk(r.world, v)
      {
        assert UserOk(w, v);
      }
    case LocationHandler =>
      forall v
        ensures UserOk(r.world, v)
      {
        assert UserOk(w, v);
      }
    case DataHandler =>
      var d := Lookup(w.sessions, u).data;
      var t := Trip(u, d.rol.value, d.lat.value, d.lon.value, MessageText(e), Activo);
      assert r.world.trips == w.trips + [t];
      AppendKeepsAtMostOneOpen(w.trips, t);
      forall v
        ensures UserOk(r.world, v)
      {
        assert UserOk(w, v);
        if v != u && Collecting(Lookup(w.sessions, v).state) {
          forall i | 0 <= i < |r.world.trips|
            ensures !(r.world.trips[i].usuarioId == v && IsOpen(r.world.trips[i]))
          {
            if i < |w.trips| {
              assert r.world.trips[i] == w.trips[i];
            }
          }
        }
      }
  }

  /** Every sequence of updates keeps the invariant. */
  lemma {:induction false} RunKeepsInv(w: World, events: seq<Event>)
    requires Inv(w)
    ensures Inv(Run(w, events))
    decreases |events|
  {
    if |events| > 0 {
      var prefix := events[..|events| - 1];
      RunKeepsInv(w, prefix);
      StepKeepsInv(Run(w, prefix), events[|events| - 1]);
    }
  }

  /** Headline property: starting from empty session storage (at first start
      or after a restart) over a store with at most one open trip per user,
      after any sequence of updates handled one at a time every user still has
      at most one open trip, and every session holds the keys its state needs. */
  lemma OneOpenTripPerUser(stored: seq<Trip>, events: seq<Event>)
    requires AtMostOneOpen(stored)
    ensures AtMostOneOpen(Run(World(map[], stored), events).trips)
    ensures forall u :: KeysPresent(Lookup(Run(World(map[], stored), events).sessions, u))
  {
    StartInv(stored);
    RunKeepsInv(World(map[], stored), events);
    forall u
      ensures KeysPresent(Lookup(Run(World(map[], stored), events).sessions, u))
    {
      assert UserOk(Run(World(map[], stored), events), u);
    }
  }

  /** From empty session storage no update ever hits a missing data key. */
  lemma NeverCrashes(stored: seq<Trip>, events: seq<Event>, k: nat)
    requires AtMostOneOpen(stored)
    requires k < |events|
    ensures Step(Run(World(map[], stored), events[..k]), events[k]).reply != Crashed
  {
    StartInv(stored);
    RunKeepsInv(World(map[], stored), events[..k]);
    StepKeepsInv(Run(World(map[], stored), events[..k]), events[k]);
  }

  /** Once a user has an open trip it stays open and no further record is ever
      written for that user. */
  lemma {:induction false} OpenTripIsFinal(w: World, events: seq<Event>, u: UserId)
    requires Inv(w)
    requires HasOpenTrip(w.trips, u)
    ensures HasOpenTrip(Run(w, events).trips, u)
    ensures forall k :: |w.trips| <= k < |Run(w, events).trips| ==>
                          Run(w, events).trips[k].usuarioId != u
    decreases |events|
  {
    if |events| > 0 {
      var prefix := events[..|events| - 1];
      var e := events[|events| - 1];
      var mid := Run(w, prefix);
      OpenTripIsFinal(w, prefix, u);
      RunKeepsInv(w, prefix);
      var after := Step(mid, e).world;
      assert after == Run(w, events);
      var i :| 0 <= i < |mid.trips| && mid.trips[i].usuarioId == u && IsOpen(mid.trips[i]);
      if after.trips != mid.trips {
        assert e.sender != u by {
          assert UserOk(mid, e.sender);
        }
        assert after.trips[i] == mid.trips[i];
      }
    }
  }

  /** Handling the first i + 1 updates is handling the first i, then update i. */
  lemma RunExtends(w: World, events: seq<Event>, i: nat)
    requires i < |events|
    ensures Run(w, events[..i + 1]) == Step(Run(w, events[..i]), events[i]).world
  {
    assert events[..i + 1][..i] == events[..i];
  }

  /** The polling loop, idealised: updates are handled one at a time, in
      arrival order. The real loop runs each update as its own task, so two
      updates of one user can interleave; this method does not cover that. */
  method Serve(events: seq<Event>) returns (w: World, replies: seq<Reply>)
    ensures w == Run(Init, events)
    ensures |replies| == |events|
    ensures forall k :: 0 <= k < |events| ==>
              replies[k] == Step(Run(Init, events[..k]), events[k]).reply
    ensures forall k :: 0 <= k < |replies| ==> replies[k] != Crashed
    ensures AtMostOneOpen(w.trips)
  {
    w := Init;
    replies := [];
    StartInv([]);
    var i := 0;
    while i < |events|
      invariant 0 <= i <= |events|
      invariant w == Run(Init, events[..i])
      invariant Inv(w)
      invariant |replies| == i
      invariant forall k :: 0 <= k < i ==>
                  replies[k] == Step(Run(Init, events[..k]), events[k]).reply
      invariant forall k :: 0 <= k < i ==> replies[k] != Crashed
    {
      StepKeepsInv(w, events[i]);
      var r := Step(w, events[i]);
      RunExtends(Init, events, i);
      ghost var before := replies;
      w := r.world;
      replies := replies + [r.reply];
      forall k | 0 <= k < i + 1
        ensures replies[k] == Step(Run(Init, events[..k]), events[k]).reply
      {
        if k < i {
          assert replies[k] == before[k];
        }
      }
      i := i + 1;
    }
    assert events[..i] == events;
  }

}
