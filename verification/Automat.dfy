/** The event engine as an object: nested events change its state and its
    timers in place while the outer event is still being handled. */
module Automats {
  import opened AutomatSpec

  class Automat {
    const decl: Timers
    var state: State
    var timers: set<Name>
    var running: multiset<Name>

    ghost function Abs(): Machine
      reads this
    {
      Machine(state, timers, running)
    }

    constructor (decl: Timers, state: State, starts: seq<TimerStart>)
      ensures this.decl == decl && Abs() == Created(decl, state, starts)
    {
      this.decl, this.state := decl, state;
      timers, running := {}, multiset{};
      new;
      StartTimersNow(starts);
    }

    method Event(r: Reaction)
      modifies this
      ensures Abs() == Handle(decl, old(Abs()), r)
      decreases r
    {
      var oldState := state;
      if r.sets {
        state := r.target;
      }
      Events(r.actions);
      var newState := state;
      if oldState != newState {
        StopTimersNow();
        Events(r.hook);
        StartTimersNow(r.starts);
      } else {
        Events(r.hook);
      }
      Events(r.callbacks);
    }

    method Events(rs: seq<Reaction>)
      modifies this
      ensures Abs() == HandleAll(decl, old(Abs()), rs)
      decreases rs
    {
      if rs != [] {
        Event(rs[0]);
        Events(rs[1..]);
      }
    }

    method StopTimersNow()
      modifies `timers, `running
      ensures Abs() == StopTimers(old(Abs()))
    {
      hide Less;
      NoneMore(running);
      var items := timers;
      ghost var stopped: set<Name> := {};
      while items != {}
        invariant items !! stopped && items + stopped == old(timers)
        invariant running == Less(old(running), stopped)
        decreases items
      {
        var name :| name in items;
        OneMore(old(running), stopped, name);
        items, stopped := items - {name}, stopped + {name};
        running := running - multiset{name};
      }
      assert stopped == old(timers);
      timers := {};
    }

    /** The loop over the declared timers: first those listed, which may fire as
        soon as they are started, then the rest. */
    method StartTimersNow(starts: seq<TimerStart>)
      modifies this
      ensures Abs() == StartTimers(decl, old(Abs()), starts)
      decreases starts
    {
      hide StartOne;
      var seen: set<Name> := {};
      var k := 0;
      assert starts[0..] == starts;
      while k < |starts|
        invariant k <= |starts|
        invariant StartTimers(decl, Abs(), starts[k..], seen) == StartTimers(decl, old(Abs()), starts)
      {
        assert starts[k..][1..] == starts[k+1..];
        StartTimer(starts[k], seen);
        seen := seen + {starts[k].name};
        k := k + 1;
      }
      StartRest(seen);
    }

    method StartTimer(t: TimerStart, seen: set<Name>)
      modifies this
      ensures Abs() == StartOne(decl, old(Abs()), t, seen)
      decreases t
    {
      if t.name in seen || t.name !in decl || (decl[t.name] != {} && state !in decl[t.name]) {
        return;
      }
      timers := timers + {t.name};
      running := running + multiset{t.name};
      assert multiset({t.name}) == multiset{t.name};
      if state in decl[t.name] {
        Events(t.fires);
      }
    }

    method StartRest(seen: set<Name>)
      modifies `timers, `running
      ensures Abs() == Start(old(Abs()), Declared(decl, state) - seen)
    {
      hide More;
      NoneMore(running);
      var items := decl.Keys - seen;
      ghost var started: set<Name> := {};
      while items != {}
        invariant items !! started && started <= Declared(decl, state) - seen <= items + started
        invariant timers == old(timers) + started && running == More(old(running), started)
        invariant items <= decl.Keys - seen
        decreases items
      {
        var name :| name in items;
        items := items - {name};
        if decl[name] != {} && state !in decl[name] {
          continue;
        }
        OneMore(old(running), started, name);
        timers := timers + {name};
        running := running + multiset{name};
        started := started + {name};
      }
      assert started == Declared(decl, state) - seen;
    }
  }
}
