/** The event engine of the state machines on values: how an event, with all the
    events its actions fire on the spot, leaves the state and the timers. */
module AutomatSpec {
  type State = string
  type Name = string

  /** Each timer with the states it is declared for; none means all. */
  type Timers = map<Name, set<State>>

  /** What handling an event amounts to: the state that A sets first, if any, and
      then the events fired directly, one inside the other, by its actions, by
      the hook state_changed or state_not_changed, by timers that fire as soon as
      they are started, and by the callbacks. */
  datatype Reaction = Reaction(sets: bool, target: State, actions: seq<Reaction>, hook: seq<Reaction>,
      starts: seq<TimerStart>, callbacks: seq<Reaction>)

  /** The loop that starts timers comes to this name, and the timer, if it is
      started and fires on the spot, causes these events. */
  datatype TimerStart = TimerStart(name: Name, fires: seq<Reaction>)

  /** timers names the entries of the dictionary of timers, running counts the
      looping calls that run, of each name. */
  datatype Machine = Machine(state: State, timers: set<Name>, running: multiset<Name>)

  function Declared(decl: Timers, state: State): set<Name> {
    set name | name in decl && (decl[name] == {} || state in decl[name])
  }

  function Less(running: multiset<Name>, names: set<Name>): multiset<Name> {
    running - multiset(names)
  }

  function More(running: multiset<Name>, names: set<Name>): multiset<Name> {
    running + multiset(names)
  }

  lemma OneMore(running: multiset<Name>, names: set<Name>, name: Name)
    requires name !in names
    ensures Less(running, names + {name}) == Less(running, names) - multiset{name}
    ensures More(running, names + {name}) == More(running, names) + multiset{name}
  {
    assert multiset(names + {name}) == multiset(names) + multiset{name};
  }

  lemma NoneMore(running: multiset<Name>)
    ensures Less(running, {}) == running == More(running, {})
  {
  }

  function StopTimers(m: Machine): Machine {
    m.(timers := {}, running := Less(m.running, m.timers))
  }

  /** A timer of the same name is replaced in the dictionary, but not stopped. */
  function Start(m: Machine, names: set<Name>): Machine {
    m.(timers := m.timers + names, running := More(m.running, names))
  }

  /** timerEvent passes the event on only if the state is listed. */
  predicate Fires(decl: Timers, state: State, name: Name) {
    name in decl && state in decl[name]
  }

  /** startTimers: starts lists the names in the order of the loop, down to the
      last timer that fires; the names after it are started together. */
  function StartTimers(decl: Timers, m: Machine, starts: seq<TimerStart>, seen: set<Name> := {}): Machine
    decreases starts
  {
    if starts == [] then Start(m, Declared(decl, m.state) - seen)
    else StartTimers(decl, StartOne(decl, m, starts[0], seen), starts[1..], seen + {starts[0].name})
  }

  function StartOne(decl: Timers, m: Machine, t: TimerStart, seen: set<Name>): Machine
    decreases t
  {
    if t.name in seen || t.name !in Declared(decl, m.state) then m
    else
      var n := Start(m, {t.name});
      if Fires(decl, m.state, t.name) then HandleAll(decl, n, t.fires) else n
  }

  function Set(m: Machine, r: Reaction): Machine {
    if r.sets then m.(state := r.target) else m
  }

  /** event */
  function Handle(decl: Timers, m: Machine, r: Reaction): Machine
    decreases r
  {
    var acted := HandleAll(decl, Set(m, r), r.actions);
    var settled :=
      if acted.state != m.state then StartTimers(decl, HandleAll(decl, StopTimers(acted), r.hook), r.starts)
      else HandleAll(decl, acted, r.hook);
    HandleAll(decl, settled, r.callbacks)
  }

  function HandleAll(decl: Timers, m: Machine, rs: seq<Reaction>): Machine
    decreases rs
  {
    if rs == [] then m else HandleAll(decl, Handle(decl, m, rs[0]), rs[1..])
  }

  // ----- the timers of a state

  ghost predicate InStep(decl: Timers, m: Machine) {
    m.timers == Declared(decl, m.state)
  }

  /** A nested event starts in the middle of another, when the timers need not
      fit the state. It leaves them fitting, or everything as it was. */
  lemma {:induction false} NestedTimers(decl: Timers, m: Machine, r: Reaction)
    ensures var n := Handle(decl, m, r);
      InStep(decl, n) || (n.state == m.state && n.timers == m.timers)
    decreases r
  {
    NestedTimersAll(decl, Set(m, r), r.actions);
    var acted := HandleAll(decl, Set(m, r), r.actions);
    if acted.state != m.state {
      NestedTimersAll(decl, StopTimers(acted), r.hook);
      var hooked := HandleAll(decl, StopTimers(acted), r.hook);
      StartsInStep(decl, hooked, r.starts, {});
      NestedTimersAll(decl, StartTimers(decl, hooked, r.starts), r.callbacks);
    } else {
      NestedTimersAll(decl, acted, r.hook);
      NestedTimersAll(decl, HandleAll(decl, acted, r.hook), r.callbacks);
    }
  }

  lemma {:induction false} NestedTimersAll(decl: Timers, m: Machine, rs: seq<Reaction>)
    ensures var n := HandleAll(decl, m, rs);
      InStep(decl, n) || (n.state == m.state && n.timers == m.timers)
    decreases rs
  {
    if rs != [] {
      NestedTimers(decl, m, rs[0]);
      NestedTimersAll(decl, Handle(decl, m, rs[0]), rs[1..]);
    }
  }

  /** Of the names seen, exactly those declared for the state are started. */
  ghost predicate Partly(decl: Timers, m: Machine, seen: set<Name>) {
    Declared(decl, m.state) * seen <= m.timers <= Declared(decl, m.state)
  }

  lemma {:induction false} StartsInStep(decl: Timers, m: Machine, starts: seq<TimerStart>, seen: set<Name>)
    requires Partly(decl, m, seen)
    ensures InStep(decl, StartTimers(decl, m, starts, seen))
    decreases starts
  {
    if starts != [] {
      OneInStep(decl, m, starts[0], seen);
      StartsInStep(decl, StartOne(decl, m, starts[0], seen), starts[1..], seen + {starts[0].name});
    }
  }

  lemma {:induction false} OneInStep(decl: Timers, m: Machine, t: TimerStart, seen: set<Name>)
    requires Partly(decl, m, seen)
    ensures Partly(decl, StartOne(decl, m, t, seen), seen + {t.name})
    decreases t
  {
    if t.name !in seen && t.name in Declared(decl, m.state) {
      NestedTimersAll(decl, Start(m, {t.name}), t.fires);
    }
  }

  function Created(decl: Timers, state: State, starts: seq<TimerStart>): Machine {
    StartTimers(decl, Machine(state, {}, multiset{}), starts)
  }

  /** After any sequence of outermost events, each with events nested in it to
      any depth, the timers are exactly those declared for the state. */
  lemma TimersInStep(decl: Timers, state: State, starts: seq<TimerStart>, rs: seq<Reaction>)
    ensures InStep(decl, HandleAll(decl, Created(decl, state, starts), rs))
  {
    StartsInStep(decl, Machine(state, {}, multiset{}), starts, {});
    NestedTimersAll(decl, Created(decl, state, starts), rs);
  }

  // ----- looping calls that nobody stops

  /** How many looping calls of a name run beside the one in the dictionary. */
  function Excess(m: Machine, name: Name): int {
    var all: int := m.running[name];
    if name in m.timers then all - 1 else all
  }

  /** Exactly the timers in the dictionary run, each once. */
  ghost predicate Clean(m: Machine) {
    forall name :: Excess(m, name) == 0
  }

  /** Whenever a timer is started, none of its name is in the dictionary. */
  ghost predicate Calm(decl: Timers, m: Machine, r: Reaction)
    decreases r
  {
    var acted := HandleAll(decl, Set(m, r), r.actions);
    AllCalm(decl, Set(m, r), r.actions) &&
    if acted.state != m.state then
      var hooked := HandleAll(decl, StopTimers(acted), r.hook);
      AllCalm(decl, StopTimers(acted), r.hook) && StartsCalm(decl, hooked, r.starts, {})
        && AllCalm(decl, StartTimers(decl, hooked, r.starts), r.callbacks)
    else
      AllCalm(decl, acted, r.hook) && AllCalm(decl, HandleAll(decl, acted, r.hook), r.callbacks)
  }

  ghost predicate AllCalm(decl: Timers, m: Machine, rs: seq<Reaction>)
    decreases rs
  {
    rs == [] || (Calm(decl, m, rs[0]) && AllCalm(decl, Handle(decl, m, rs[0]), rs[1..]))
  }

  ghost predicate StartsCalm(decl: Timers, m: Machine, starts: seq<TimerStart>, seen: set<Name>)
    decreases starts
  {
    if starts == [] then m.timers !! (Declared(decl, m.state) - seen)
    else
      OneCalm(decl, m, starts[0], seen)
        && StartsCalm(decl, StartOne(decl, m, starts[0], seen), starts[1..], seen + {starts[0].name})
  }

  ghost predicate OneCalm(decl: Timers, m: Machine, t: TimerStart, seen: set<Name>)
    decreases t
  {
    t.name in seen || t.name !in Declared(decl, m.state) ||
    (t.name !in m.timers && (Fires(decl, m.state, t.name) ==> AllCalm(decl, Start(m, {t.name}), t.fires)))
  }

  /** From m to n no looping call was lost from sight, if and only if calm. */
  ghost predicate Gains(m: Machine, n: Machine, calm: bool) {
    && (forall name :: Excess(n, name) >= Excess(m, name))
    && (calm <==> forall name :: Excess(n, name) == Excess(m, name))
  }

  lemma GainsTwice(m: Machine, n: Machine, o: Machine, first: bool, second: bool)
    requires Gains(m, n, first) && Gains(n, o, second)
    ensures Gains(m, o, first && second)
  {
    if !first {
      var name :| Excess(n, name) != Excess(m, name);
      assert Excess(o, name) > Excess(m, name);
    }
    if !second {
      var name :| Excess(o, name) != Excess(n, name);
      assert Excess(o, name) > Excess(m, name);
    }
  }

  lemma StopGains(m: Machine)
    requires forall name :: Excess(m, name) >= 0
    ensures Gains(m, StopTimers(m), true)
  {
  }

  /** Starting timers again that are in the dictionary loses sight of them. */
  lemma StartGains(m: Machine, names: set<Name>)
    ensures Gains(m, Start(m, names), m.timers !! names)
  {
    var n := Start(m, names);
    forall name
      ensures Excess(n, name) == Excess(m, name) + if name in m.timers && name in names then 1 else 0
    {
    }
    if name :| name in m.timers && name in names {
      assert Excess(n, name) == Excess(m, name) + 1;
    }
  }

  lemma {:induction false} StartsGain(decl: Timers, m: Machine, starts: seq<TimerStart>, seen: set<Name>)
    requires forall name :: Excess(m, name) >= 0
    ensures Gains(m, StartTimers(decl, m, starts, seen), StartsCalm(decl, m, starts, seen))
    decreases starts
  {
    hide Excess, OneCalm, StartOne, Start;
    if starts == [] {
      StartGains(m, Declared(decl, m.state) - seen);
    } else {
      var n, more := StartOne(decl, m, starts[0], seen), seen + {starts[0].name};
      OneGains(decl, m, starts[0], seen);
      StartsGain(decl, n, starts[1..], more);
      GainsTwice(m, n, StartTimers(decl, m, starts, seen), OneCalm(decl, m, starts[0], seen),
                 StartsCalm(decl, n, starts[1..], more));
    }
  }

  lemma {:induction false} OneGains(decl: Timers, m: Machine, t: TimerStart, seen: set<Name>)
    requires forall name :: Excess(m, name) >= 0
    ensures Gains(m, StartOne(decl, m, t, seen), OneCalm(decl, m, t, seen))
    decreases t
  {
    hide Excess, Start;
    if t.name !in seen && t.name in Declared(decl, m.state) {
      var n := Start(m, {t.name});
      StartGains(m, {t.name});
      if Fires(decl, m.state, t.name) {
        HandleAllGains(decl, n, t.fires);
        GainsTwice(m, n, HandleAll(decl, n, t.fires), t.name !in m.timers, AllCalm(decl, n, t.fires));
      }
    } else {
      GainsNothing(m);
    }
  }

  lemma GainsNothing(m: Machine)
    ensures Gains(m, m, true)
  {
  }

  lemma {:induction false} HandleGains(decl: Timers, m: Machine, r: Reaction)
    requires forall name :: Excess(m, name) >= 0
    ensures Gains(m, Handle(decl, m, r), Calm(decl, m, r))
    decreases r
  {
    hide Excess, StopTimers, StartTimers, StartsCalm, InStep, HandleAll, AllCalm, Gains;
    var begun := Set(m, r);
    SetGains(m, r);
    HandleAllGains(decl, begun, r.actions);
    var acted, calm := HandleAll(decl, begun, r.actions), AllCalm(decl, begun, r.actions);
    GainsTwice(m, begun, acted, true, calm);
    if acted.state != m.state {
      var stopped := StopTimers(acted);
      StopGains(acted);
      GainsTwice(m, acted, stopped, calm, true);
      HandleAllGains(decl, stopped, r.hook);
      var hooked := HandleAll(decl, stopped, r.hook);
      GainsTwice(m, stopped, hooked, calm, AllCalm(decl, stopped, r.hook));
      calm := calm && AllCalm(decl, stopped, r.hook);
      var started := StartTimers(decl, hooked, r.starts);
      StartsGain(decl, hooked, r.starts, {});
      GainsTwice(m, hooked, started, calm, StartsCalm(decl, hooked, r.starts, {}));
      calm := calm && StartsCalm(decl, hooked, r.starts, {});
      HandleAllGains(decl, started, r.callbacks);
      GainsTwice(m, started, Handle(decl, m, r), calm, AllCalm(decl, started, r.callbacks));
    } else {
      HandleAllGains(decl, acted, r.hook);
      var hooked := HandleAll(decl, acted, r.hook);
      GainsTwice(m, acted, hooked, calm, AllCalm(decl, acted, r.hook));
      calm := calm && AllCalm(decl, acted, r.hook);
      HandleAllGains(decl, hooked, r.callbacks);
      GainsTwice(m, hooked, Handle(decl, m, r), calm, AllCalm(decl, hooked, r.callbacks));
    }
  }

  lemma SetGains(m: Machine, r: Reaction)
    ensures Gains(m, Set(m, r), true)
  {
  }

  lemma {:induction false} HandleAllGains(decl: Timers, m: Machine, rs: seq<Reaction>)
    requires forall name :: Excess(m, name) >= 0
    ensures Gains(m, HandleAll(decl, m, rs), AllCalm(decl, m, rs))
    ensures forall name :: Excess(HandleAll(decl, m, rs), name) >= 0
    decreases rs
  {
    hide Excess, Calm, Handle;
    if rs != [] {
      var n := Handle(decl, m, rs[0]);
      HandleGains(decl, m, rs[0]);
      HandleAllGains(decl, n, rs[1..]);
      GainsTwice(m, n, HandleAll(decl, m, rs), Calm(decl, m, rs[0]), AllCalm(decl, n, rs[1..]));
    }
  }

  /** In every reachable state exactly the timers declared for it run, each once,
      if and only if no timer was ever started over one of its name: neither
      after a hook, nor after a timer that fired when it was started, had moved
      the machine on to a state with that timer. */
  lemma TimersRun(decl: Timers, state: State, starts: seq<TimerStart>, rs: seq<Reaction>)
    ensures var m := HandleAll(decl, Created(decl, state, starts), rs);
      (m.running == multiset(Declared(decl, m.state))) <==>
        StartsCalm(decl, Machine(state, {}, multiset{}), starts, {}) && AllCalm(decl, Created(decl, state, starts), rs)
  {
    var first, start := Machine(state, {}, multiset{}), Created(decl, state, starts);
    var m := HandleAll(decl, start, rs);
    assert Clean(first);
    TimersInStep(decl, state, starts, rs);
    StartsGain(decl, first, starts, {});
    assert forall name :: Excess(start, name) >= Excess(first, name);
    HandleAllGains(decl, start, rs);
    GainsTwice(first, start, m, StartsCalm(decl, first, starts, {}), AllCalm(decl, start, rs));
    CleanRuns(m);
    hide Handle, HandleAll, AllCalm;
  }

  lemma CleanRuns(m: Machine)
    ensures Clean(m) <==> m.running == multiset(m.timers)
  {
    if Clean(m) {
      forall name
        ensures m.running[name] == multiset(m.timers)[name]
      {
        assert Excess(m, name) == 0;
      }
    }
    if m.running == multiset(m.timers) {
      forall name
        ensures Excess(m, name) == 0
      {
      }
    }
  }

  /** No hook and no timer that is started fires an event, at any depth. */
  ghost predicate HooksSilent(r: Reaction)
    decreases r
  {
    && r.hook == [] && AllHooksSilent(r.actions) && AllHooksSilent(r.callbacks)
    && forall t :: t in r.starts ==> t.fires == []
  }

  ghost predicate AllHooksSilent(rs: seq<Reaction>)
    decreases rs
  {
    rs == [] || (HooksSilent(rs[0]) && AllHooksSilent(rs[1..]))
  }

  /** Hooks and timers that fire nothing at once are calm. */
  lemma {:induction false} SilentCalm(decl: Timers, m: Machine, r: Reaction)
    requires HooksSilent(r)
    ensures Calm(decl, m, r)
    decreases r
  {
    var acted := HandleAll(decl, Set(m, r), r.actions);
    AllSilentCalm(decl, Set(m, r), r.actions);
    if acted.state != m.state {
      SilentStarts(decl, StopTimers(acted), r.starts, {});
      AllSilentCalm(decl, StartTimers(decl, StopTimers(acted), r.starts), r.callbacks);
    } else {
      AllSilentCalm(decl, acted, r.callbacks);
    }
  }

  lemma HandleNone(decl: Timers, m: Machine)
    ensures HandleAll(decl, m, []) == m
  {
  }

  lemma {:induction false} SilentStarts(decl: Timers, m: Machine, starts: seq<TimerStart>, seen: set<Name>)
    requires m.timers <= seen && forall t :: t in starts ==> t.fires == []
    ensures StartsCalm(decl, m, starts, seen)
    decreases starts
  {
    if starts != [] {
      assert starts[0] in starts;
      HandleNone(decl, Start(m, {starts[0].name}));
      SilentStarts(decl, StartOne(decl, m, starts[0], seen), starts[1..], seen + {starts[0].name});
    }
  }

  lemma {:induction false} AllSilentCalm(decl: Timers, m: Machine, rs: seq<Reaction>)
    requires AllHooksSilent(rs)
    ensures AllCalm(decl, m, rs)
    decreases rs
  {
    if rs != [] {
      SilentCalm(decl, m, rs[0]);
      AllSilentCalm(decl, Handle(decl, m, rs[0]), rs[1..]);
    }
  }

  /** An event that just moves to a state. */
  function Move(target: State): Reaction {
    Reaction(true, target, [], [], [], [])
  }

  /** A hook that fires an event on the spot leaves looping calls behind exactly
      if that event changes the state again, to one with timers: they are then
      started twice and only one of each is ever stopped. */
  lemma HookLeaks(decl: Timers, m: Machine, first: State, second: State)
    requires InStep(decl, m) && m.running == multiset(m.timers) && first != m.state
    ensures var n := Handle(decl, m, Reaction(true, first, [], [Move(second)], [], []));
      && n.state == second && InStep(decl, n)
      && (n.running == multiset(n.timers) <==> first == second || Declared(decl, second) == {})
      && (first != second ==> n.running == multiset(n.timers) + multiset(n.timers))
  {
    hide HandleAll, Handle;
    var r := Reaction(true, first, [], [Move(second)], [], []);
    HandleHook(decl, m, r);
    HandleOne(decl, StopTimers(Set(m, r)), Move(second));
    HandleMove(decl, StopTimers(Set(m, r)), second);
    var names := Declared(decl, second);
    assert m.running - multiset(m.timers) == multiset{};
    assert {} + names == names && names + names == names;
    var none: multiset<Name> := multiset{};
    assert none - none == none && none + multiset(names) == multiset(names);
    if names != {} {
      var x :| x in names;
      assert (multiset(names) + multiset(names))[x] == 2;
    }
  }

  /** A timer that fires as soon as it is started, and moves the machine on,
      leaves looping calls behind exactly if the new state has another timer: the
      loop goes on and starts it once more. */
  lemma InstantLeaks(decl: Timers, state: State, second: State, name: Name)
    requires Fires(decl, state, name) && second != state
    ensures var m := Created(decl, state, [TimerStart(name, [Move(second)])]);
      && m.state == second && InStep(decl, m)
      && (m.running == multiset(m.timers) <==> Declared(decl, second) <= {name})
  {
    hide HandleAll, Handle, StartTimers;
    var none := Machine(state, {}, multiset{});
    var t, first, names := TimerStart(name, [Move(second)]), Start(none, {name}), Declared(decl, second);
    HandleOne(decl, first, Move(second));
    HandleMove(decl, first, second);
    assert StopTimers(first.(state := second)) == Machine(second, {}, multiset{}) by {
      assert multiset{} + multiset({name}) - multiset({name}) == multiset{};
    }
    StartNone(decl, Machine(second, {}, multiset{}));
    StartLast(decl, none, t);
    var m := Created(decl, state, [t]);
    assert m.timers == names;
    assert m.running == multiset{} + multiset(names) + multiset(names - {name});
    StartedTwice(names, name);
  }

  lemma StartedTwice(names: set<Name>, name: Name)
    ensures multiset{} + multiset(names) + multiset(names - {name}) == multiset(names) <==> names <= {name}
  {
    if x :| x in names && x != name {
      assert (multiset(names) + multiset(names - {name}))[x] == 2;
    } else {
      assert names - {name} == {};
    }
  }

  lemma StartNone(decl: Timers, m: Machine)
    ensures StartTimers(decl, m, []) == Start(m, Declared(decl, m.state))
  {
    assert Declared(decl, m.state) - {} == Declared(decl, m.state);
  }

  lemma StartLast(decl: Timers, m: Machine, t: TimerStart)
    ensures var n := StartOne(decl, m, t, {});
      StartTimers(decl, m, [t]) == Start(n, Declared(decl, n.state) - {t.name})
  {
    assert [t][1..] == [];
    assert {} + {t.name} == {t.name};
  }

  lemma HandleOne(decl: Timers, m: Machine, r: Reaction)
    ensures HandleAll(decl, m, [r]) == Handle(decl, m, r)
  {
    assert [r][1..] == [];
  }

  lemma HandleMove(decl: Timers, m: Machine, target: State)
    ensures Handle(decl, m, Move(target)) ==
      if target != m.state then StartTimers(decl, StopTimers(m.(state := target)), []) else m
  {
  }

  lemma HandleHook(decl: Timers, m: Machine, r: Reaction)
    requires r.sets && r.target != m.state && r.actions == [] && r.callbacks == []
    ensures Handle(decl, m, r) == StartTimers(decl, HandleAll(decl, StopTimers(Set(m, r)), r.hook), r.starts)
  {
  }

  // ----- the state an event ends in

  /** No event nested in this one, at any depth, sets a state. */
  ghost predicate NoneSet(r: Reaction)
    decreases r
  {
    && AllNoneSet(r.actions) && AllNoneSet(r.hook) && AllNoneSet(r.callbacks)
    && forall t :: t in r.starts ==> AllNoneSet(t.fires)
  }

  ghost predicate AllNoneSet(rs: seq<Reaction>)
    decreases rs
  {
    forall r :: r in rs ==> !r.sets && NoneSet(r)
  }

  /** An event in which nested events set no state ends in the state that it sets
      itself, or else in the state it came in. */
  lemma {:induction false} EndsInState(decl: Timers, m: Machine, r: Reaction)
    requires NoneSet(r)
    ensures Handle(decl, m, r).state == if r.sets then r.target else m.state
    decreases r
  {
    hide StartTimers;
    var acted := HandleAll(decl, Set(m, r), r.actions);
    AllStay(decl, Set(m, r), r.actions);
    if acted.state != m.state {
      var hooked := HandleAll(decl, StopTimers(acted), r.hook);
      AllStay(decl, StopTimers(acted), r.hook);
      StartsStay(decl, hooked, r.starts, {});
      AllStay(decl, StartTimers(decl, hooked, r.starts), r.callbacks);
    } else {
      AllStay(decl, acted, r.hook);
      AllStay(decl, HandleAll(decl, acted, r.hook), r.callbacks);
    }
  }

  lemma {:induction false} AllStay(decl: Timers, m: Machine, rs: seq<Reaction>)
    requires AllNoneSet(rs)
    ensures HandleAll(decl, m, rs).state == m.state
    decreases rs
  {
    if rs != [] {
      assert rs[0] in rs;
      EndsInState(decl, m, rs[0]);
      AllStay(decl, Handle(decl, m, rs[0]), rs[1..]);
    }
  }

  lemma {:induction false} StartsStay(decl: Timers, m: Machine, starts: seq<TimerStart>, seen: set<Name>)
    requires forall t :: t in starts ==> AllNoneSet(t.fires)
    ensures StartTimers(decl, m, starts, seen).state == m.state
    decreases starts
  {
    if starts != [] {
      assert starts[0] in starts;
      OneStays(decl, m, starts[0], seen);
      StartsStay(decl, StartOne(decl, m, starts[0], seen), starts[1..], seen + {starts[0].name});
    }
  }

  lemma {:induction false} OneStays(decl: Timers, m: Machine, t: TimerStart, seen: set<Name>)
    requires AllNoneSet(t.fires)
    ensures StartOne(decl, m, t, seen).state == m.state
    decreases t
  {
    AllStay(decl, Start(m, {t.name}), t.fires);
  }

  /** Of several events in turn the last one that sets a state decides. */
  lemma {:induction false} LastSets(decl: Timers, m: Machine, rs: seq<Reaction>, k: nat)
    requires forall r :: r in rs ==> NoneSet(r)
    requires k < |rs| && rs[k].sets && forall j :: k < j < |rs| ==> !rs[j].sets
    ensures HandleAll(decl, m, rs).state == rs[k].target
    decreases rs
  {
    hide Handle, NoneSet;
    assert rs[0] in rs;
    EndsInState(decl, m, rs[0]);
    if k > 0 {
      LastSets(decl, Handle(decl, m, rs[0]), rs[1..], k - 1);
    } else {
      assert forall r :: r in rs[1..] ==> !r.sets;
      AllStay(decl, Handle(decl, m, rs[0]), rs[1..]);
    }
  }

  // ----- timers that never fire

  /** A timer runs in the states it names, and in all if it names none; but then
      it never fires its event. */
  lemma RunningFires(decl: Timers, m: Machine, name: Name)
    requires InStep(decl, m)
    ensures name in m.timers <==> name in decl && (m.state in decl[name] || decl[name] == {})
    ensures name in m.timers ==> (Fires(decl, m.state, name) <==> decl[name] != {})
  {
  }
}
