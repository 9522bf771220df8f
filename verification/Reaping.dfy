/** How a parent process collects its dead children. SIGCHLD coalesces into one pending bit, the handler
    drains with waitpid(2), and SIGCHLD stays blocked while the handler runs. */
module Reaping {
  import opened Text

  type Pid = p: nat | p > 0 witness 1

  datatype Place = Outside | Draining | Leaving

  /** `installed`: SIGCHLD runs the handler; otherwise it is discarded. */
  datatype Family = Family(installed: bool, live: set<Pid>, zombies: set<Pid>, pending: bool, place: Place)

  datatype Event =
    | Fork(pid: Pid)
    | Exit(pid: Pid)
    | Deliver
    | Reap(pid: Pid)
    | NoneLeft
    | Return

  function Next(f: Family, e: Event): Option<Family> {
    match e
    case Fork(pid) =>
      if f.place.Outside? && pid !in f.live + f.zombies then Some(f.(live := f.live + {pid})) else None
    case Exit(pid) =>
      if pid in f.live
      then Some(f.(live := f.live - {pid}, zombies := f.zombies + {pid}, pending := f.installed || f.pending)) else None
    case Deliver =>
      if f.place.Outside? && f.pending then Some(f.(pending := false, place := Draining)) else None
    case Reap(pid) =>
      if f.place.Draining? && pid in f.zombies then Some(f.(zombies := f.zombies - {pid})) else None
    case NoneLeft =>
      if f.place.Draining? && f.zombies == {} then Some(f.(place := Leaving)) else None
    case Return =>
      if f.place.Leaving? then Some(f.(place := Outside)) else None
  }

  function After(f: Family, events: seq<Event>): Option<Family> {
    if events == [] then Some(f)
    else match After(f, events[..|events| - 1])
         case None => None
         case Some(g) => Next(g, events[|events| - 1])
  }

  predicate Childless(f: Family) {
    f.live == {} && f.zombies == {} && !f.pending && f.place.Outside?
  }

  /** A zombie is on its way out: SIGCHLD is pending, or the handler is still draining. */
  predicate Accounted(f: Family) {
    f.zombies != {} ==> f.pending || f.place.Draining?
  }

  lemma {:induction false} ZombiesAccounted(f: Family, events: seq<Event>, g: Family)
    requires Childless(f) && f.installed && After(f, events) == Some(g)
    ensures Accounted(g) && g.installed
  {
    if events != [] {
      ZombiesAccounted(f, events[..|events| - 1], After(f, events[..|events| - 1]).value);
    }
  }

  ghost predicate Happens(f: Family, events: seq<Event>, g: Family) {
    After(f, events) == Some(g)
  }

  /** No run leaves a zombie behind exactly when the handler was installed. */
  lemma NoZombiesExactly(f: Family)
    requires Childless(f)
    ensures (forall events, g | Happens(f, events, g) :: Accounted(g)) <==> f.installed
  {
    if f.installed {
      forall events, g | Happens(f, events, g) ensures Accounted(g) {
        ZombiesAccounted(f, events, g);
      }
    } else {
      var forked := Next(f, Fork(1)).value;
      assert [Fork(1)][..0] == [] && [Fork(1), Exit(1)][..1] == [Fork(1)];
      assert After(f, []) == Some(f);
      assert After(f, [Fork(1)]) == Some(forked);
      var dead := Next(forked, Exit(1)).value;
      assert Happens(f, [Fork(1), Exit(1)], dead);
      assert 1 in dead.zombies;
    }
  }

  /** The children collected in a stretch of events. */
  function Reaped(events: seq<Event>): nat {
    if events == [] then 0
    else Reaped(events[..|events| - 1]) + if events[|events| - 1].Reap? then 1 else 0
  }

  function Entered(events: seq<Event>): nat {
    if events == [] then 0
    else Entered(events[..|events| - 1]) + if events[|events| - 1].Fork? then 1 else 0
  }

  /** Conservation: every child forked is live, a zombie, or collected exactly once. So a handler, during
      which no fork happens, collects at most the children there were when it was entered. */
  lemma {:induction false} ChildrenConserved(f: Family, events: seq<Event>, g: Family)
    requires f.live !! f.zombies && After(f, events) == Some(g)
    ensures g.live !! g.zombies
    ensures |f.live| + |f.zombies| + Entered(events) == |g.live| + |g.zombies| + Reaped(events)
  {
    if events != [] {
      var last := |events| - 1;
      var h := After(f, events[..last]).value;
      ChildrenConserved(f, events[..last], h);
      OneEvent(h, events[last], g);
    }
  }

  lemma OneMore(s: set<Pid>, pid: Pid)
    requires pid !in s
    ensures |s + {pid}| == |s| + 1
  {
  }

  lemma OneLess(s: set<Pid>, pid: Pid)
    requires pid in s
    ensures |s - {pid}| == |s| - 1
  {
  }

  lemma OneEvent(h: Family, e: Event, g: Family)
    requires h.live !! h.zombies && Next(h, e) == Some(g)
    ensures g.live !! g.zombies
    ensures |h.live| + |h.zombies| + (if e.Fork? then 1 else 0) == |g.live| + |g.zombies| + if e.Reap? then 1 else 0
  {
    match e
    case Fork(pid) =>
      OneMore(h.live, pid);
    case Exit(pid) =>
      OneLess(h.live, pid);
      OneMore(h.zombies, pid);
    case Reap(pid) =>
      OneLess(h.zombies, pid);
    case _ =>
  }

  lemma {:induction false} NoForkInside(f: Family, events: seq<Event>, g: Family)
    requires After(f, events) == Some(g) && f.place.Draining?
    requires forall i | 0 <= i < |events| :: !events[i].NoneLeft?
    ensures g.place.Draining? && Entered(events) == 0
  {
    if events != [] {
      NoForkInside(f, events[..|events| - 1], After(f, events[..|events| - 1]).value);
    }
  }

  /** The draining loop cannot go on for longer than there are children. */
  lemma DrainingEnds(f: Family, events: seq<Event>, g: Family)
    requires f.live !! f.zombies && f.place.Draining? && After(f, events) == Some(g)
    requires forall i | 0 <= i < |events| :: !events[i].NoneLeft?
    ensures Reaped(events) <= |f.live| + |f.zombies|
  {
    ChildrenConserved(f, events, g);
    NoForkInside(f, events, g);
  }

  // ----- the code ---------------------------------------------------------------------------------

  /** How configuring the dispositions turned out; main() gives up on -1 only. */
  datatype Setup = Setup(ignoreUsr1: bool, emptySet: bool, addSet: bool, setHandler: bool)

  /** When children end is not up to the parent: at moment `n` those of `ends(n)` that still live do. */
  class Parent {
    const ends: nat -> set<Pid>
    var moment: nat
    var ignoresUsr1: bool
    var family: Family
    var errno: int

    constructor (ends: nat -> set<Pid>, errno: int)
      ensures Childless(family) && !family.installed && !ignoresUsr1
      ensures this.errno == errno && this.ends == ends && moment == 0
    {
      this.ends := ends;
      moment := 0;
      ignoresUsr1 := false;
      family := Family(false, {}, {}, false, Outside);
      this.errno := errno;
    }

    /** The children whose end came between two moments. */
    ghost function EndedBetween(a: nat, b: nat): set<Pid> {
      if a >= b then {} else EndedBetween(a, b - 1) + ends(b - 1)
    }

    /** 0 means that both dispositions are set, and -1 that main() stops. 1 is returned when the signal set
        could not be built; main() goes on then, without the SIGCHLD handler. */
    method ConfigureSignalDisposition(outcome: Setup) returns (result: int)
      modifies this`ignoresUsr1, this`family
      ensures result == 0 || result == 1 || result == -1
      ensures ignoresUsr1 == (old(ignoresUsr1) || outcome.ignoreUsr1)
      ensures family == old(family).(installed := old(family).installed || result == 0)
      ensures result == 0 <==> outcome == Setup(true, true, true, true)
      ensures result == 1 <==> outcome.ignoreUsr1 && !(outcome.emptySet && outcome.addSet)
    {
      if !outcome.ignoreUsr1 {
        return -1;
      }
      ignoresUsr1 := true;
      if !outcome.emptySet {
        return 1;
      }
      if !outcome.addSet {
        return 1;
      }
      if !outcome.setHandler {
        return -1;
      }
      family := family.(installed := true);
      return 0;
    }

    /** The next moment: SIGCHLD becomes pending when a child ends. */
    method ChildrenRun()
      modifies this`family, this`moment
      ensures moment == old(moment) + 1
      ensures var f, ended := old(family), ends(old(moment)) * old(family).live;
              family == f.(live := f.live - ended, zombies := f.zombies + ended,
                           pending := f.pending || (f.installed && ended != {}))
    {
      var ending := ends(moment) * family.live;
      moment := moment + 1;
      ghost var all := ending;
      while ending != {}
        invariant moment == old(moment) + 1 && ending <= all <= old(family).live
        invariant family == old(family).(live := old(family).live - (all - ending),
                                         zombies := old(family).zombies + (all - ending),
                                         pending := old(family).pending || (old(family).installed && all != ending))
        decreases ending
      {
        var pid: Pid :| pid in ending;
        family := Next(family, Exit(pid)).value;
        ending := ending - {pid};
        assert all - ending == all - (ending + {pid}) + {pid};
      }
      assert all - {} == all;
    }

    /** waitpid(-1, NULL, WNOHANG): a zombie's pid, or 0 with live children left, or -1 without any. Children
        that have not ended by themselves are not touched. */
    method Waitpid() returns (pid: int)
      requires family.place.Draining? && family.live !! family.zombies
      modifies this`family, this`moment, this`errno
      ensures family.installed == old(family).installed && family.live !! family.zombies
      ensures moment == old(moment) + 1
      ensures var f, ended := old(family), ends(old(moment)) * old(family).live;
              && family.live == f.live - ended
              && (pid > 0 ==>
                    && pid in f.zombies + ended && family.zombies == f.zombies + ended - {pid}
                    && family.place.Draining? && errno == old(errno))
              && (pid <= 0 ==> f.zombies + ended == {} == family.zombies && family.place.Leaving?)
              && (pid == 0 ==> family.live != {} && errno == old(errno))
              && (pid < 0 ==> family.live == {})
    {
      ChildrenRun();
      if family.zombies != {} {
        var zombie: Pid :| zombie in family.zombies;
        family := Next(family, Reap(zombie)).value;
        return zombie;
      }
      family := Next(family, NoneLeft).value;
      if family.live != {} {
        return 0;
      }
      var echild: int := *;
      errno := echild;
      return -1;
    }

    /** The loop of the handler. */
    method Drain()
      requires family.installed && family.place.Draining? && family.live !! family.zombies
      modifies this`family, this`moment, this`errno
      ensures family.installed && family.place.Leaving? && family.zombies == {} && old(moment) < moment
      ensures family.live == old(family).live - EndedBetween(old(moment), moment)
    {
      var pid := Waitpid();
      assert EndedBetween(old(moment), old(moment)) == {};
      while pid > 0
        invariant family.installed && family.live !! family.zombies && old(moment) < moment
        invariant family.live == old(family).live - EndedBetween(old(moment), moment)
        invariant family.live + family.zombies <= old(family).live + old(family).zombies
        invariant pid > 0 ==> family.place.Draining?
        invariant pid <= 0 ==> family.place.Leaving? && family.zombies == {}
        decreases pid > 0, family.live + family.zombies
      {
        pid := Waitpid();
      }
    }

    /** The handler: afterwards all former zombies are collected, no zombie is left but those that ended since
        and made SIGCHLD pending again, every child that has not ended is as it was, and errno is as the
        interrupted code left it. */
    method CatchSIGCHLD()
      requires family.installed && family.pending && family.place.Outside? && family.live !! family.zombies
      modifies this`family, this`moment, this`errno
      ensures family.place.Outside? && family.installed && family.live !! family.zombies
      ensures Accounted(family) && errno == old(errno) && old(moment) < moment
      ensures family.live == old(family).live - EndedBetween(old(moment), moment)
      ensures family.zombies == ends(moment - 1) * (old(family).live - EndedBetween(old(moment), moment - 1))
    {
      var savedErrno := errno;
      family := Next(family, Deliver).value;
      Drain();
      errno := savedErrno;
      family := Next(family, Return).value;
      ChildrenRun();
    }
  }
}
