/**
 Public web flights: a slot per request, the tasks registered with it, and the gateway's fence.
 A flight is known by its invocation id; `flights` are the ids that hold a slot. Methods are the
 stretches between two awaits, so any interleaving of calls is an order of method calls.
 */
module WebFlights {
  import opened Common

  datatype Status = Succeeded | PartialSuccess | NeedsSelection | OtherOutcome

  type Id = int
  type Bearer = int
  type Task = int

  const MAX_FLIGHTS := 4
  const MAX_PER_BEARER := 2

  predicate Publishes(status: Status) { status != OtherOutcome }

  /** The slots one bearer holds. */
  function SlotsOf(flights: set<Id>, bearers: map<Id, Bearer>, b: Bearer): set<Id> {
    set i | i in flights && i in bearers && bearers[i] == b
  }

  ghost predicate WithinLimits(flights: set<Id>, bearers: map<Id, Bearer>) {
    && |flights| <= MAX_FLIGHTS
    && (forall b :: |SlotsOf(flights, bearers, b)| <= MAX_PER_BEARER)
  }

  lemma {:induction false} SubsetIsSmaller<T>(small: set<T>, big: set<T>)
    requires small <= big
    ensures |small| <= |big|
    decreases |small|
  {
    if small != {} {
      var x :| x in small;
      SubsetIsSmaller(small - {x}, big - {x});
    }
  }

  lemma FewerFlights(flights: set<Id>, fewer: set<Id>, bearers: map<Id, Bearer>)
    requires WithinLimits(flights, bearers) && fewer <= flights
    ensures WithinLimits(fewer, bearers)
  {
    SubsetIsSmaller(fewer, flights);
    forall b ensures |SlotsOf(fewer, bearers, b)| <= MAX_PER_BEARER {
      SubsetIsSmaller(SlotsOf(fewer, bearers, b), SlotsOf(flights, bearers, b));
    }
  }

  lemma OneMoreFlight(flights: set<Id>, bearers: map<Id, Bearer>, i: Id, mine: Bearer)
    requires WithinLimits(flights, bearers) && i !in flights && i !in bearers && (forall j :: j in flights ==> j in bearers)
    requires |flights| < MAX_FLIGHTS && |SlotsOf(flights, bearers, mine)| < MAX_PER_BEARER
    ensures WithinLimits(flights + {i}, bearers[i := mine])
  {
    var more, known := flights + {i}, bearers[i := mine];
    forall b ensures |SlotsOf(more, known, b)| <= MAX_PER_BEARER { OneMoreSlot(flights, bearers, i, mine, b); }
  }

  lemma OneMoreSlot(flights: set<Id>, bearers: map<Id, Bearer>, i: Id, mine: Bearer, b: Bearer)
    requires i !in flights && i !in bearers && (forall j :: j in flights ==> j in bearers)
    ensures SlotsOf(flights + {i}, bearers[i := mine], b) == SlotsOf(flights, bearers, b) + (if b == mine then {i} else {})
  {
    var known := bearers[i := mine];
    assert forall j :: j in flights ==> j in bearers && j != i && known[j] == bearers[j];
  }

  method PickOne<T(==)>(all: set<T>) returns (one: T)
    requires all != {}
    ensures one in all
  {
    one :| one in all;
  }

  /** One flight's bookkeeping: a slot holder's tasks are all its tasks, others are sealed and quiet. */
  ghost predicate FlightOk(flights: set<Id>, roots: map<Id, Task>, tasks: map<Id, set<Task>>,
                           registered: map<Id, set<Task>>, sealed: set<Id>, done: set<Task>, i: Id) {
    && i in tasks && i in registered
    && (if i in flights then tasks[i] == registered[i] else i in sealed && registered[i] <= done)
    && (if i in roots then roots[i] in registered[i] else registered[i] == {})
  }

  ghost predicate FlightsOk(flights: set<Id>, bearers: map<Id, Bearer>, roots: map<Id, Task>, tasks: map<Id, set<Task>>,
                            registered: map<Id, set<Task>>, sealed: set<Id>, done: set<Task>) {
    && (forall i :: i in flights ==> i in bearers)
    && (forall i :: i in roots ==> i in bearers)
    && (forall i :: i in bearers ==> FlightOk(flights, roots, tasks, registered, sealed, done, i))
  }

  lemma FlightsGrow(flights: set<Id>, bearers: map<Id, Bearer>, roots: map<Id, Task>, tasks: map<Id, set<Task>>,
                    registered: map<Id, set<Task>>, sealed: set<Id>, done: set<Task>, i: Id, bearer: Bearer)
    requires FlightsOk(flights, bearers, roots, tasks, registered, sealed, done) && i !in bearers
    ensures FlightsOk(flights + {i}, bearers[i := bearer], roots, tasks[i := {}], registered[i := {}], sealed, done)
  {}

  /** A task belongs to one flight. */
  ghost predicate TasksApart(registered: map<Id, set<Task>>) {
    forall i, j, t :: i in registered && j in registered && t in registered[i] && t in registered[j] ==> i == j
  }

  lemma ApartGrows(registered: map<Id, set<Task>>, i: Id)
    requires TasksApart(registered)
    ensures TasksApart(registered[i := {}])
  {}

  /** A slot whose request is sealed and whose tasks have all ended has been given back. */
  ghost predicate SlotsReturned(flights: set<Id>, roots: map<Id, Task>, registered: map<Id, set<Task>>,
                                sealed: set<Id>, done: set<Task>) {
    forall i :: i in flights && i in sealed && i in roots && i in registered ==> !(registered[i] <= done)
  }

  /** The same for all slots but one, while that one is being given back. */
  ghost predicate OthersReturned(flights: set<Id>, roots: map<Id, Task>, registered: map<Id, set<Task>>,
                                 sealed: set<Id>, done: set<Task>, but: Id) {
    forall i :: i in flights && i != but && i in sealed && i in roots && i in registered ==> !(registered[i] <= done)
  }

  /** A task's end makes at most its own flight quiet. */
  lemma TaskEnds(flights: set<Id>, bearers: map<Id, Bearer>, roots: map<Id, Task>, tasks: map<Id, set<Task>>,
                 registered: map<Id, set<Task>>, sealed: set<Id>, done: set<Task>, i: Id, t: Task)
    requires FlightsOk(flights, bearers, roots, tasks, registered, sealed, done) && TasksApart(registered)
    requires SlotsReturned(flights, roots, registered, sealed, done) && i in registered && t in registered[i]
    ensures FlightsOk(flights, bearers, roots, tasks, registered, sealed, done + {t})
    ensures OthersReturned(flights, roots, registered, sealed, done + {t}, i)
  {
    forall j | j in registered && j != i && registered[j] <= done + {t} ensures registered[j] <= done {
      assert t !in registered[j];
    }
  }

  lemma NoneMeansOthers(flights: set<Id>, roots: map<Id, Task>, registered: map<Id, set<Task>>,
                        sealed: set<Id>, done: set<Task>, but: Id)
    requires SlotsReturned(flights, roots, registered, sealed, done)
    ensures OthersReturned(flights, roots, registered, sealed, done, but)
  {}

  lemma ReturnedGrows(flights: set<Id>, roots: map<Id, Task>, registered: map<Id, set<Task>>,
                      sealed: set<Id>, done: set<Task>, i: Id)
    requires SlotsReturned(flights, roots, registered, sealed, done) && i !in roots
    ensures SlotsReturned(flights + {i}, roots, registered[i := {}], sealed, done)
  {}

  class Gateway {
    var flights: set<Id>
    var bearers: map<Id, Bearer>
    var roots: map<Id, Task>
    var tasks: map<Id, set<Task>>
    var sealed: set<Id>
    var finished: set<Id>
    var done: set<Task>
    var generation: int
    var closed: bool
    /** Every task ever registered with a flight. */
    ghost var registered: map<Id, set<Task>>

    ghost predicate Valid()
      reads this
    {
      Sound() && Apart() && NoneStuck() && (closed ==> flights <= sealed)
    }

    ghost predicate NoneStuck()
      reads this
    {
      SlotsReturned(flights, roots, registered, sealed, done)
    }

    ghost predicate NoneStuckBut(but: Id)
      reads this
    {
      OthersReturned(flights, roots, registered, sealed, done, but)
    }

    ghost predicate Apart()
      reads this
    {
      TasksApart(registered)
    }

    ghost predicate NewTask(t: Task)
      reads this
    {
      t !in done && forall j :: j in registered ==> t !in registered[j]
    }

    /** What holds even while the fence is being drawn. */
    ghost predicate Sound()
      reads this
    {
      WithinLimits(flights, bearers) && FlightsOk(flights, bearers, roots, tasks, registered, sealed, done)
    }

    /** No unfinished task of the flight is left. */
    ghost predicate Quiet(i: Id)
      requires i in registered
      reads this
    {
      registered[i] <= done
    }

    constructor ()
      ensures Valid() && flights == {} && !closed && generation == 1
    {
      flights, bearers, roots, tasks := {}, map[], map[], map[];
      sealed, finished, done := {}, {}, {};
      generation, closed, registered := 1, false, map[];
    }

    /** A request takes a slot, or is refused with nothing changed. */
    method Begin(i: Id, bearer: Bearer) returns (ok: bool)
      requires Valid() && i !in bearers
      modifies this
      ensures Valid()
      ensures ok <==>
        && !closed && |old(flights)| < 4
        && |set j | j in old(flights) && j in old(bearers) && old(bearers)[j] == bearer| < 2
      ensures flights == if ok then old(flights) + {i} else old(flights)
      ensures sealed == old(sealed) && done == old(done) && closed == old(closed) && generation == old(generation)
      ensures roots == old(roots) && finished == old(finished)
      ensures bearers == if ok then old(bearers)[i := bearer] else old(bearers)
      ensures registered == if ok then old(registered)[i := {}] else old(registered)
    {
      assert (set j | j in flights && j in bearers && bearers[j] == bearer) == SlotsOf(flights, bearers, bearer);
      hide WithinLimits, SlotsOf;
      ok := !closed && |flights| < MAX_FLIGHTS && |SlotsOf(flights, bearers, bearer)| < MAX_PER_BEARER;
      if ok { TakeSlot(i, bearer); }
    }

    method TakeSlot(i: Id, bearer: Bearer)
      requires Valid() && i !in bearers && !closed
      requires |flights| < MAX_FLIGHTS && |SlotsOf(flights, bearers, bearer)| < MAX_PER_BEARER
      modifies this`flights, this`bearers, this`tasks, this`registered
      ensures Valid() && flights == old(flights) + {i} && bearers == old(bearers)[i := bearer]
      ensures registered == old(registered)[i := {}]
    {
      OneMoreFlight(flights, bearers, i, bearer);
      FlightsGrow(flights, bearers, roots, tasks, registered, sealed, done, i, bearer);
      ApartGrows(registered, i);
      ReturnedGrows(flights, roots, registered, sealed, done, i);
      hide WithinLimits, SlotsOf, FlightOk, TasksApart, SlotsReturned;
      flights := flights + {i};
      bearers := bearers[i := bearer];
      tasks := tasks[i := {}];
      registered := registered[i := {}];
    }

    /** `_release_if_done`: the slot is freed only with nothing left running. */
    method ReleaseIfDone(i: Id)
      requires Sound() && NoneStuckBut(i) && i in bearers
      modifies this`flights, this`tasks
      ensures Sound() && NoneStuck()
      ensures flights == old(flights) || (flights == old(flights) - {i} && i in sealed && Quiet(i))
      ensures i in sealed && i in roots && Quiet(i) ==> i !in flights
      ensures i !in roots ==> flights == old(flights)
    {
      if i in sealed && i in roots && roots[i] in done && tasks[i] <= done {
        FewerFlights(flights, flights - {i}, bearers);
        flights := flights - {i};
        tasks := tasks[i := {}];
      }
    }

    /** Revokes authority at once; cancellation only asks the tasks to stop. */
    method Seal(i: Id)
      requires Sound() && NoneStuckBut(i) && i in bearers
      modifies this`sealed, this`flights, this`tasks
      ensures Sound() && NoneStuck() && sealed == old(sealed) + {i}
      ensures flights == old(flights) || (flights == old(flights) - {i} && Quiet(i))
      ensures i !in roots ==> flights == old(flights)
    {
      sealed := sealed + {i};
      ReleaseIfDone(i);
    }

    /** `fence_public_web`: closes the gateway for good and seals every flight. */
    method Fence()
      requires Valid()
      modifies this`closed, this`generation, this`sealed, this`flights, this`tasks
      ensures Valid() && closed && old(sealed) <= sealed && old(flights) <= sealed
      ensures flights <= old(flights) && forall i :: i in old(flights) - flights ==> Quiet(i)
      ensures generation == old(generation) + (if old(closed) then 0 else 1)
    {
      if !closed {
        closed := true;
        generation := generation + 1;
      }
      var left := flights;
      while left != {}
        invariant Sound() && NoneStuck() && closed && left <= old(flights) && flights <= old(flights)
        invariant generation == old(generation) + (if old(closed) then 0 else 1)
        invariant old(sealed) <= sealed && old(flights) - left <= sealed
        invariant forall i :: i in old(flights) - flights ==> Quiet(i)
        decreases |left|
      {
        var i := PickOne(left);
        left := left - {i};
        Seal(i);
      }
    }

    /** The request's own task is created and registered; it may be refused, and is then cancelled. */
    method StartRoot(i: Id, t: Task, current: bool) returns (ok: bool)
      requires Valid() && i in flights && i !in roots && NewTask(t)
      modifies this`roots, this`tasks, this`registered, this`sealed, this`flights
      ensures Valid() && flights == old(flights)
      ensures roots == old(roots)[i := t] && registered == old(registered)[i := {t}]
      ensures ok <==> i !in old(sealed) && i !in finished && !closed && current
      ensures sealed == old(sealed) + (if i in finished || closed || current then {} else {i})
    {
      hide WithinLimits;
      assert registered[i] + {t} == {t};
      roots := roots[i := t];
      tasks := tasks[i := tasks[i] + {t}];
      registered := registered[i := registered[i] + {t}];
      ok := i !in sealed && i !in finished && !closed;
      if ok && !current {
        ok := false;
        Seal(i);
      }
    }

    /** `TaskScope._spawn` under a flight: refused before creation, or registered before the caller yields. */
    method Spawn(i: Id, t: Task, before: bool, after: bool) returns (created: bool)
      requires Valid() && i in roots && NewTask(t)
      modifies this`tasks, this`registered, this`sealed, this`flights
      ensures Valid()
      ensures created <==> i !in old(sealed) && i !in finished && !closed && before
      ensures created ==> i in flights && flights == old(flights) && registered == old(registered)[i := old(registered)[i] + {t}]
      ensures created && !after ==> i in sealed
      ensures !created ==> registered == old(registered)
      ensures flights == old(flights) || (flights == old(flights) - {i} && Quiet(i))
    {
      hide WithinLimits;
      if i in sealed || i in finished || closed { return false; }
      if !before {
        Seal(i);
        return false;
      }
      tasks := tasks[i := tasks[i] + {t}];
      registered := registered[i := registered[i] + {t}];
      if !after { Seal(i); }
      return true;
    }

    /** A registered task ends; the root's end stops further spawning. */
    method TaskDone(i: Id, t: Task, failed: bool)
      requires Valid() && i in bearers && t in registered[i]
      modifies this`done, this`finished, this`sealed, this`flights, this`tasks
      ensures Valid() && done == old(done) + {t}
      ensures flights == old(flights) || (flights == old(flights) - {i} && i in sealed && Quiet(i))
      ensures finished == old(finished) + (if i in roots && roots[i] == t && !failed then {i} else {})
      ensures sealed == old(sealed) + (if i in roots && roots[i] == t && failed then {i} else {})
    {
      TaskEnds(flights, bearers, roots, tasks, registered, sealed, done, i, t);
      hide WithinLimits, FlightOk, TasksApart, SlotsReturned, OthersReturned;
      done := done + {t};
      EndOfTask(i, t, failed);
    }

    method EndOfTask(i: Id, t: Task, failed: bool)
      requires Sound() && NoneStuckBut(i) && i in bearers
      modifies this`finished, this`sealed, this`flights, this`tasks
      ensures Sound() && NoneStuck()
      ensures flights == old(flights) || (flights == old(flights) - {i} && i in sealed && Quiet(i))
      ensures finished == old(finished) + (if i in roots && roots[i] == t && !failed then {i} else {})
      ensures sealed == old(sealed) + (if i in roots && roots[i] == t && failed then {i} else {})
    {
      hide WithinLimits, FlightOk, SlotsReturned, OthersReturned;
      if i in roots && roots[i] == t {
        if failed {
          Seal(i);
          NoneMeansOthers(flights, roots, registered, sealed, done, i);
        } else {
          finished := finished + {i};
        }
      }
      ReleaseIfDone(i);
    }

    /** `_require_web_publication`, the gateway's own part. */
    predicate MayPublish(i: Id, issuedIn: int, active: bool)
      reads this
    {
      !closed && generation == issuedIn && (active ==> i !in sealed)
    }

    /** Seals the flight; one whose task was never created gives its slot back here. */
    method EndFlight(i: Id)
      requires Valid() && i in bearers
      modifies this`sealed, this`flights, this`tasks
      ensures Valid() && sealed == old(sealed) + {i}
      ensures flights == old(flights) || (flights == old(flights) - {i} && Quiet(i))
      ensures i !in roots ==> i !in flights
    {
      hide WithinLimits;
      Seal(i);
      if i !in roots {
        FewerFlights(flights, flights - {i}, bearers);
        flights := flights - {i};
      }
    }

    /** The end of `invoke_public_web`; a cleanup hook run by sealing may itself draw the fence. */
    method Finish(i: Id, outcome: Option<Status>, issuedIn: int, current: bool, hookFences: bool, stillCurrent: bool)
      returns (r: Status)
      requires Valid() && i in bearers
      modifies this`sealed, this`flights, this`tasks, this`closed, this`generation
      ensures Valid() && i in sealed
      ensures r in {Succeeded, PartialSuccess, NeedsSelection} ==> outcome == Some(r) && !old(closed) && !closed && issuedIn == generation && i !in old(sealed)
      ensures r in {Succeeded, PartialSuccess, NeedsSelection} <==>
        && outcome.Some? && outcome.value in {Succeeded, PartialSuccess, NeedsSelection} && current && !hookFences && stillCurrent
        && !old(closed) && old(generation) == issuedIn && i !in old(sealed)
      ensures closed <==> old(closed) || hookFences
      ensures flights <= old(flights) && forall j :: j in old(flights) - flights ==> Quiet(j)
    {
      hide WithinLimits;
      r := OtherOutcome;
      if outcome.Some? && (!Publishes(outcome.value) || (MayPublish(i, issuedIn, true) && current)) { r := outcome.value; }
      EndFlight(i);
      if hookFences { Fence(); }
      if Publishes(r) && !(MayPublish(i, issuedIn, false) && stillCurrent) { r := OtherOutcome; }
    }
  }

  /** What the gateway's state promises at any moment between two method calls. */
  lemma SlotsBounded(g: Gateway, b: Bearer, i: Id)
    requires g.Valid() && i in g.bearers
    ensures |g.flights| <= 4 && |set j | j in g.flights && j in g.bearers && g.bearers[j] == b| <= 2
    ensures i !in g.flights ==> g.Quiet(i) && i in g.sealed
    ensures i in g.roots ==> (i !in g.flights <==> g.Quiet(i) && i in g.sealed)
    ensures g.closed ==> forall j, issuedIn, active :: !g.MayPublish(j, issuedIn, active)
  {
    assert (set j | j in g.flights && j in g.bearers && g.bearers[j] == b) == SlotsOf(g.flights, g.bearers, b);
  }
}
