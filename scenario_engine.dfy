/** The scenario condition/action engine of `CDISRoCSLoopFunctions`: its actions,
    its condition tree and the state the loop functions keep for it. */
module ScenarioEngine {
  import opened Base

  type EntityId = string

  /** The configuration node an add-entity action instantiates; its content is
      handed to the simulator unread. */
  datatype EntityTemplate = EntityTemplate(node: string)

  /** What an action does when it is executed. */
  datatype Effect =
    | AddEntity(configuration: EntityTemplate)
    | AddTimer(timerId: string)
    | Terminate

  /** `SAction` and its three variants. Conditions hold actions through shared
      pointers, so an action is an object that several condition lists and the
      pending-action store may refer to; both of its fields are fixed when it is
      built (`Delay` is declared `const`). */
  class Action {
    const delay: UInt32
    const effect: Effect

    /** `SAddEntityAction`. */
    constructor AddEntityAction(delay: UInt32, configuration: EntityTemplate)
      ensures this.delay == delay && effect == AddEntity(configuration)
    {
      this.delay := delay;
      effect := AddEntity(configuration);
    }

    /** `SAddTimerAction`. */
    constructor AddTimerAction(delay: UInt32, timerId: string)
      ensures this.delay == delay && effect == AddTimer(timerId)
    {
      this.delay := delay;
      effect := AddTimer(timerId);
    }

    /** `STerminateAction`. */
    constructor TerminateAction(delay: UInt32)
      ensures this.delay == delay && effect == Terminate
    {
      this.delay := delay;
      effect := Terminate;
    }
  }

  /** `SCondition`: the flags and the shared action list every variant has, and
      the variant's own data. */
  datatype Condition = Condition(once: bool, enabled: bool, actions: seq<Action>, kind: ConditionKind)

  /** The four variants. `AnyOf` and `AllOf` own their children (`unique_ptr`),
      so the children are values inside the parent. */
  datatype ConditionKind =
    | AnyOf(children: seq<Condition>)
    | AllOf(children: seq<Condition>)
    | EntityNear(entityId: string, entityType: string, position: Vec3, threshold: real)
    | TimerEquals(timerId: string, value: UInt32)

  /** What every `SCondition` constructor establishes. */
  predicate IsNew(c: Condition, once: bool, actions: seq<Action>) {
    c.enabled && c.once == once && c.actions == actions
  }

  /** `SAnyCondition`'s constructor. */
  function AnyCondition(once: bool, actions: seq<Action>, children: seq<Condition>): (c: Condition)
    ensures IsNew(c, once, actions)
    ensures c.kind.AnyOf? && c.kind.children == children
  {
    Condition(once, true, actions, AnyOf(children))
  }

  /** `SAllCondition`'s constructor. */
  function AllCondition(once: bool, actions: seq<Action>, children: seq<Condition>): (c: Condition)
    ensures IsNew(c, once, actions)
    ensures c.kind.AllOf? && c.kind.children == children
  {
    Condition(once, true, actions, AllOf(children))
  }

  /** `SEntityCondition`'s constructor; the threshold defaults to 0. */
  function EntityCondition(once: bool, actions: seq<Action>, entityId: string, entityType: string,
                           position: Vec3, threshold: real := 0.0): (c: Condition)
    ensures IsNew(c, once, actions)
    ensures c.kind == EntityNear(entityId, entityType, position, threshold)
  {
    Condition(once, true, actions, EntityNear(entityId, entityType, position, threshold))
  }

  /** `STimerCondition`'s constructor. */
  function TimerCondition(once: bool, actions: seq<Action>, timerId: string, value: UInt32): (c: Condition)
    ensures IsNew(c, once, actions)
    ensures c.kind == TimerEquals(timerId, value)
  {
    Condition(once, true, actions, TimerEquals(timerId, value))
  }

  /** An entity condition built without a threshold has threshold 0. */
  lemma EntityThresholdDefault(once: bool, actions: seq<Action>, id: string, ty: string, p: Vec3)
    ensures EntityCondition(once, actions, id, ty, p).kind.threshold == 0.0
  {
  }

  /** Two conditions may share one action: building both from lists that hold
      the same action object keeps that very object in both. */
  lemma SharedAction(a: Action, once1: bool, once2: bool, id: string, v: UInt32, cs: seq<Condition>)
    ensures a in TimerCondition(once1, [a], id, v).actions
    ensures a in AnyCondition(once2, [a], cs).actions
  {
  }

  /** The condition tree rooted at `c`, in pre-order. */
  function Nodes(c: Condition): (ns: seq<Condition>)
    decreases c, 1
    ensures |ns| >= 1 && ns[0] == c
  {
    match c.kind
    case AnyOf(cs) => [c] + Forest(cs)
    case AllOf(cs) => [c] + Forest(cs)
    case _ => [c]
  }

  /** The trees rooted at `cs`, in order. */
  function Forest(cs: seq<Condition>): seq<Condition>
    decreases cs, 0
  {
    if cs == [] then [] else Nodes(cs[0]) + Forest(cs[1..])
  }

  function Size(c: Condition): nat {
    |Nodes(c)|
  }

  /** Every proper descendant of a condition has a strictly smaller tree. */
  lemma {:induction false} DescendantsSmaller(c: Condition)
    ensures forall i :: 1 <= i < |Nodes(c)| ==> Size(Nodes(c)[i]) < Size(c)
    decreases c, 1
  {
    match c.kind
    case AnyOf(cs) => ForestSmaller(cs);
    case AllOf(cs) => ForestSmaller(cs);
    case _ =>
  }

  /** Every tree of a forest, and everything in it, is no larger than the forest. */
  lemma {:induction false} ForestSmaller(cs: seq<Condition>)
    ensures forall i :: 0 <= i < |Forest(cs)| ==> Size(Forest(cs)[i]) <= |Forest(cs)|
    decreases cs, 0
  {
    if cs != [] {
      var head, tail := Nodes(cs[0]), Forest(cs[1..]);
      assert Forest(cs) == head + tail;
      DescendantsSmaller(cs[0]);
      ForestSmaller(cs[1..]);
      forall i | 0 <= i < |Forest(cs)|
        ensures Size(Forest(cs)[i]) <= |Forest(cs)|
      {
        if i >= |head| {
          assert Forest(cs)[i] == tail[i - |head|];
        } else if i > 0 {
          assert Forest(cs)[i] == head[i];
        }
      }
    }
  }

  /** The condition structure is a finite tree without sharing up the tree: no
      condition occurs among its own descendants. */
  lemma NotOwnDescendant(c: Condition)
    ensures c !in Nodes(c)[1..]
  {
    DescendantsSmaller(c);
  }

  /** `m_mapPendingActions`: for every tick, the actions due at it, in the order
      they were inserted. A `std::multimap` has no key without an entry. */
  type Schedule = map<UInt32, seq<Action>>

  predicate WellFormed(s: Schedule) {
    forall t :: t in s ==> s[t] != []
  }

  /** The entries of the multimap with key `t` (its `equal_range`). */
  function Due(s: Schedule, t: UInt32): seq<Action> {
    if t in s then s[t] else []
  }

  /** `insert({t, a})`: `a` goes after the entries already at `t`. */
  function Insert(s: Schedule, t: UInt32, a: Action): (r: Schedule)
    requires WellFormed(s)
    ensures WellFormed(r)
    ensures Due(r, t) == Due(s, t) + [a]
    ensures forall u :: u != t ==> Due(r, u) == Due(s, u)
  {
    s[t := Due(s, t) + [a]]
  }

  /** `erase(t)`: every entry at `t` goes, every other entry stays. */
  function Erase(s: Schedule, t: UInt32): (r: Schedule)
    requires WellFormed(s)
    ensures WellFormed(r)
    ensures Due(r, t) == []
    ensures forall u :: u != t ==> Due(r, u) == Due(s, u)
  {
    map u | u in s && u != t :: s[u]
  }

  /** How often `a` is pending at tick `t`. */
  function Occurrences(s: Schedule, t: UInt32, a: Action): nat {
    multiset(Due(s, t))[a]
  }

  /** Inserting the same pair twice keeps two occurrences. */
  lemma InsertTwiceKeepsBoth(s: Schedule, t: UInt32, a: Action)
    requires WellFormed(s)
    ensures Occurrences(Insert(Insert(s, t, a), t, a), t, a) == Occurrences(s, t, a) + 2
  {
    assert Due(Insert(Insert(s, t, a), t, a), t) == Due(s, t) + [a] + [a];
  }

  /** Inserting at one tick does not change what is due at another. */
  lemma InsertElsewhere(s: Schedule, t: UInt32, u: UInt32, a: Action, b: Action)
    requires WellFormed(s) && t != u
    ensures Occurrences(Insert(s, t, a), u, b) == Occurrences(s, u, b)
  {
  }

  /** Actions are held by shared pointer, so one action object can be pending
      at two ticks at once, each entry referring to that very object. */
  lemma SharedActionPendingTwice(s: Schedule, t: UInt32, u: UInt32, a: Action)
    requires WellFormed(s) && t != u
    ensures var r := Insert(Insert(s, t, a), u, a);
      && Occurrences(r, t, a) == Occurrences(s, t, a) + 1
      && Occurrences(r, u, a) == Occurrences(s, u, a) + 1
  {
    InsertElsewhere(Insert(s, t, a), u, t, a, a);
    assert Due(Insert(s, t, a), t) == Due(s, t) + [a];
    assert Due(Insert(Insert(s, t, a), u, a), u) == Due(s, u) + [a];
  }

  /** `m_vecConditions`, `m_mapPendingActions`, `m_vecAddedEntities`,
      `m_mapTimers` and `m_bTerminate`. A `std::map` holds exactly one counter
      per timer name. */
  class Engine {
    var conditions: seq<Condition>
    var pending: Schedule
    var addedEntities: seq<EntityId>
    var timers: map<string, UInt32>
    var terminate: bool

    ghost predicate Valid()
      reads this
    {
      WellFormed(pending)
    }

    /** The state as the loop functions are built: everything empty and the
        terminate flag false. */
    constructor ()
      ensures Valid()
      ensures conditions == [] && pending == map[] && addedEntities == []
      ensures timers == map[] && !terminate
    {
      conditions := [];
      pending := map[];
      addedEntities := [];
      timers := map[];
      terminate := false;
    }

    /** Queue `a` to run at tick `t`. */
    method Schedule(t: UInt32, a: Action)
      requires Valid()
      modifies this`pending
      ensures Valid()
      ensures Due(pending, t) == Due(old(pending), t) + [a]
      ensures forall u :: u != t ==> Due(pending, u) == Due(old(pending), u)
    {
      pending := Insert(pending, t, a);
    }

    /** Take out every action due at tick `t`, in insertion order, leaving the
        other ticks as they were. */
    method TakeDue(t: UInt32) returns (due: seq<Action>)
      requires Valid()
      modifies this`pending
      ensures Valid()
      ensures due == Due(old(pending), t)
      ensures Due(pending, t) == []
      ensures forall u :: u != t ==> Due(pending, u) == Due(old(pending), u)
    {
      due := Due(pending, t);
      pending := Erase(pending, t);
    }
  }
}
