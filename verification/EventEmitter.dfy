/**
 `Event`: listeners are kept in an array that `add` extends in place and a removal replaces by a
 filtered copy, while an emission walks the array it started with.
 */
module EventEmitter {
  import opened Util

  datatype Listener = Listener(id: nat, once: bool)

  /**
   What the callbacks of one emission do, in the order in which they are called: each callback has
   the script of its turn, and those beyond the last script do nothing.  A callback that throws is
   one whose script ends there: `emit` catches the exception and goes on.
   */
  datatype Scripts = End | Turn(script: Script, rest: Scripts)
  datatype Script = Done | Do(action: Action, next: Script)
  datatype Action = Add(once: bool) | Remove(id: nat) | RemoveAll | Emit(scripts: Scripts)

  datatype State = State(
    arrays: seq<seq<Listener>>,  // every array that was ever `_stack`
    current: nat,                // which of them is `_stack`
    eventIndex: nat,
    calls: seq<Listener>)        // the callbacks called, in order

  ghost predicate Valid(s: State)
  {
    && s.current < |s.arrays|
    && (forall a :: 0 <= a < |s.arrays| ==> Distinct(s.arrays[a]))
    && (forall a, l :: 0 <= a < |s.arrays| && l in s.arrays[a] ==> l.id < s.eventIndex)
    && (forall l :: l in s.calls ==> l.id < s.eventIndex)
  }

  ghost predicate Distinct(ls: seq<Listener>)
  {
    forall i, j :: 0 <= i < j < |ls| ==> ls[i].id != ls[j].id
  }

  /** No array is lost or shortened, what was added to it is new, and no id is used again. */
  ghost predicate Extends(t: State, s: State)
  {
    && |s.arrays| <= |t.arrays|
    && (forall a :: 0 <= a < |s.arrays| ==> s.arrays[a] <= t.arrays[a])
    && (forall a, k :: 0 <= a < |s.arrays| && |s.arrays[a]| <= k < |t.arrays[a]| ==> t.arrays[a][k].id >= s.eventIndex)
    && s.eventIndex <= t.eventIndex
    && s.calls <= t.calls
  }

  function Without(ls: seq<Listener>, id: nat): seq<Listener>
  {
    if ls == [] then []
    else if ls[0].id == id then Without(ls[1..], id)
    else [ls[0]] + Without(ls[1..], id)
  }

  function AddListener(s: State, once: bool): State
    requires s.current < |s.arrays|
  {
    s.(arrays := s.arrays[s.current := s.arrays[s.current] + [Listener(s.eventIndex, once)]],
       eventIndex := s.eventIndex + 1)
  }

  /** `_stack` becomes a new array. */
  function Replace(s: State, ls: seq<Listener>): State
  {
    s.(arrays := s.arrays + [ls], current := |s.arrays|)
  }

  function RemoveListener(s: State, id: nat): State
    requires s.current < |s.arrays|
  {
    Replace(s, Without(s.arrays[s.current], id))
  }

  lemma {:induction false} WithoutIs(ls: seq<Listener>, id: nat)
    ensures forall l :: l in Without(ls, id) <==> l in ls && l.id != id
  {
    if ls != [] {
      WithoutIs(ls[1..], id);
      assert ls == [ls[0]] + ls[1..];
    }
  }

  lemma {:induction false} WithoutDistinct(ls: seq<Listener>, id: nat)
    requires Distinct(ls)
    ensures Distinct(Without(ls, id))
  {
    if ls != [] {
      var rest := Without(ls[1..], id);
      WithoutDistinct(ls[1..], id);
      WithoutIs(ls[1..], id);
      forall j | 0 <= j < |rest|
        ensures rest[j].id != ls[0].id
      {
        assert rest[j] in rest;
      }
      DistinctCons(ls[0], rest);
    }
  }

  lemma DistinctCons(l: Listener, rest: seq<Listener>)
    requires Distinct(rest) && forall j :: 0 <= j < |rest| ==> rest[j].id != l.id
    ensures Distinct([l] + rest)
  {
  }

  lemma ReplaceValid(s: State, ls: seq<Listener>)
    requires Valid(s) && Distinct(ls) && forall l :: l in ls ==> l.id < s.eventIndex
    ensures Valid(Replace(s, ls)) && Extends(Replace(s, ls), s)
  {
  }

  lemma RemoveValid(s: State, id: nat)
    requires Valid(s)
    ensures Valid(RemoveListener(s, id)) && Extends(RemoveListener(s, id), s)
  {
    WithoutDistinct(s.arrays[s.current], id);
    WithoutIs(s.arrays[s.current], id);
    ReplaceValid(s, Without(s.arrays[s.current], id));
  }

  lemma AddValid(s: State, once: bool)
    requires Valid(s)
    ensures Valid(AddListener(s, once)) && Extends(AddListener(s, once), s)
  {
  }

  /** The call of one listener, before its script: a `once` listener first removes itself. */
  function Call(s: State, l: Listener): State
    requires s.current < |s.arrays|
  {
    var s := s.(calls := s.calls + [l]);
    if l.once then RemoveListener(s, l.id) else s
  }

  lemma CallValid(s: State, l: Listener)
    requires Valid(s) && l.id < s.eventIndex
    ensures Valid(Call(s, l)) && Extends(Call(s, l), s)
  {
    var s' := s.(calls := s.calls + [l]);
    RemoveValid(s', l.id);
  }

  /** `emit` */
  ghost function EmitStep(s: State, scripts: Scripts): (t: State)
    requires Valid(s)
    ensures Valid(t) && Extends(t, s)
    decreases scripts, 1, 0
  {
    Walk(s, s.current, 0, scripts)
  }

  /** The loop of `emit`, from the listener at `i` of the array it walks. */
  ghost function Walk(s: State, at: nat, i: nat, scripts: Scripts): (t: State)
    requires Valid(s) && at < |s.arrays| && i <= |s.arrays[at]|
    ensures Valid(t) && Extends(t, s)
    decreases scripts, 0, |s.arrays[at]| - i
  {
    if i == |s.arrays[at]| then s else
    var l := s.arrays[at][i];
    CallValid(s, l);
    var s1 := Call(s, l);
    match scripts
    case End =>
      assert s1.arrays[at] == s.arrays[at];
      Walk(s1, at, i + 1, End)
    case Turn(script, rest) => Walk(Perform(s1, script), at, i + 1, rest)
  }

  ghost function Perform(s: State, script: Script): (t: State)
    requires Valid(s)
    ensures Valid(t) && Extends(t, s)
    decreases script, 2, 0
  {
    match script
    case Done => s
    case Do(action, next) => Perform(Act(s, action), next)
  }

  ghost function Act(s: State, action: Action): (t: State)
    requires Valid(s)
    ensures Valid(t) && Extends(t, s)
    decreases action, 2, 0
  {
    match action
    case Add(once) => AddValid(s, once); AddListener(s, once)
    case Remove(id) => RemoveValid(s, id); RemoveListener(s, id)
    case RemoveAll => Replace(s, [])
    case Emit(scripts) => EmitStep(s, scripts)
  }

  lemma WalkTurn(s: State, at: nat, i: nat, scripts: Scripts)
    requires Valid(s) && at < |s.arrays| && i < |s.arrays[at]|
    ensures var s1 := Call(s, s.arrays[at][i]);
            && Valid(s1) && at < |s1.arrays| && s1.arrays[at] == s.arrays[at]
            && match scripts
               case End => Walk(s, at, i, scripts) == Walk(s1, at, i + 1, End)
               case Turn(script, rest) =>
                 var s2 := Perform(s1, script);
                 && at < |s2.arrays| && i < |s2.arrays[at]|
                 && Walk(s, at, i, scripts) == Walk(s2, at, i + 1, rest)
  {
    CallValid(s, s.arrays[at][i]);
    var s1 := Call(s, s.arrays[at][i]);
    assert s1.arrays[at] == s.arrays[at];
    if scripts.Turn? {
      assert s1.arrays[at] <= Perform(s1, scripts.script).arrays[at];
    }
  }

  // ---- Whom an emission calls -------------------------------------------------------------

  /** The listeners that the walk itself calls, leaving out what nested emissions call. */
  ghost function Visited(s: State, at: nat, i: nat, scripts: Scripts): seq<Listener>
    requires Valid(s) && at < |s.arrays| && i <= |s.arrays[at]|
    decreases scripts, 0, |s.arrays[at]| - i
  {
    if i == |s.arrays[at]| then [] else
    var l := s.arrays[at][i];
    CallValid(s, l);
    var s1 := Call(s, l);
    [l] + match scripts
          case End =>
            assert s1.arrays[at] == s.arrays[at];
            Visited(s1, at, i + 1, End)
          case Turn(script, rest) => Visited(Perform(s1, script), at, i + 1, rest)
  }

  lemma VisitedTurn(s: State, at: nat, i: nat, scripts: Scripts)
    requires Valid(s) && at < |s.arrays| && i < |s.arrays[at]|
    ensures var s1 := Call(s, s.arrays[at][i]);
            && Valid(s1) && at < |s1.arrays| && s1.arrays[at] == s.arrays[at]
            && match scripts
               case End => Visited(s, at, i, scripts) == [s.arrays[at][i]] + Visited(s1, at, i + 1, End)
               case Turn(script, rest) =>
                 var s2 := Perform(s1, script);
                 && at < |s2.arrays| && i < |s2.arrays[at]|
                 && Visited(s, at, i, scripts) == [s.arrays[at][i]] + Visited(s2, at, i + 1, rest)
  {
    WalkTurn(s, at, i, scripts);
    var s1 := Call(s, s.arrays[at][i]);
    match scripts
    case End =>
    case Turn(script, rest) => assert at < |Perform(s1, script).arrays|;
  }

  lemma {:induction false} VisitsWholeArray(s: State, at: nat, i: nat, scripts: Scripts)
    requires Valid(s) && at < |s.arrays| && i <= |s.arrays[at]|
    ensures Visited(s, at, i, scripts) == Walk(s, at, i, scripts).arrays[at][i..]
    decreases scripts, 0, |s.arrays[at]| - i
  {
    if i < |s.arrays[at]| {
      var l := s.arrays[at][i];
      var s1 := Call(s, l);
      WalkTurn(s, at, i, scripts);
      VisitedTurn(s, at, i, scripts);
      match scripts {
        case End => VisitsWholeArray(s1, at, i + 1, End);
        case Turn(script, rest) => VisitsWholeArray(Perform(s1, script), at, i + 1, rest);
      }
      HeadOfSuffix(Walk(s, at, i, scripts).arrays[at], s.arrays[at], i);
    }
  }

  lemma HeadOfSuffix(ls: seq<Listener>, prefix: seq<Listener>, i: nat)
    requires prefix <= ls && i < |prefix|
    ensures ls[i..] == [prefix[i]] + ls[i + 1..]
  {
  }

  /**
   Every listener present when an emission starts is called by it exactly once, in registration
   order and before any other, whatever the callbacks add, remove, emit or throw.
   */
  lemma CallsEveryListenerOnce(s: State, scripts: Scripts)
    requires Valid(s)
    ensures s.arrays[s.current] <= Visited(s, s.current, 0, scripts)
    ensures Distinct(Visited(s, s.current, 0, scripts))
    ensures forall l :: l in s.arrays[s.current] ==> Count(Visited(s, s.current, 0, scripts), l) == 1
  {
    VisitsWholeArray(s, s.current, 0, scripts);
    var walked := EmitStep(s, scripts).arrays[s.current];
    assert walked[0..] == walked;
    forall l | l in s.arrays[s.current]
      ensures Count(walked, l) == 1
    {
      assert l in walked;
      DistinctCount(walked, l);
    }
  }

  // ---- How often a listener is called -----------------------------------------------------

  /** The emissions among these steps, at any depth, that start while `l` is registered. */
  ghost function EmitStarts(s: State, scripts: Scripts, l: Listener): nat
    requires Valid(s)
    decreases scripts, 1, 0
  {
    (if l in s.arrays[s.current] then 1 else 0) + NestedStarts(s, s.current, 0, scripts, l)
  }

  /** Those that callbacks of the walk start. */
  ghost function NestedStarts(s: State, at: nat, i: nat, scripts: Scripts, l: Listener): nat
    requires Valid(s) && at < |s.arrays| && i <= |s.arrays[at]|
    decreases scripts, 0, |s.arrays[at]| - i
  {
    if i == |s.arrays[at]| || scripts.End? then 0 else
    WalkTurn(s, at, i, scripts);
    var s1 := Call(s, s.arrays[at][i]);
    ScriptStarts(s1, scripts.script, l) + NestedStarts(Perform(s1, scripts.script), at, i + 1, scripts.rest, l)
  }

  ghost function ScriptStarts(s: State, script: Script, l: Listener): nat
    requires Valid(s)
    decreases script, 2, 0
  {
    match script
    case Done => 0
    case Do(action, next) => ActionStarts(s, action, l) + ScriptStarts(Act(s, action), next, l)
  }

  ghost function ActionStarts(s: State, action: Action, l: Listener): nat
    requires Valid(s)
    decreases action, 2, 0
  {
    match action
    case Emit(scripts) => EmitStarts(s, scripts, l)
    case _ => 0
  }

  lemma {:induction false} EmitCount(s: State, scripts: Scripts, l: Listener)
    requires Valid(s) && l.id < s.eventIndex
    ensures Count(EmitStep(s, scripts).calls, l) == Count(s.calls, l) + EmitStarts(s, scripts, l)
    decreases scripts, 1, 0
  {
    WalkCount(s, s.current, 0, scripts, l);
    assert s.arrays[s.current][0..] == s.arrays[s.current];
  }

  lemma {:induction false} WalkCount(s: State, at: nat, i: nat, scripts: Scripts, l: Listener)
    requires Valid(s) && at < |s.arrays| && i <= |s.arrays[at]| && l.id < s.eventIndex
    ensures Count(Walk(s, at, i, scripts).calls, l)
         == Count(s.calls, l) + (if l in s.arrays[at][i..] then 1 else 0) + NestedStarts(s, at, i, scripts, l)
    decreases scripts, 0, |s.arrays[at]| - i
  {
    if i < |s.arrays[at]| {
      var called := s.arrays[at][i];
      var s1 := Call(s, called);
      WalkTurn(s, at, i, scripts);
      CallKeeps(s, called);
      CountConcat(s.calls, [called], l);
      OneOfRest(s.arrays[at], i, l);
      match scripts {
        case End =>
          WalkCount(s1, at, i + 1, End, l);
        case Turn(script, rest) =>
          var s2 := Perform(s1, script);
          ScriptCount(s1, script, l);
          OldOfRest(s1, s2, at, i + 1, l);
          WalkCount(s2, at, i + 1, rest, l);
      }
    }
  }

  lemma {:induction false} ScriptCount(s: State, script: Script, l: Listener)
    requires Valid(s) && l.id < s.eventIndex
    ensures Count(Perform(s, script).calls, l) == Count(s.calls, l) + ScriptStarts(s, script, l)
    decreases script, 2, 0
  {
    match script
    case Done =>
    case Do(action, next) =>
      if action.Emit? {
        EmitCount(s, action.scripts, l);
      }
      ScriptCount(Act(s, action), next, l);
  }

  lemma OneOfRest(ls: seq<Listener>, i: nat, l: Listener)
    requires Distinct(ls) && i < |ls|
    ensures (if l in ls[i..] then 1 else 0) == (if l == ls[i] then 1 else 0) + (if l in ls[i + 1..] then 1 else 0)
  {
    assert ls[i..] == [ls[i]] + ls[i + 1..];
  }

  /** A listener that is not new is among those left to visit if it was before. */
  lemma OldOfRest(s: State, t: State, at: nat, i: nat, l: Listener)
    requires Extends(t, s) && at < |s.arrays| && i <= |s.arrays[at]| && l.id < s.eventIndex
    ensures l in t.arrays[at][i..] <==> l in s.arrays[at][i..]
  {
    var (xs, ys) := (s.arrays[at], t.arrays[at]);
    if k :| i <= k < |ys| && ys[k] == l {
      assert k < |xs|;
      assert xs[i..][k - i] == l;
    }
    if k :| i <= k < |xs| && xs[k] == l {
      assert ys[i..][k - i] == l;
    }
  }

  /**
   An emission calls a registered listener once, and once more for every emission, at any depth,
   that a callback starts while the listener is registered.  So it is called more than once exactly
   if there is one, which for a `once` listener is so only before its turn (`NoneAfterItsTurn`).
   */
  lemma CalledOncePerStart(s: State, scripts: Scripts, l: Listener)
    requires Valid(s) && l in s.arrays[s.current]
    ensures Count(EmitStep(s, scripts).calls, l) == Count(s.calls, l) + 1 + NestedStarts(s, s.current, 0, scripts, l)
  {
    EmitCount(s, scripts, l);
  }

  /** The listener is not new and not registered. */
  ghost predicate Gone(s: State, l: Listener)
    requires Valid(s)
  {
    l.id < s.eventIndex && l !in s.arrays[s.current]
  }

  lemma CallGone(s: State, called: Listener, l: Listener)
    requires Valid(s) && called.id < s.eventIndex && l.id < s.eventIndex
    requires l !in s.arrays[s.current] || (called == l && l.once)
    ensures Valid(Call(s, called)) && Gone(Call(s, called), l)
  {
    CallValid(s, called);
    WithoutIs(s.arrays[s.current], called.id);
  }

  /** What is gone stays gone, and no emission starts while it is registered. */
  lemma {:induction false} WalkGone(s: State, at: nat, i: nat, scripts: Scripts, l: Listener)
    requires Valid(s) && at < |s.arrays| && i <= |s.arrays[at]| && Gone(s, l)
    ensures NestedStarts(s, at, i, scripts, l) == 0 && Gone(Walk(s, at, i, scripts), l)
    decreases scripts, 0, |s.arrays[at]| - i
  {
    if i < |s.arrays[at]| {
      var s1 := Call(s, s.arrays[at][i]);
      WalkTurn(s, at, i, scripts);
      CallGone(s, s.arrays[at][i], l);
      match scripts {
        case End =>
          WalkGone(s1, at, i + 1, End, l);
        case Turn(script, rest) =>
          ScriptGone(s1, script, l);
          WalkGone(Perform(s1, script), at, i + 1, rest, l);
      }
    }
  }

  lemma {:induction false} ScriptGone(s: State, script: Script, l: Listener)
    requires Valid(s) && Gone(s, l)
    ensures ScriptStarts(s, script, l) == 0 && Gone(Perform(s, script), l)
    decreases script, 2, 0
  {
    match script
    case Done =>
    case Do(action, next) =>
      ActGone(s, action, l);
      ScriptGone(Act(s, action), next, l);
  }

  lemma {:induction false} ActGone(s: State, action: Action, l: Listener)
    requires Valid(s) && Gone(s, l)
    ensures ActionStarts(s, action, l) == 0 && Gone(Act(s, action), l)
    decreases action, 2, 0
  {
    match action
    case Emit(scripts) => WalkGone(s, s.current, 0, scripts, l);
    case Remove(id) => WithoutIs(s.arrays[s.current], id);
    case _ =>
  }

  /** What is gone is never called again, whatever is done. */
  lemma {:induction false} GoneForGood(s: State, script: Script, l: Listener)
    requires Valid(s) && Gone(s, l)
    ensures Gone(Perform(s, script), l) && Count(Perform(s, script).calls, l) == Count(s.calls, l)
  {
    ScriptCount(s, script, l);
    ScriptGone(s, script, l);
  }

  /** A removed listener is not called by anything that starts after its removal. */
  lemma RemovedIsNotCalled(s: State, l: Listener, script: Script)
    requires Valid(s) && l in s.arrays[s.current]
    ensures Count(Perform(s, Do(Remove(l.id), script)).calls, l) == Count(s.calls, l)
    ensures Count(Perform(s, Do(RemoveAll, script)).calls, l) == Count(s.calls, l)
  {
    RemoveValid(s, l.id);
    WithoutIs(s.arrays[s.current], l.id);
    GoneForGood(Act(s, Remove(l.id)), script, l);
    GoneForGood(Act(s, RemoveAll), script, l);
  }

  /** From the turn of a `once` listener on, no emission starts while it is registered. */
  lemma NoneAfterItsTurn(s: State, at: nat, i: nat, scripts: Scripts)
    requires Valid(s) && at < |s.arrays| && i < |s.arrays[at]| && s.arrays[at][i].once
    ensures NestedStarts(s, at, i, scripts, s.arrays[at][i]) == 0
  {
    var l := s.arrays[at][i];
    CallGone(s, l, l);
    WalkTurn(s, at, i, scripts);
    if scripts.Turn? {
      ScriptGone(Call(s, l), scripts.script, l);
      WalkGone(Perform(Call(s, l), scripts.script), at, i + 1, scripts.rest, l);
    }
  }

  /** Without nested emissions the calls recorded are those of the listeners visited, in that order. */
  lemma {:induction false} FlatCalls(s: State, at: nat, i: nat, scripts: Scripts)
    requires Valid(s) && at < |s.arrays| && i <= |s.arrays[at]| && Flat(scripts)
    ensures Walk(s, at, i, scripts).calls == s.calls + Visited(s, at, i, scripts)
    decreases scripts, 0, |s.arrays[at]| - i
  {
    if i < |s.arrays[at]| {
      var called := s.arrays[at][i];
      var s1 := Call(s, called);
      WalkTurn(s, at, i, scripts);
      VisitedTurn(s, at, i, scripts);
      CallKeeps(s, called);
      match scripts {
        case End =>
          FlatCalls(s1, at, i + 1, End);
          FirstThenRest(s.calls, called, Visited(s1, at, i + 1, End));
        case Turn(script, rest) =>
          var s2 := Perform(s1, script);
          FlatScriptCalls(s1, script);
          FlatCalls(s2, at, i + 1, rest);
          FirstThenRest(s.calls, called, Visited(s2, at, i + 1, rest));
      }
    }
  }

  lemma FirstThenRest(calls: seq<Listener>, l: Listener, rest: seq<Listener>)
    ensures calls + [l] + rest == calls + ([l] + rest)
  {
  }

  lemma {:induction false} FlatScriptCalls(s: State, script: Script)
    requires Valid(s) && FlatScript(script)
    ensures Perform(s, script).calls == s.calls
    decreases script
  {
    match script
    case Done =>
    case Do(action, next) => FlatScriptCalls(Act(s, action), next);
  }

  /** An emission without nested ones calls the whole array it started with, in order, and then what was added to it. */
  lemma FlatEmission(s: State, scripts: Scripts)
    requires Valid(s) && Flat(scripts)
    ensures EmitStep(s, scripts).calls == s.calls + Visited(s, s.current, 0, scripts)
    ensures s.calls + s.arrays[s.current] <= EmitStep(s, scripts).calls
  {
    FlatCalls(s, s.current, 0, scripts);
    CallsEveryListenerOnce(s, scripts);
  }

  lemma {:induction false} DistinctCount(ls: seq<Listener>, l: Listener)
    requires Distinct(ls)
    ensures Count(ls, l) == if l in ls then 1 else 0
  {
    if ls != [] {
      assert ls == [ls[0]] + ls[1..];
      DistinctCount(ls[1..], l);
    }
  }

  // ---- Listeners registered with `once` ---------------------------------------------------

  predicate Flat(scripts: Scripts)
  {
    match scripts
    case End => true
    case Turn(script, rest) => FlatScript(script) && Flat(rest)
  }

  predicate FlatScript(script: Script)
  {
    match script
    case Done => true
    case Do(action, next) => !action.Emit? && FlatScript(next)
  }

  /** A `once` listener was called at most once, and not at all while it is registered. */
  ghost predicate OnceAtMostOnce(s: State)
    requires Valid(s)
  {
    forall l: Listener :: l.once ==>
      Count(s.calls, l) <= (if l in s.arrays[s.current] then 0 else 1)
  }

  /** No `once` listener that the walk has still to visit was called before. */
  ghost predicate Untouched(s: State, at: nat, i: nat)
    requires Valid(s) && at < |s.arrays|
  {
    forall j :: i <= j < |s.arrays[at]| && s.arrays[at][j].once ==> Count(s.calls, s.arrays[at][j]) == 0
  }

  lemma UncalledIfNew(s: State, l: Listener)
    requires Valid(s) && l.id >= s.eventIndex
    ensures Count(s.calls, l) == 0
  {
    CountPositive(s.calls, l);
  }

  lemma ActOnce(s: State, action: Action, at: nat, i: nat)
    requires Valid(s) && OnceAtMostOnce(s) && !action.Emit?
    requires at < |s.arrays| && i <= |s.arrays[at]| && Untouched(s, at, i)
    ensures OnceAtMostOnce(Act(s, action)) && Untouched(Act(s, action), at, i)
  {
    match action
    case Add(once) => UncalledIfNew(s, Listener(s.eventIndex, once));
    case Remove(id) => WithoutIs(s.arrays[s.current], id);
    case RemoveAll =>
  }

  lemma {:induction false} PerformOnce(s: State, script: Script, at: nat, i: nat)
    requires Valid(s) && OnceAtMostOnce(s) && FlatScript(script)
    requires at < |s.arrays| && i <= |s.arrays[at]| && Untouched(s, at, i)
    ensures OnceAtMostOnce(Perform(s, script)) && Untouched(Perform(s, script), at, i)
    decreases script
  {
    match script
    case Done =>
    case Do(action, next) =>
      ActOnce(s, action, at, i);
      PerformOnce(Act(s, action), next, at, i);
  }

  lemma CallOnce(s: State, at: nat, i: nat)
    requires Valid(s) && OnceAtMostOnce(s)
    requires at < |s.arrays| && i < |s.arrays[at]| && Untouched(s, at, i)
    ensures var s1 := Call(s, s.arrays[at][i]);
            Valid(s1) && OnceAtMostOnce(s1) && s1.arrays[at] == s.arrays[at] && Untouched(s1, at, i + 1)
  {
    var l := s.arrays[at][i];
    CallValid(s, l);
    WithoutIs(s.arrays[s.current], l.id);
    forall m: Listener
      ensures Count(s.calls + [l], m) == Count(s.calls, m) + if m == l then 1 else 0
    {
      CountConcat(s.calls, [l], m);
    }
  }

  lemma {:induction false} WalkOnce(s: State, at: nat, i: nat, scripts: Scripts)
    requires Valid(s) && OnceAtMostOnce(s) && Flat(scripts)
    requires at < |s.arrays| && i <= |s.arrays[at]| && Untouched(s, at, i)
    ensures OnceAtMostOnce(Walk(s, at, i, scripts))
    decreases scripts, |s.arrays[at]| - i
  {
    if i < |s.arrays[at]| {
      CallOnce(s, at, i);
      var s1 := Call(s, s.arrays[at][i]);
      match scripts
      case End => WalkOnce(s1, at, i + 1, End);
      case Turn(script, rest) =>
        PerformOnce(s1, script, at, i + 1);
        WalkOnce(Perform(s1, script), at, i + 1, rest);
    }
  }

  function Start(): State
  {
    State([[]], 0, 0, [])
  }

  /** No callback of an emission emits the same event. */
  predicate FlatAction(action: Action)
  {
    action.Emit? ==> Flat(action.scripts)
  }

  ghost function Run(actions: seq<Action>): (s: State)
    ensures Valid(s)
    decreases |actions|
  {
    if actions == [] then Start() else Act(Run(actions[..|actions| - 1]), actions[|actions| - 1])
  }

  /** Over runs without nested emissions a `once` callback is called at most once. */
  lemma {:induction false} OnceRunsOnce(actions: seq<Action>)
    requires forall i :: 0 <= i < |actions| ==> FlatAction(actions[i])
    ensures OnceAtMostOnce(Run(actions))
    decreases |actions|
  {
    if actions != [] {
      var before, action := actions[..|actions| - 1], actions[|actions| - 1];
      OnceRunsOnce(before);
      var s := Run(before);
      if action.Emit? {
        assert Untouched(s, s.current, 0) by {
          assert forall j :: 0 <= j < |s.arrays[s.current]| ==> s.arrays[s.current][j] in s.arrays[s.current];
        }
        WalkOnce(s, s.current, 0, action.scripts);
        assert Run(actions) == EmitStep(s, action.scripts) == Walk(s, s.current, 0, action.scripts);
      } else {
        ActOnce(s, action, s.current, |s.arrays[s.current]|);
      }
    }
  }

  // ---- What one nested emission does ------------------------------------------------------

  /** The next `n` callbacks do nothing. */
  function Idle(n: nat, scripts: Scripts): Scripts
  {
    if n == 0 then scripts else Turn(Done, Idle(n - 1, scripts))
  }

  function Persistent(ls: seq<Listener>): seq<Listener>
  {
    if ls == [] then []
    else if ls[0].once then Persistent(ls[1..])
    else [ls[0]] + Persistent(ls[1..])
  }

  /** What is left of an array when its first `i` listeners have been called. */
  function Left(ls: seq<Listener>, i: nat): seq<Listener>
    requires i <= |ls|
  {
    Persistent(ls[..i]) + ls[i..]
  }

  lemma {:induction false} PersistentSnoc(ls: seq<Listener>, l: Listener)
    ensures Persistent(ls + [l]) == Persistent(ls) + (if l.once then [] else [l])
  {
    if ls == [] {
      assert ls + [l] == [l];
    } else {
      assert (ls + [l])[1..] == ls[1..] + [l];
      PersistentSnoc(ls[1..], l);
    }
  }

  lemma {:induction false} PersistentIn(ls: seq<Listener>, l: Listener)
    ensures l in Persistent(ls) <==> l in ls && !l.once
  {
    if ls != [] {
      PersistentIn(ls[1..], l);
      assert ls == [ls[0]] + ls[1..];
    }
  }

  lemma {:induction false} WithoutAbsent(xs: seq<Listener>, id: nat)
    requires forall l :: l in xs ==> l.id != id
    ensures Without(xs, id) == xs
  {
    if xs != [] {
      assert xs == [xs[0]] + xs[1..];
      WithoutAbsent(xs[1..], id);
    }
  }

  lemma {:induction false} WithoutMiddle(xs: seq<Listener>, l: Listener, ys: seq<Listener>)
    requires forall x :: x in xs || x in ys ==> x.id != l.id
    ensures Without(xs + [l] + ys, l.id) == xs + ys
  {
    if xs == [] {
      assert xs + [l] + ys == [l] + ys && ([l] + ys)[1..] == ys && xs + ys == ys;
      WithoutAbsent(ys, l.id);
    } else {
      assert (xs + [l] + ys)[1..] == xs[1..] + [l] + ys;
      assert xs + ys == [xs[0]] + (xs[1..] + ys);
      assert forall x :: x in xs[1..] ==> x in xs;
      WithoutMiddle(xs[1..], l, ys);
    }
  }

  /** Calling the next listener leaves what should be left. */
  lemma LeftNext(ls: seq<Listener>, i: nat)
    requires Distinct(ls) && i < |ls|
    ensures Left(ls, i + 1) == if ls[i].once then Without(Left(ls, i), ls[i].id) else Left(ls, i)
  {
    var before, l, after := ls[..i], ls[i], ls[i + 1..];
    assert ls[..i + 1] == before + [l] && ls[i..] == [l] + after;
    PersistentSnoc(before, l);
    if l.once {
      forall x | x in Persistent(before) || x in after
        ensures x.id != l.id
      {
        PersistentIn(before, x);
      }
      WithoutMiddle(Persistent(before), l, after);
      assert Left(ls, i) == Persistent(before) + [l] + after;
    } else {
      assert Persistent(before) + [l] + after == Persistent(before) + ([l] + after);
    }
  }

  /** The walk over array `at`, which holds `ls`, is at `i`, and no callback has done anything yet. */
  ghost predicate Walking(s: State, at: nat, ls: seq<Listener>, i: nat)
  {
    && Valid(s) && at < |s.arrays| && s.arrays[at] == ls && i <= |ls|
    && s.arrays[s.current] == Left(ls, i)
  }

  /** Every array is still what it was. */
  ghost predicate Keeps(t: State, s: State)
  {
    |s.arrays| <= |t.arrays| && forall a :: 0 <= a < |s.arrays| ==> t.arrays[a] == s.arrays[a]
  }

  lemma CallKeeps(s: State, l: Listener)
    requires s.current < |s.arrays|
    ensures Keeps(Call(s, l), s) && Call(s, l).calls == s.calls + [l]
  {
  }

  lemma CallLeaves(s: State, at: nat, ls: seq<Listener>, i: nat)
    requires Walking(s, at, ls, i) && i < |ls|
    ensures Walking(Call(s, ls[i]), at, ls, i + 1)
  {
    CallValid(s, ls[i]);
    CallKeeps(s, ls[i]);
    LeftNext(ls, i);
  }

  lemma NextOfRest(calls: seq<Listener>, ls: seq<Listener>, i: nat)
    requires i < |ls|
    ensures calls + [ls[i]] + ls[i + 1..] == calls + ls[i..]
  {
  }

  /** A walk over callbacks that do nothing calls all of them, and changes no array in place. */
  lemma {:induction false} IdleWalk(s: State, at: nat, i: nat)
    requires Valid(s) && at < |s.arrays| && i <= |s.arrays[at]|
    ensures var t := Walk(s, at, i, End);
            t.calls == s.calls + s.arrays[at][i..] && Keeps(t, s)
    decreases |s.arrays[at]| - i
  {
    if i < |s.arrays[at]| {
      var ls := s.arrays[at];
      WalkTurn(s, at, i, End);
      CallKeeps(s, ls[i]);
      IdleWalk(Call(s, ls[i]), at, i + 1);
      NextOfRest(s.calls, ls, i);
    }
  }

  /** All calls, once the walk is over. */
  ghost function WalkCalls(s: State, at: nat, i: nat, scripts: Scripts): seq<Listener>
    requires Valid(s) && at < |s.arrays| && i <= |s.arrays[at]|
  {
    Walk(s, at, i, scripts).calls
  }

  lemma IdleTurn(s: State, at: nat, i: nat, scripts: Scripts)
    requires Valid(s) && at < |s.arrays| && i < |s.arrays[at]|
    ensures var s1 := Call(s, s.arrays[at][i]);
            && Valid(s1) && at < |s1.arrays| && i < |s1.arrays[at]|
            && WalkCalls(s, at, i, Turn(Done, scripts)) == WalkCalls(s1, at, i + 1, scripts)
  {
    WalkTurn(s, at, i, Turn(Done, scripts));
    assert Perform(Call(s, s.arrays[at][i]), Done) == Call(s, s.arrays[at][i]);
  }

  /** A listener that is not `once` stays registered while callbacks do nothing. */
  lemma {:induction false} IdleKeeps(s: State, at: nat, i: nat, l: Listener)
    requires Valid(s) && at < |s.arrays| && i <= |s.arrays[at]|
    requires l in s.arrays[s.current] && !l.once
    requires forall k :: i <= k < |s.arrays[at]| && s.arrays[at][k].once ==> s.arrays[at][k].id != l.id
    ensures var t := Walk(s, at, i, End); l in t.arrays[t.current]
    decreases |s.arrays[at]| - i
  {
    if i < |s.arrays[at]| {
      var called := s.arrays[at][i];
      WalkTurn(s, at, i, End);
      CallKeeps(s, called);
      WithoutIs(s.arrays[s.current], called.id);
      IdleKeeps(Call(s, called), at, i + 1, l);
    }
  }

  /**
   What `add` and `once` register: with callbacks that do nothing, the first of two emissions calls
   the new listener, and the second one does exactly if it is not a `once` listener.
   */
  lemma AddedIsCalled(s: State, once: bool)
    requires Valid(s)
    ensures var l := Listener(s.eventIndex, once);
            var t := EmitStep(Act(s, Add(once)), End);
            && Count(t.calls, l) == 1
            && Count(EmitStep(t, End).calls, l) == if once then 1 else 2
  {
    var l, s1 := Listener(s.eventIndex, once), Act(s, Add(once));
    AddRegisters(s, once);
    EmittedOnce(s1, l);
    var t := EmitStep(s1, End);
    if once {
      WalkOfOnce(s1, l);
      EmitCount(t, End, l);
      WalkGone(t, t.current, 0, End, l);
    } else {
      IdleKeepsIt(s1, l);
      EmittedOnce(t, l);
    }
  }

  lemma AddRegisters(s: State, once: bool)
    requires Valid(s)
    ensures var l, t := Listener(s.eventIndex, once), Act(s, Add(once));
            && l in t.arrays[t.current] && l.id < t.eventIndex && Count(t.calls, l) == 0
  {
    UncalledIfNew(s, Listener(s.eventIndex, once));
    var t := Act(s, Add(once));
    assert t.arrays[t.current] == s.arrays[s.current] + [Listener(s.eventIndex, once)];
  }

  lemma NoNesting(s: State, l: Listener)
    requires Valid(s)
    ensures NestedStarts(s, s.current, 0, End, l) == 0
  {
  }

  lemma EmittedOnce(s: State, l: Listener)
    requires Valid(s) && l in s.arrays[s.current]
    ensures Count(EmitStep(s, End).calls, l) == Count(s.calls, l) + 1
  {
    CalledOncePerStart(s, End, l);
    NoNesting(s, l);
  }

  lemma IdleKeepsIt(s: State, l: Listener)
    requires Valid(s) && l in s.arrays[s.current] && !l.once
    ensures var t := EmitStep(s, End); l in t.arrays[t.current]
  {
    var ls := s.arrays[s.current];
    var j :| 0 <= j < |ls| && ls[j] == l;
    IdleKeeps(s, s.current, 0, l);
  }

  /** An emission leaves none of its `once` listeners registered. */
  lemma WalkOfOnce(s: State, l: Listener)
    requires Valid(s) && l in s.arrays[s.current] && l.once
    ensures Gone(EmitStep(s, End), l)
  {
    var ls := s.arrays[s.current];
    var j :| 0 <= j < |ls| && ls[j] == l;
    LeavesNoOnce(s, s.current, 0, j, l);
  }

  lemma {:induction false} LeavesNoOnce(s: State, at: nat, i: nat, j: nat, l: Listener)
    requires Valid(s) && at < |s.arrays| && i <= j < |s.arrays[at]| && s.arrays[at][j] == l && l.once
    ensures Gone(Walk(s, at, i, End), l)
    decreases j - i
  {
    var called := s.arrays[at][i];
    WalkTurn(s, at, i, End);
    CallKeeps(s, called);
    if i == j {
      CallGone(s, l, l);
      WalkGone(Call(s, l), at, i + 1, End, l);
    } else {
      LeavesNoOnce(Call(s, called), at, i + 1, j, l);
    }
  }

  const NESTED: Scripts := Turn(Do(Emit(End), Done), End)

  /** The callback at `j` emits the same event, and no other callback does anything. */
  function NestedAt(j: nat): Scripts
  {
    Idle(j, NESTED)
  }

  /** The rest of the outer walk, from the call that emits. */
  lemma NestedTurn(s: State, at: nat, ls: seq<Listener>, j: nat)
    requires Walking(s, at, ls, j) && j < |ls|
    ensures WalkCalls(s, at, j, NESTED) == s.calls + Called(ls, j, j)
  {
    WalkTurn(s, at, j, NESTED);
    CallLeaves(s, at, ls, j);
    CallKeeps(s, ls[j]);
    var s1 := Call(s, ls[j]);
    var s2 := EmitStep(s1, End);
    PerformEmit(s1);
    IdleWalk(s1, s1.current, 0);
    assert s1.arrays[s1.current][0..] == Left(ls, j + 1);
    assert s2.arrays[at] == ls;
    IdleWalk(s2, at, j + 1);
    CalledLast(s.calls, ls, j);
  }

  /** What the outer walk and the nested one call from position `i` on. */
  function Called(ls: seq<Listener>, i: nat, j: nat): seq<Listener>
    requires i <= j < |ls|
  {
    ls[i..j + 1] + Left(ls, j + 1) + ls[j + 1..]
  }

  lemma CalledLast(calls: seq<Listener>, ls: seq<Listener>, j: nat)
    requires j < |ls|
    ensures calls + [ls[j]] + Left(ls, j + 1) + ls[j + 1..] == calls + Called(ls, j, j)
  {
    assert ls[j..j + 1] == [ls[j]];
  }

  lemma CalledNext(calls: seq<Listener>, ls: seq<Listener>, i: nat, j: nat)
    requires i < j < |ls|
    ensures calls + [ls[i]] + Called(ls, i + 1, j) == calls + Called(ls, i, j)
  {
    assert ls[i..j + 1] == [ls[i]] + ls[i + 1..j + 1];
  }

  lemma PerformEmit(s: State)
    requires Valid(s)
    ensures Perform(s, NESTED.script) == EmitStep(s, End)
  {
    assert Act(s, Emit(End)) == EmitStep(s, End);
  }

  /**
   Such an emission calls the listeners up to the one at `j`, then for the nested emission those
   of them that are not `once` and all after `j`, and then, as it still walks the old array, all
   after `j` again.
   */
  lemma NestedCalls(s: State, j: nat)
    requires Valid(s) && j < |s.arrays[s.current]|
    ensures EmitStep(s, NestedAt(j)).calls == s.calls + Called(s.arrays[s.current], 0, j)
  {
    EmitCalls(s, NestedAt(j));
    StartWalking(s);
    NestedWalk(s, s.current, s.arrays[s.current], j);
  }

  lemma NestedWalk(s: State, at: nat, ls: seq<Listener>, j: nat)
    requires Walking(s, at, ls, 0) && j < |ls|
    ensures WalkCalls(s, at, 0, NestedAt(j)) == s.calls + Called(ls, 0, j)
  {
    NestedFrom(s, at, ls, 0, j);
  }

  lemma EmitCalls(s: State, scripts: Scripts)
    requires Valid(s)
    ensures EmitStep(s, scripts).calls == WalkCalls(s, s.current, 0, scripts)
  {
  }

  /** The same, from position `i` of the outer walk. */
  lemma {:induction false} NestedFrom(s: State, at: nat, ls: seq<Listener>, i: nat, j: nat)
    requires Walking(s, at, ls, i) && i <= j < |ls|
    ensures WalkCalls(s, at, i, NestedAt(j - i)) == s.calls + Called(ls, i, j)
    decreases j - i
  {
    if i == j {
      NestedTurn(s, at, ls, j);
    } else {
      IdleTurn(s, at, i, NestedAt(j - i - 1));
      CallLeaves(s, at, ls, i);
      CallKeeps(s, ls[i]);
      NestedFrom(Call(s, ls[i]), at, ls, i + 1, j);
      CalledNext(s.calls, ls, i, j);
    }
  }

  lemma StartWalking(s: State)
    requires Valid(s)
    ensures Walking(s, s.current, s.arrays[s.current], 0)
  {
    assert Left(s.arrays[s.current], 0) == s.arrays[s.current];
  }

  /** It calls a `once` listener twice exactly if that comes after the one that emits, and else once. */
  lemma CalledTwiceIff(s: State, j: nat, k: nat)
    requires Valid(s) && j < |s.arrays[s.current]| && k < |s.arrays[s.current]| && s.arrays[s.current][k].once
    ensures var l := s.arrays[s.current][k];
            Count(EmitStep(s, NestedAt(j)).calls, l) == Count(s.calls, l) + if k > j then 2 else 1
  {
    var ls := s.arrays[s.current];
    var l, before, after := ls[k], ls[..j + 1], ls[j + 1..];
    NestedCalls(s, j);
    CountConcat(s.calls, before + Left(ls, j + 1) + after, l);
    CountConcat(before + Left(ls, j + 1), after, l);
    CountConcat(before, Left(ls, j + 1), l);
    CountConcat(Persistent(before), after, l);
    PersistentIn(before, l);
    CountPositive(Persistent(before), l);
    DistinctCount(before, l);
    DistinctCount(after, l);
    InPart(ls, k, j + 1);
  }

  lemma InPart(ls: seq<Listener>, k: nat, n: nat)
    requires Distinct(ls) && k < |ls| && n <= |ls|
    ensures ls[k] in ls[..n] <==> k < n
    ensures ls[k] in ls[n..] <==> k >= n
  {
    if k < n {
      assert ls[..n][k] == ls[k];
    } else {
      assert ls[n..][k - n] == ls[k];
    }
  }

  // ---- The class --------------------------------------------------------------------------

  class Event {
    var arrays: seq<seq<Listener>>
    var stack: nat
    var eventIndex: nat
    var calls: seq<Listener>

    ghost function Model(): State
      reads this
    {
      State(arrays, stack, eventIndex, calls)
    }

    constructor ()
      ensures Valid(Model()) && Model() == Start()
    {
      arrays, stack, eventIndex, calls := [[]], 0, 0, [];
    }

    method Add(once: bool)
      requires Valid(Model())
      modifies this
      ensures Valid(Model()) && Model() == AddListener(old(Model()), once)
    {
      AddValid(Model(), once);
      arrays := arrays[stack := arrays[stack] + [Listener(eventIndex, once)]];
      eventIndex := eventIndex + 1;
    }

    method Remove(id: nat)
      requires Valid(Model())
      modifies this
      ensures Valid(Model()) && Model() == RemoveListener(old(Model()), id)
    {
      RemoveValid(Model(), id);
      stack, arrays := |arrays|, arrays + [Without(arrays[stack], id)];
    }

    method RemoveAllListeners()
      requires Valid(Model())
      modifies this
      ensures Valid(Model()) && Model() == Replace(old(Model()), [])
    {
      stack, arrays := |arrays|, arrays + [[]];
    }

    method EmitEvent(scripts: Scripts)
      requires Valid(Model())
      modifies this
      ensures Valid(Model()) && Model() == EmitStep(old(Model()), scripts)
      decreases scripts, 4
    {
      var walked, i, rest := stack, 0, scripts;
      while i < |arrays[walked]|
        invariant Valid(Model()) && walked < |arrays| && i <= |arrays[walked]|
        invariant rest == scripts || rest < scripts
        invariant Walk(Model(), walked, i, rest) == Walk(old(Model()), walked, 0, scripts)
        decreases rest, |arrays[walked]| - i
      {
        rest := CallNext(walked, i, rest);
        i := i + 1;
      }
    }

    /** One turn of the loop; the result is what is left of the scripts. */
    method CallNext(walked: nat, i: nat, scripts: Scripts) returns (rest: Scripts)
      requires Valid(Model()) && walked < |arrays| && i < |arrays[walked]|
      modifies this
      ensures Valid(Model()) && walked < |arrays| && i < |arrays[walked]|
      ensures Walk(Model(), walked, i + 1, rest) == Walk(old(Model()), walked, i, scripts)
      ensures rest < scripts || (rest == scripts && arrays[walked] == old(arrays[walked]))
      decreases scripts, 3
    {
      WalkTurn(Model(), walked, i, scripts);
      CallListener(arrays[walked][i]);
      match scripts {
        case End =>
          rest := End;
        case Turn(script, more) =>
          PerformScript(script);
          rest := more;
      }
    }

    method CallListener(l: Listener)
      requires Valid(Model()) && l.id < eventIndex
      modifies this
      ensures Valid(Model()) && Model() == Call(old(Model()), l)
    {
      CallValid(Model(), l);
      calls := calls + [l];
      if l.once {
        Remove(l.id);
      }
    }

    method PerformScript(script: Script)
      requires Valid(Model())
      modifies this
      ensures Valid(Model()) && Model() == Perform(old(Model()), script)
      decreases script, 2
    {
      match script {
        case Done =>
        case Do(action, next) =>
          match action {
            case Add(once) => Add(once);
            case Remove(id) => Remove(id);
            case RemoveAll => RemoveAllListeners();
            case Emit(scripts) => EmitEvent(scripts);
          }
          PerformScript(next);
      }
    }
  }
}
