/**
 Reordering of versioned channel events.

 A version-indexed log `log` stores the event of version `v` at `log[v - 1]`.  The buffer is
 created at a snapshot version `v0` and must hand on `log[v0..]`, in order, exactly once.
 */
module JitterBuffer {
  import opened Text

  datatype Frame<E> = Frame(version: nat, event: E)

  /** The lifetime timer.  Its handle is defined in every case but `Unset`. */
  datatype Timer =
    | Unset
    | Armed(oldest: nat)  // will fire; the callback captured this frame's version
    | Recovering          // the callback awaits `onPacketLost`
    | Abandoned           // the callback ended without clearing the handle

  datatype State<E> = State(
    present: nat,
    buffer: map<nat, Frame<E>>,
    emitted: seq<E>,       // what the listeners of `onEvent` received
    timer: Timer,
    lost: bool,            // `packetLostHappened`
    recoveries: seq<nat>   // the arguments `onPacketLost` was called with
  )

  /** Everything that can happen to the buffer. */
  datatype Action<E> =
    | Push(frame: Frame<E>)
    | Fire     // the lifetime timer expires
    | Settle   // `onPacketLost` resolves
    | Reject   // `onPacketLost` rejects

  function Init<E>(v0: nat): State<E>
  {
    State(v0, map[], [], Unset, false, [])
  }

  /** The least number from `from` on that is not in `keys`. */
  function FirstGap(keys: set<nat>, from: nat): (gap: nat)
    ensures from <= gap && gap !in keys
    ensures forall v :: from <= v < gap ==> v in keys
    decreases |keys|
  {
    if from in keys then
      var gap := FirstGap(keys - {from}, from + 1);
      assert forall v {:trigger v in keys} :: from <= v < gap ==> v == from || v in keys - {from};
      gap
    else
      from
  }

  lemma FirstGapUnique(keys: set<nat>, from: nat, gap: nat)
    requires from <= gap && gap !in keys
    requires forall v :: from <= v < gap ==> v in keys
    ensures FirstGap(keys, from) == gap
  {
  }

  function Events<E>(frames: seq<Frame<E>>): seq<E>
  {
    seq(|frames|, i requires 0 <= i < |frames| => frames[i].event)
  }

  /** The buffered frames of versions `from..to`, in version order. */
  function Take<E>(buffer: map<nat, Frame<E>>, from: nat, to: nat): seq<Frame<E>>
    requires from <= to
    requires forall v :: from <= v < to ==> v in buffer
  {
    seq(to - from, i requires 0 <= i < to - from => buffer[from + i])
  }

  function Without<E>(buffer: map<nat, Frame<E>>, from: nat, to: nat): map<nat, Frame<E>>
  {
    map v | v in buffer && !(from <= v < to) :: buffer[v]
  }

  ghost function Arm<E>(s: State<E>): State<E>
  {
    if s.timer.Unset? && s.buffer != map[]
    then s.(timer := Armed(StringLeast(s.buffer.Keys)))
    else s
  }

  ghost function PushStep<E>(s: State<E>, f: Frame<E>): State<E>
  {
    if f.version <= s.present then
      s
    else if f.version > s.present + 1 then
      Arm(s.(buffer := s.buffer[f.version := f]))
    else
      var buffer := s.buffer[f.version := f];
      var gap := FirstGap(buffer.Keys, f.version);
      s.(present := gap - 1,
         lost := false,
         buffer := Without(buffer, f.version, gap),
         emitted := s.emitted + Events(Take(buffer, f.version, gap)))
  }

  ghost function FireStep<E>(s: State<E>): State<E>
  {
    if !s.timer.Armed? then
      s
    else if s.present < s.timer.oldest then
      if s.lost
      then s.(timer := Abandoned)
      else s.(lost := true, timer := Recovering, recoveries := s.recoveries + [s.present + 1])
    else
      Arm(s.(timer := Unset))
  }

  ghost function Step<E>(s: State<E>, a: Action<E>): State<E>
  {
    match a
    case Push(f) => PushStep(s, f)
    case Fire => FireStep(s)
    case Settle => if s.timer.Recovering? then Arm(s.(timer := Unset)) else s
    case Reject => if s.timer.Recovering? then s.(timer := Abandoned) else s
  }

  ghost function Run<E>(s: State<E>, actions: seq<Action<E>>): State<E>
    decreases |actions|
  {
    if actions == [] then s
    else Step(Run(s, actions[..|actions| - 1]), actions[|actions| - 1])
  }

  /** The versions pushed. */
  function Pushed<E>(actions: seq<Action<E>>): set<nat>
  {
    set i | 0 <= i < |actions| && actions[i].Push? :: actions[i].frame.version
  }

  /** Every pushed frame is an entry of the log. */
  ghost predicate FromLog<E>(actions: seq<Action<E>>, log: seq<E>)
  {
    forall i :: 0 <= i < |actions| && actions[i].Push? ==> IsEntry(actions[i].frame, log)
  }

  ghost predicate IsEntry<E>(f: Frame<E>, log: seq<E>)
  {
    0 < f.version <= |log| && f.event == log[f.version - 1]
  }

  // ---- What the buffer computes -----------------------------------------------------------

  /** The state is the one determined by the set of versions pushed. */
  ghost predicate Determined<E>(s: State<E>, log: seq<E>, v0: nat, pushed: set<nat>)
  {
    && v0 <= s.present <= |log|
    && s.present + 1 == FirstGap(pushed, v0 + 1)
    && s.emitted == log[v0..s.present]
    && s.buffer.Keys == (set v | v in pushed && v > s.present)
    && forall v :: v in s.buffer ==> s.buffer[v].version == v && IsEntry(s.buffer[v], log)
  }

  lemma ArmDetermined<E>(s: State<E>)
    ensures var t := Arm(s); t == s.(timer := t.timer)
  {
  }

  lemma TakeIsLog<E>(buffer: map<nat, Frame<E>>, log: seq<E>, from: nat, to: nat)
    requires 0 < from <= to
    requires forall v :: from <= v < to ==> v in buffer && buffer[v].version == v && IsEntry(buffer[v], log)
    requires to <= |log| + 1
    ensures Events(Take(buffer, from, to)) == log[from - 1..to - 1]
  {
    var es := Events(Take(buffer, from, to));
    forall i | 0 <= i < to - from
      ensures es[i] == log[from - 1..to - 1][i]
    {
      assert from <= from + i < to;
    }
  }

  lemma PushedConcat<E>(xs: seq<Action<E>>, ys: seq<Action<E>>)
    ensures Pushed(xs + ys) == Pushed(xs) + Pushed(ys)
  {
    var all := xs + ys;
    forall v
      ensures v in Pushed(all) <==> v in Pushed(xs) || v in Pushed(ys)
    {
      if v in Pushed(xs) {
        var i :| 0 <= i < |xs| && xs[i].Push? && xs[i].frame.version == v;
        assert all[i] == xs[i];
      }
      if v in Pushed(ys) {
        var i :| 0 <= i < |ys| && ys[i].Push? && ys[i].frame.version == v;
        assert all[|xs| + i] == ys[i];
      }
    }
  }

  lemma OtherSteps<E>(s: State<E>, a: Action<E>)
    requires !a.Push?
    ensures var t := Step(s, a);
            t.present == s.present && t.buffer == s.buffer && t.emitted == s.emitted
  {
  }

  lemma PushEarly<E>(s: State<E>, f: Frame<E>, log: seq<E>, v0: nat, pushed: set<nat>)
    requires Determined(s, log, v0, pushed) && IsEntry(f, log)
    requires f.version != s.present + 1
    ensures Determined(PushStep(s, f), log, v0, pushed + {f.version})
  {
    var v, t := f.version, PushStep(s, f);
    FirstGapUnique(pushed + {v}, v0 + 1, s.present + 1);
    if v > s.present + 1 {
      ArmDetermined(s.(buffer := s.buffer[v := f]));
      assert t.buffer == s.buffer[v := f];
    }
  }

  lemma PushInOrder<E>(s: State<E>, f: Frame<E>, log: seq<E>, v0: nat, pushed: set<nat>)
    requires Determined(s, log, v0, pushed) && IsEntry(f, log)
    requires f.version == s.present + 1
    ensures Determined(PushStep(s, f), log, v0, pushed + {f.version})
  {
    var v := f.version;
    var buffer := s.buffer[v := f];
    var gap := FirstGap(buffer.Keys, v);
    assert gap - 1 in buffer;
    TakeIsLog(buffer, log, v, gap);
    assert log[v0..s.present] + log[s.present..gap - 1] == log[v0..gap - 1];
    GapsAgree(pushed, buffer.Keys, v0 + 1, v, gap);
    assert Without(buffer, v, gap).Keys == set u | u in buffer && !(v <= u < gap);
  }

  /** Taking the contiguous versions from the buffer leaves those above the first gap. */
  lemma GapsAgree(pushed: set<nat>, keys: set<nat>, from: nat, v: nat, gap: nat)
    requires from <= v == FirstGap(pushed, from) && gap == FirstGap(keys, v)
    requires keys == (set u | u in pushed && u >= v) + {v}
    ensures FirstGap(pushed + {v}, from) == gap
    ensures (set u | u in keys && !(v <= u < gap)) == (set u | u in pushed + {v} && u > gap - 1)
  {
    forall u | from <= u < gap
      ensures u in pushed + {v}
    {
      assert u > v ==> u in keys;
    }
    assert gap in keys <==> gap in pushed + {v};
    FirstGapUnique(pushed + {v}, from, gap);
  }

  lemma {:induction false} RunDetermined<E>(
      s: State<E>, actions: seq<Action<E>>, log: seq<E>, v0: nat, pushed: set<nat>)
    requires Determined(s, log, v0, pushed) && FromLog(actions, log)
    ensures Determined(Run(s, actions), log, v0, pushed + Pushed(actions))
    decreases |actions|
  {
    if actions == [] {
      assert pushed + Pushed(actions) == pushed;
    } else {
      var before, last := actions[..|actions| - 1], actions[|actions| - 1];
      RunDetermined(s, before, log, v0, pushed);
      var t, soFar := Run(s, before), pushed + Pushed(before);
      assert actions == before + [last];
      PushedConcat(before, [last]);
      if last.Push? {
        assert pushed + Pushed(actions) == soFar + {last.frame.version};
        if last.frame.version == t.present + 1 {
          PushInOrder(t, last.frame, log, v0, soFar);
        } else {
          PushEarly(t, last.frame, log, v0, soFar);
        }
      } else {
        assert pushed + Pushed(actions) == soFar;
        OtherSteps(t, last);
      }
    }
  }

  /**
   Whatever is pushed from the log, in any order, with duplicates and gaps, and whenever the
   timer and the recovery run: what was emitted is the log from the snapshot up to the first
   version never pushed, and the buffer holds exactly the pushed versions beyond it.
   */
  lemma EmitsTheLog<E>(actions: seq<Action<E>>, log: seq<E>, v0: nat)
    requires v0 <= |log| && FromLog(actions, log)
    ensures Determined(Run(Init(v0), actions), log, v0, Pushed(actions))
  {
    RunDetermined(Init(v0), actions, log, v0, {});
    assert {} + Pushed(actions) == Pushed(actions);
  }

  /** The outcome depends on the set of versions pushed alone, not on their order or number. */
  lemma OrderIndependent<E>(actions: seq<Action<E>>, actions': seq<Action<E>>, log: seq<E>, v0: nat)
    requires v0 <= |log| && FromLog(actions, log) && FromLog(actions', log)
    requires Pushed(actions) == Pushed(actions')
    ensures var s, s' := Run(Init(v0), actions), Run(Init(v0), actions');
            s.present == s'.present && s.emitted == s'.emitted && s.buffer == s'.buffer
  {
    EmitsTheLog(actions, log, v0);
    EmitsTheLog(actions', log, v0);
    DeterminedUnique(Run(Init(v0), actions), Run(Init(v0), actions'), log, v0, Pushed(actions));
  }

  lemma DeterminedUnique<E>(s: State<E>, s': State<E>, log: seq<E>, v0: nat, pushed: set<nat>)
    requires Determined(s, log, v0, pushed) && Determined(s', log, v0, pushed)
    ensures s.present == s'.present && s.emitted == s'.emitted && s.buffer == s'.buffer
  {
    forall v | v in s.buffer
      ensures s.buffer[v] == s'.buffer[v]
    {
      assert s.buffer[v] == Frame(v, log[v - 1]) == s'.buffer[v];
    }
  }

  /**
   Once every version from the one a recovery asks for up to the newest one has arrived, in any
   order and among anything else, nothing is missing and nothing is left in the buffer.
   */
  lemma CatchesUp<E>(before: seq<Action<E>>, after: seq<Action<E>>, log: seq<E>, v0: nat)
    requires v0 <= |log| && FromLog(before + after, log)
    requires forall v :: Run(Init(v0), before).present < v <= |log| ==> v in Pushed(after)
    ensures var s := Run(Init(v0), before + after);
            s.present == |log| && s.emitted == log[v0..] && s.buffer == map[]
  {
    var all := before + after;
    var s0, s := Run(Init<E>(v0), before), Run(Init<E>(v0), all);
    assert FromLog(before, log) by {
      assert forall i :: 0 <= i < |before| ==> all[i] == before[i];
    }
    EmitsTheLog(before, log, v0);
    EmitsTheLog(all, log, v0);
    PushedConcat(before, after);
    assert |log| + 1 !in Pushed(all);
    FirstGapUnique(Pushed(all), v0 + 1, |log| + 1);
    assert log[v0..s.present] == log[v0..];
    assert s.buffer.Keys == {};
  }

  // ---- The timer and the recovery ---------------------------------------------------------

  ghost predicate Increasing(xs: seq<nat>)
  {
    forall i, j :: 0 <= i < j < |xs| ==> xs[i] < xs[j]
  }

  /** What every step keeps of the timer, the loss flag and the recoveries. */
  ghost predicate Supervised<E>(s: State<E>)
  {
    && (forall v :: v in s.buffer ==> v > s.present + 1)
    && (s.buffer != map[] ==> !s.timer.Unset?)
    && (s.timer.Armed? && s.present < s.timer.oldest ==> s.timer.oldest in s.buffer)
    && Increasing(s.recoveries)
    && (s.recoveries != [] ==>
          s.recoveries[|s.recoveries| - 1] <= s.present + (if s.lost then 1 else 0))
    && (s.lost ==> s.recoveries != [] && s.recoveries[|s.recoveries| - 1] == s.present + 1)
  }

  lemma StepSupervised<E>(s: State<E>, a: Action<E>)
    requires Supervised(s)
    ensures Supervised(Step(s, a))
  {
    if a.Push? && a.frame.version == s.present + 1 {
      var buffer := s.buffer[a.frame.version := a.frame];
      var gap := FirstGap(buffer.Keys, a.frame.version);
      assert forall v :: v in Without(buffer, a.frame.version, gap) ==> v > gap;
      if s.timer.Armed? && gap - 1 < s.timer.oldest {
        assert s.timer.oldest in buffer;
      }
    }
  }

  /** A buffered frame always finds the timer handle set, and no version is recovered twice. */
  lemma {:induction false} AlwaysSupervised<E>(actions: seq<Action<E>>, v0: nat)
    ensures Supervised(Run(Init<E>(v0), actions))
    decreases |actions|
  {
    if actions != [] {
      AlwaysSupervised<E>(actions[..|actions| - 1], v0);
      StepSupervised(Run(Init(v0), actions[..|actions| - 1]), actions[|actions| - 1]);
    }
  }

  /**
   A step asks for a recovery exactly when the armed timer expires before its frame was emitted
   and no earlier loss is open; it then asks for the first missing version, while a later one is
   waiting in the buffer, and never for one it asked for before.
   */
  lemma RecoversFirstGap<E>(actions: seq<Action<E>>, a: Action<E>, log: seq<E>, v0: nat)
    requires v0 <= |log| && FromLog(actions, log)
    ensures var s := Run(Init(v0), actions);
            var t := Step(s, a);
            && (t.recoveries != s.recoveries <==>
                  a.Fire? && s.timer.Armed? && s.present < s.timer.oldest && !s.lost)
            && (t.recoveries != s.recoveries ==>
                  var gap := FirstGap(Pushed(actions), v0 + 1);
                  && t.recoveries == s.recoveries + [gap]
                  && gap !in s.recoveries
                  && exists v :: v in s.buffer && v > gap)
  {
    EmitsTheLog(actions, log, v0);
    AlwaysSupervised(actions, v0);
    AsksForNext(Run(Init(v0), actions), a);
  }

  lemma AsksForNext<E>(s: State<E>, a: Action<E>)
    requires Supervised(s)
    ensures var t := Step(s, a);
            && (t.recoveries != s.recoveries <==>
                  a.Fire? && s.timer.Armed? && s.present < s.timer.oldest && !s.lost)
            && (t.recoveries != s.recoveries ==>
                  && t.recoveries == s.recoveries + [s.present + 1]
                  && s.present + 1 !in s.recoveries
                  && exists v :: v in s.buffer && v > s.present + 1)
  {
    if a.Fire? && s.timer.Armed? && s.present < s.timer.oldest && !s.lost {
      assert s.timer.oldest in s.buffer;
    }
  }

  /** Between two recoveries an in-order event must have arrived. */
  lemma {:induction false} OneRecoveryPerGap<E>(s: State<E>, actions: seq<Action<E>>)
    requires Supervised(s)
    ensures var t := Run(s, actions);
            && Supervised(t)
            && t.present >= s.present
            && (t.present == s.present ==> |t.recoveries| <= |s.recoveries| + (if s.lost then 0 else 1))
            && (t.present == s.present && s.lost ==> t.lost)
            && (t.present == s.present && |t.recoveries| > |s.recoveries| ==> t.lost)
    decreases |actions|
  {
    if actions != [] {
      var before, a := actions[..|actions| - 1], actions[|actions| - 1];
      OneRecoveryPerGap(s, before);
      StepSupervised(Run(s, before), a);
      OneRecoveryInStep(Run(s, before), a);
    }
  }

  lemma OneRecoveryInStep<E>(s: State<E>, a: Action<E>)
    requires Supervised(s)
    ensures var t := Step(s, a);
            && t.present >= s.present
            && |t.recoveries| <= |s.recoveries| + (if s.lost then 0 else 1)
            && (t.present == s.present && s.lost ==> t.lost)
            && (t.present == s.present && |t.recoveries| > |s.recoveries| ==> t.lost)
            && |t.recoveries| >= |s.recoveries|
  {
  }

  /** A timer whose callback left the handle set never runs again: no further gap is recovered. */
  lemma {:induction false} AbandonedForGood<E>(s: State<E>, actions: seq<Action<E>>)
    requires s.timer.Abandoned?
    ensures Run(s, actions).timer.Abandoned? && Run(s, actions).recoveries == s.recoveries
    decreases |actions|
  {
    if actions != [] {
      AbandonedForGood(s, actions[..|actions| - 1]);
    }
  }

  /**
   The timer is abandoned exactly by a rejected recovery, or by expiring on a gap that an earlier
   recovery left open.
   */
  lemma AbandonedWhen<E>(s: State<E>, a: Action<E>)
    requires !s.timer.Abandoned?
    ensures Step(s, a).timer.Abandoned? <==>
              || (a.Reject? && s.timer.Recovering?)
              || (a.Fire? && s.timer.Armed? && s.present < s.timer.oldest && s.lost)
  {
  }

  /** Nothing happens but that the timer expires and recoveries resolve. */
  predicate TimerOnly<E>(actions: seq<Action<E>>)
  {
    forall i :: 0 <= i < |actions| ==> actions[i].Fire? || actions[i].Settle?
  }

  /** The frame that a timer is armed for is one that waits behind the gap. */
  lemma ArmedForWaiting<E>(s: State<E>)
    requires s.buffer != map[] && s.timer.Unset? && forall v :: v in s.buffer ==> v > s.present + 1
    ensures Arm(s).timer.Armed? && Arm(s).timer.oldest > s.present + 1
  {
    assert s.buffer.Keys != {};
    assert StringLeast(s.buffer.Keys) in s.buffer;
  }

  lemma RunTwo<E>(s: State<E>, a: Action<E>, b: Action<E>)
    ensures Run(s, [a]) == Step(s, a) && Run(s, [a, b]) == Step(Step(s, a), b)
  {
    Unfold(s, [], a);
    Unfold(s, [a], b);
    assert [] + [a] == [a] && [a] + [b] == [a, b];
  }

  /** While the timer works, at most two of its steps ask for the gap that frames wait behind. */
  lemma TimerRecovers<E>(s: State<E>) returns (actions: seq<Action<E>>)
    requires Supervised(s) && s.buffer != map[]
    requires s.lost || !s.timer.Abandoned?
    ensures TimerOnly(actions) && |actions| <= 2
    ensures s.present + 1 in Run(s, actions).recoveries
  {
    if s.lost {
      actions := [];
    } else if s.timer.Armed? && s.present < s.timer.oldest {
      actions := [Fire];
      RunTwo(s, Fire, Fire);
    } else {
      ArmedForWaiting(s.(timer := Unset));
      var first: Action<E> := if s.timer.Armed? then Fire else Settle;
      actions := [first, Fire];
      RunTwo(s, first, Fire);
      assert Step(s, first) == Arm(s.(timer := Unset));
    }
  }

  /**
   While frames wait behind a gap, the timer alone gets to ask for the first missing version, if
   that has not been asked for yet, exactly if its handle was not left set.
   */
  lemma RecoversIff<E>(s: State<E>)
    requires Supervised(s) && s.buffer != map[]
    ensures (exists actions :: TimerOnly(actions) && s.present + 1 in Run(s, actions).recoveries)
            <==> s.lost || !s.timer.Abandoned?
  {
    if s.lost || !s.timer.Abandoned? {
      var actions := TimerRecovers(s);
    } else {
      assert s.present + 1 !in s.recoveries;
      forall actions: seq<Action<E>>
        ensures s.present + 1 !in Run(s, actions).recoveries
      {
        AbandonedForGood(s, actions);
      }
    }
  }

  /**
   A run in which the abandoned handle costs a recovery: the first gap is recovered too late for
   one lifetime, its event does arrive, and the next gap then waits in the buffer for good.
   */
  lemma LaterGapNeverRecovered<E>(f1: Frame<E>, f2: Frame<E>, f4: Frame<E>, more: seq<Action<E>>)
    requires f1.version == 1 && f2.version == 2 && f4.version == 4
    ensures var s := Run(Init(0), [Push(f2), Fire, Settle, Fire, Push(f1), Push(f4)]);
            && s.present == 2 && s.buffer == map[4 := f4] && s.recoveries == [1]
            && Run(s, more).recoveries == [1]
  {
    var first := [Push(f2), Fire, Settle, Fire];
    RunFour(Init(0), Push(f2), Fire, Settle, Fire);
    FirstGapTooLate(f2);
    RunMore(Init(0), first, Push(f1), Push(f4));
    assert first + [Push(f1), Push(f4)] == [Push(f2), Fire, Settle, Fire, Push(f1), Push(f4)];
    SecondGap(f1, f2, f4);
    AbandonedForGood(Run(Init(0), [Push(f2), Fire, Settle, Fire, Push(f1), Push(f4)]), more);
  }

  lemma SecondGap<E>(f1: Frame<E>, f2: Frame<E>, f4: Frame<E>)
    requires f1.version == 1 && f2.version == 2 && f4.version == 4
    ensures PushStep(PushStep(State(0, map[2 := f2], [], Abandoned, true, [1]), f1), f4)
         == State(2, map[4 := f4], [f1.event, f2.event], Abandoned, false, [1])
  {
    var s := State(0, map[2 := f2], [], Abandoned, true, [1]);
    var buffer := s.buffer[1 := f1];
    assert buffer.Keys == {1, 2};
    FirstGapUnique(buffer.Keys, 1, 3);
    assert Take(buffer, 1, 3) == [f1, f2];
    var t := PushStep(s, f1);
    assert t.buffer.Keys == {};
    assert t.buffer[4 := f4] == map[4 := f4];
  }

  lemma FirstGapTooLate<E>(f: Frame<E>)
    requires f.version == 2
    ensures Step(Step(Step(PushStep(Init(0), f), Fire), Settle), Fire)
         == State(0, map[2 := f], [], Abandoned, true, [1])
  {
    var buffer := map[2 := f];
    assert buffer.Keys == {2};
    assert Init<E>(0).buffer[2 := f] == buffer;
    var s1 := PushStep(Init(0), f);
    assert s1 == State(0, buffer, [], Armed(2), false, []);
    var s2 := Step(s1, Fire);
    assert s2 == State(0, buffer, [], Recovering, true, [1]);
    var s3 := Step(s2, Settle);
    assert s3 == State(0, buffer, [], Armed(2), true, [1]);
  }

  lemma RunFour<E>(s: State<E>, a: Action<E>, b: Action<E>, c: Action<E>, d: Action<E>)
    ensures Run(s, [a, b, c, d]) == Step(Step(Step(Step(s, a), b), c), d)
  {
    RunTwo(s, a, b);
    RunMore(s, [a, b], c, d);
    assert [a, b] + [c, d] == [a, b, c, d];
  }

  lemma RunMore<E>(s: State<E>, before: seq<Action<E>>, a: Action<E>, b: Action<E>)
    ensures Run(s, before + [a]) == Step(Run(s, before), a)
    ensures Run(s, before + [a, b]) == Step(Run(s, before + [a]), b)
  {
    Unfold(s, before, a);
    Unfold(s, before + [a], b);
    assert before + [a] + [b] == before + [a, b];
  }

  lemma Unfold<E>(s: State<E>, before: seq<Action<E>>, a: Action<E>)
    ensures Run(s, before + [a]) == Step(Run(s, before), a)
  {
    assert (before + [a])[..|before|] == before;
  }

  /**
   The frame that a newly armed timer waits for is the oldest one, exactly if the version of that
   one is at most the leading digits of every buffered version: the keys are compared as strings.
   */
  lemma ArmsForOldestIff<E>(s: State<E>, m: nat)
    requires s.timer.Unset? && IsLeast(m, s.buffer.Keys)
    ensures Arm(s).timer == Armed(m)
            <==> forall v :: v in s.buffer ==> AtMostLeading(m, v)
  {
    assert m in s.buffer;
    StringLeastIsLeastIff(m, s.buffer.Keys);
  }

  /** With 9 and 10 in the buffer it is not. */
  lemma ArmsForTen<E>(s: State<E>)
    requires s.timer.Unset? && s.buffer.Keys == {9, 10}
    ensures Arm(s).timer == Armed(10)
  {
    assert |Decimal(10)| == 2 && |Decimal(9)| == 1 by {
      assert Decimal(10) == Decimal(1) + [Digit(0)];
    }
    assert Pow10(1) == 10 * Pow10(0);
    assert 10 in s.buffer;
    ArmsForOldestIff(s, 9);
    assert StringLeast(s.buffer.Keys) in {9, 10};
  }

  // ---- The class --------------------------------------------------------------------------

  class EventJitterBuffer<E> {
    var presentVersion: nat
    var eventBuffer: map<nat, Frame<E>>
    var packetLifeTimer: Timer
    var packetLostHappened: bool
    var onEvent: seq<E>
    var onPacketLost: seq<nat>

    ghost function Model(): State<E>
      reads this
    {
      State(presentVersion, eventBuffer, onEvent, packetLifeTimer, packetLostHappened, onPacketLost)
    }

    ghost predicate Valid()
      reads this
    {
      && presentVersion + 1 !in eventBuffer
      && forall v :: v in eventBuffer ==> eventBuffer[v].version == v
    }

    constructor (version: nat)
      ensures Valid() && Model() == Init(version)
    {
      presentVersion, eventBuffer, packetLifeTimer := version, map[], Unset;
      packetLostHappened, onEvent, onPacketLost := false, [], [];
    }

    method Push(eventFrame: Frame<E>)
      requires Valid()
      modifies this
      ensures Valid() && Model() == PushStep(old(Model()), eventFrame)
    {
      var incomingVersion := eventFrame.version;
      if incomingVersion < presentVersion + 1 {
        return;
      }
      if incomingVersion > presentVersion + 1 {
        eventBuffer := eventBuffer[incomingVersion := eventFrame];
        HandlePacketLifetime();
        return;
      }
      if packetLostHappened {
        packetLostHappened := false;
      }
      eventBuffer := eventBuffer[incomingVersion := eventFrame];
      ResolveEvents();
    }

    method HandlePacketLifetime()
      requires Valid()
      modifies this`packetLifeTimer
      ensures Valid() && Model() == Arm(old(Model()))
    {
      if packetLifeTimer.Unset? && eventBuffer != map[] {
        assert eventBuffer.Keys != {};
        StringLeastWitness(eventBuffer.Keys);
        ghost var least := StringLeast(eventBuffer.Keys);
        var oldest :| oldest in eventBuffer.Keys && IsStringLeast(oldest, eventBuffer.Keys);
        StringLeastUnique(oldest, least, eventBuffer.Keys);
        packetLifeTimer := Armed(eventBuffer[oldest].version);
      }
    }

    /** The callback of the lifetime timer, up to the `await`. */
    method LifetimeExpired()
      requires Valid() && packetLifeTimer.Armed?
      modifies this
      ensures Valid() && Model() == FireStep(old(Model()))
    {
      if presentVersion < packetLifeTimer.oldest {
        if packetLostHappened {
          packetLifeTimer := Abandoned;
          return;
        } else {
          packetLostHappened := true;
          packetLifeTimer := Recovering;
          onPacketLost := onPacketLost + [presentVersion + 1];
          return;
        }
      }
      packetLifeTimer := Unset;
      HandlePacketLifetime();
    }

    /** The rest of the callback, once `onPacketLost` has resolved. */
    method RecoverySettled()
      requires Valid() && packetLifeTimer.Recovering?
      modifies this
      ensures Valid() && Model() == Step(old(Model()), Settle)
    {
      packetLifeTimer := Unset;
      HandlePacketLifetime();
    }

    method ResolveEvents()
      requires forall v :: v in eventBuffer ==> eventBuffer[v].version == v
      requires presentVersion + 1 in eventBuffer
      modifies this
      ensures Valid()
      ensures var s := old(Model());
              var gap := FirstGap(s.buffer.Keys, s.present + 1);
              Model() == s.(present := gap - 1,
                            buffer := Without(s.buffer, s.present + 1, gap),
                            emitted := s.emitted + Events(Take(s.buffer, s.present + 1, gap)))
    {
      ghost var buffer, first := eventBuffer, presentVersion + 1;
      ghost var gap := FirstGap(buffer.Keys, first);
      var resolve: seq<Frame<E>> := [];
      var i := presentVersion + 1;
      while i in eventBuffer
        invariant first <= i <= gap
        invariant unchanged(`presentVersion, `onEvent, `packetLifeTimer, `packetLostHappened, `onPacketLost)
        invariant resolve == Take(buffer, first, i)
        invariant eventBuffer == Without(buffer, first, i)
        decreases gap - i
      {
        resolve := resolve + [eventBuffer[i]];
        eventBuffer := map v | v in eventBuffer && v != i :: eventBuffer[v];
        i := i + 1;
      }
      assert i == gap;
      if |resolve| > 0 {
        presentVersion := resolve[|resolve| - 1].version;
        assert resolve[|resolve| - 1] == buffer[gap - 1];
        ghost var emitted := onEvent;
        for j := 0 to |resolve|
          invariant presentVersion == gap - 1 && eventBuffer == Without(buffer, first, gap)
          invariant unchanged(`packetLifeTimer, `packetLostHappened, `onPacketLost)
          invariant onEvent == emitted + Events(resolve[..j])
        {
          onEvent := onEvent + [resolve[j].event];
          assert resolve[..j + 1] == resolve[..j] + [resolve[j]];
          assert Events(resolve[..j + 1]) == Events(resolve[..j]) + [resolve[j].event];
        }
        assert resolve[..|resolve|] == resolve;
      }
    }
  }
}
