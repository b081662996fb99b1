/** The current `ShadersExtension`'s selection as a value: the enabled flag, the
    platform (absent until set) and the set of implementations, together with
    the setters as transitions and the callback invocations each one causes. */
module Selections {
  import opened Common
  import opened Model

  datatype Selection = Selection(isEnabled: bool, platform: Option<Platform>, implementations: set<Implementation>)

  /** A newly created extension: disabled, no platform, no implementation. */
  const Fresh := Selection(false, None, {})

  /** The gate of `configure()`. */
  predicate Ready(s: Selection)
  {
    s.isEnabled && s.platform.Some? && s.implementations != {}
  }

  /** The implementations `configure()` hands to the callback, in the order the
      `EnumSet` visits them; none when the gate is closed. */
  function Configured(s: Selection): seq<Implementation>
  {
    if Ready(s) then Ordered(s.implementations) else []
  }

  /** The callback invocations of one `configure()`, as (platform, implementation)
      pairs: one per selected implementation, in declaration order (SODIUM
      before EMBEDDIUM), and none when the gate is closed. */
  function Dispatches(s: Selection): (r: seq<(Platform, Implementation)>)
    ensures |r| == if Ready(s) then |s.implementations| else 0
    ensures forall j, k :: 0 <= j < k < |r| ==> Ordinal(r[j].1) < Ordinal(r[k].1)
  {
    var c := Configured(s);
    if c == [] then [] else seq(|c|, k requires 0 <= k < |c| => (s.platform.value, c[k]))
  }

  /** One `configure()` invokes the callback for exactly the selected
      implementations with the selected platform, and only when ready. */
  lemma DispatchesExactly(s: Selection, p: Platform, i: Implementation)
    ensures (p, i) in Dispatches(s) <==> Ready(s) && s.platform == Some(p) && i in s.implementations
  {
    var r := Dispatches(s);
    var c := Configured(s);
    if (p, i) in r {
      var k :| 0 <= k < |r| && r[k] == (p, i);
      assert c[k] == i;
    }
    if Ready(s) && s.platform == Some(p) && i in s.implementations {
      assert i in c;
      var k :| 0 <= k < |c| && c[k] == i;
      assert r[k] == (p, i);
    }
  }

  /** The extension's public setters. `platform(..)`, `neoforge()` and
      `fabric()` are `SetPlatform`; `sodium()` and `embeddium()` are
      `AddImplementation`. */
  datatype Call =
    | SetIsEnabled(enabled: bool)
    | Enabled(enabled: bool)
    | Enable
    | Disable
    | SetPlatform(platform: Platform)
    | AddImplementation(implementation: Implementation)

  /** The calls that run `configure()` after updating the field. */
  predicate Dispatching(c: Call)
  {
    !c.Enabled? && !c.Disable?
  }

  /** The selection after a call. */
  function Apply(s: Selection, c: Call): Selection
  {
    match c
    case SetIsEnabled(b) => s.(isEnabled := b)
    case Enabled(b) => s.(isEnabled := b)
    case Enable => s.(isEnabled := true)
    case Disable => s.(isEnabled := false)
    case SetPlatform(p) => s.(platform := Some(p))
    case AddImplementation(i) => s.(implementations := s.implementations + {i})
  }

  /** The callback invocations a call causes. */
  function Fired(s: Selection, c: Call): seq<(Platform, Implementation)>
  {
    if Dispatching(c) then Dispatches(Apply(s, c)) else []
  }

  /** A fresh extension is not ready, so nothing is dispatched until a setter
      has supplied a platform and an implementation and enabled it. */
  lemma FreshIsIdle()
    ensures !Ready(Fresh) && Dispatches(Fresh) == []
    ensures forall c :: !Ready(Apply(Fresh, c)) && Fired(Fresh, c) == []
  {
  }

  /** `enabled(..)` and `disable()` change only the flag and never invoke the
      callback, whatever the state. */
  lemma QuietCalls(s: Selection, c: Call)
    requires !Dispatching(c)
    ensures Fired(s, c) == []
    ensures Apply(s, c).platform == s.platform && Apply(s, c).implementations == s.implementations
    ensures Apply(s, c).isEnabled == (c.Enabled? && c.enabled)
  {
  }

  /** Setting the platform overwrites it and retracts no implementation;
      selecting an implementation only adds it, so selecting it again changes
      nothing. */
  lemma SettersOnlyAdd(s: Selection, c: Call)
    ensures s.implementations <= Apply(s, c).implementations
    ensures c.SetPlatform? ==> Apply(s, c) == s.(platform := Some(c.platform))
    ensures c.AddImplementation? ==> Apply(s, c).implementations == s.implementations + {c.implementation}
    ensures c.AddImplementation? && c.implementation in s.implementations ==> Apply(s, c) == s
  {
  }

  /** A dispatching call on a selection that ends up ready invokes the callback
      for every selected implementation, the ones dispatched by earlier calls
      included. */
  lemma RedispatchesAll(s: Selection, c: Call, i: Implementation)
    requires Dispatching(c) && Ready(Apply(s, c)) && i in s.implementations
    ensures (Apply(s, c).platform.value, i) in Fired(s, c)
  {
    SettersOnlyAdd(s, c);
    DispatchesExactly(Apply(s, c), Apply(s, c).platform.value, i);
  }

  /** Every selected implementation has been dispatched with the selected
      platform, if the selection is ready. */
  predicate Covered(s: Selection, log: seq<(Platform, Implementation)>)
  {
    Ready(s) ==> forall i :: i in s.implementations ==> (s.platform.value, i) in log
  }

  /** Any call other than `enabled(true)` keeps the log covering the selection. */
  lemma CallKeepsCovered(s: Selection, log: seq<(Platform, Implementation)>, c: Call)
    requires Covered(s, log) && c != Enabled(true)
    ensures Covered(Apply(s, c), log + Fired(s, c))
  {
    var r := Apply(s, c);
    if Ready(r) {
      forall i | i in r.implementations
        ensures (r.platform.value, i) in log + Fired(s, c)
      {
        if Dispatching(c) {
          DispatchesExactly(r, r.platform.value, i);
        } else {
          assert c.Enabled? || c.Disable?;
          assert r == s.(isEnabled := true);
        }
      }
    }
  }

  /** The selection and the callback log after a sequence of calls. */
  function Run(s: Selection, log: seq<(Platform, Implementation)>, calls: seq<Call>): (Selection, seq<(Platform, Implementation)>)
    decreases |calls|
  {
    if calls == [] then (s, log)
    else Run(Apply(s, calls[0]), log + Fired(s, calls[0]), calls[1..])
  }

  /** The log only grows. */
  lemma {:induction false} RunExtendsLog(s: Selection, log: seq<(Platform, Implementation)>, calls: seq<Call>)
    ensures log <= Run(s, log, calls).1
    decreases |calls|
  {
    if calls != [] {
      RunExtendsLog(Apply(s, calls[0]), log + Fired(s, calls[0]), calls[1..]);
    }
  }

  /** Calls that avoid `enabled(true)` keep the log covering the selection. */
  lemma {:induction false} RunKeepsCovered(s: Selection, log: seq<(Platform, Implementation)>, calls: seq<Call>)
    requires Covered(s, log) && Enabled(true) !in calls
    ensures Covered(Run(s, log, calls).0, Run(s, log, calls).1)
    decreases |calls|
  {
    if calls != [] {
      CallKeepsCovered(s, log, calls[0]);
      assert Enabled(true) !in calls[1..];
      RunKeepsCovered(Apply(s, calls[0]), log + Fired(s, calls[0]), calls[1..]);
    }
  }

  /** Starting from a fresh extension, whatever order the setters are called
      in, once the selection is ready the callback has been invoked for every
      selected implementation with the selected platform — provided
      `enabled(true)` is never called. */
  lemma SettersDispatchSelection(calls: seq<Call>, i: Implementation)
    requires Enabled(true) !in calls
    ensures var (s, log) := Run(Fresh, [], calls);
            Ready(s) && i in s.implementations ==> (s.platform.value, i) in log
  {
    RunKeepsCovered(Fresh, [], calls);
  }

  /** `enabled(true)` is the exception: it opens the gate without dispatching,
      so a ready selection can have an empty log. */
  lemma EnabledSkipsDispatch()
    ensures var (s, log) := Run(Fresh, [], [SetPlatform(NEOFORGE), AddImplementation(SODIUM), Enabled(true)]);
            Ready(s) && SODIUM in s.implementations && log == []
  {
    var s1 := Apply(Fresh, SetPlatform(NEOFORGE));
    assert Fired(Fresh, SetPlatform(NEOFORGE)) == [];
    var s2 := Apply(s1, AddImplementation(SODIUM));
    assert Fired(s1, AddImplementation(SODIUM)) == [];
    assert [SetPlatform(NEOFORGE), AddImplementation(SODIUM), Enabled(true)][1..] == [AddImplementation(SODIUM), Enabled(true)];
    assert [AddImplementation(SODIUM), Enabled(true)][1..] == [Enabled(true)];
  }
}
