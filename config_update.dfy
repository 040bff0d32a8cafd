/**
 * Keyword overrides applied to tuning-configuration objects (`update_config`) and the choice of
 * which tuning configuration to build for a PEFT method name (`create_tuning_config`).
 *
 * A configuration object is its class name and a map from attribute names to values; `hasattr`
 * is membership in that map and `setattr` on an existing attribute is a map update.
 */
module ConfigUpdate {
  import opened Wrappers
  import opened PyValues

  type Fields = map<string, Value>

  // ---------------------------------------------------------------------------------------------
  // One keyword argument

  /** What one keyword argument does to an object of class `cls` whose attributes are `attrs`. */
  datatype Effect =
    | SetField(name: string)  // setattr(config, name, value)
    | NoChange                // not an attribute, or a dotted name for another class
    | WarnMissing             // `Class.param` for this class, but it has no `param`: only a warning
    | SplitFailure            // two or more dots: the two-way unpacking of `k.split(".")` raises

  function KeyEffect(cls: string, attrs: set<string>, key: string): (e: Effect)
    ensures key in attrs ==> e == SetField(key)
    ensures key !in attrs && '.' !in key ==> e == NoChange
    ensures e == SplitFailure <==> key !in attrs && DotCount(key) >= 2
    ensures e.SetField? ==> e.name in attrs
  {
    if key in attrs then SetField(key)
    else if '.' in key then
      SplitDotsCount(key);
      DotCountZero(key);
      var parts := SplitDots(key);
      if |parts| != 2 then SplitFailure
      else if parts[0] == cls then (if parts[1] in attrs then SetField(parts[1]) else WarnMissing)
      else NoChange
    else
      DotCountZero(key);
      NoChange
  }

  lemma {:induction false} SplitNoDot(s: string)
    requires '.' !in s
    ensures SplitDots(s) == [s]
  {
    if s != [] {
      SplitNoDot(s[1..]);
      assert [s[0]] + s[1..] == s;
    }
  }

  /** A name with exactly one dot splits at that dot. */
  lemma {:induction false} SplitAtDot(a: string, b: string)
    requires '.' !in a && '.' !in b
    ensures SplitDots(a + "." + b) == [a, b]
  {
    if a == [] {
      assert a + "." + b == ['.'] + b;
      SplitNoDot(b);
    } else {
      assert (a + "." + b)[1..] == a[1..] + "." + b;
      SplitAtDot(a[1..], b);
      assert [a[0]] + a[1..] == a;
    }
  }

  /** `Class.param` naming the object's own class sets `param` if it is an attribute, else only warns. */
  lemma DottedKeyOwnClass(cls: string, attrs: set<string>, param: string)
    requires '.' !in cls && '.' !in param
    requires cls + "." + param !in attrs
    ensures KeyEffect(cls, attrs, cls + "." + param) == if param in attrs then SetField(param) else WarnMissing
  {
    SplitAtDot(cls, param);
    assert '.' in cls + "." + param by { assert (cls + "." + param)[|cls|] == '.'; }
  }

  /** `Other.param` for a class other than the object's own changes nothing. */
  lemma DottedKeyOtherClass(cls: string, attrs: set<string>, other: string, param: string)
    requires '.' !in other && '.' !in param && other != cls
    requires other + "." + param !in attrs
    ensures KeyEffect(cls, attrs, other + "." + param) == NoChange
  {
    SplitAtDot(other, param);
    assert '.' in other + "." + param by { assert (other + "." + param)[|other|] == '.'; }
  }

  // ---------------------------------------------------------------------------------------------
  // All keyword arguments on one object

  datatype Applied = Applied(fields: Fields, ok: bool)

  /** The loop body of `update_config` for one object and one keyword argument. */
  function Step(cls: string, f: Fields, e: Entry): (r: Applied)
    ensures r.fields.Keys == f.Keys
    ensures r.ok <==> KeyEffect(cls, f.Keys, e.key) != SplitFailure
    ensures forall x :: x in f ==> r.fields[x] == if KeyEffect(cls, f.Keys, e.key) == SetField(x) then e.val else f[x]
  {
    match KeyEffect(cls, f.Keys, e.key)
    case SetField(n) => Applied(f[n := e.val], true)
    case SplitFailure => Applied(f, false)
    case _ => Applied(f, true)
  }

  /**
   * `update_config` on a single object: the keyword arguments in order, stopping at the first
   * one whose split raises (those before it have already been applied).
   */
  function ApplyKwargs(cls: string, f: Fields, kwargs: seq<Entry>): (r: Applied)
    ensures r.fields.Keys == f.Keys
    decreases |kwargs|
  {
    if kwargs == [] then Applied(f, true)
    else
      var p := ApplyKwargs(cls, f, kwargs[..|kwargs| - 1]);
      if !p.ok then p else Step(cls, p.fields, kwargs[|kwargs| - 1])
  }

  /** The index of the first keyword argument whose split raises, or the number of arguments. */
  function FirstFailure(cls: string, attrs: set<string>, kwargs: seq<Entry>): (n: nat)
    ensures n <= |kwargs|
    ensures forall i :: 0 <= i < n ==> KeyEffect(cls, attrs, kwargs[i].key) != SplitFailure
    ensures n < |kwargs| ==> KeyEffect(cls, attrs, kwargs[n].key) == SplitFailure
    decreases |kwargs|
  {
    if kwargs == [] then 0
    else
      var prefix := kwargs[..|kwargs| - 1];
      var n := FirstFailure(cls, attrs, prefix);
      if n < |prefix| then n
      else if KeyEffect(cls, attrs, kwargs[|kwargs| - 1].key) == SplitFailure then |prefix|
      else |kwargs|
  }

  /** The value of the last keyword argument that writes attribute `x`, if any. */
  function LastWrite(cls: string, attrs: set<string>, kwargs: seq<Entry>, x: string): (r: Option<Value>)
    ensures r.Some? <==> exists i :: 0 <= i < |kwargs| && KeyEffect(cls, attrs, kwargs[i].key) == SetField(x)
    ensures r.Some? ==> exists i :: (0 <= i < |kwargs| && KeyEffect(cls, attrs, kwargs[i].key) == SetField(x)
      && kwargs[i].val == r.value
      && forall j :: i < j < |kwargs| ==> KeyEffect(cls, attrs, kwargs[j].key) != SetField(x))
    decreases |kwargs|
  {
    if kwargs == [] then None
    else
      var last := kwargs[|kwargs| - 1];
      if KeyEffect(cls, attrs, last.key) == SetField(x) then Some(last.val)
      else
        var prefix := kwargs[..|kwargs| - 1];
        var r := LastWrite(cls, attrs, prefix, x);
        assert forall i :: 0 <= i < |prefix| ==> prefix[i] == kwargs[i];
        r
  }

  /**
   * What `update_config` does to one object, stated without its loop: it succeeds exactly when
   * no argument's split raises, and every attribute ends up holding the last value written to it
   * before the first failure, or its old value when nothing wrote it.
   */
  lemma {:induction false} ApplyKwargsMeaning(cls: string, f: Fields, kwargs: seq<Entry>)
    ensures var r := ApplyKwargs(cls, f, kwargs);
      var n := FirstFailure(cls, f.Keys, kwargs);
      && r.ok == (n == |kwargs|)
      && forall x :: x in f ==> r.fields[x] == LastWrite(cls, f.Keys, kwargs[..n], x).GetOr(f[x])
    decreases |kwargs|
  {
    if kwargs == [] {
      assert kwargs[..0] == [];
    } else {
      var prefix := kwargs[..|kwargs| - 1];
      ApplyKwargsMeaning(cls, f, prefix);
      var np := FirstFailure(cls, f.Keys, prefix);
      if np < |prefix| {
        assert kwargs[..np] == prefix[..np];
      } else {
        assert prefix[..np] == prefix;
        ApplyKwargsLastStep(cls, f, kwargs);
      }
    }
  }

  /** The induction step of `ApplyKwargsMeaning` when every argument before the last succeeded. */
  lemma ApplyKwargsLastStep(cls: string, f: Fields, kwargs: seq<Entry>)
    requires kwargs != []
    requires var prefix := kwargs[..|kwargs| - 1];
      && FirstFailure(cls, f.Keys, prefix) == |prefix|
      && ApplyKwargs(cls, f, prefix).ok
      && forall x :: x in f ==> ApplyKwargs(cls, f, prefix).fields[x] == LastWrite(cls, f.Keys, prefix, x).GetOr(f[x])
    ensures var r := ApplyKwargs(cls, f, kwargs);
      var n := FirstFailure(cls, f.Keys, kwargs);
      && r.ok == (n == |kwargs|)
      && forall x :: x in f ==> r.fields[x] == LastWrite(cls, f.Keys, kwargs[..n], x).GetOr(f[x])
  {
    var prefix, e := kwargs[..|kwargs| - 1], kwargs[|kwargs| - 1];
    var p := ApplyKwargs(cls, f, prefix);
    var eff := KeyEffect(cls, f.Keys, e.key);
    assert p.fields.Keys == f.Keys;
    if eff == SplitFailure {
      assert FirstFailure(cls, f.Keys, kwargs) == |prefix|;
      assert kwargs[..|prefix|] == prefix;
    } else {
      ApplyKwargsLastOk(cls, f, kwargs);
      assert kwargs[..|kwargs|] == kwargs;
    }
  }

  /** That induction step when the last argument does not raise either. */
  lemma ApplyKwargsLastOk(cls: string, f: Fields, kwargs: seq<Entry>)
    requires kwargs != []
    requires KeyEffect(cls, f.Keys, kwargs[|kwargs| - 1].key) != SplitFailure
    requires var prefix := kwargs[..|kwargs| - 1];
      && FirstFailure(cls, f.Keys, prefix) == |prefix|
      && ApplyKwargs(cls, f, prefix).ok
      && forall x :: x in f ==> ApplyKwargs(cls, f, prefix).fields[x] == LastWrite(cls, f.Keys, prefix, x).GetOr(f[x])
    ensures FirstFailure(cls, f.Keys, kwargs) == |kwargs|
    ensures ApplyKwargs(cls, f, kwargs).ok
    ensures forall x :: x in f ==> ApplyKwargs(cls, f, kwargs).fields[x] == LastWrite(cls, f.Keys, kwargs, x).GetOr(f[x])
  {
    var prefix, e := kwargs[..|kwargs| - 1], kwargs[|kwargs| - 1];
    var p := ApplyKwargs(cls, f, prefix);
    assert p.fields.Keys == f.Keys;
    var r := ApplyKwargs(cls, f, kwargs);
    assert r == Step(cls, p.fields, e);
    forall x | x in f
      ensures r.fields[x] == LastWrite(cls, f.Keys, kwargs, x).GetOr(f[x])
    {
      if KeyEffect(cls, f.Keys, e.key) != SetField(x) {
        assert LastWrite(cls, f.Keys, kwargs, x) == LastWrite(cls, f.Keys, prefix, x);
      }
    }
  }

  /** The kwargs succeed on an object exactly when none of them has two or more dots and is not an attribute. */
  lemma ApplyKwargsOk(cls: string, f: Fields, kwargs: seq<Entry>)
    ensures ApplyKwargs(cls, f, kwargs).ok <==>
      forall i :: 0 <= i < |kwargs| ==> kwargs[i].key in f || DotCount(kwargs[i].key) < 2
  {
    ApplyKwargsMeaning(cls, f, kwargs);
    var n := FirstFailure(cls, f.Keys, kwargs);
    if n < |kwargs| {
      assert KeyEffect(cls, f.Keys, kwargs[n].key) == SplitFailure;
    }
  }

  /** Applying the same keyword arguments twice leaves the object as applying them once does. */
  lemma ApplyKwargsIdempotent(cls: string, f: Fields, kwargs: seq<Entry>)
    ensures var r := ApplyKwargs(cls, f, kwargs); ApplyKwargs(cls, r.fields, kwargs) == r
  {
    var r := ApplyKwargs(cls, f, kwargs);
    var r2 := ApplyKwargs(cls, r.fields, kwargs);
    ApplyKwargsMeaning(cls, f, kwargs);
    ApplyKwargsMeaning(cls, r.fields, kwargs);
    assert r2.fields == r.fields;
  }

  /** An attribute that no keyword argument writes keeps its value. */
  lemma UntouchedFieldKept(cls: string, f: Fields, kwargs: seq<Entry>, x: string)
    requires x in f
    requires forall i :: 0 <= i < |kwargs| ==> KeyEffect(cls, f.Keys, kwargs[i].key) != SetField(x)
    ensures ApplyKwargs(cls, f, kwargs).fields[x] == f[x]
  {
    ApplyKwargsMeaning(cls, f, kwargs);
    var n := FirstFailure(cls, f.Keys, kwargs);
    assert forall i :: 0 <= i < n ==> kwargs[..n][i] == kwargs[i];
  }

  /**
   * A keyword argument that names an attribute sets it, provided no later argument writes the
   * same attribute and no split raises before it.
   */
  lemma PlainKeySetsField(cls: string, f: Fields, kwargs: seq<Entry>, i: nat)
    requires i < |kwargs| && kwargs[i].key in f
    requires forall j :: 0 <= j < i ==> KeyEffect(cls, f.Keys, kwargs[j].key) != SplitFailure
    requires forall j :: i < j < |kwargs| ==> KeyEffect(cls, f.Keys, kwargs[j].key) != SetField(kwargs[i].key)
    ensures ApplyKwargs(cls, f, kwargs).fields[kwargs[i].key] == kwargs[i].val
  {
    var x := kwargs[i].key;
    assert KeyEffect(cls, f.Keys, x) == SetField(x);
    ApplyKwargsMeaning(cls, f, kwargs);
    var n := FirstFailure(cls, f.Keys, kwargs);
    assert i < n;
    var done := kwargs[..n];
    assert done[i] == kwargs[i];
    var w := LastWrite(cls, f.Keys, done, x);
    var k :| 0 <= k < |done| && KeyEffect(cls, f.Keys, done[k].key) == SetField(x) && done[k].val == w.value
      && forall j :: k < j < |done| ==> KeyEffect(cls, f.Keys, done[j].key) != SetField(x);
    assert done[k] == kwargs[k];
    assert k == i;
  }

  // ---------------------------------------------------------------------------------------------
  // Objects and nested lists of objects

  class Config {
    const className: string
    var fields: Fields

    constructor (className: string, fields: Fields)
      ensures this.className == className && this.fields == fields
    {
      this.className := className;
      this.fields := fields;
    }

    /** The object branch of `update_config`: one pass over the keyword arguments. */
    method Update(kwargs: seq<Entry>) returns (ok: bool)
      modifies this
      ensures var r := ApplyKwargs(className, old(fields), kwargs); fields == r.fields && ok == r.ok
    {
      var i := 0;
      while i < |kwargs|
        invariant 0 <= i <= |kwargs|
        invariant ApplyKwargs(className, old(fields), kwargs[..i]) == Applied(fields, true)
      {
        assert kwargs[..i + 1][..i] == kwargs[..i];
        var k, v := kwargs[i].key, kwargs[i].val;
        if k in fields {
          fields := fields[k := v];
        } else if '.' in k {
          var parts := SplitDots(k);
          if |parts| != 2 {
            ApplyKwargsStops(className, old(fields), kwargs, i + 1);
            return false;
          }
          if parts[0] == className && parts[1] in fields {
            fields := fields[parts[1] := v];
          }
        }
        i := i + 1;
      }
      assert kwargs[..i] == kwargs;
      ok := true;
    }
  }

  /** Once a split has raised, later keyword arguments are never reached. */
  lemma {:induction false} ApplyKwargsStops(cls: string, f: Fields, kwargs: seq<Entry>, i: nat)
    requires i <= |kwargs|
    requires !ApplyKwargs(cls, f, kwargs[..i]).ok
    ensures ApplyKwargs(cls, f, kwargs) == ApplyKwargs(cls, f, kwargs[..i])
    decreases |kwargs| - i
  {
    if i < |kwargs| {
      assert kwargs[..i + 1][..i] == kwargs[..i];
      ApplyKwargsStops(cls, f, kwargs, i + 1);
    } else {
      assert kwargs[..i] == kwargs;
    }
  }

  /** The argument of `update_config`: one object, or a list or tuple of further arguments. */
  datatype Target = Single(config: Config) | Group(items: seq<Target>)

  /** The objects a target reaches, in the order `update_config` visits them. */
  function Flatten(t: Target): seq<Config>
    decreases t, 1
  {
    match t
    case Single(c) => [c]
    case Group(items) => FlattenAll(items)
  }

  function FlattenAll(ts: seq<Target>): seq<Config>
    decreases ts, 0
  {
    if ts == [] then [] else FlattenAll(ts[..|ts| - 1]) + Flatten(ts[|ts| - 1])
  }

  lemma {:induction false} FlattenAllAppend(a: seq<Target>, b: seq<Target>)
    ensures FlattenAll(a + b) == FlattenAll(a) + FlattenAll(b)
    decreases |b|
  {
    if b == [] {
      assert a + b == a;
    } else {
      var b' := b[..|b| - 1];
      FlattenAllAppend(a, b');
      assert (a + b)[..|a + b| - 1] == a + b';
    }
  }

  /** How the objects reached by the first `i + 1` items sit among those reached by all of them. */
  lemma FlattenAllStep(items: seq<Target>, i: nat)
    requires i < |items|
    ensures FlattenAll(items[..i + 1]) == FlattenAll(items[..i]) + Flatten(items[i])
    ensures FlattenAll(items) == FlattenAll(items[..i + 1]) + FlattenAll(items[i + 1..])
    ensures forall c :: c in FlattenAll(items[..i + 1]) ==> c in FlattenAll(items)
  {
    FlattenAllPrefix(items, i);
    FlattenAllSplit(items, i);
  }

  lemma FlattenAllPrefix(items: seq<Target>, i: nat)
    requires i < |items|
    ensures FlattenAll(items[..i + 1]) == FlattenAll(items[..i]) + Flatten(items[i])
  {
    var done := items[..i + 1];
    assert done[..i] == items[..i];
  }

  lemma FlattenAllSplit(items: seq<Target>, i: nat)
    requires i < |items|
    ensures FlattenAll(items) == FlattenAll(items[..i + 1]) + FlattenAll(items[i + 1..])
  {
    assert items[..i + 1] + items[i + 1..] == items;
    FlattenAllAppend(items[..i + 1], items[i + 1..]);
  }

  /** The fields of every object in `cs`. */
  function Snap(cs: seq<Config>): (s: Snapshot)
    reads set c | c in cs
    ensures forall c :: c in cs ==> c in s && s[c] == c.fields
  {
    map c | c in cs :: c.fields
  }

  type Snapshot = map<Config, Fields>

  datatype RunResult = RunResult(state: Snapshot, ok: bool)

  /**
   * `update_config` over objects visited in order, as a map from each object to its fields:
   * every object receives the keyword arguments in turn, and a split failure stops the whole
   * traversal. An object listed twice receives them twice.
   */
  function Run(cs: seq<Config>, kwargs: seq<Entry>, s: Snapshot): (r: RunResult)
    requires forall c :: c in cs ==> c in s
    ensures r.state.Keys == s.Keys
    ensures forall c :: c in s && c !in cs ==> r.state[c] == s[c]
    ensures forall c :: c in s ==> r.state[c].Keys == s[c].Keys
    decreases |cs|
  {
    if cs == [] then RunResult(s, true)
    else
      var p := Run(cs[..|cs| - 1], kwargs, s);
      if !p.ok then p
      else
        var c := cs[|cs| - 1];
        var a := ApplyKwargs(c.className, p.state[c], kwargs);
        RunResult(p.state[c := a.fields], a.ok)
  }

  lemma {:induction false} RunAppend(a: seq<Config>, b: seq<Config>, kwargs: seq<Entry>, s: Snapshot)
    requires forall c :: c in a + b ==> c in s
    ensures var p := Run(a, kwargs, s);
      Run(a + b, kwargs, s) == if p.ok then Run(b, kwargs, p.state) else p
    decreases |b|
  {
    if b == [] {
      assert a + b == a;
    } else {
      var b' := b[..|b| - 1];
      assert (a + b)[..|a + b| - 1] == a + b';
      RunAppend(a, b', kwargs, s);
    }
  }

  /**
   * One more stretch of objects: running `done` and then `mid` from `s` leaves each object of
   * `mid` as running `mid` alone from any snapshot agreeing with the state after `done`, and
   * every other object as it was after `done`.
   */
  lemma RunExtend(done: seq<Config>, mid: seq<Config>, kwargs: seq<Entry>, s: Snapshot, before: Snapshot)
    requires forall c :: c in done + mid ==> c in s
    requires Run(done, kwargs, s).ok
    requires forall c :: c in mid ==> c in before && before[c] == Run(done, kwargs, s).state[c]
    ensures var r := Run(done, kwargs, s);
      var m := Run(mid, kwargs, before);
      var r2 := Run(done + mid, kwargs, s);
      && r2.ok == m.ok
      && forall c :: c in s ==> r2.state[c] == if c in mid then m.state[c] else r.state[c]
  {
    var r := Run(done, kwargs, s);
    RunFrame(mid, kwargs, before, r.state);
    RunAppend(done, mid, kwargs, s);
  }

  /** A run depends only on the fields of the objects it visits. */
  lemma {:induction false} RunFrame(cs: seq<Config>, kwargs: seq<Entry>, s: Snapshot, t: Snapshot)
    requires forall c :: c in cs ==> c in s && c in t && s[c] == t[c]
    ensures Run(cs, kwargs, s).ok == Run(cs, kwargs, t).ok
    ensures forall c :: c in cs ==> Run(cs, kwargs, s).state[c] == Run(cs, kwargs, t).state[c]
    decreases |cs|
  {
    if cs != [] {
      RunFrame(cs[..|cs| - 1], kwargs, s, t);
    }
  }

  /**
   * A run that succeeds has applied the keyword arguments to every object it visits, as though
   * each had been updated exactly once.
   */
  lemma {:induction false} RunUpdatesEach(cs: seq<Config>, kwargs: seq<Entry>, s: Snapshot)
    requires forall c :: c in cs ==> c in s
    ensures Run(cs, kwargs, s).ok ==>
      forall c :: c in cs ==> Run(cs, kwargs, s).state[c] == ApplyKwargs(c.className, s[c], kwargs).fields
    decreases |cs|
  {
    if cs != [] {
      var prefix := cs[..|cs| - 1];
      var last := cs[|cs| - 1];
      RunUpdatesEach(prefix, kwargs, s);
      var p := Run(prefix, kwargs, s);
      if p.ok && last in prefix {
        ApplyKwargsIdempotent(last.className, s[last], kwargs);
      }
      assert forall c :: c in cs ==> c in prefix || c == last;
    }
  }

  /** A run succeeds exactly when the keyword arguments succeed on every object it visits. */
  lemma {:induction false} RunOk(cs: seq<Config>, kwargs: seq<Entry>, s: Snapshot)
    requires forall c :: c in cs ==> c in s
    ensures Run(cs, kwargs, s).ok <==> forall c :: c in cs ==> ApplyKwargs(c.className, s[c], kwargs).ok
    decreases |cs|
  {
    if cs != [] {
      var prefix := cs[..|cs| - 1];
      var last := cs[|cs| - 1];
      RunOk(prefix, kwargs, s);
      var p := Run(prefix, kwargs, s);
      ApplyKwargsOk(last.className, p.state[last], kwargs);
      ApplyKwargsOk(last.className, s[last], kwargs);
      assert forall c :: c in cs ==> c in prefix || c == last;
    }
  }

  /** After a successful run, running the same keyword arguments again changes nothing. */
  lemma RunIdempotentOk(cs: seq<Config>, kwargs: seq<Entry>, s: Snapshot)
    requires forall c :: c in cs ==> c in s
    requires Run(cs, kwargs, s).ok
    ensures Run(cs, kwargs, Run(cs, kwargs, s).state) == Run(cs, kwargs, s)
  {
    var r := Run(cs, kwargs, s);
    var r2 := Run(cs, kwargs, r.state);
    RunUpdatesEach(cs, kwargs, s);
    RunOk(cs, kwargs, s);
    forall c | c in cs
      ensures ApplyKwargs(c.className, r.state[c], kwargs) == ApplyKwargs(c.className, s[c], kwargs)
    {
      ApplyKwargsIdempotent(c.className, s[c], kwargs);
    }
    RunOk(cs, kwargs, r.state);
    assert r2.ok;
    RunUpdatesEach(cs, kwargs, r.state);
    forall c | c in r.state
      ensures r2.state[c] == r.state[c]
    {
      if c in cs {
        assert r2.state[c] == ApplyKwargs(c.className, r.state[c], kwargs).fields;
      }
    }
    assert r2.state == r.state;
  }

  /**
   * A run that fails at its last object: replaying it reaches that object in the same partial
   * state, which the interrupted update leaves as it is.
   */
  lemma RunIdempotentLastFails(cs: seq<Config>, kwargs: seq<Entry>, s: Snapshot)
    requires cs != [] && forall c :: c in cs ==> c in s
    requires Run(cs[..|cs| - 1], kwargs, s).ok && !Run(cs, kwargs, s).ok
    ensures Run(cs, kwargs, Run(cs, kwargs, s).state) == Run(cs, kwargs, s)
  {
    var pre, c := cs[..|cs| - 1], cs[|cs| - 1];
    var p := Run(pre, kwargs, s);
    var a := ApplyKwargs(c.className, p.state[c], kwargs);
    var t := Run(cs, kwargs, s).state;
    assert t == p.state[c := a.fields];
    FailingObjectIsNew(cs, kwargs, s);
    RunReplayOk(pre, kwargs, s, t);
    ApplyKwargsIdempotent(c.className, p.state[c], kwargs);
    assert t[c := a.fields] == t;
  }

  /** The object a run fails at was not visited before: it would have failed there already. */
  lemma FailingObjectIsNew(cs: seq<Config>, kwargs: seq<Entry>, s: Snapshot)
    requires cs != [] && forall c :: c in cs ==> c in s
    requires Run(cs[..|cs| - 1], kwargs, s).ok && !Run(cs, kwargs, s).ok
    ensures cs[|cs| - 1] !in cs[..|cs| - 1]
  {
    var pre, c := cs[..|cs| - 1], cs[|cs| - 1];
    var p := Run(pre, kwargs, s);
    RunOk(pre, kwargs, s);
    ApplyKwargsOk(c.className, s[c], kwargs);
    ApplyKwargsOk(c.className, p.state[c], kwargs);
  }

  /**
   * Replaying a successful run from a state whose objects of that run hold what it left them
   * with changes nothing.
   */
  lemma RunReplayOk(cs: seq<Config>, kwargs: seq<Entry>, s: Snapshot, t: Snapshot)
    requires forall c :: c in cs ==> c in s && c in t
    requires Run(cs, kwargs, s).ok
    requires forall c :: c in cs ==> t[c] == Run(cs, kwargs, s).state[c]
    ensures Run(cs, kwargs, t) == RunResult(t, true)
  {
    var r := Run(cs, kwargs, s);
    RunIdempotentOk(cs, kwargs, s);
    RunFrame(cs, kwargs, r.state, t);
    var q := Run(cs, kwargs, t);
    forall x | x in t
      ensures q.state[x] == t[x]
    {
      if x in cs {
        assert q.state[x] == Run(cs, kwargs, r.state).state[x];
      }
    }
    assert q.state == t;
  }

  /** Running the same keyword arguments again from the state a run leaves changes nothing. */
  lemma {:induction false} RunIdempotent(cs: seq<Config>, kwargs: seq<Entry>, s: Snapshot)
    requires forall c :: c in cs ==> c in s
    ensures Run(cs, kwargs, Run(cs, kwargs, s).state) == Run(cs, kwargs, s)
    decreases |cs|
  {
    if cs != [] {
      var pre := cs[..|cs| - 1];
      if !Run(pre, kwargs, s).ok {
        RunIdempotent(pre, kwargs, s);
      } else if Run(cs, kwargs, s).ok {
        RunIdempotentOk(cs, kwargs, s);
      } else {
        RunIdempotentLastFails(cs, kwargs, s);
      }
    }
  }

  /**
   * `update_config(config, **kwargs)`: an object gets the keyword arguments; a list or tuple is
   * walked element by element. A split failure ends the walk.
   */
  method UpdateConfig(t: Target, kwargs: seq<Entry>) returns (ok: bool)
    modifies set c | c in Flatten(t)
    ensures var r := Run(Flatten(t), kwargs, old(Snap(Flatten(t))));
      ok == r.ok && forall c :: c in Flatten(t) ==> c.fields == r.state[c]
    ensures ok ==> forall c :: c in Flatten(t) ==>
      c.fields == ApplyKwargs(c.className, old(c.fields), kwargs).fields
    decreases t, 1
  {
    ghost var s0 := Snap(Flatten(t));
    match t
    case Single(c) =>
      ok := c.Update(kwargs);
      assert [c][..0] == [];
    case Group(items) =>
      ok := UpdateItems(items, kwargs);
    RunUpdatesEach(Flatten(t), kwargs, s0);
  }

  /** The list branch of `update_config`: each element in order, recursing into nested lists. */
  method UpdateItems(items: seq<Target>, kwargs: seq<Entry>) returns (ok: bool)
    modifies set c | c in FlattenAll(items)
    ensures var r := Run(FlattenAll(items), kwargs, old(Snap(FlattenAll(items))));
      ok == r.ok && forall c :: c in FlattenAll(items) ==> c.fields == r.state[c]
    decreases items, 0
  {
    ghost var all := FlattenAll(items);
    ghost var s0 := Snap(all);
    ghost var done: seq<Config> := [];
    var i := 0;
    while i < |items|
      invariant 0 <= i <= |items|
      invariant done == FlattenAll(items[..i])
      invariant forall c :: c in done ==> c in all
      invariant Run(done, kwargs, s0).ok
      invariant forall c :: c in all ==> c.fields == Run(done, kwargs, s0).state[c]
    {
      ghost var r := Run(done, kwargs, s0);
      ghost var mid := Flatten(items[i]);
      FlattenAllStep(items, i);
      ghost var before := Snap(mid);
      label Visit:
      var itemOk := UpdateConfig(items[i], kwargs);
      ghost var m := Run(mid, kwargs, before);
      RunExtend(done, mid, kwargs, s0, before);
      ghost var r2 := Run(done + mid, kwargs, s0);
      forall c | c in all
        ensures c.fields == r2.state[c]
      {
        if c !in mid {
          assert c.fields == old@Visit(c.fields);
        }
      }
      if !itemOk {
        RunAppend(done + mid, FlattenAll(items[i + 1..]), kwargs, s0);
        return false;
      }
      assert done + mid == FlattenAll(items[..i + 1]);
      done := done + mid;
      i := i + 1;
    }
    assert items[..i] == items;
    ok := true;
  }

  // ---------------------------------------------------------------------------------------------
  // create_tuning_config

  const LoraConfigName := "LoraConfig"
  const PromptTuningConfigName := "PromptTuningConfig"

  datatype TuningError =
    | UndefinedPeftMethod(peftMethod: Value)  // the assertion on the method name fails
    | UpdateFailed                            // update_config raised on the new object

  /**
   * The class of tuning configuration a PEFT method name selects: None for full tuning, an error
   * for a name outside the allowed four.
   */
  function TuningConfigClass(peftMethod: Value): (r: Result<Option<string>, TuningError>)
    ensures r.Failure? <==> peftMethod !in {VNone, VStr("lora"), VStr("pt"), VStr("None")}
    ensures r.Failure? ==> r.error == UndefinedPeftMethod(peftMethod)
    ensures r == Success(Some(LoraConfigName)) <==> peftMethod == VStr("lora")
    ensures r == Success(Some(PromptTuningConfigName)) <==> peftMethod == VStr("pt")
    ensures r == Success(None) <==> peftMethod == VNone || peftMethod == VStr("None")
  {
    if peftMethod !in {VNone, VStr("lora"), VStr("pt"), VStr("None")} then
      Failure(UndefinedPeftMethod(peftMethod))
    else if peftMethod == VStr("lora") then Success(Some(LoraConfigName))
    else if peftMethod == VStr("pt") then Success(Some(PromptTuningConfigName))
    else Success(None)
  }

  /**
   * `create_tuning_config(peft_method, **kwargs)`. The default attribute values of the two
   * configuration classes are parameters.
   */
  method CreateTuningConfig(peftMethod: Value, kwargs: seq<Entry>, loraDefaults: Fields, promptTuningDefaults: Fields)
    returns (r: Result<Option<Config>, TuningError>)
    ensures TuningConfigClass(peftMethod).Failure? ==> r == Failure(UndefinedPeftMethod(peftMethod))
    ensures TuningConfigClass(peftMethod) == Success(None) ==> r == Success(None)
    ensures peftMethod == VStr("lora") || peftMethod == VStr("pt") ==>
      var cls := if peftMethod == VStr("lora") then LoraConfigName else PromptTuningConfigName;
      var defaults := if peftMethod == VStr("lora") then loraDefaults else promptTuningDefaults;
      var a := ApplyKwargs(cls, defaults, kwargs);
      if a.ok then
        r.Success? && r.value.Some? && fresh(r.value.value)
        && r.value.value.className == cls && r.value.value.fields == a.fields
      else r == Failure(UpdateFailed)
  {
    var kind := TuningConfigClass(peftMethod);
    match kind
    case Failure(e) => r := Failure(e);
    case Success(None) => r := Success(None);
    case Success(Some(cls)) =>
      var defaults := if cls == LoraConfigName then loraDefaults else promptTuningDefaults;
      var c := new Config(cls, defaults);
      var ok := c.Update(kwargs);
      r := if ok then Success(Some(c)) else Failure(UpdateFailed);
  }
}
