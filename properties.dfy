/**
 Properties of the accumulator that relate several operations: sequences of tag
 updates, the static capture forms, and what a population does to a scope.
 */
module ReporterProperties {
  import opened Values
  import opened Levels
  import opened Breadcrumbs
  import opened Reporter

  /** One call of `setTag(key, value)` or `setTags(fields)`. */
  datatype TagWrite = SetOne(key: string, value: Value) | SetMany(fields: Fields)

  /** The tag object after one call, as `Vedette.SetTag` and `Vedette.SetTags`
      state it. */
  function Apply(tags: Obj, w: TagWrite): (r: Obj)
  {
    match w
    case SetOne(k, v) => Assign(tags, k, v)
    case SetMany(m) => Obj(Merge(tags.own, m), false)
  }

  /** The tag object after the calls `ws`, in order. */
  function ApplyAll(tags: Obj, ws: seq<TagWrite>): (r: Obj)
  {
    if ws == [] then tags else Apply(ApplyAll(tags, ws[..|ws| - 1]), ws[|ws| - 1])
  }

  /** The map a call contributes: `{ [key]: value }` or `fields`. */
  function Argument(w: TagWrite): (m: Fields)
  {
    match w
    case SetOne(k, v) => map[k := v]
    case SetMany(m) => m
  }

  /** The left-to-right key-wise merge of all the call arguments. */
  function MergeAll(ws: seq<TagWrite>): (m: Fields)
  {
    if ws == [] then map[] else Merge(MergeAll(ws[..|ws| - 1]), Argument(ws[|ws| - 1]))
  }

  /** No single-key call writes `__proto__`. */
  predicate NoProtoAssign(ws: seq<TagWrite>)
  {
    forall i :: 0 <= i < |ws| && ws[i].SetOne? ==> ws[i].key != ProtoKey
  }

  /** A call other than a single write of `__proto__` merges its argument in. */
  lemma ApplyIsMerge(tags: Obj, w: TagWrite)
    requires !(w.SetOne? && w.key == ProtoKey)
    ensures Apply(tags, w).own == Merge(tags.own, Argument(w))
  {
    match w
    case SetOne(k, v) =>
      assert Assign(tags, k, v).own == tags.own[k := v];
    case SetMany(m) =>
  }

  /** Whatever mix of single and bulk calls is used, the tags end up as the
      starting tags overridden by the merge of all the arguments, the last
      write of each key winning, as long as no single-key call targets
      `__proto__` (see `ProtoAssignBreaksMerge`). */
  lemma {:induction false} WritesAreMerge(tags: Obj, ws: seq<TagWrite>)
    requires NoProtoAssign(ws)
    ensures ApplyAll(tags, ws).own == Merge(tags.own, MergeAll(ws))
  {
    if ws != [] {
      var front := ws[..|ws| - 1];
      var w := ws[|ws| - 1];
      assert NoProtoAssign(front) by {
        forall i | 0 <= i < |front| && front[i].SetOne? ensures front[i].key != ProtoKey {
          assert front[i] == ws[i];
        }
      }
      WritesAreMerge(tags, front);
      ApplyIsMerge(ApplyAll(tags, front), w);
      MergeAssociative(tags.own, MergeAll(front), Argument(w));
    }
  }

  /** `setTag('__proto__', v)` on fresh tags stores nothing, whereas
      `setTags(m)` with an argument that has `__proto__` as an own property
      (written `{ ['__proto__']: v }`, or produced by `JSON.parse`) stores it,
      because spread copies own properties as data: the single and bulk forms
      differ on this one key. */
  lemma ProtoAssignBreaksMerge(v: Value)
    ensures ApplyAll(Obj(map[], false), [SetOne(ProtoKey, v)]).own == map[]
    ensures ApplyAll(Obj(map[], false), [SetMany(map[ProtoKey := v])]).own == map[ProtoKey := v]
    ensures Merge(map[], MergeAll([SetOne(ProtoKey, v)])) == map[ProtoKey := v]
  {
    assert [SetOne(ProtoKey, v)][..0] == [];
    assert [SetMany(map[ProtoKey := v])][..0] == [];
  }

  /** `setTag('__proto__', null)` nulls the prototype, so a second
      `setTag('__proto__', v)` finds no setter and stores an own property. */
  lemma NullProtoThenStored(v: Value)
    ensures ApplyAll(Obj(map[], false), [SetOne(ProtoKey, Null)]) == Obj(map[], true)
    ensures ApplyAll(Obj(map[], false), [SetOne(ProtoKey, Null), SetOne(ProtoKey, v)]).own == map[ProtoKey := v]
  {
    assert [SetOne(ProtoKey, Null)][..0] == [];
    assert [SetOne(ProtoKey, Null), SetOne(ProtoKey, v)][..1] == [SetOne(ProtoKey, Null)];
  }

  /** Runs the calls `ws` on an accumulator built with tags `start`, one after
      the other, and returns the resulting tags. */
  method RunWrites(start: Fields, ws: seq<TagWrite>) returns (tags: Fields)
    ensures tags == ApplyAll(Obj(start, false), ws).own
    ensures NoProtoAssign(ws) ==> tags == Merge(start, MergeAll(ws))
  {
    var ved := new Vedette(Options(start, map[], map[], Undefined));
    var i := 0;
    while i < |ws|
      invariant 0 <= i <= |ws|
      invariant ved.TagsObj() == ApplyAll(Obj(start, false), ws[..i])
    {
      assert ws[..i + 1][..i] == ws[..i];
      match ws[i] {
        case SetOne(k, v) =>
          var _ := ved.SetTag(k, v);
        case SetMany(m) =>
          var _ := ved.SetTags(m);
      }
      i := i + 1;
    }
    assert ws[..i] == ws;
    tags := ved.tags;
    if NoProtoAssign(ws) {
      WritesAreMerge(Obj(start, false), ws);
    }
  }

  /** `setTag('__proto__', null)` then `setTag('__proto__', 'x')`: the second
      write finds no setter, stores an own property, and the scope receives it. */
  method NullPrototypeThenOwnProto() returns (st: Context)
    ensures st.tags == map[ProtoKey := Str("x")]
  {
    var scope := new Scope();
    var ved := new Vedette(NoOptions);
    var _ := ved.SetTag(ProtoKey, Null);
    var _ := ved.SetTag(ProtoKey, Str("x"));
    MergeEmpty(ved.tags);
    ved.PopulateSentryScope(scope, NoOptions);
    st := scope.State();
  }

  /** `Vedette.captureException(err, o)` gives the scope the same contents as
      `new Vedette(o).captureException(err)`: passing the options per call to an
      empty accumulator or to the constructor makes no difference, the level
      included (an empty-string level is dropped on both paths). */
  lemma StaticFormMatchesConstructed(s: Context, o: Options)
    ensures Populate(s, Initial(NoOptions), o) == Populate(s, Initial(o), NoOptions)
  {
    MergeEmpty(o.tags);
    MergeEmpty(o.user);
    MergeEmpty(o.extra);
  }

  /** Capturing does not reset the accumulator: populating a second time with
      the same options replays the breadcrumbs again and leaves maps and level
      as the first time. */
  lemma PopulateTwice(s: Context, c: Context, o: Options)
    ensures Populate(Populate(s, c, o), c, o)
         == Populate(s, c, o).(breadcrumbs := s.breadcrumbs + c.breadcrumbs + c.breadcrumbs)
  {
  }

  // ---------------------------------------------------------------------------
  // The expectations of the reporter's own test suite, as clients of the classes.

  /** An empty accumulator leaves a fresh scope empty. */
  method EmptyPopulation() returns (st: Context)
    ensures st == EmptyContext
  {
    var scope := new Scope();
    var ved := new Vedette(NoOptions);
    ved.PopulateSentryScope(scope, NoOptions);
    st := scope.State();
  }

  /** Options given to the constructor are the initial maps; no breadcrumbs, no level. */
  method ConstructedWithValues() returns (st: Context)
    ensures st.breadcrumbs == [] && st.level == None
    ensures st.tags == map["key" := Str("value")]
    ensures st.user == map["id" := Str("example-id")]
    ensures st.extra == map["key" := Str("value")]
  {
    var ved := new Vedette(Options(map["key" := Str("value")], map["id" := Str("example-id")],
                                   map["key" := Str("value")], Undefined));
    st := ved.State();
  }

  /** Any number of crumbs is kept in the order added, each stamped, so crumbs
      that carry their own timestamps are stored exactly as given; right after a
      clear the list is empty, and the next crumb is then the only one. */
  method BreadcrumbsThenClear(crumbs: seq<Fields>, nowMillis: int)
    returns (before: seq<Fields>, cleared: seq<Fields>, after: seq<Fields>)
    ensures |before| == |crumbs|
    ensures forall i :: 0 <= i < |crumbs| ==> before[i] == Stamp(crumbs[i], Seconds(nowMillis))
    ensures (forall i :: 0 <= i < |crumbs| ==> TimestampKey in crumbs[i]) ==> before == crumbs
    ensures cleared == []
    ensures after == [map["message" := Str("two"), "timestamp" := Num(nowMillis / 1000)]]
  {
    var ved := new Vedette(NoOptions);
    var i := 0;
    while i < |crumbs|
      invariant 0 <= i <= |crumbs|
      invariant |ved.breadcrumbs| == i
      invariant forall j :: 0 <= j < i ==> ved.breadcrumbs[j] == Stamp(crumbs[j], Seconds(nowMillis))
    {
      var _ := ved.AddBreadcrumb(crumbs[i], nowMillis);
      i := i + 1;
    }
    before := ved.breadcrumbs;
    if forall j :: 0 <= j < |crumbs| ==> TimestampKey in crumbs[j] {
      forall j | 0 <= j < |crumbs|
        ensures before[j] == crumbs[j]
      {
        OwnTimestampKept(crumbs[j], Seconds(nowMillis));
      }
    }
    var _ := ved.ClearBreadcrumbs();
    cleared := ved.breadcrumbs;
    var _ := ved.AddBreadcrumb(map["message" := Str("two")], nowMillis);
    after := ved.breadcrumbs;
    ClockTimestampAdded(map["message" := Str("two")], Seconds(nowMillis));
  }

  /** A string level is stored; `1` and `null` clear it. */
  method LevelSetThenCleared() returns (first: Option<string>, second: Option<string>, third: Option<string>)
    ensures first == Some("warning") && second == None && third == None
  {
    var ved := new Vedette(NoOptions);
    var _ := ved.SetLevel(Str("warning"));
    first := ved.level;
    var _ := ved.SetLevel(Num(1));
    second := ved.level;
    var _ := ved.SetLevel(Null);
    third := ved.level;
  }

  /** Populating a fresh scope from the accumulator of the full-object test. */
  lemma FullObjectProjection(t: int)
    ensures Populate(EmptyContext,
                     Context([map["type" := Str("info"), "message" := Str("m"), "timestamp" := Num(t)]],
                             map["tag1" := Str("value1")],
                             map["id" := Str("some-id"), "ip_address" := Str("127.0.0.1")],
                             map["extra1" := Str("value1")],
                             Some("warning")),
                     NoOptions)
         == Context([map["type" := Str("info"), "message" := Str("m"), "timestamp" := Num(t)]],
                    map["tag1" := Str("value1")],
                    map["id" := Str("some-id"), "ip_address" := Str("127.0.0.1")],
                    map["extra1" := Str("value1")],
                    Some("warning"))
  {
  }

  /** A full accumulator reaches the scope whole, level included. */
  method FullPopulation(nowMillis: int) returns (st: Context)
    ensures st.breadcrumbs == [map["type" := Str("info"), "message" := Str("m"), "timestamp" := Num(nowMillis / 1000)]]
    ensures st.tags == map["tag1" := Str("value1")]
    ensures st.user == map["id" := Str("some-id"), "ip_address" := Str("127.0.0.1")]
    ensures st.extra == map["extra1" := Str("value1")]
    ensures st.level == Some("warning")
  {
    var scope := new Scope();
    var ved := new Vedette(NoOptions);
    var _ := ved.AddBreadcrumb(map["type" := Str("info"), "message" := Str("m")], nowMillis);
    ClockTimestampAdded(map["type" := Str("info"), "message" := Str("m")], Seconds(nowMillis));
    var _ := ved.SetTags(map["tag1" := Str("value1")]);
    var _ := ved.SetUser(map["id" := Str("some-id"), "ip_address" := Str("127.0.0.1")]);
    var _ := ved.SetExtras(map["extra1" := Str("value1")]);
    var _ := ved.SetLevel(Str("warning"));
    MergeEmpty(map["tag1" := Str("value1")]);
    MergeEmpty(map["id" := Str("some-id"), "ip_address" := Str("127.0.0.1")]);
    MergeEmpty(map["extra1" := Str("value1")]);
    ved.PopulateSentryScope(scope, NoOptions);
    st := scope.State();
    FullObjectProjection(nowMillis / 1000);
  }

  /** A three-entry map whose middle entry is `undefined` projects to the
      other two entries. */
  lemma DropsMiddle(k1: string, k2: string, k3: string, v1: Value, v3: Value)
    requires k1 != k2 && k2 != k3 && k1 != k3 && v1 != Undefined && v3 != Undefined
    ensures Project(map[k1 := v1, k2 := Undefined, k3 := v3], map[]) == map[k1 := v1, k3 := v3]
  {
    MergeEmpty(map[k1 := v1, k2 := Undefined, k3 := v3]);
    SanitizeUpdate(map[k1 := v1, k2 := Undefined], k3, v3);
    SanitizeUpdate(map[k1 := v1], k2, Undefined);
    SanitizeUpdate(map[], k1, v1);
  }

  /** Populating a fresh scope from the accumulator of the `undefined` test. */
  lemma UndefinedProjection(crumbs: seq<Fields>)
    ensures Populate(EmptyContext,
                     Context(crumbs,
                             map["tag1" := Str("value1"), "tag2" := Undefined, "tag3" := Str("value3")],
                             map["id" := Undefined, "ip_address" := Str("127.0.0.1")],
                             map["extra1" := Str("value1"), "extra2" := Undefined, "extra3" := Str("value3")],
                             None),
                     NoOptions)
         == Context(crumbs,
                    map["tag1" := Str("value1"), "tag3" := Str("value3")],
                    map["ip_address" := Str("127.0.0.1")],
                    map["extra1" := Str("value1"), "extra3" := Str("value3")],
                    None)
  {
    DropsMiddle("tag1", "tag2", "tag3", Str("value1"), Str("value3"));
    DropsMiddle("extra1", "extra2", "extra3", Str("value1"), Str("value3"));
    MergeEmpty(map["id" := Undefined, "ip_address" := Str("127.0.0.1")]);
    SanitizeUpdate(map["id" := Undefined], "ip_address", Str("127.0.0.1"));
    SanitizeUpdate(map[], "id", Undefined);
  }

  /** `undefined` values are stored by the accumulator but never reach the
      scope, which receives the breadcrumb and the defined entries only. */
  method UndefinedDropped(nowMillis: int) returns (stored: Context, st: Context)
    ensures stored.tags == map["tag1" := Str("value1"), "tag2" := Undefined, "tag3" := Str("value3")]
    ensures stored.user == map["id" := Undefined, "ip_address" := Str("127.0.0.1")]
    ensures stored.extra == map["extra1" := Str("value1"), "extra2" := Undefined, "extra3" := Str("value3")]
    ensures st.breadcrumbs == [map["type" := Str("info"), "message" := Str("m"), "timestamp" := Num(nowMillis / 1000)]]
    ensures st.tags == map["tag1" := Str("value1"), "tag3" := Str("value3")]
    ensures st.user == map["ip_address" := Str("127.0.0.1")]
    ensures st.extra == map["extra1" := Str("value1"), "extra3" := Str("value3")]
    ensures st.level == None
  {
    var scope := new Scope();
    var ved := new Vedette(NoOptions);
    var _ := ved.AddBreadcrumb(map["type" := Str("info"), "message" := Str("m")], nowMillis);
    ClockTimestampAdded(map["type" := Str("info"), "message" := Str("m")], Seconds(nowMillis));
    var _ := ved.SetTags(map["tag1" := Str("value1"), "tag2" := Undefined, "tag3" := Str("value3")]);
    var _ := ved.SetUser(map["id" := Undefined, "ip_address" := Str("127.0.0.1")]);
    var _ := ved.SetExtras(map["extra1" := Str("value1"), "extra2" := Undefined, "extra3" := Str("value3")]);
    MergeEmpty(map["tag1" := Str("value1"), "tag2" := Undefined, "tag3" := Str("value3")]);
    MergeEmpty(map["id" := Undefined, "ip_address" := Str("127.0.0.1")]);
    MergeEmpty(map["extra1" := Str("value1"), "extra2" := Undefined, "extra3" := Str("value3")]);
    stored := ved.State();
    ved.PopulateSentryScope(scope, NoOptions);
    st := scope.State();
    UndefinedProjection(ved.breadcrumbs);
  }

  /** A stored level outside the allowed set wins over a valid per-call level
      and so leaves the scope's level untouched. */
  method InvalidStoredLevelBlocksOverride() returns (st: Context)
    ensures st.level == None
  {
    var scope := new Scope();
    var ved := new Vedette(Options(map[], map[], map[], Str("verbose")));
    ved.PopulateSentryScope(scope, Options(map[], map[], map[], Str("fatal")));
    st := scope.State();
    InvalidLevelIsStoredAndSuppresses(Str("fatal"));
  }

  /** Populating a fresh scope from the accumulator of the capture test. */
  lemma CaptureProjection()
    ensures Populate(EmptyContext,
                     Context([], map["tag1" := Str("value1")],
                             map["id" := Str("some-id"), "ip_address" := Str("127.0.0.1")],
                             map["extra1" := Str("value1")], Some("fatal")),
                     NoOptions)
         == Context([], map["tag1" := Str("value1")],
                    map["id" := Str("some-id"), "ip_address" := Str("127.0.0.1")],
                    map["extra1" := Str("value1")], Some("fatal"))
  {
  }

  /** An accumulator built with maps and the level `fatal` captures an
      exception: one report, carrying the error and a scope holding that context. */
  method CaptureWithContext<E>(err: E) returns (report: Report<E>)
    ensures report.payload == Exception(err)
    ensures report.scope.breadcrumbs == []
    ensures report.scope.tags == map["tag1" := Str("value1")]
    ensures report.scope.user == map["id" := Str("some-id"), "ip_address" := Str("127.0.0.1")]
    ensures report.scope.extra == map["extra1" := Str("value1")]
    ensures report.scope.level == Some("fatal")
  {
    var scope := new Scope();
    var ved := new Vedette(Options(map["tag1" := Str("value1")],
                                   map["id" := Str("some-id"), "ip_address" := Str("127.0.0.1")],
                                   map["extra1" := Str("value1")], Str("fatal")));
    var _, r := ved.CaptureException(scope, err, NoOptions);
    report := r;
    CaptureProjection();
  }
}
