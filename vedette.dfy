/**
 The Vedette context accumulator: breadcrumbs, tags, user, extra and a level,
 updated in place by chainable mutators and projected onto a reporting scope
 just before an exception or message is captured.
 */
module Reporter {
  import opened Values
  import opened Levels
  import opened Breadcrumbs

  /** The five fields shared by the accumulator and by a scope. A level of
      `None` is JavaScript's `null`. */
  datatype Context = Context(
    breadcrumbs: seq<Fields>,
    tags: Fields,
    user: Fields,
    extra: Fields,
    level: Option<string>)

  const EmptyContext := Context([], map[], map[], map[], None)

  /** The object `{ tags, user, extra, level }` accepted by the constructor and,
      per call, by population and capture. A missing map is the empty map (for
      the constructor through its `= {}` defaults, per call because spreading
      `undefined` adds nothing); a missing level is `Undefined`. */
  datatype Options = Options(tags: Fields, user: Fields, extra: Fields, level: Value)

  /** `new Vedette()`, and the `additional = null` default of every call. */
  const NoOptions := Options(map[], map[], map[], Undefined)

  /** The state right after construction. */
  function Initial(o: Options): (c: Context)
    ensures c.breadcrumbs == []
    ensures c.tags == o.tags && c.user == o.user && c.extra == o.extra
    ensures c.level.Some? <==> o.level.Str?
    ensures c.level.Some? ==> c.level.value == o.level.s
  {
    Context([], o.tags, o.user, o.extra, StoredLevel(o.level))
  }

  /** The scope `s` after the accumulator in state `c` has populated it with
      per-call options `o`. */
  function Populate(s: Context, c: Context, o: Options): (r: Context)
    ensures |r.breadcrumbs| == |s.breadcrumbs| + |c.breadcrumbs|
    ensures r.breadcrumbs[..|s.breadcrumbs|] == s.breadcrumbs
    ensures r.breadcrumbs[|s.breadcrumbs|..] == c.breadcrumbs
    ensures r.tags == Project(c.tags, o.tags) && r.user == Project(c.user, o.user) && r.extra == Project(c.extra, o.extra)
    ensures IsAllowed(EffectiveLevel(c.level, o.level)) ==> r.level == Some(EffectiveLevel(c.level, o.level).s)
    ensures !IsAllowed(EffectiveLevel(c.level, o.level)) ==> r.level == s.level
  {
    Context(
      s.breadcrumbs + c.breadcrumbs,
      Project(c.tags, o.tags),
      Project(c.user, o.user),
      Project(c.extra, o.extra),
      match LevelToSet(c.level, o.level)
      case Some(l) => Some(l)
      case None => s.level)
  }

  /** What the external reporter is handed: the error (of any type `E`, as it
      is passed through untouched) or the message, and the contents of the scope
      it is captured within. */
  datatype Payload<E> = Exception(err: E) | Message(msg: string)
  datatype Report<E> = Report(payload: Payload<E>, scope: Context)

  /** A reporting scope, with the behaviour of the test double: breadcrumbs are
      appended, each map and the level are replaced whole. */
  class Scope {
    var breadcrumbs: seq<Fields>
    var tags: Fields
    var user: Fields
    var extra: Fields
    var level: Option<string>

    function State(): (c: Context)
      reads this
    {
      Context(breadcrumbs, tags, user, extra, level)
    }

    constructor ()
      ensures State() == EmptyContext
    {
      breadcrumbs, tags, user, extra, level := [], map[], map[], map[], None;
    }

    method AddBreadcrumb(crumb: Fields) returns (self: Scope)
      modifies this
      ensures self == this
      ensures State() == old(State()).(breadcrumbs := old(breadcrumbs) + [crumb])
    {
      breadcrumbs := breadcrumbs + [crumb];
      self := this;
    }

    method SetTags(m: Fields) returns (self: Scope)
      modifies this
      ensures self == this
      ensures State() == old(State()).(tags := m)
    {
      tags := m;
      self := this;
    }

    method SetUser(m: Fields) returns (self: Scope)
      modifies this
      ensures self == this
      ensures State() == old(State()).(user := m)
    {
      user := m;
      self := this;
    }

    method SetExtras(m: Fields) returns (self: Scope)
      modifies this
      ensures self == this
      ensures State() == old(State()).(extra := m)
    {
      extra := m;
      self := this;
    }

    method SetLevel(l: string) returns (self: Scope)
      modifies this
      ensures self == this
      ensures State() == old(State()).(level := Some(l))
    {
      level := Some(l);
      self := this;
    }
  }

  /** The accumulator. Every mutator returns the receiver so that calls chain.
      Besides the five fields, it tracks whether the tag and extra objects have
      had their prototype set to `null` by a single-key write of `__proto__`. */
  class Vedette {
    var breadcrumbs: seq<Fields>
    var tags: Fields
    var tagsNullProto: bool
    var user: Fields
    var extra: Fields
    var extraNullProto: bool
    var level: Option<string>

    function State(): (c: Context)
      reads this
    {
      Context(breadcrumbs, tags, user, extra, level)
    }

    /** The tag object that `setTag` writes into. */
    function TagsObj(): (o: Obj)
      reads this
    {
      Obj(tags, tagsNullProto)
    }

    /** The extra object that `setExtra` writes into. */
    function ExtraObj(): (o: Obj)
      reads this
    {
      Obj(extra, extraNullProto)
    }

    /** `new Vedette(o)`: no breadcrumbs, the given maps, and the given level if
        it is a string (any string), otherwise none. */
    constructor (o: Options)
      ensures State() == Initial(o)
      ensures !tagsNullProto && !extraNullProto
    {
      breadcrumbs := [];
      tags, user, extra := o.tags, o.user, o.extra;
      tagsNullProto, extraNullProto := false, false;
      level := if o.level.Str? then Some(o.level.s) else None;
    }

    /** Appends one record stamped with the clock reading `nowMillis`
        (`Date.now()`); the caller's own `timestamp` property, if any, is kept. */
    method AddBreadcrumb(crumb: Fields, nowMillis: int) returns (self: Vedette)
      modifies this
      ensures self == this
      ensures State() == old(State()).(breadcrumbs := old(breadcrumbs) + [Stamp(crumb, Seconds(nowMillis))])
      ensures tagsNullProto == old(tagsNullProto) && extraNullProto == old(extraNullProto)
    {
      var timestamp := nowMillis / 1000;
      breadcrumbs := breadcrumbs + [Merge(map[TimestampKey := Num(timestamp)], crumb)];
      self := this;
    }

    method ClearBreadcrumbs() returns (self: Vedette)
      modifies this
      ensures self == this
      ensures State() == old(State()).(breadcrumbs := [])
      ensures tagsNullProto == old(tagsNullProto) && extraNullProto == old(extraNullProto)
    {
      breadcrumbs := [];
      self := this;
    }

    /** `this.tags[key] = value`: the tag object becomes `Assign` of the old one,
        which for `__proto__` may store nothing and null the prototype instead. */
    method SetTag(key: string, value: Value) returns (self: Vedette)
      modifies this
      ensures self == this
      ensures TagsObj() == Assign(old(TagsObj()), key, value)
      ensures State() == old(State()).(tags := tags)
      ensures extraNullProto == old(extraNullProto)
    {
      if key == ProtoKey && key !in tags && !tagsNullProto {
        if value == Null {
          tagsNullProto := true;
        }
      } else {
        tags := tags[key := value];
      }
      self := this;
    }

    /** `{ ...this.tags, ...tags }` builds a fresh object, so the tags regain
        the ordinary prototype. */
    method SetTags(m: Fields) returns (self: Vedette)
      modifies this
      ensures self == this
      ensures State() == old(State()).(tags := Merge(old(tags), m))
      ensures !tagsNullProto && extraNullProto == old(extraNullProto)
    {
      tags, tagsNullProto := tags + m, false;
      self := this;
    }

    method SetUser(m: Fields) returns (self: Vedette)
      modifies this
      ensures self == this
      ensures State() == old(State()).(user := Merge(old(user), m))
      ensures tagsNullProto == old(tagsNullProto) && extraNullProto == old(extraNullProto)
    {
      user := user + m;
      self := this;
    }

    /** `this.extra[key] = value`, likewise. */
    method SetExtra(key: string, value: Value) returns (self: Vedette)
      modifies this
      ensures self == this
      ensures ExtraObj() == Assign(old(ExtraObj()), key, value)
      ensures State() == old(State()).(extra := extra)
      ensures tagsNullProto == old(tagsNullProto)
    {
      if key == ProtoKey && key !in extra && !extraNullProto {
        if value == Null {
          extraNullProto := true;
        }
      } else {
        extra := extra[key := value];
      }
      self := this;
    }

    /** Likewise for the extras. */
    method SetExtras(m: Fields) returns (self: Vedette)
      modifies this
      ensures self == this
      ensures State() == old(State()).(extra := Merge(old(extra), m))
      ensures !extraNullProto && tagsNullProto == old(tagsNullProto)
    {
      extra, extraNullProto := extra + m, false;
      self := this;
    }

    /** Stores any string as it is and `null` for anything else. */
    method SetLevel(v: Value) returns (self: Vedette)
      modifies this
      ensures self == this
      ensures State() == old(State()).(level := StoredLevel(v))
      ensures tagsNullProto == old(tagsNullProto) && extraNullProto == old(extraNullProto)
    {
      level := if v.Str? then Some(v.s) else None;
      self := this;
    }

    /** Replays the breadcrumbs onto `scope` in order, each call on the scope
        the previous one returned, then hands it the cleaned merged maps and,
        when the effective level is allowed, that level. The accumulator
        itself is left as it was. */
    method PopulateSentryScope(scope: Scope, o: Options)
      modifies scope
      ensures State() == old(State())
      ensures scope.State() == Populate(old(scope.State()), State(), o)
    {
      var s := scope;
      var i := 0;
      while i < |breadcrumbs|
        invariant 0 <= i <= |breadcrumbs|
        invariant s == scope
        invariant scope.State() == old(scope.State()).(breadcrumbs := old(scope.breadcrumbs) + breadcrumbs[..i])
      {
        s := s.AddBreadcrumb(breadcrumbs[i]);
        i := i + 1;
      }
      assert breadcrumbs[..i] == breadcrumbs;

      var t := JsonRoundTrip(Merge(tags, o.tags));
      s := scope.SetTags(t);
      var u := JsonRoundTrip(Merge(user, o.user));
      s := scope.SetUser(u);
      var e := JsonRoundTrip(Merge(extra, o.extra));
      s := scope.SetExtras(e);

      var effective := if level.Some? && level.value != "" then Str(level.value) else o.level;
      if effective.Str? && effective.s in AllowedLevels {
        s := scope.SetLevel(effective.s);
      }
    }

    /** Populates the scope the reporter supplies, then captures `err` within it. */
    method CaptureException<E>(scope: Scope, err: E, o: Options) returns (self: Vedette, report: Report<E>)
      modifies scope
      ensures self == this
      ensures State() == old(State())
      ensures scope.State() == Populate(old(scope.State()), State(), o)
      ensures report == Report(Exception(err), scope.State())
    {
      PopulateSentryScope(scope, o);
      report := Report(Exception(err), scope.State());
      self := this;
    }

    /** Populates the scope the reporter supplies, then captures `msg` within it. */
    method CaptureMessage<E>(scope: Scope, msg: string, o: Options) returns (self: Vedette, report: Report<E>)
      modifies scope
      ensures self == this
      ensures State() == old(State())
      ensures scope.State() == Populate(old(scope.State()), State(), o)
      ensures report == Report(Message(msg), scope.State())
    {
      PopulateSentryScope(scope, o);
      report := Report(Message(msg), scope.State());
      self := this;
    }

    /** `Vedette.captureException(err, o)`: a fresh empty accumulator, with `o`
        passed per call rather than to the constructor. */
    static method StaticCaptureException<E>(scope: Scope, err: E, o: Options) returns (v: Vedette, report: Report<E>)
      modifies scope
      ensures fresh(v) && v.State() == Initial(NoOptions)
      ensures !v.tagsNullProto && !v.extraNullProto
      ensures scope.State() == Populate(old(scope.State()), Initial(NoOptions), o)
      ensures report == Report(Exception(err), scope.State())
    {
      var ved := new Vedette(NoOptions);
      v, report := ved.CaptureException(scope, err, o);
    }

    /** `Vedette.captureMessage(msg, o)`, likewise. */
    static method StaticCaptureMessage<E>(scope: Scope, msg: string, o: Options) returns (v: Vedette, report: Report<E>)
      modifies scope
      ensures fresh(v) && v.State() == Initial(NoOptions)
      ensures !v.tagsNullProto && !v.extraNullProto
      ensures scope.State() == Populate(old(scope.State()), Initial(NoOptions), o)
      ensures report == Report(Message(msg), scope.State())
    {
      var ved := new Vedette(NoOptions);
      v, report := ved.CaptureMessage(scope, msg, o);
    }
  }
}
