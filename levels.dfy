/**
 Severity levels: how a level is stored by the reporter, and which level, if
 any, is pushed onto a scope when the reporter populates it.
 */
module Levels {
  import opened Values

  /** The severities a scope accepts, exact and case-sensitive. */
  const AllowedLevels: seq<string> := ["critical", "fatal", "error", "warning", "info", "log", "debug"]

  /** `typeof v === 'string' && ALLOWED_LEVELS.includes(v)` */
  predicate IsAllowed(v: Value)
    ensures IsAllowed(v) <==> (v == Str("critical") || v == Str("fatal") || v == Str("error") ||
                               v == Str("warning") || v == Str("info") || v == Str("log") || v == Str("debug"))
  {
    v.Str? && v.s in AllowedLevels
  }

  /** What the constructor and `setLevel` store: any string as it is, with no
      check against the allowed set, and `null` (here `None`) for anything else. */
  function StoredLevel(v: Value): (r: Option<string>)
    ensures r.Some? <==> v.Str?
    ensures r.Some? ==> r.value == v.s
  {
    if v.Str? then Some(v.s) else None
  }

  /** JavaScript truthiness of the stored level: `null` and `''` are falsy. */
  predicate Truthy(stored: Option<string>): (t: bool)
    ensures !t <==> stored == None || stored == Some("")
  {
    stored.Some? && stored.value != ""
  }

  /** `this.level || level`: the stored level when it is truthy, otherwise the
      per-call value, whatever it is. */
  function EffectiveLevel(stored: Option<string>, override: Value): (r: Value)
    ensures Truthy(stored) ==> r == Str(stored.value)
    ensures !Truthy(stored) ==> r == override
  {
    if Truthy(stored) then Str(stored.value) else override
  }

  /** The argument of `scope.setLevel`, or `None` when it is not called. */
  function LevelToSet(stored: Option<string>, override: Value): (r: Option<string>)
    ensures r.Some? <==> IsAllowed(EffectiveLevel(stored, override))
    ensures r.Some? ==> r.value in AllowedLevels && Str(r.value) == EffectiveLevel(stored, override)
  {
    var e := EffectiveLevel(stored, override);
    if IsAllowed(e) then Some(e.s) else None
  }

  /** A truthy stored level decides alone: the per-call level is never looked at,
      so a stored level outside the allowed set suppresses a valid per-call one. */
  lemma StoredLevelDecides(stored: Option<string>, override: Value)
    requires Truthy(stored)
    ensures LevelToSet(stored, override) == (if stored.value in AllowedLevels then Some(stored.value) else None)
  {
  }

  /** A missing or empty stored level falls through to the per-call level. */
  lemma FalsyStoredFallsThrough(stored: Option<string>, override: Value)
    requires !Truthy(stored)
    ensures LevelToSet(stored, override) == LevelToSet(None, override)
    ensures LevelToSet(stored, override) == (if IsAllowed(override) then Some(override.s) else None)
  {
  }

  /** Storing does not validate: a string outside the allowed set is kept, and
      then it blocks every per-call level at population time. */
  lemma InvalidLevelIsStoredAndSuppresses(override: Value)
    ensures StoredLevel(Str("verbose")) == Some("verbose")
    ensures LevelToSet(StoredLevel(Str("verbose")), override) == None
  {
  }
}
