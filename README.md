# Vedette, modelled in Dafny

Vedette is a small context accumulator for error reporting. One `Vedette` object
collects breadcrumbs (timestamped records of what happened), three key/value
maps (tags, user, extra) and an optional severity level through chainable
mutators. When an exception or message is captured, the accumulated context is
projected onto a reporting scope:

- the breadcrumbs are replayed in order;
- each map is merged with the per-call map, the per-call value winning;
- the merged map goes through a JSON round trip that drops `undefined` values;
- the level is set only if the effective level (`this.level || level`) is one
  of seven allowed strings.

The model is split into modules:

- `Values` (`values.dfy`): JavaScript values with an explicit `Undefined`, object
  spread as `Merge`, the clean copy `Sanitize`, and the JSON round trip as
  `Stringify`/`Parse` with `JsonRoundTrip`, which is proved to yield the clean
  copy whatever order the keys are visited in.
- `Levels` (`levels.dfy`): the allowed set, how a level is stored, the
  `this.level || level` choice and whether `scope.setLevel` is called.
- `Breadcrumbs` (`breadcrumbs.dfy`): the clock reading in seconds and the stored
  record `{ timestamp, ...crumb }`.
- `Reporter` (`vedette.dfy`): the `Vedette` class and a `Scope` class that behaves
  like the test suite's fake scope. The fields are updated in place and each
  method states its whole new state. `Populate` is the pure description of what
  a population does to a scope, and `PopulateSentryScope` is proved against it.
- `ReporterProperties` (`properties.dfy`): properties that relate several
  operations, and the expectations of the test suite written as client methods.

Four behaviours of the code are easy to misread; the model follows the code:

- A breadcrumb that carries its own `timestamp` keeps it. The injected clock
  value does not overwrite it, because `{ timestamp, ...crumb }` puts the
  crumb's properties last, and index.test.js:65-77 relies on this.
- The constructor and `setLevel` store any string as the level, with no check
  against the allowed set. Validation happens only when a scope is populated,
  and a stored invalid level then suppresses a valid per-call level.
- The static `captureException`/`captureMessage` pass their options per call to
  an empty accumulator rather than to the constructor. The two routes give the
  scope the same contents (`ReporterProperties.StaticFormMatchesConstructed`).
- `setTag`/`setExtra` assign with `obj[key] = value`. For the key `__proto__`
  this runs the inherited prototype setter, unless the map already has such an
  own property or its prototype was set to `null` earlier. The setter stores no
  entry; given `null`, it nulls the prototype, so the next such write stores an
  own property (`ReporterProperties.NullProtoThenStored`). `setTags`/`setExtras`
  copy by spread into a fresh object with the ordinary prototype, and an
  argument holding `__proto__` as an own property (`{ ['__proto__']: v }`, or
  the result of `JSON.parse`) is stored. Single and bulk writes therefore agree
  on every key but that one (`ReporterProperties.ProtoAssignBreaksMerge`).

## Model

| member | source | states |
|---|---|---|
| `Values.Merge` | index.js:59 | Object spread `{ ...base, ...over }`: the keys are the union; a key of `over` takes its value from `over`; every other key keeps its value from `base`. |
| `Values.Sanitize` | index.js:86-88 | The clean copy holds exactly the keys whose value is not `undefined`, each with its original value. |
| `Values.Encode` | index.js:86-88 | A property value has no JSON form exactly when it is `undefined`. |
| `Values.Decode` | index.js:86-88 | Parsing a JSON value gives back a value whose JSON form is that text. |
| `Values.DecodeEncode` | index.js:86-88 | Every value other than `undefined` survives the round trip unchanged. |
| `Values.ParseStringify` | index.js:86-88 | Parsing the text written for a list of keys gives exactly the defined entries of the map under those keys. |
| `Values.JsonRoundTrip` | index.js:86-88 | `JSON.parse(JSON.stringify(m))`, visiting every key once, equals the clean copy of `m`, whatever the visiting order. |
| `Values.MergeEmpty` | index.js:85-88 | Spreading an empty object on either side changes nothing, so a missing per-call map leaves the accumulated map as it is. |
| `Values.SanitizeUpdate` | index.js:86-88 | After a single-key update, cleaning removes the key if the new value is `undefined` and keeps the new value otherwise. |
| `Values.Project` | index.js:85-88 | What a scope receives for one map: no `undefined` value, only keys of the two maps, and each value taken from the per-call map when it has the key, otherwise from the accumulated map. |
| `Values.Stringify` | index.js:86-88 | The JSON members written for a list of keys are at most one per key; each names a visited key and reads back to that key's value. |
| `Values.Parse` | index.js:86-88 | The parsed object has exactly the member names as keys, and no value is `undefined`. |
| `Values.Assign` | index.js:55 | `obj[key] = value`: the key is stored with the value unless it is `__proto__`, the object has no such own property and still has the ordinary prototype. In that case nothing is stored, and the prototype becomes null exactly when the value is `null`. Other keys keep their values. |
| `Values.ProjectOverride` | index.js:85-88 | A per-call `undefined` hides the accumulated entry under that key. Any other per-call value replaces it. Without a per-call entry, the accumulated entry appears exactly when it is defined. |
| `Values.MergeAssociative` | index.js:59-61 | Successive spreads can be regrouped: merging with `b` then `c` is merging with the merge of `b` and `c`. |
| `Levels.IsAllowed` | index.js:3 | A value passes the `typeof … === 'string' && ALLOWED_LEVELS.includes(…)` test (index.js:90) exactly when it is one of the seven strings of `ALLOWED_LEVELS` (`Levels.AllowedLevels`). |
| `Levels.StoredLevel` | index.js:39 | The stored level is present exactly when the input is a string, and then it is that string, unvalidated. |
| `Levels.Truthy` | index.js:90 | The stored level is falsy for `this.level || level` exactly when it is `null` or the empty string. |
| `Levels.EffectiveLevel` | index.js:90 | `this.level \|\| level`: the stored level when it is a non-empty string, otherwise the per-call value, whatever it is. |
| `Levels.LevelToSet` | index.js:90-92 | `scope.setLevel` is called exactly when the effective level is a string in the allowed set, and then with that string. |
| `Levels.StoredLevelDecides` | index.js:90-92 | With a truthy stored level the per-call level is ignored: the level set is the stored one if allowed, otherwise none. |
| `Levels.FalsyStoredFallsThrough` | index.js:90-92 | A null or empty stored level behaves like no stored level: the per-call value is used if it is an allowed string. |
| `Levels.InvalidLevelIsStoredAndSuppresses` | index.js:77-80 | The string `verbose` is stored as it is, and once stored it blocks every per-call level. |
| `Breadcrumbs.Seconds` | index.js:45 | The timestamp is the clock reading in milliseconds rounded down to whole seconds: `t*1000 <= now < t*1000 + 1000`. |
| `Breadcrumbs.Stamp` | index.js:46 | The record has the crumb's keys plus `timestamp`. Every crumb property keeps its value. The clock value appears only when the crumb has no `timestamp`. |
| `Breadcrumbs.OwnTimestampKept` | index.js:46 | A crumb with its own `timestamp` is stored exactly as given. |
| `Breadcrumbs.ClockTimestampAdded` | index.js:45-46 | A crumb without `timestamp` is stored with the clock value added under that key. |
| `Reporter.Initial` | index.js:14-42 | The state the constructor builds: no breadcrumbs, the given maps, and a level present exactly when the given one is a string, then that string. |
| `Reporter.Populate` | index.js:82-92 | The scope's old breadcrumbs come first, then the accumulator's in order. Each map becomes `Project` of the accumulated and per-call maps. The level becomes the effective level when that is allowed and is untouched otherwise. |
| `Reporter.Scope.constructor` | index.test.js:166-195 | A fresh scope is empty, with no level. |
| `Reporter.Scope.AddBreadcrumb` | index.test.js:196-199 | Appends the record and returns the same scope; nothing else changes. |
| `Reporter.Scope.SetTags` | index.test.js:200-203 | Replaces the tag map whole and returns the same scope. |
| `Reporter.Scope.SetUser` | index.test.js:204-207 | Replaces the user map whole and returns the same scope. |
| `Reporter.Scope.SetExtras` | index.test.js:208-211 | Replaces the extra map whole and returns the same scope. |
| `Reporter.Scope.SetLevel` | index.test.js:212-215 | Replaces the level and returns the same scope. |
| `Reporter.Vedette.constructor` | index.js:14-42 | The new accumulator is in the `Initial` state for its options: no breadcrumbs, the given maps, and the given level if it is a string (any string), otherwise none. The tag and extra objects have the ordinary prototype. |
| `Reporter.Vedette.AddBreadcrumb` | index.js:44-48 | Appends exactly one stamped record after the existing ones. Every other field is unchanged, and the receiver is returned. |
| `Reporter.Vedette.ClearBreadcrumbs` | index.js:49-52 | Empties the breadcrumbs and leaves tags, user, extra and level unchanged. |
| `Reporter.Vedette.SetTag` | index.js:54-57 | The tag object (own entries and prototype) becomes `Assign` of the old one: the key mapped to the value, except `__proto__` while the prototype setter is inherited, which stores nothing and nulls the prototype for `null`. Nothing else changes. |
| `Reporter.Vedette.SetTags` | index.js:58-61 | The tags become the old tags overridden key-wise by the argument, in a fresh object with the ordinary prototype; nothing else changes. |
| `Reporter.Vedette.SetUser` | index.js:63-66 | The user map becomes the old one overridden key-wise by the argument; nothing else changes. |
| `Reporter.Vedette.SetExtra` | index.js:68-71 | The extra object becomes `Assign` of the old one, with the same `__proto__` rule. Nothing else changes. |
| `Reporter.Vedette.SetExtras` | index.js:72-75 | The extras become the old extras overridden key-wise by the argument, in a fresh object with the ordinary prototype; nothing else changes. |
| `Reporter.Vedette.SetLevel` | index.js:77-80 | Stores any string as it is and none for any other value; nothing else changes. |
| `Reporter.Vedette.PopulateSentryScope` | index.js:82-93 | The scope ends in the `Populate` state: breadcrumbs replayed in order after its own, cleaned merged maps, level set only when allowed. The accumulator is unchanged. |
| `Reporter.Vedette.CaptureException` | index.js:95-101 | Populates the supplied scope as above. Hands the reporter one report with the error and the populated scope. Returns the receiver unchanged. |
| `Reporter.Vedette.CaptureMessage` | index.js:103-109 | Like `CaptureException`, with the message as the payload. |
| `Reporter.Vedette.StaticCaptureException` | index.js:7-9 | Builds a fresh accumulator in the `Initial` state for no options, with ordinary-prototype tag and extra objects, and captures with the options passed per call. |
| `Reporter.Vedette.StaticCaptureMessage` | index.js:10-12 | Like `StaticCaptureException`, for a message; the returned accumulator is likewise fresh, empty and with ordinary prototypes. |
| `ReporterProperties.ApplyIsMerge` | index.js:54-61 | A `setTag` of any key but `__proto__`, or a `setTags`, leaves the tags equal to the old ones overridden by the call's argument. |
| `ReporterProperties.WritesAreMerge` | index.js:54-61 | Any sequence of `setTag`/`setTags` calls in which no `setTag` targets `__proto__` leaves the starting tags overridden by the left-to-right merge of all arguments, the last write of a key winning. |
| `ReporterProperties.ProtoAssignBreaksMerge` | index.js:55-59 | `setTag('__proto__', v)` on fresh tags stores nothing, whereas `setTags` with an argument holding `__proto__` as an own property (`{ ['__proto__']: v }`) stores it, and the merge of the arguments contains it. |
| `ReporterProperties.NullProtoThenStored` | index.js:55 | `setTag('__proto__', null)` leaves no own entry and a null prototype; a following `setTag('__proto__', v)` then stores `__proto__: v`. |
| `ReporterProperties.RunWrites` | index.js:54-61 | Running a sequence of `setTag`/`setTags` calls on an accumulator yields the tags `ApplyAll` describes, and, without `__proto__` single writes, the merge of all the arguments. |
| `ReporterProperties.NullPrototypeThenOwnProto` | index.js:54-57 | Through the class methods, `setTag('__proto__', null)` then `setTag('__proto__', 'x')` and a population give the scope the tags `{ __proto__: 'x' }`. |
| `ReporterProperties.StaticFormMatchesConstructed` | index.js:7-12 | Passing options per call to an empty accumulator gives a scope the same contents as passing them to the constructor, level included. |
| `ReporterProperties.PopulateTwice` | index.js:82-93 | Populating again replays the breadcrumbs again and leaves maps and level as the first time: a capture does not reset the accumulator. |
| `ReporterProperties.EmptyPopulation` | index.test.js:218-223 | An empty accumulator leaves a fresh scope empty. |
| `ReporterProperties.ConstructedWithValues` | index.test.js:41-51 | Maps given to the constructor are the initial maps, with no breadcrumbs and no level. |
| `ReporterProperties.BreadcrumbsThenClear` | index.test.js:65-95 | Any number of crumbs added one by one is stored in order, each stamped, so crumbs carrying their own timestamps are stored exactly as given. Right after a clear the list is empty, and a crumb added next is the only one, with the clock value as `timestamp`. |
| `ReporterProperties.LevelSetThenCleared` | index.test.js:149-160 | `warning` is stored; `1` and `null` clear the level. |
| `ReporterProperties.FullObjectProjection` | index.test.js:225-245 | The full accumulator of the test projects onto a fresh scope unchanged, level `warning` included. |
| `ReporterProperties.FullPopulation` | index.test.js:225-245 | The same, reached through the class methods, with the clock-stamped breadcrumb. |
| `ReporterProperties.DropsMiddle` | index.test.js:253-263 | A three-entry map whose middle value is `undefined` projects to the other two entries. |
| `ReporterProperties.UndefinedProjection` | index.test.js:247-265 | The test's accumulator, with tags `{tag1, tag2: undefined, tag3}`, user `{id: undefined, ip_address}` and extras `{extra1, extra2: undefined, extra3}`, projects onto a fresh scope with its breadcrumbs, without the `undefined` keys, and with no level. |
| `ReporterProperties.UndefinedDropped` | index.test.js:247-265 | Through the class methods, including the breadcrumb and `setExtras`: the accumulator keeps the `undefined` entries in its tags, user and extras; the scope receives the stamped breadcrumb, tags `{tag1, tag3}`, user `{ip_address}`, extras `{extra1, extra3}` and no level. |
| `ReporterProperties.InvalidStoredLevelBlocksOverride` | index.js:90-92 | A constructor level `verbose` and a per-call level `fatal` leave the scope without a level. |
| `ReporterProperties.CaptureProjection` | index.test.js:271-284 | The capture test's accumulator projects onto a fresh scope unchanged, level `fatal` included. |
| `ReporterProperties.CaptureWithContext` | index.test.js:271-284 | Capturing from an accumulator built with tags `{tag1}`, user `{id, ip_address}`, extras `{extra1}` and level `fatal` yields one report with the error and a scope holding exactly that context and level. |

## Left out

- The external reporter (`Sentry.withScope`, `Sentry.captureException`, `Sentry.captureMessage`) is not part of this model. The scope that `withScope` supplies is a method parameter, and the call to the reporter is the returned `Report` value.
- The scope is modelled on the test suite's fake scope, whose setters replace a map whole. The real reporter's scope is a foreign library and is not modelled.
- `ReporterProperties.WritesAreMerge`: requires that no `setTag` call targets `__proto__`, because for that key a single write may store nothing while a bulk write of an own `__proto__` stores it; `ProtoAssignBreaksMerge` shows the input.
- The error passed to `captureException` is a type parameter `E`, passed through untouched; the message is a string.
- `setTag`/`setExtra` with `__proto__` and an object value make that object the prototype in JavaScript; values here are not objects, so that prototype is not modelled. A `null` value is modelled: the prototype becomes null and a later single write of `__proto__` stores an own property.
- Objects passed to the constructor are taken to have the ordinary prototype; a caller's `Object.create(null)` map is not modelled.
- `Date.now()` is a parameter, `nowMillis`, of `AddBreadcrumb`.
- JSON semantics beyond one level of a flat object are not modelled: nested objects and arrays, functions and symbols, `toJSON`, cyclic values that throw, and `NaN`/`Infinity` becoming `null`. Numbers are integers, without floating point.
- Property insertion order of JavaScript objects is not modelled; maps have no order. Deep equality in the test suite ignores it too.
- Aliasing is not modelled: `setTag`/`setExtra` write into the very object passed to the constructor, and the scope receives the same breadcrumb objects.
- Arguments that are not plain objects are not modelled: `addBreadcrumb()` with nothing, null or a primitive; `setTags(null)`; a constructor called with null; non-string keys coerced to strings. A missing map is modelled as the empty map, which is what spreading `undefined` gives.
- The property attributes set by `Object.defineProperties` (enumerable, writable) are not modelled; the fields are ordinary mutable fields.
- The mocha/nock/rewire test setup is not modelled; its expectations appear as client methods in `ReporterProperties`.
