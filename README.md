# AbstractParser: the shared contract of the calendar parsers

This project models `AbstractParser` in Dafny. It is the base class that every calendar parser of
the calendar-js library extends, such as the iCalendar parser. The base class does four things:

- **Options.** The constructor copies the caller's options object. `_getOption(name, default)` returns
  the value stored under an own property `name`, or else the default.
- **Metadata.** Five nullable fields: name, color, source URL, refresh interval and calendar timezone.
  They all start as `null`. Each has a getter. `offersWebcalFeed()` is true exactly when a source URL
  is present.
- **Errors.** A list of recoverable errors that starts empty. `hasErrors()` reports whether the list is
  non-empty. `getErrorList()` returns a copy of it.
- **Item production.** `getItemIterator` is a generator function. `getAllItems()` is
  `Array.from(this.getItemIterator())`. The capability flags (`containsVEvents`, `containsVJournals`,
  `containsVTodos`, `containsVFreeBusy`) default to `false` and `getItemCount()` defaults to `0`.
  `parse`, the item generator and the static `getMimeTypes` throw a `TypeError`. So does constructing
  `AbstractParser` itself.

The project has four modules:

- `Wrappers` (wrappers.dfy): `Option`, `Result` and `Outcome`. Thrown `TypeError`s become `Failure` or
  `Fail` values.
- `Generators` (generators.dfy): the part of ECMAScript generator objects and of `Array.from` that
  `getAllItems` uses.
  - A generator body is described by the values it yields and by how it completes: it returns, or it
    throws.
  - `Generator.Next` is `next()`.
  - `ArrayFrom` drains a generator one `next()` at a time.
  - `DrainFromIsPending` proves by induction that this step-by-step drain produces exactly the values
    the body still has to yield, in order, or the error the body throws.
- `Parsers` (parsers.dfy): the class `AbstractParser<Item, Err>`.
  - Calendar components and error records are the opaque type parameters `Item` and `Err`.
  - The options are a `const` map: they never change after construction.
  - The caller's options object is a mutable `OptionsObject`, so the model can say that the parser
    keeps a copy, not an alias.
  - `Instantiate` is `new C(options)`, including the `new.target` guard. The Dafny constructor is the
    part of the JavaScript constructor that runs after the guard passes, that is, when a subclass calls
    `super(options)`.
  - `DrainItemIterator` is `Array.from` over a new generator with a given body. `GetAllItems` calls it
    with the base class's body. A subclass's body would go through the same method.
- `ParserProperties` (parser_properties.dfy): what a caller can rely on, stated over several calls.

The five getters (`getName`, `getColor`, `getSourceURL`, `getRefreshInterval`, `getCalendarTimezone`,
src/parsers/abstractParser.js:106-153) are plain field reads. They are the functions
`Parsers.AbstractParser.GetName` and so on. What they return after construction is stated by the
constructor.

`getItemIterator` is a generator function: calling it does not throw; the first `next()` does.
`getAllItems()` on the base class therefore throws the not-implemented `TypeError` from inside
`Array.from`.

## Model

| member | source | states |
|---|---|---|
| `Generators.Generator.constructor` | src/parsers/abstractParser.js:168-170 | calling a generator function creates a generator whose body has not started: nothing yielded yet, not completed |
| `Generators.Generator.Next` | src/parsers/abstractParser.js:168-170 | `next()` yields the body's next value; once the values are used up it answers done or throws the body's error; once completed it answers done forever |
| `Generators.DrainFromIsPending` | src/parsers/abstractParser.js:177-179 | calling `next()` until it answers done collects exactly the values the body still has to yield, in order, or fails with the body's error |
| `Generators.DrainFromStartIsRun` | src/parsers/abstractParser.js:177-179 | draining a fresh generator succeeds exactly when its body returns, and then yields the body's values in order |
| `Generators.ArrayFrom` | src/parsers/abstractParser.js:177-179 | `Array.from(g)` returns what the step-by-step drain of `g` produces, which equals the body's pending values or its error, and leaves `g` completed |
| `Parsers.AbstractParser.constructor` | src/parsers/abstractParser.js:44-98 | the options are a copy of the argument (`{}` when it is omitted); all five metadata fields are null; the error list is empty, so `hasErrors()` and `offersWebcalFeed()` are false |
| `Parsers.DrainItemIterator` | src/parsers/abstractParser.js:177-179 | for any generator body, `Array.from` over a new generator with that body is exactly the body's values in order when the body returns, and fails with the body's error when it throws |
| `Parsers.Instantiate` | src/parsers/abstractParser.js:39-42 | constructing `AbstractParser` itself fails with the cannot-instantiate `TypeError`; constructing any subclass succeeds with a fresh parser in its initial state |
| `Parsers.AbstractParser.OffersWebcalFeed` | src/parsers/abstractParser.js:124-126 | true exactly when `getSourceURL()` is non-null |
| `Parsers.AbstractParser.Parse` | src/parsers/abstractParser.js:161-163 | `parse` on the base class fails with the not-implemented `TypeError` and changes no state |
| `Parsers.AbstractParser.GetItemIterator` | src/parsers/abstractParser.js:168-170 | calling `getItemIterator()` succeeds with a fresh, unstarted generator whose first `next()` fails with the not-implemented `TypeError` |
| `Parsers.AbstractParser.GetAllItems` | src/parsers/abstractParser.js:177-179 | `getAllItems()` is the complete outcome of the item generator's body, which on the base class is the not-implemented `TypeError` |
| `Parsers.AbstractParser.ContainsVEvents` | src/parsers/abstractParser.js:186-188 | the base class reports no VEVENT |
| `Parsers.AbstractParser.ContainsVJournals` | src/parsers/abstractParser.js:195-197 | the base class reports no VJOURNAL |
| `Parsers.AbstractParser.ContainsVTodos` | src/parsers/abstractParser.js:204-206 | the base class reports no VTODO |
| `Parsers.AbstractParser.ContainsVFreeBusy` | src/parsers/abstractParser.js:213-215 | the base class reports no VFREEBUSY |
| `Parsers.AbstractParser.HasErrors` | src/parsers/abstractParser.js:222-224 | true exactly when the error list is non-empty |
| `Parsers.AbstractParser.GetErrorList` | src/parsers/abstractParser.js:231-233 | returns a newly allocated array with the errors in order, changes no state, and is non-empty exactly when `hasErrors()` holds |
| `Parsers.AbstractParser.GetItemCount` | src/parsers/abstractParser.js:240-242 | the base class reports zero items |
| `Parsers.AbstractParser.GetOption` | src/parsers/abstractParser.js:252-256 | returns the stored value when the name is an own key of the options, else the default; it reads nothing but the immutable options |
| `Parsers.AbstractParser.GetMimeTypes` | src/parsers/abstractParser.js:263-265 | the static `getMimeTypes()` fails with the not-implemented `TypeError` |
| `ParserProperties.OptionsAreCopiedAtConstruction` | src/parsers/abstractParser.js:39-50 | with options `{K: v}`, `_getOption(K, d)` is `v`; without `K`, or without options, it is `d`; replacing the caller's properties afterwards by any others does not change the answer |
| `ParserProperties.IncludeTimezonesSettingIsKept` | src/parsers/abstractParser.js:33-50 | built with `{includeTimezones: v}`, `_getOption('includeTimezones', d)` is `v` for every default `d`, even when `v` is `undefined`; the other four documented options answer the default |
| `ParserProperties.ErrorListCopiesAreIndependent` | src/parsers/abstractParser.js:231-233 | writing into any slot of one result of `getErrorList()` changes neither a second result nor the parser's errors |

## Left out

- Generators and `Array.from` beyond what `getAllItems` uses: the model describes a generator body only by the values it yields and whether it returns or throws. Not modelled: laziness and the work done between yields; the value a body returns (the model's `Done` carries no value); the generator methods `return()` and `throw()`; the `TypeError` for a generator that is already running; the `mapFn` and `thisArg` arguments of `Array.from`; and the `TypeError` that `Array.from` throws once its count reaches 2^53 - 1.
- JavaScript object semantics: inherited properties versus `hasOwnProperty`, `Object.assign` copying only own enumerable keys, and non-object options arguments (such as a string whose characters would be copied) are not modelled. The options are a map of own properties. An omitted argument and `null` both give an empty copy.
- Dynamic typing of option values: `Value` covers `undefined`, `null`, booleans, integers and strings. Floating-point numbers, objects and functions are not modelled.
- Subclass behaviour: the calendar grammars, the rule that a subclass's `parse` resets the metadata and the errors, and the overriding of flags, count and iterator all belong to subclasses whose source is not part of this model.
- MIME-type dispatch and the contents of error records and calendar components are not modelled. These records are the type parameters `Err` and `Item`.
- Exceptions as such: each `throw new TypeError(...)` becomes a `Failure` or `Fail` value carrying the same message.
- Parsers.AbstractParser.GetName, GetColor, GetSourceURL, GetRefreshInterval, GetCalendarTimezone: these carry no contract of their own, because each only returns its field. Their values after construction are stated by the constructor.
