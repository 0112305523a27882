/**
  The base class that every calendar parser of the library extends (`AbstractParser`). It keeps
  the options it was constructed with, the calendar metadata a parse extracts (name, color,
  webcal source URL, refresh interval, default timezone) and the list of recoverable errors.
  The grammar itself lives in the subclasses; on this class `parse`, the item iterator and the
  supported MIME types are abstract and throw a `TypeError`.
*/
module Parsers {
  import opened Wrappers
  import opened Generators

  /** A JavaScript `TypeError`, identified by its message. */
  datatype TypeError = TypeError(message: string)

  /** Thrown by the abstract methods `parse`, `getItemIterator` and `getMimeTypes`. */
  const NotImplemented := TypeError("Abstract method not implemented by subclass")

  /** Thrown when `AbstractParser` itself is the class being constructed. */
  const CannotInstantiate := TypeError("Cannot instantiate abstract class AbstractParser")

  /** The JavaScript values an option can hold. */
  datatype Value = Undefined | Null | Bool(b: bool) | Number(n: int) | Str(s: string)

  /** The option names documented for the constructor; each defaults to `false`. */
  const ExtractGlobalProperties := "extractGlobalProperties"
  const RemoveRSVPForAttendees := "removeRSVPForAttendees"
  const IncludeTimezones := "includeTimezones"
  const PreserveMethod := "preserveMethod"
  const ProcessFreeBusy := "processFreeBusy"

  /** The caller's options object: a mutable JavaScript object with its own properties. */
  class OptionsObject {
    var props: map<string, Value>

    constructor (props: map<string, Value>)
      ensures this.props == props
    {
      this.props := props;
    }
  }

  /** `new.target`: the class whose constructor is running. */
  datatype ParserClass = AbstractParserClass | Subclass(name: string)

  /** `Object.assign({}, options)`, where `None` is an omitted (or `null`) options argument. */
  function CopyOptions(given: Option<OptionsObject>): map<string, Value>
    reads if given.Some? then {given.value} else {}
  {
    if given.Some? then given.value.props else map[]
  }

  class AbstractParser<Item, Err> {
    /** The private copy of the options; never reassigned. */
    const options: map<string, Value>

    var name: Option<string>
    var color: Option<string>
    var sourceURL: Option<string>
    var refreshInterval: Option<string>
    var calendarTimezone: Option<string>

    /** The recoverable errors met while parsing, in the order they occurred. */
    var errors: seq<Err>

    /** The state every field is in when the base constructor has run. */
    predicate IsInitial()
      reads this
    {
      && name == None && color == None && sourceURL == None
      && refreshInterval == None && calendarTimezone == None
      && errors == []
    }

    /**
      The part of the constructor that a subclass's `super(options)` runs once the
      abstract-instantiation guard has passed.
    */
    constructor (given: Option<OptionsObject>)
      ensures options == CopyOptions(given)
      ensures IsInitial()
      ensures GetName() == None && GetColor() == None && GetSourceURL() == None
      ensures GetRefreshInterval() == None && GetCalendarTimezone() == None
      ensures !HasErrors() && !OffersWebcalFeed()
    {
      options := CopyOptions(given);
      name, color, sourceURL, refreshInterval, calendarTimezone := None, None, None, None, None;
      errors := [];
    }

    function GetName(): Option<string>
      reads this
    {
      name
    }

    function GetColor(): Option<string>
      reads this
    {
      color
    }

    function GetSourceURL(): Option<string>
      reads this
    {
      sourceURL
    }

    function GetRefreshInterval(): Option<string>
      reads this
    {
      refreshInterval
    }

    function GetCalendarTimezone(): Option<string>
      reads this
    {
      calendarTimezone
    }

    /** Whether the imported data can become a webcal subscription. */
    function OffersWebcalFeed(): (r: bool)
      reads this
      ensures r <==> GetSourceURL().Some?
    {
      sourceURL != None
    }

    /** `parse(data)` on the base class always throws and changes nothing. */
    method Parse<Data>(data: Data) returns (r: Outcome<TypeError>)
      ensures r == Fail(NotImplemented)
    {
      r := Fail(NotImplemented);
    }

    /** The body of the generator function `getItemIterator` as this class defines it. */
    function ItemIteratorBody(): GeneratorBody<Item, TypeError> {
      GeneratorBody([], Throw(NotImplemented))
    }

    /**
      Calling `getItemIterator()` does not throw: it returns a generator whose first `next()`
      throws the not-implemented error.
    */
    method GetItemIterator() returns (g: Generator<Item, TypeError>)
      ensures fresh(g) && g.Valid() && g.State() == Start(ItemIteratorBody())
      ensures Step(g.State()).0 == Failure(NotImplemented)
    {
      g := new Generator(ItemIteratorBody());
    }

    /** `Array.from(this.getItemIterator())`. */
    method GetAllItems() returns (r: Result<seq<Item>, TypeError>)
      ensures r == Run(ItemIteratorBody())
      ensures r == Failure(NotImplemented)
    {
      r := DrainItemIterator(ItemIteratorBody());
    }

    function ContainsVEvents(): (r: bool)
      ensures !r
    {
      false
    }

    function ContainsVJournals(): (r: bool)
      ensures !r
    {
      false
    }

    function ContainsVTodos(): (r: bool)
      ensures !r
    {
      false
    }

    function ContainsVFreeBusy(): (r: bool)
      ensures !r
    {
      false
    }

    function HasErrors(): (r: bool)
      reads this
      ensures r <==> |errors| > 0
    {
      |errors| != 0
    }

    /** `this._errors.slice()`: a new array holding the errors in order. */
    method GetErrorList() returns (r: array<Err>)
      ensures fresh(r) && r[..] == errors
      ensures HasErrors() <==> r.Length > 0
    {
      var es := errors;
      r := new Err[|es|](i requires 0 <= i < |es| => es[i]);
    }

    function GetItemCount(): (r: nat)
      ensures r == 0
    {
      0
    }

    /** `_getOption(name, defaultValue)`: an own property of the options wins over the default. */
    function GetOption(name: string, defaultValue: Value): (r: Value)
      ensures name in options ==> r == options[name]
      ensures name !in options ==> r == defaultValue
    {
      if name in options then options[name] else defaultValue
    }

    /** The static `getMimeTypes()` always throws on the base class. */
    static function GetMimeTypes(): (r: Result<seq<string>, TypeError>)
      ensures r == Failure(NotImplemented)
    {
      Failure(NotImplemented)
    }
  }

  /**
    `Array.from(gen())` for a generator function `gen` with the given body, as `getAllItems`
    does with `getItemIterator` (a subclass supplies its own body): for any number of yielded
    values the result is exactly those values in order, and a body that throws makes the whole
    call throw its error.
  */
  method DrainItemIterator<T, E>(body: GeneratorBody<T, E>) returns (r: Result<seq<T>, E>)
    ensures r == Run(body)
    ensures r.Success? <==> body.completion.Return?
    ensures r.Success? ==> r.value == body.values
    ensures r.Failure? ==> body.completion == Throw(r.error)
  {
    var g := new Generator(body);
    r := ArrayFrom(g);
    DrainFromStartIsRun(body);
  }

  /**
    `new C(options)` for a parser class `C`: construction throws when `C` is `AbstractParser`
    itself, and otherwise yields a parser in its initial state holding a copy of the options.
  */
  method Instantiate<Item, Err>(target: ParserClass, given: Option<OptionsObject>)
    returns (r: Result<AbstractParser<Item, Err>, TypeError>)
    ensures target == AbstractParserClass <==> r.Failure?
    ensures r.Failure? ==> r.error == CannotInstantiate
    ensures r.Success? ==> fresh(r.value) && r.value.IsInitial() && r.value.options == CopyOptions(given)
  {
    if target == AbstractParserClass {
      return Failure(CannotInstantiate);
    }
    var p := new AbstractParser<Item, Err>(given);
    r := Success(p);
  }
}
