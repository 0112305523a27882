/** What a caller of `AbstractParser` can rely on, stated over its observable behaviour. */
module ParserProperties {
  import opened Wrappers
  import opened Parsers

  /**
    Options are read from a copy taken at construction: with an options object holding `props`,
    `_getOption(key, d)` answers `props[key]` when `key` is an own property and `d` otherwise,
    with no options argument it answers `d`, and replacing the caller's properties afterwards
    by any others (adding, deleting or changing keys) does not change the answer.
  */
  method OptionsAreCopiedAtConstruction<Item, Err>(given: Option<map<string, Value>>, key: string,
                                                   laterProps: map<string, Value>, d: Value)
    returns (before: Value, after: Value)
    ensures before == (if given.Some? && key in given.value then given.value[key] else d)
    ensures after == before
  {
    var obj: Option<OptionsObject> := None;
    if given.Some? {
      var o := new OptionsObject(given.value);
      obj := Some(o);
    }
    var p := new AbstractParser<Item, Err>(obj);
    before := p.GetOption(key, d);
    if obj.Some? {
      obj.value.props := laterProps;
    }
    after := p.GetOption(key, d);
  }

  /**
    A parser constructed with `{includeTimezones: setting}` answers `setting` for that option
    whatever default is asked for, even when `setting` is `undefined`, and answers the default
    for the other four documented options, whose documented default is `false`.
  */
  method IncludeTimezonesSettingIsKept<Item, Err>(setting: Value, d: Value)
    returns (timezones: Value, others: seq<Value>)
    ensures timezones == setting
    ensures others == [d, d, d, d]
  {
    var obj := new OptionsObject(map[IncludeTimezones := setting]);
    var p := new AbstractParser<Item, Err>(Some(obj));
    timezones := p.GetOption(IncludeTimezones, d);
    others := [p.GetOption(ExtractGlobalProperties, d), p.GetOption(RemoveRSVPForAttendees, d),
               p.GetOption(PreserveMethod, d), p.GetOption(ProcessFreeBusy, d)];
  }

  /**
    Each call of `getErrorList()` yields an independent copy: writing into any slot of the
    first copy changes neither a second copy nor the parser's own errors.
  */
  method ErrorListCopiesAreIndependent<Item, Err>(p: AbstractParser<Item, Err>, i: nat, e: Err)
    returns (first: seq<Err>, second: seq<Err>)
    requires i < |p.errors|
    ensures first == p.errors[i := e]
    ensures second == p.errors
  {
    var a := p.GetErrorList();
    var b := p.GetErrorList();
    a[i] := e;
    first, second := a[..], b[..];
  }
}
