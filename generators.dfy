/**
  ECMAScript generator objects and the way `Array.from` drains them.

  A generator function (`function*`) does not run its body when it is called: it returns a
  generator object in the "suspended start" state. Each call of `next()` resumes the body until
  the next `yield` (result `{value, done: false}`), or until the body returns (result
  `{done: true}`) or throws (the error propagates out of `next()`). Once the body has returned
  or thrown, the generator is completed and every further `next()` answers `{done: true}`.
  `Array.from(iterable)` calls `next()` until it answers done and collects the yielded values
  in order; an error thrown by `next()` propagates out of `Array.from`.

  What the body computes between two yields is not modelled: a body is described by the values
  it yields, in order, and by how it completes.
*/
module Generators {
  import opened Wrappers

  /** How a generator body ends once it has yielded all of its values. */
  datatype Completion<E> = Return | Throw(error: E)

  /** The observable behaviour of one generator body. */
  datatype GeneratorBody<T, E> = GeneratorBody(values: seq<T>, completion: Completion<E>)

  /** What one call of `next()` answers when it does not throw. */
  datatype IterResult<T> = Yielded(value: T) | Done

  /**
    The state of a generator object: how many values it has yielded so far and whether its
    body has returned or thrown.
  */
  datatype GeneratorState<T, E> = GeneratorState(body: GeneratorBody<T, E>, pos: nat, completed: bool)
  {
    predicate WellFormed() {
      pos <= |body.values|
    }

    /** The calls of `next()` still able to make progress. */
    function Measure(): nat
      requires WellFormed()
    {
      |body.values| - pos + (if completed then 0 else 1)
    }
  }

  /** The state of a generator object right after its generator function was called. */
  function Start<T, E>(body: GeneratorBody<T, E>): GeneratorState<T, E> {
    GeneratorState(body, 0, false)
  }

  /** Reference definition: everything a body produces when it is run to its end. */
  function Run<T, E>(body: GeneratorBody<T, E>): Result<seq<T>, E> {
    match body.completion
    case Return => Success(body.values)
    case Throw(e) => Failure(e)
  }

  /** Reference definition: what is still to come from a generator in state `s`. */
  function Pending<T, E>(s: GeneratorState<T, E>): Result<seq<T>, E>
    requires s.WellFormed()
  {
    if s.completed then Success([])
    else Run(GeneratorBody(s.body.values[s.pos..], s.body.completion))
  }

  /** One call of `next()`: its answer (or the error it throws) and the generator's new state. */
  function Step<T, E>(s: GeneratorState<T, E>): (r: (Result<IterResult<T>, E>, GeneratorState<T, E>))
    requires s.WellFormed()
    ensures r.1.WellFormed() && r.1.body == s.body
    ensures r.0 == Success(Done) || r.0.Failure? ==> r.1.completed
    ensures r.0.Success? && r.0.value.Yielded? ==> !s.completed && r.1.Measure() < s.Measure()
    ensures s.completed ==> r == (Success(Done), s)
  {
    if s.completed then (Success(Done), s)
    else if s.pos < |s.body.values| then (Success(Yielded(s.body.values[s.pos])), s.(pos := s.pos + 1))
    else
      var answer := match s.body.completion
                    case Return => Success(Done)
                    case Throw(e) => Failure(e);
      (answer, s.(completed := true))
  }

  /** `acc` followed by what `r` produces; an error stays an error. */
  function Prepend<T, E>(acc: seq<T>, r: Result<seq<T>, E>): Result<seq<T>, E> {
    match r
    case Success(rest) => Success(acc + rest)
    case Failure(e) => Failure(e)
  }

  lemma PrependNothing<T, E>(r: Result<seq<T>, E>)
    ensures Prepend([], r) == r
  {
    if r.Success? {
      assert [] + r.value == r.value;
    }
  }

  lemma PrependTwice<T, E>(acc: seq<T>, more: seq<T>, r: Result<seq<T>, E>)
    ensures Prepend(acc + more, r) == Prepend(acc, Prepend(more, r))
  {
    if r.Success? {
      assert (acc + more) + r.value == acc + (more + r.value);
    }
  }

  /** What calling `next()` until it answers done collects, step by step. */
  function DrainFrom<T, E>(s: GeneratorState<T, E>): Result<seq<T>, E>
    requires s.WellFormed()
    decreases s.Measure()
  {
    var (answer, s') := Step(s);
    match answer
    case Failure(e) => Failure(e)
    case Success(Done) => Success([])
    case Success(Yielded(v)) => Prepend([v], DrainFrom(s'))
  }

  /**
    Draining a generator by repeated `next()` calls produces exactly the values its body still
    has to yield, in order, or the error its body throws.
  */
  lemma {:induction false} DrainFromIsPending<T, E>(s: GeneratorState<T, E>)
    requires s.WellFormed()
    ensures DrainFrom(s) == Pending(s)
    decreases s.Measure()
  {
    var (answer, s') := Step(s);
    if !s.completed && s.pos < |s.body.values| {
      DrainFromIsPending(s');
      var v := s.body.values[s.pos];
      assert s.body.values[s.pos..] == [v] + s.body.values[s.pos + 1..];
      assert DrainFrom(s) == Prepend([v], Pending(s'));
    } else if !s.completed {
      assert s.body.values[s.pos..] == [];
    }
  }

  /** A fresh generator drains to whatever its body produces when run to its end. */
  lemma DrainFromStartIsRun<T, E>(body: GeneratorBody<T, E>)
    ensures DrainFrom(Start(body)) == Run(body)
    ensures DrainFrom(Start(body)).Success? <==> body.completion.Return?
    ensures DrainFrom(Start(body)).Success? ==> DrainFrom(Start(body)).value == body.values
  {
    DrainFromIsPending(Start(body));
    assert body.values[0..] == body.values;
  }

  /** A generator object, as returned by calling a generator function. */
  class Generator<T, E> {
    const body: GeneratorBody<T, E>
    var pos: nat
    var completed: bool

    ghost predicate Valid()
      reads this
    {
      pos <= |body.values|
    }

    function State(): (s: GeneratorState<T, E>)
      reads this
      ensures Valid() ==> s.WellFormed()
    {
      GeneratorState(body, pos, completed)
    }

    /** Calling a generator function: the body does not start running. */
    constructor (body: GeneratorBody<T, E>)
      ensures Valid() && State() == Start(body)
    {
      this.body := body;
      pos, completed := 0, false;
    }

    /** `next()`: resume the body up to its next yield, its return or its throw. */
    method Next() returns (r: Result<IterResult<T>, E>)
      requires Valid()
      modifies this
      ensures Valid()
      ensures (r, State()) == Step(old(State()))
    {
      if completed {
        r := Success(Done);
      } else if pos < |body.values| {
        r := Success(Yielded(body.values[pos]));
        pos := pos + 1;
      } else {
        completed := true;
        match body.completion
        case Return => r := Success(Done);
        case Throw(e) => r := Failure(e);
      }
    }
  }

  /**
    `Array.from(g)` for a generator object `g`: calls `next()` until it answers done and
    returns the yielded values in order; an error thrown by `next()` propagates.
  */
  method ArrayFrom<T, E>(g: Generator<T, E>) returns (r: Result<seq<T>, E>)
    requires g.Valid()
    modifies g
    ensures g.Valid() && g.completed
    ensures r == DrainFrom(old(g.State()))
    ensures r == Pending(old(g.State()))
  {
    ghost var start := g.State();
    DrainFromIsPending(start);
    var acc: seq<T> := [];
    PrependNothing(DrainFrom(start));
    while true
      invariant g.Valid() && g.body == start.body
      invariant DrainFrom(start) == Prepend(acc, DrainFrom(g.State()))
      decreases g.State().Measure()
    {
      var answer := g.Next();
      match answer
      case Failure(e) =>
        return Failure(e);
      case Success(Done) =>
        assert acc + [] == acc;
        return Success(acc);
      case Success(Yielded(v)) =>
        PrependTwice(acc, [v], DrainFrom(g.State()));
        acc := acc + [v];
    }
  }
}
