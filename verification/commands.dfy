/**
 * The command lifecycle of `Command`: a read-only prepare phase, then an
 * execute phase that mutates the model, either of which may end the command
 * early by `Abort`. Exceptions become the abnormal cases of `Outcome`.
 */
module Commands {
  import opened ClrTypes

  /** How a phase (or the whole command) ends. */
  datatype Outcome<+T> =
    | Returned(value: T)
    /** A `CommandAbortedException`: a graceful cancellation, not a fault. */
    | Aborted(message: string, innerException: Option<Exception>)
    /** Any other exception escaping the phase. */
    | Faulted(error: Exception)

  /**
   * `Abort(message = "", innerException = null)`: never returns normally;
   * it ends the command with exactly the given message and inner exception.
   */
  function Abort<T>(message: string := "", innerException: Option<Exception> := None): (r: Outcome<T>)
    ensures !r.Returned? && !r.Faulted?
    ensures r.message == message && r.innerException == innerException
  {
    Aborted(message, innerException)
  }

  /** What an execute step leaves behind: the model as it now is, and how it ended. */
  datatype Step<S, T> = Step(model: S, outcome: Outcome<T>)

  /**
   * A concrete command: its `PrepareStub`, which can only read the model,
   * and its `ExecuteStub`, which returns the updated model with its result.
   * An execute step that aborts after a partial change returns that
   * changed model: nothing is rolled back.
   */
  datatype Command<!S, T> = Command(prepare: S -> Outcome<()>, execute: S -> Step<S, T>)

  /** The model object that `Redo` receives by `ref`. */
  class Model<S> {
    var state: S

    constructor (initial: S)
      ensures state == initial
    {
      state := initial;
    }
  }

  /** A call of one of the two abstract phases. */
  datatype Phase = Prepare | Execute

  /** Everything `Redo` does: the phases it calls, in order, the model afterwards, and how it ends. */
  datatype Run<S> = Run(calls: seq<Phase>, model: S, outcome: Outcome<()>)

  /** `Redo`'s outcome: the execute step's result is discarded, abnormal endings pass through. */
  function Discard<T>(o: Outcome<T>): (r: Outcome<()>)
    ensures r.Returned? <==> o.Returned?
    ensures r.Aborted? <==> o.Aborted?
    ensures r.Faulted? <==> o.Faulted?
    ensures o.Aborted? ==> r.message == o.message && r.innerException == o.innerException
    ensures o.Faulted? ==> r.error == o.error
  {
    match o
    case Returned(_) => Returned(())
    case Aborted(m, e) => Aborted(m, e)
    case Faulted(e) => Faulted(e)
  }

  /**
   * The specification of `Redo` on model values: prepare always runs first,
   * execute runs after it exactly when prepare returns, and only execute
   * can change the model or make the command end normally.
   */
  function Redone<S, T>(command: Command<S, T>, s: S): (r: Run<S>)
    ensures 1 <= |r.calls| <= 2 && r.calls[0] == Prepare
    ensures Execute in r.calls <==> command.prepare(s).Returned?
    ensures Execute !in r.calls ==> r.model == s && r.outcome == Discard(command.prepare(s))
    ensures r.outcome.Returned? <==> command.prepare(s).Returned? && command.execute(s).outcome.Returned?
    // an execute phase that runs leaves its model, and its abort or exception reaches the caller unchanged
    ensures Execute in r.calls ==> r.model == command.execute(s).model && r.outcome == Discard(command.execute(s).outcome)
  {
    match command.prepare(s)
    case Returned(_) =>
      var step := command.execute(s);
      Run([Prepare, Execute], step.model, Discard(step.outcome))
    case Aborted(m, e) => Run([Prepare], s, Aborted(m, e))
    case Faulted(e) => Run([Prepare], s, Faulted(e))
  }

  /**
   * `Redo(ref model)`: run the prepare phase, then the execute phase, on
   * the same model object, which is updated in place and never rebound.
   */
  method Redo<S, T>(command: Command<S, T>, model: Model<S>) returns (calls: seq<Phase>, outcome: Outcome<()>)
    modifies model
    ensures Run(calls, model.state, outcome) == Redone(command, old(model.state))
  {
    calls := [Prepare];
    var prepared := command.prepare(model.state);
    if !prepared.Returned? {
      // the exception thrown by PrepareStub propagates out of Redo
      outcome := Discard(prepared);
      return;
    }
    calls := calls + [Execute];
    var step := command.execute(model.state);
    model.state := step.model;
    outcome := Discard(step.outcome);
  }

  /**
   * A prepare phase that returns is followed by exactly one execute phase,
   * which sees the model exactly as it was before `Redo` (preparing changed
   * nothing), and whose mutation is what `Redo` leaves behind.
   */
  lemma RedoRunsPrepareThenExecute<S, T>(command: Command<S, T>, s: S)
    requires command.prepare(s).Returned?
    ensures Redone(command, s).calls == [Prepare, Execute]
    ensures Redone(command, s).model == command.execute(s).model
    ensures Redone(command, s).outcome.Returned? <==> command.execute(s).outcome.Returned?
  {}

  /** A prepare phase that ends abnormally keeps the execute phase from running at all. */
  lemma RedoStopsWhenPrepareFails<S, T>(command: Command<S, T>, s: S)
    requires !command.prepare(s).Returned?
    ensures Redone(command, s).calls == [Prepare]
    ensures Redone(command, s).model == s
    ensures Redone(command, s).outcome == Discard(command.prepare(s))
  {}

  /** An abort in the execute phase reaches `Redo`'s caller with its message and inner exception intact. */
  lemma RedoReportsAbort<S, T>(prepare: S -> Outcome<()>, change: S -> S, s: S, message: string, inner: Option<Exception>)
    requires prepare(s).Returned?
    ensures Redone(Command(prepare, (x: S) => Step(change(x), Abort<T>(message, inner))), s)
            == Run([Prepare, Execute], change(s), Aborted(message, inner))
  {}

  /** Two commands that differ only in the value their execute phase returns redo identically. */
  lemma RedoDiscardsResult<S, T, U>(c1: Command<S, T>, c2: Command<S, U>, s: S)
    requires c1.prepare == c2.prepare
    requires c1.execute(s).model == c2.execute(s).model
    requires c1.execute(s).outcome.Returned? && c2.execute(s).outcome.Returned?
    ensures Redone(c1, s) == Redone(c2, s)
  {}
}
