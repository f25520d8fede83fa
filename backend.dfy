/**
 * A recording stand-in for the logging backend the facade writes to: the
 * ambient enrichment context (a stack of named properties) and a logger with
 * one write channel per event level. Formatting and sinks are not modelled;
 * the logger only remembers what it was asked to write, together with the
 * properties that were visible in the context at that moment.
 */
module Backend {
  import opened Wrappers

  /** The backend's write channels, one per event level. */
  datatype Channel = Verbose | Debug | Information | Warning | Error | Fatal

  /** A property value: the facade pushes strings and one integer. */
  datatype Value = Text(s: string) | Number(n: int)

  datatype Property = Property(name: string, value: Value)

  /** One write as the backend received it. */
  datatype LogEvent = LogEvent(channel: Channel, message: string, properties: seq<Property>)

  /**
   * The value an event carries for property `name` when the context holds
   * `props` (outermost first): the innermost property of that name wins.
   */
  function Visible(props: seq<Property>, name: string): (r: Option<Value>)
    ensures r.None? <==> forall i :: 0 <= i < |props| ==> props[i].name != name
    ensures r.Some? ==>
      exists i :: 0 <= i < |props| && props[i] == Property(name, r.value) &&
        forall j :: i < j < |props| ==> props[j].name != name
  {
    if props == [] then None
    else if props[|props| - 1].name == name then Some(props[|props| - 1].value)
    else Visible(props[..|props| - 1], name)
  }

  /** Pushing one property decides what its own name shows and hides nothing else. */
  lemma VisiblePush(props: seq<Property>, p: Property, name: string)
    ensures Visible(props + [p], name) == if p.name == name then Some(p.value) else Visible(props, name)
  {
    assert (props + [p])[..|props|] == props;
  }

  /** The ambient context: properties pushed and not yet disposed, outermost first. */
  class LogContext {
    var stack: seq<Property>

    constructor ()
      ensures stack == []
    {
      stack := [];
    }

    method PushProperty(name: string, value: Value)
      modifies this
      ensures stack == old(stack) + [Property(name, value)]
    {
      stack := stack + [Property(name, value)];
    }

    /** Disposing the handle of the most recent push removes that property. */
    method Pop()
      requires stack != []
      modifies this
      ensures stack == old(stack)[..|old(stack)| - 1]
    {
      stack := stack[..|stack| - 1];
    }
  }

  /**
   * A logger that records every accepted write. While `sinkError` is
   * `Some(e)` every write fails with `e` and records nothing.
   */
  class Logger {
    var writes: seq<LogEvent>
    var sinkError: Option<string>

    constructor (error: Option<string>)
      ensures writes == [] && sinkError == error
    {
      writes := [];
      sinkError := error;
    }

    /** Writes `message` to `channel`; the event carries the context as it is now. */
    method Write(channel: Channel, message: string, context: LogContext) returns (outcome: Outcome)
      modifies this
      ensures sinkError == old(sinkError)
      ensures sinkError.None? ==>
        outcome == Pass && writes == old(writes) + [LogEvent(channel, message, context.stack)]
      ensures sinkError.Some? ==> outcome == Fail(sinkError.value) && writes == old(writes)
    {
      if sinkError.None? {
        writes := writes + [LogEvent(channel, message, context.stack)];
        outcome := Pass;
      } else {
        outcome := Fail(sinkError.value);
      }
    }
  }
}
