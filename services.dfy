/**
 * The logging facade: component-name normalisation, the four enrichment
 * properties pushed around every write, and the dispatch from the facade's
 * six levels to the backend's channels.
 */
module Services {
  import opened Wrappers
  import Backend

  /** The display width every component name is brought to. */
  const FixedLengthForComponentName: nat := 20

  // ---------------------------------------------------------------------------
  // Component-name normalisation
  // ---------------------------------------------------------------------------

  predicate AllSpaces(s: string) {
    forall i :: 0 <= i < |s| ==> s[i] == ' '
  }

  /** `n` space characters. */
  function Spaces(n: nat): (r: string)
    ensures |r| == n && AllSpaces(r)
  {
    if n == 0 then "" else Spaces(n - 1) + " "
  }

  /** Right-aligns `s` in a field of `w` characters; a string already that long is kept. */
  function PadLeft(s: string, w: nat): string {
    if |s| >= w then s else Spaces(w - |s|) + s
  }

  predicate IsSuffix(r: string, s: string) {
    |r| <= |s| && s[|s| - |r|..] == r
  }

  /**
   * What a normalised name must look like, case by case: exactly `w`
   * characters; all spaces for an empty name; the tail of a long name;
   * a short name right-aligned behind spaces.
   */
  ghost predicate NormalizedFrom(name: string, w: nat, r: string) {
    && |r| == w
    && (name == "" ==> AllSpaces(r))
    && (|name| > w ==> IsSuffix(r, name))
    && (0 < |name| <= w ==> AllSpaces(r[..w - |name|]) && r[w - |name|..] == name)
  }

  /** Brings a component name to exactly `w` characters. */
  function Normalize(name: string, w: nat): (r: string)
    ensures NormalizedFrom(name, w, r)
  {
    if name == "" then Spaces(w)
    else if |name| > w then name[|name| - w..]
    else PadLeft(name, w)
  }

  /** The normalisation the facade applies, at its fixed width. */
  function NormalizeComponentName(name: string): (r: string)
    ensures |r| == FixedLengthForComponentName
    ensures NormalizedFrom(name, FixedLengthForComponentName, r)
  {
    Normalize(name, FixedLengthForComponentName)
  }

  lemma {:induction false} SpacesUnique(s: string)
    requires AllSpaces(s)
    ensures s == Spaces(|s|)
  {
    if s != [] {
      SpacesUnique(s[..|s| - 1]);
      assert s == s[..|s| - 1] + " ";
    }
  }

  /** The case-by-case description determines the result: only `Normalize` meets it. */
  lemma NormalizedFromUnique(name: string, w: nat, r: string)
    requires NormalizedFrom(name, w, r)
    ensures r == Normalize(name, w)
  {
    if name == "" {
      SpacesUnique(r);
    } else if |name| <= w {
      var k := w - |name|;
      SpacesUnique(r[..k]);
      assert r == r[..k] + r[k..];
    }
  }

  /** Normalising a normalised name changes nothing. */
  lemma NormalizeIdempotent(name: string, w: nat)
    ensures Normalize(Normalize(name, w), w) == Normalize(name, w)
  {
    var r := Normalize(name, w);
    if r != "" {
      assert Normalize(r, w) == PadLeft(r, w);
    }
  }

  /** Example: a 14-character name gets six leading spaces. */
  lemma PaymentServiceExample()
    ensures NormalizeComponentName("PaymentService") == "      PaymentService"
  {
    var name := "PaymentService";
    assert |name| == 14 && name != "";
    SpacesUnique("      ");
    assert NormalizeComponentName(name) == PadLeft(name, 20) == Spaces(6) + name;
  }

  // ---------------------------------------------------------------------------
  // Levels and their backend channels
  // ---------------------------------------------------------------------------

  /** The facade's levels, in the order it declares them. */
  datatype LogType = Information | Error | Warning | Debug | Fatal | Trace

  /** The level a backend channel is written for. */
  function LevelOf(channel: Backend.Channel): LogType {
    match channel
    case Information => Information
    case Error => Error
    case Warning => Warning
    case Debug => Debug
    case Fatal => Fatal
    case Verbose => Trace
  }

  /** The channel each level is written to; Trace goes to the verbose channel. */
  function ChannelOf(level: LogType): (c: Backend.Channel)
    ensures LevelOf(c) == level
    ensures level == Trace <==> c == Backend.Verbose
  {
    match level
    case Information => Backend.Information
    case Error => Backend.Error
    case Warning => Backend.Warning
    case Debug => Backend.Debug
    case Fatal => Backend.Fatal
    case Trace => Backend.Verbose
  }

  /** Every channel is reached by exactly one level, so no write falls back to a default. */
  lemma ChannelOfBijective(a: LogType, b: LogType, c: Backend.Channel)
    ensures ChannelOf(a) == ChannelOf(b) ==> a == b
    ensures ChannelOf(LevelOf(c)) == c
  {
  }

  // ---------------------------------------------------------------------------
  // Enrichment scope
  // ---------------------------------------------------------------------------

  /** The four properties pushed around a write, outermost first. */
  function Scope(componentName: string, correlationId: string, memberName: string, lineNumber: int): (s: seq<Backend.Property>)
  {
    [ Backend.Property("ComponentName", Backend.Text(componentName)),
      Backend.Property("CorrelationId", Backend.Text(correlationId)),
      Backend.Property("MemberName", Backend.Text(memberName)),
      Backend.Property("LineNumber", Backend.Number(lineNumber)) ]
  }

  /**
   * Whatever an enclosing context holds, an event written inside the scope
   * sees exactly this call's four values, and everything else unchanged.
   */
  lemma ScopeShadowsOuter(outer: seq<Backend.Property>, componentName: string, correlationId: string,
                          memberName: string, lineNumber: int, other: string)
    requires other !in {"ComponentName", "CorrelationId", "MemberName", "LineNumber"}
    ensures var props := outer + Scope(componentName, correlationId, memberName, lineNumber);
      && Backend.Visible(props, "ComponentName") == Some(Backend.Text(componentName))
      && Backend.Visible(props, "CorrelationId") == Some(Backend.Text(correlationId))
      && Backend.Visible(props, "MemberName") == Some(Backend.Text(memberName))
      && Backend.Visible(props, "LineNumber") == Some(Backend.Number(lineNumber))
      && Backend.Visible(props, other) == Backend.Visible(outer, other)
  {
    var sc := Scope(componentName, correlationId, memberName, lineNumber);
    var p1 := outer + [sc[0]];
    var p2 := p1 + [sc[1]];
    var p3 := p2 + [sc[2]];
    assert outer + sc == p3 + [sc[3]];
    Backend.VisiblePush(outer, sc[0], other);
    Backend.VisiblePush(p1, sc[1], other);
    Backend.VisiblePush(p2, sc[2], other);
    Backend.VisiblePush(p3, sc[3], other);
    Backend.VisiblePush(p3, sc[3], "ComponentName");
    Backend.VisiblePush(p2, sc[2], "ComponentName");
    Backend.VisiblePush(p1, sc[1], "ComponentName");
    Backend.VisiblePush(p3, sc[3], "CorrelationId");
    Backend.VisiblePush(p2, sc[2], "CorrelationId");
    Backend.VisiblePush(p3, sc[3], "MemberName");
  }

  // ---------------------------------------------------------------------------
  // The facade
  // ---------------------------------------------------------------------------

  class LogsManager {
    const logger: Backend.Logger
    /** The ambient enrichment context the backend reads. */
    const context: Backend.LogContext

    constructor (logger: Backend.Logger, context: Backend.LogContext)
      ensures this.logger == logger && this.context == context
    {
      this.logger := logger;
      this.context := context;
    }

    /** The event a successful call writes, given the context before the call. */
    static ghost function Expected(channel: Backend.Channel, message: string, componentName: string,
                                  correlationId: string, memberName: string, lineNumber: int,
                                  before: seq<Backend.Property>): Backend.LogEvent
    {
      Backend.LogEvent(channel, message,
        before + Scope(NormalizeComponentName(componentName), correlationId, memberName, lineNumber))
    }

    /**
     * Pushes the four properties, writes `message` to the level's channel and
     * disposes the properties again, on the failing path as well.
     */
    method LogWithContext(level: LogType, componentName: string, message: string, correlationId: string,
                          memberName: string, lineNumber: int) returns (outcome: Outcome)
      modifies logger, context
      ensures context.stack == old(context.stack)
      ensures logger.sinkError == old(logger.sinkError)
      ensures logger.sinkError.None? ==> outcome == Pass
      ensures logger.sinkError.None? ==>
        logger.writes == old(logger.writes) + [Expected(ChannelOf(level), message, componentName,
                                                        correlationId, memberName, lineNumber, old(context.stack))]
      ensures logger.sinkError.Some? ==> outcome == Fail(logger.sinkError.value) && logger.writes == old(logger.writes)
    {
      var name := NormalizeComponentName(componentName);
      context.PushProperty("ComponentName", Backend.Text(name));
      context.PushProperty("CorrelationId", Backend.Text(correlationId));
      context.PushProperty("MemberName", Backend.Text(memberName));
      context.PushProperty("LineNumber", Backend.Number(lineNumber));
      assert context.stack == old(context.stack) + Scope(name, correlationId, memberName, lineNumber);
      match level {
        case Information => outcome := logger.Write(Backend.Information, message, context);
        case Error => outcome := logger.Write(Backend.Error, message, context);
        case Warning => outcome := logger.Write(Backend.Warning, message, context);
        case Debug => outcome := logger.Write(Backend.Debug, message, context);
        case Fatal => outcome := logger.Write(Backend.Fatal, message, context);
        case Trace => outcome := logger.Write(Backend.Verbose, message, context);
      }
      context.Pop();
      context.Pop();
      context.Pop();
      context.Pop();
      assert context.stack == old(context.stack);
    }

    method Information(message: string, componentName: string, correlationId: string := "",
                       memberName: string := "", lineNumber: int := 0) returns (outcome: Outcome)
      modifies logger, context
      ensures context.stack == old(context.stack)
      ensures logger.sinkError == old(logger.sinkError)
      ensures logger.sinkError.None? ==> outcome == Pass
      ensures logger.sinkError.None? ==>
        logger.writes == old(logger.writes) + [Expected(Backend.Information, message, componentName,
                                                        correlationId, memberName, lineNumber, old(context.stack))]
      ensures logger.sinkError.Some? ==> outcome == Fail(logger.sinkError.value) && logger.writes == old(logger.writes)
    {
      outcome := LogWithContext(LogType.Information, componentName, message, correlationId, memberName, lineNumber);
    }

    method Error(message: string, componentName: string, correlationId: string := "",
                 memberName: string := "", lineNumber: int := 0) returns (outcome: Outcome)
      modifies logger, context
      ensures context.stack == old(context.stack)
      ensures logger.sinkError == old(logger.sinkError)
      ensures logger.sinkError.None? ==> outcome == Pass
      ensures logger.sinkError.None? ==>
        logger.writes == old(logger.writes) + [Expected(Backend.Error, message, componentName,
                                                        correlationId, memberName, lineNumber, old(context.stack))]
      ensures logger.sinkError.Some? ==> outcome == Fail(logger.sinkError.value) && logger.writes == old(logger.writes)
    {
      outcome := LogWithContext(LogType.Error, componentName, message, correlationId, memberName, lineNumber);
    }

    method Warning(message: string, componentName: string, correlationId: string := "",
                   memberName: string := "", lineNumber: int := 0) returns (outcome: Outcome)
      modifies logger, context
      ensures context.stack == old(context.stack)
      ensures logger.sinkError == old(logger.sinkError)
      ensures logger.sinkError.None? ==> outcome == Pass
      ensures logger.sinkError.None? ==>
        logger.writes == old(logger.writes) + [Expected(Backend.Warning, message, componentName,
                                                        correlationId, memberName, lineNumber, old(context.stack))]
      ensures logger.sinkError.Some? ==> outcome == Fail(logger.sinkError.value) && logger.writes == old(logger.writes)
    {
      outcome := LogWithContext(LogType.Warning, componentName, message, correlationId, memberName, lineNumber);
    }

    method Debug(message: string, componentName: string, correlationId: string := "",
                 memberName: string := "", lineNumber: int := 0) returns (outcome: Outcome)
      modifies logger, context
      ensures context.stack == old(context.stack)
      ensures logger.sinkError == old(logger.sinkError)
      ensures logger.sinkError.None? ==> outcome == Pass
      ensures logger.sinkError.None? ==>
        logger.writes == old(logger.writes) + [Expected(Backend.Debug, message, componentName,
                                                        correlationId, memberName, lineNumber, old(context.stack))]
      ensures logger.sinkError.Some? ==> outcome == Fail(logger.sinkError.value) && logger.writes == old(logger.writes)
    {
      outcome := LogWithContext(LogType.Debug, componentName, message, correlationId, memberName, lineNumber);
    }

    method Fatal(message: string, componentName: string, correlationId: string := "",
                 memberName: string := "", lineNumber: int := 0) returns (outcome: Outcome)
      modifies logger, context
      ensures context.stack == old(context.stack)
      ensures logger.sinkError == old(logger.sinkError)
      ensures logger.sinkError.None? ==> outcome == Pass
      ensures logger.sinkError.None? ==>
        logger.writes == old(logger.writes) + [Expected(Backend.Fatal, message, componentName,
                                                        correlationId, memberName, lineNumber, old(context.stack))]
      ensures logger.sinkError.Some? ==> outcome == Fail(logger.sinkError.value) && logger.writes == old(logger.writes)
    {
      outcome := LogWithContext(LogType.Fatal, componentName, message, correlationId, memberName, lineNumber);
    }

    /** Trace is written to the backend's verbose channel. */
    method Trace(message: string, componentName: string, correlationId: string := "",
                 memberName: string := "", lineNumber: int := 0) returns (outcome: Outcome)
      modifies logger, context
      ensures context.stack == old(context.stack)
      ensures logger.sinkError == old(logger.sinkError)
      ensures logger.sinkError.None? ==> outcome == Pass
      ensures logger.sinkError.None? ==>
        logger.writes == old(logger.writes) + [Expected(Backend.Verbose, message, componentName,
                                                        correlationId, memberName, lineNumber, old(context.stack))]
      ensures logger.sinkError.Some? ==> outcome == Fail(logger.sinkError.value) && logger.writes == old(logger.writes)
    {
      outcome := LogWithContext(LogType.Trace, componentName, message, correlationId, memberName, lineNumber);
    }
  }

  /**
   * A write that fails inside one call leaves no properties behind: the next
   * call's event carries only its own four values on top of the context both
   * calls started from.
   */
  method NoLeakAfterFailure(m: LogsManager, error: string,
                            failedLevel: LogType, failedMessage: string, failedComponent: string,
                            failedCorrelation: string, failedMember: string, failedLine: int,
                            level: LogType, message: string, componentName: string,
                            correlationId: string, memberName: string, lineNumber: int)
    modifies m.logger, m.context
    ensures m.context.stack == old(m.context.stack)
    ensures m.logger.writes == old(m.logger.writes) +
      [LogsManager.Expected(ChannelOf(level), message, componentName, correlationId, memberName, lineNumber,
                            old(m.context.stack))]
  {
    m.logger.sinkError := Some(error);
    var failed := m.LogWithContext(failedLevel, failedComponent, failedMessage, failedCorrelation, failedMember, failedLine);
    assert failed == Fail(error);
    m.logger.sinkError := None;
    var passed := m.LogWithContext(level, componentName, message, correlationId, memberName, lineNumber);
    assert passed == Pass;
  }
}
