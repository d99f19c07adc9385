/** The `[debug]` directive middleware (CommandDotNet.Directives.DebugDirective):
    registration stores a wait policy in the app configuration's context data
    and puts AttachDebugger first in the PreTransformTokens stage; at run time
    AttachDebugger announces the process when the token stream carries the
    directive, optionally spins until a debugger is attached, and then always
    hands the unchanged context to the next stage. */
module Directives {
  import opened Primitives
  import opened Tokens
  import opened DecimalText

  const DebugDirectiveName := "debug"

  /** The wait policy stored in the context data; a datatype value, so it
      cannot change once constructed. */
  datatype DebugDirectiveContext = DebugDirectiveContext(waitForDebuggerToAttach: bool)

  /** MiddlewareStages: the stage this middleware uses, and any other. */
  datatype MiddlewareStage = PreTransformTokens | OtherStage(name: string)

  /** The middleware delegates a registration can name. */
  datatype Middleware = AttachDebuggerDelegate | OtherMiddleware(name: string)

  /** One UseMiddleware call: the delegate, its stage and its order within the stage. */
  datatype MiddlewareRegistration = MiddlewareRegistration(middleware: Middleware, stage: MiddlewareStage, order: int32)

  /** The built application configuration: the DebugDirectiveContext entry of
      its context data (if one was added) and its middleware registrations. */
  datatype AppConfig = AppConfig(debugContext: Option<DebugDirectiveContext>, middleware: seq<MiddlewareRegistration>)

  /** What AttachDebugger sees of the command context. */
  datatype CommandContext = CommandContext(tokens: TokenCollection, appConfig: AppConfig)

  /** The current process, as Process.GetCurrentProcess() reports it. */
  datatype ProcessInfo = ProcessInfo(id: int32, name: string)

  /** The faults the middleware can raise. */
  datatype Fault =
    | ContextEntryAlreadyAdded  // ContextData.Add of a type it already holds
    | ContextEntryNotFound      // ContextData.Get of a type it does not hold

  datatype Result<+T> = Success(value: T) | Failure(fault: Fault)

  /** `waitForDebuggerToAttach ?? !InTestHarness`: an explicit argument wins,
      otherwise wait exactly when not running under the test harness. */
  function WaitFlag(waitForDebuggerToAttach: Option<bool>, inTestHarness: bool): (wait: bool)
    ensures waitForDebuggerToAttach.Some? ==> wait == waitForDebuggerToAttach.value
    ensures waitForDebuggerToAttach.None? ==> wait == !inTestHarness
  {
    waitForDebuggerToAttach.GetOr(!inTestHarness)
  }

  /** The registration UseDebugDirective makes. */
  function DebugRegistration(): MiddlewareRegistration
  {
    MiddlewareRegistration(AttachDebuggerDelegate, PreTransformTokens, Int32Min)
  }

  /** int.MinValue is the smallest order a registration can carry: no other
      middleware of the PreTransformTokens stage is ordered strictly before
      AttachDebugger. */
  lemma NothingOrderedBeforeDebug(other: MiddlewareRegistration)
    requires other.stage == DebugRegistration().stage
    ensures DebugRegistration().stage == PreTransformTokens
    ensures !(other.order < DebugRegistration().order)
  {
  }

  /** The line announced to the console. */
  const AnnouncementPrefix := "Attach your debugger to process "

  /** The line of DebugDirective.cs:34: it starts with the fixed prefix,
      names the process id in a way that reads back, and ends with the
      process name in parentheses. */
  function Announcement(process: ProcessInfo): (line: string)
    ensures AnnouncementPrefix <= line
    ensures AnnouncedProcessId(line) == Some(process.id as int)
    ensures |line| >= |process.name| + 4 && line[|line| - |process.name| - 4..] == " (" + process.name + ")."
  {
    var pid := Int32ToDecimal(process.id);
    var rest := " (" + process.name + ").";
    var line := AnnouncementPrefix + (pid + rest);
    assert line[|AnnouncementPrefix|..] == pid + rest;
    ReadBackInt32(process.id, rest);
    line
  }

  /** The process id an announcement line names, if it is one. */
  function AnnouncedProcessId(line: string): Option<int>
  {
    if AnnouncementPrefix <= line then ParseLeadingInt(line[|AnnouncementPrefix|..]) else None
  }

  /** The configuration builder that registration changes. */
  class AppConfigBuilder {
    var debugContext: Option<DebugDirectiveContext>
    var middleware: seq<MiddlewareRegistration>

    constructor ()
      ensures debugContext == None && middleware == []
    {
      debugContext := None;
      middleware := [];
    }

    function Build(): AppConfig
      reads this
    {
      AppConfig(debugContext, middleware)
    }

    /** The configuration step of UseDebugDirective: add the wait policy to the
        context data, then register AttachDebugger. A second add of the policy
        faults before anything is registered. */
    method UseDebugDirective(waitForDebuggerToAttach: Option<bool>, inTestHarness: bool)
      returns (result: Result<()>)
      modifies this
      ensures result.Success? <==> old(debugContext).None?
      ensures result.Failure? ==> result.fault == ContextEntryAlreadyAdded
      ensures result.Success? ==>
                debugContext == Some(DebugDirectiveContext(WaitFlag(waitForDebuggerToAttach, inTestHarness))) &&
                middleware == old(middleware) + [DebugRegistration()]
      ensures result.Failure? ==> debugContext == old(debugContext) && middleware == old(middleware)
    {
      if debugContext.Some? {
        return Failure(ContextEntryAlreadyAdded);
      }
      debugContext := Some(DebugDirectiveContext(WaitFlag(waitForDebuggerToAttach, inTestHarness)));
      middleware := middleware + [DebugRegistration()];
      result := Success(());
    }
  }

  /** The console's output stream. */
  class Console {
    var lines: seq<string>

    constructor ()
      ensures lines == []
    {
      lines := [];
    }

    method WriteLine(line: string)
      modifies this
      ensures lines == old(lines) + [line]
    {
      lines := lines + [line];
    }
  }

  /** One call of `next`: the context it was given, and what the world
      looked like when it was made (the console output written so far and
      whether a debugger was attached). */
  datatype NextCall = NextCall(ctx: CommandContext, consoleLines: seq<string>, debuggerAttached: bool)

  /** The `next` continuation: the rest of the pipeline, which records every
      call made to it. */
  class Next {
    const handler: CommandContext -> int
    var received: seq<NextCall>

    constructor (handler: CommandContext -> int)
      ensures this.handler == handler && received == []
    {
      this.handler := handler;
      received := [];
    }

    method Invoke(ctx: CommandContext, console: Console, debugger: Debugger) returns (result: int)
      modifies this
      ensures received == old(received) + [NextCall(ctx, console.lines, debugger.IsAttached())]
      ensures result == handler(ctx)
    {
      received := received + [NextCall(ctx, console.lines, debugger.IsAttached())];
      result := handler(ctx);
    }
  }

  /** Debugger.IsAttached as the process environment answers it: a debugger
      attaches after a given number of polls of the spin loop. */
  class Debugger {
    const attachesAfterPolls: nat
    var polls: nat

    constructor (attachesAfterPolls: nat)
      ensures this.attachesAfterPolls == attachesAfterPolls && polls == 0
    {
      this.attachesAfterPolls := attachesAfterPolls;
      polls := 0;
    }

    predicate IsAttached()
      reads this
    {
      polls >= attachesAfterPolls
    }

    /** One turn of the spin loop (the un-awaited Task.Delay does not wait). */
    method Spin()
      modifies this
      ensures polls == old(polls) + 1
    {
      polls := polls + 1;
    }
  }

  /** The polls the spin loop leaves behind: it turns only while waiting is on
      and no debugger is attached. */
  function PollsAfterWait(wait: bool, polls: nat, attachesAfterPolls: nat): nat
  {
    if wait && polls < attachesAfterPolls then attachesAfterPolls else polls
  }

  /** The middleware. Whatever the tokens, it calls next exactly once with the
      unchanged context (directive token included) and returns its result,
      unless the directive is present and the wait policy was never added.
      With the directive, the announcement is written and the wait is over
      before next is called: the call sees the announcement on the console
      and, when waiting is on, an attached debugger. */
  method AttachDebugger(ctx: CommandContext, next: Next, console: Console,
                        debugger: Debugger, process: ProcessInfo)
    returns (result: Result<int>)
    modifies next, console, debugger
    ensures !HasDirective(ctx.tokens, DebugDirectiveName) ==>
              result == Success(next.handler(ctx)) &&
              next.received == old(next.received) + [NextCall(ctx, old(console.lines), old(debugger.IsAttached()))] &&
              console.lines == old(console.lines) &&
              debugger.polls == old(debugger.polls)
    ensures HasDirective(ctx.tokens, DebugDirectiveName) && ctx.appConfig.debugContext.None? ==>
              result == Failure(ContextEntryNotFound) &&
              next.received == old(next.received) &&
              console.lines == old(console.lines) &&
              debugger.polls == old(debugger.polls)
    ensures HasDirective(ctx.tokens, DebugDirectiveName) && ctx.appConfig.debugContext.Some? ==>
              var wait := ctx.appConfig.debugContext.value.waitForDebuggerToAttach;
              && result == Success(next.handler(ctx))
              && next.received == old(next.received) +
                   [NextCall(ctx, old(console.lines) + [Announcement(process)], wait || old(debugger.IsAttached()))]
              && console.lines == old(console.lines) + [Announcement(process)]
              && debugger.polls == PollsAfterWait(wait, old(debugger.polls), debugger.attachesAfterPolls)
  {
    if HasDirective(ctx.tokens, DebugDirectiveName) {
      if ctx.appConfig.debugContext.None? {
        return Failure(ContextEntryNotFound);
      }
      var wait := ctx.appConfig.debugContext.value.waitForDebuggerToAttach;
      console.WriteLine(Announcement(process));
      while wait && !debugger.IsAttached()
        invariant old(debugger.polls) <= debugger.polls
        invariant wait && old(debugger.polls) < debugger.attachesAfterPolls ==> debugger.polls <= debugger.attachesAfterPolls
        invariant !(wait && old(debugger.polls) < debugger.attachesAfterPolls) ==> debugger.polls == old(debugger.polls)
        modifies debugger
        decreases debugger.attachesAfterPolls - debugger.polls
      {
        debugger.Spin();
      }
    }
    var r := next.Invoke(ctx, console, debugger);
    result := Success(r);
  }
}
