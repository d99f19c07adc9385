/** The per-run execution record (CommandDotNet.Execution.ExecutionContext):
    the input the run started from, the token stream stages may replace, the
    results later stages attach, and the one-way should-exit latch with its
    exit code. */
module Execution {
  import opened Primitives
  import opened Tokens

  /** Produced by the parser, chosen by the binder and given by the host;
      their contents are not part of this model. */
  type ParseResult
  type ExecutionConfig
  type AppSettings

  /** OriginalInput: the raw arguments and the tokens the run started from. */
  datatype OriginalInput = OriginalInput(args: seq<string>, tokens: TokenCollection)

  /** The per-run context store; its contents are not part of this model,
      only that each execution context owns a store of its own. */
  class ContextData {
    constructor ()
    {
    }
  }

  /** Everything an ExecutionContext holds, as a value. */
  datatype ContextState = ContextState(
    shouldExit: bool,
    exitCode: int32,
    original: OriginalInput,
    tokens: TokenCollection,
    executionConfig: Option<ExecutionConfig>,
    parseResult: Option<ParseResult>,
    appSettings: AppSettings)

  /** The ways a run context can be changed once it exists: the exit request
      and the three public setters (the parse result and the execution config
      may be set to null; a null token stream is not modelled). */
  datatype Update =
    | ExitWithCode(code: int32)
    | SetTokens(tokens: TokenCollection)
    | SetParseResult(parseResult: Option<ParseResult>)
    | SetExecutionConfig(executionConfig: Option<ExecutionConfig>)

  /** The state the constructor leaves: the latch and the code at their
      defaults (false, 0), nothing parsed or configured yet. */
  function Initial(originalArgs: seq<string>, originalTokens: TokenCollection, appSettings: AppSettings): ContextState
  {
    ContextState(false, 0, OriginalInput(originalArgs, originalTokens), originalTokens, None, None, appSettings)
  }

  /** The effect of one update on the state. */
  function Step(s: ContextState, u: Update): ContextState
  {
    match u
    case ExitWithCode(code) => s.(shouldExit := true, exitCode := code)
    case SetTokens(t) => s.(tokens := t)
    case SetParseResult(p) => s.(parseResult := p)
    case SetExecutionConfig(c) => s.(executionConfig := c)
  }

  /** The effect of a sequence of updates, applied first to last. */
  function Apply(s: ContextState, us: seq<Update>): ContextState
    decreases |us|
  {
    if us == [] then s else Apply(Step(s, us[0]), us[1..])
  }

  /** The latch is set at the end of any run of updates exactly when it was set
      at the start or some update asked to exit: nothing ever clears it. */
  lemma {:induction false} ShouldExitIffSomeExit(s: ContextState, us: seq<Update>)
    ensures Apply(s, us).shouldExit <==>
            s.shouldExit || exists i :: 0 <= i < |us| && us[i].ExitWithCode?
    decreases |us|
  {
    if us != [] {
      ShouldExitIffSomeExit(Step(s, us[0]), us[1..]);
      if Apply(s, us).shouldExit && !s.shouldExit && !us[0].ExitWithCode? {
        var i :| 0 <= i < |us[1..]| && us[1..][i].ExitWithCode?;
        assert us[i + 1].ExitWithCode?;
      }
      if exists i :: 0 <= i < |us| && us[i].ExitWithCode? {
        var i :| 0 <= i < |us| && us[i].ExitWithCode?;
        if i > 0 {
          assert us[1..][i - 1].ExitWithCode?;
        }
      }
    }
  }

  /** Once set, the latch stays set whatever updates follow. */
  lemma {:induction false} LatchIsMonotonic(s: ContextState, us: seq<Update>)
    requires s.shouldExit
    ensures Apply(s, us).shouldExit
    decreases |us|
  {
    if us != [] {
      LatchIsMonotonic(Step(s, us[0]), us[1..]);
    }
  }

  /** The exit code is the one given by the LAST exit request: a later request
      overwrites an earlier one, and the setters leave it alone. */
  lemma {:induction false} ExitCodeIsLastRequested(s: ContextState, us: seq<Update>, i: nat)
    requires i < |us| && us[i].ExitWithCode?
    requires forall j :: i < j < |us| ==> !us[j].ExitWithCode?
    ensures Apply(s, us).shouldExit
    ensures Apply(s, us).exitCode == us[i].code
    decreases |us|
  {
    if i == 0 {
      NoExitRequestKeepsExitState(Step(s, us[0]), us[1..]);
    } else {
      ExitCodeIsLastRequested(Step(s, us[0]), us[1..], i - 1);
    }
  }

  /** Updates that do not ask to exit leave both the latch and the code as
      they were. */
  lemma {:induction false} NoExitRequestKeepsExitState(s: ContextState, us: seq<Update>)
    requires forall j :: 0 <= j < |us| ==> !us[j].ExitWithCode?
    ensures Apply(s, us).shouldExit == s.shouldExit
    ensures Apply(s, us).exitCode == s.exitCode
    decreases |us|
  {
    if us != [] {
      NoExitRequestKeepsExitState(Step(s, us[0]), us[1..]);
    }
  }

  /** The original input and the app settings are fixed at construction: no
      update, replacing the token stream included, reaches them. */
  lemma {:induction false} OriginalIsFixed(s: ContextState, us: seq<Update>)
    ensures Apply(s, us).original == s.original
    ensures Apply(s, us).appSettings == s.appSettings
    decreases |us|
  {
    if us != [] {
      OriginalIsFixed(Step(s, us[0]), us[1..]);
    }
  }

  /** The token stream is the one given by the last SetTokens update. */
  lemma {:induction false} TokensAreLastSet(s: ContextState, us: seq<Update>, i: nat)
    requires i < |us| && us[i].SetTokens?
    requires forall j :: i < j < |us| ==> !us[j].SetTokens?
    ensures Apply(s, us).tokens == us[i].tokens
    decreases |us|
  {
    if i == 0 {
      NoSetTokensKeepsTokens(Step(s, us[0]), us[1..]);
    } else {
      TokensAreLastSet(Step(s, us[0]), us[1..], i - 1);
    }
  }

  /** Without a SetTokens update the token stream is the one the run
      started with. */
  lemma {:induction false} NoSetTokensKeepsTokens(s: ContextState, us: seq<Update>)
    requires forall j :: 0 <= j < |us| ==> !us[j].SetTokens?
    ensures Apply(s, us).tokens == s.tokens
    decreases |us|
  {
    if us != [] {
      NoSetTokensKeepsTokens(Step(s, us[0]), us[1..]);
    }
  }

  class ExecutionContext {
    var shouldExit: bool
    var exitCode: int32
    const original: OriginalInput
    var tokens: TokenCollection
    var executionConfig: Option<ExecutionConfig>
    var parseResult: Option<ParseResult>
    const appSettings: AppSettings
    const contextData: ContextData

    /** The context's state as a value. */
    function State(): ContextState
      reads this
    {
      ContextState(shouldExit, exitCode, original, tokens, executionConfig, parseResult, appSettings)
    }

    constructor (originalArgs: seq<string>, originalTokens: TokenCollection, appSettings: AppSettings)
      ensures original == OriginalInput(originalArgs, originalTokens) && tokens == originalTokens
      ensures !shouldExit && exitCode == 0
      ensures State() == Initial(originalArgs, originalTokens, appSettings)
      ensures fresh(contextData)
    {
      original := OriginalInput(originalArgs, originalTokens);
      tokens := originalTokens;
      this.appSettings := appSettings;
      shouldExit := false;
      exitCode := 0;
      executionConfig := None;
      parseResult := None;
      contextData := new ContextData();
    }

    /** Sets the latch and records the code; nothing else changes. */
    method ShouldExitWithCode(code: int32)
      modifies this
      ensures shouldExit && exitCode == code
      ensures State() == Step(old(State()), ExitWithCode(code))
    {
      shouldExit := true;
      exitCode := code;
    }

    method SetTokens(newTokens: TokenCollection)
      modifies this`tokens
      ensures tokens == newTokens
      ensures State() == Step(old(State()), Update.SetTokens(newTokens))
    {
      tokens := newTokens;
    }

    method SetParseResult(p: Option<ParseResult>)
      modifies this`parseResult
      ensures parseResult == p
      ensures State() == Step(old(State()), Update.SetParseResult(p))
    {
      parseResult := p;
    }

    method SetExecutionConfig(c: Option<ExecutionConfig>)
      modifies this`executionConfig
      ensures executionConfig == c
      ensures State() == Step(old(State()), Update.SetExecutionConfig(c))
    {
      executionConfig := c;
    }
  }
}
