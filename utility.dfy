/**
  The orchestrator: it completes the option catalog with the built-in help
  and action options, parses, shows help and stops when help was asked for,
  and otherwise checks required options, validates every specified instance,
  lets the handlers bind the instances onto the chosen action and finally
  executes that action once.

  The collaborators whose code is not part of this model are parameters:
  the parser (a field, as in the source), the rule that decides which
  options an action requires, what each validator accepts, and the
  constructor of the arguments bundle.
 */
module Utility {
  import opened Wrappers
  import opened Options
  import opened Actions
  import opened Arguments

  /** Why the parser rejected the command line (its diagnosis is not modelled). */
  datatype ParseError = ParseError(reason: string)

  /** The parser: raw arguments and the valid options to the specified instances. */
  type Parser = (seq<string>, set<CmdLineOption>) -> Result<set<OptionInstance>, ParseError>

  /** The options an action requires, given the custom supported options. */
  type RequiredRule = (CmdLineAction?, set<CmdLineOption>) -> set<CmdLineOption>

  /** The two calls on the option store: its supported options and its supported actions. */
  datatype OptionStore = OptionStore(supportedOptions: set<CmdLineOption>, supportedActions: set<CmdLineAction>)

  /** What a run reports instead of completing. */
  datatype CmdLineError =
    | ParseFailed(parseError: ParseError)
    | RequiredOptionsNotSet(missing: set<CmdLineOption>)
    | OptionsFailedValidation(failed: set<OptionInstance>)
    | NoSpecifiedAction

  /** Help handed to the presenter: the option listing or the action listing, for a bundle. */
  datatype HelpShown = OptionHelp(args: CmdLineArgs) | ActionHelp(args: CmdLineArgs)

  // ---------------------------------------------------------------------
  // Specification functions
  // ---------------------------------------------------------------------

  /** An instance passes validation when it is not validatable or every validator of its option accepts it. */
  predicate Validates(inst: OptionInstance, accepts: Acceptance)
  {
    match inst.option.validators
    case None => true
    case Some(vs) => forall k :: 0 <= k < |vs| ==> accepts(vs[k], inst)
  }

  /** The instances of `insts` that fail validation. */
  function FailedValidation(insts: set<OptionInstance>, accepts: Acceptance): set<OptionInstance>
  {
    set i | i in insts && !Validates(i, accepts)
  }

  /** The options required for the specified action that no custom specified instance refers to. */
  function RequiredNotSet(args: CmdLineArgs, required: RequiredRule): (r: set<CmdLineOption>)
    ensures r <= required(args.specifiedAction, args.customSupportedOptions)
    ensures forall i :: i in args.customSpecifiedOptions ==> i.option !in r
    ensures forall o :: o in required(args.specifiedAction, args.customSupportedOptions) ==>
              o in r || exists i :: i in args.customSpecifiedOptions && i.option == o
    ensures required(args.specifiedAction, args.customSupportedOptions) <= args.customSupportedOptions ==>
              forall o :: o in r ==> !o.IsBuiltIn()
  {
    required(args.specifiedAction, args.customSupportedOptions) - OptionsOf(args.customSpecifiedOptions)
  }

  /**
    The catalog with a default help option added when it has no help option,
    and then a default action option added when it has no action option.
   */
  function WithBuiltIns(supported: set<CmdLineOption>): (valid: set<CmdLineOption>)
    ensures supported <= valid
    ensures HasKind(valid, HelpOption) && HasKind(valid, ActionOption)
    ensures |valid - supported| ==
              (if HasKind(supported, HelpOption) then 0 else 1) + (if HasKind(supported, ActionOption) then 0 else 1)
    ensures forall o :: o in valid - supported ==> o.IsBuiltIn()
    ensures HasKind(supported, HelpOption) ==> !HasKind(valid - supported, HelpOption)
    ensures HasKind(supported, ActionOption) ==> !HasKind(valid - supported, ActionOption)
  {
    var withHelp := if HasKind(supported, HelpOption) then supported else supported + {DefaultHelpOption};
    assert withHelp - supported == if HasKind(supported, HelpOption) then {} else {DefaultHelpOption};
    var valid := if HasKind(withHelp, ActionOption) then withHelp else withHelp + {DefaultActionOption};
    assert valid - supported ==
      (withHelp - supported) + (if HasKind(withHelp, ActionOption) then {} else {DefaultActionOption});
    valid
  }

  /** The calls a handler makes for one instance: one if the instance is handleable, none otherwise. */
  function HandlerCall(inst: OptionInstance): seq<ActionEvent>
  {
    match inst.option.handler
    case Some(h) => [Handled(h, inst)]
    case None => []
  }

  /** The handler calls for the instances visited in the order given. */
  function HandlerCalls(order: seq<OptionInstance>): seq<ActionEvent>
    decreases |order|
  {
    if order == [] then [] else HandlerCalls(order[..|order| - 1]) + HandlerCall(order[|order| - 1])
  }

  /** How `Execute` ends for a bundle: the first failing stage, in pipeline order, or success. */
  function ExecuteOutcome(args: CmdLineArgs, required: RequiredRule, accepts: Acceptance): Outcome<CmdLineError>
  {
    var missing := RequiredNotSet(args, required);
    if missing != {} then Fail(RequiredOptionsNotSet(missing))
    else
      var failed := FailedValidation(args.specifiedOptions, accepts);
      if failed != {} then Fail(OptionsFailedValidation(failed))
      else if args.specifiedAction == null then Fail(NoSpecifiedAction)
      else Pass
  }

  /** The help a present help instance asks for: option help without sub-options, action help with them. */
  function HelpFor(args: CmdLineArgs): HelpShown
    requires args.helpOptionInst.Some?
  {
    if args.helpOptionInst.value.subOptions == {} then OptionHelp(args) else ActionHelp(args)
  }

  // ---------------------------------------------------------------------
  // Lemmas
  // ---------------------------------------------------------------------

  /** Each handleable instance gets as many handler calls as it occurs in the order; nothing else is called. */
  lemma {:induction false} HandlerCallsCount(order: seq<OptionInstance>, e: ActionEvent)
    ensures multiset(HandlerCalls(order))[e] ==
              if e.Handled? && e.inst.option.handler == Some(e.handler) then multiset(order)[e.inst] else 0
    decreases |order|
  {
    if order != [] {
      var init, last := order[..|order| - 1], order[|order| - 1];
      assert order == init + [last];
      HandlerCallsCount(init, e);
    }
  }

  /**
    Visiting every instance of a set once, in any order, calls the handler of
    each handleable instance exactly once, with that instance, and makes no
    other call: in particular no execution.
   */
  lemma HandledExactlyOnce(order: seq<OptionInstance>, insts: set<OptionInstance>)
    requires multiset(order) == multiset(insts)
    ensures forall i :: i in insts && i.IsHandleable() ==>
              multiset(HandlerCalls(order))[Handled(i.option.handler.value, i)] == 1
    ensures forall e :: e in HandlerCalls(order) ==>
              e.Handled? && e.inst in insts && e.inst.IsHandleable() && e.inst.option.handler.value == e.handler
    ensures Executed !in HandlerCalls(order)
  {
    forall i | i in insts && i.IsHandleable()
      ensures multiset(HandlerCalls(order))[Handled(i.option.handler.value, i)] == 1
    {
      HandlerCallsCount(order, Handled(i.option.handler.value, i));
    }
    forall e | e in HandlerCalls(order)
      ensures e.Handled? && e.inst in insts && e.inst.IsHandleable() && e.inst.option.handler.value == e.handler
    {
      HandlerCallsCount(order, e);
    }
    HandlerCallsCount(order, Executed);
  }

  // ---------------------------------------------------------------------
  // The orchestrator
  // ---------------------------------------------------------------------

  class CmdLineUtility {
    var parser: Parser
    var optionStore: OptionStore
    /** Everything handed to the help presenter, in order. */
    var presented: seq<HelpShown>

    constructor (parser: Parser, optionStore: OptionStore)
      ensures this.parser == parser && this.optionStore == optionStore && presented == []
    {
      this.parser := parser;
      this.optionStore := optionStore;
      presented := [];
    }

    method PrintOptionHelp(args: CmdLineArgs)
      modifies this`presented
      ensures presented == old(presented) + [OptionHelp(args)]
    {
      presented := presented + [OptionHelp(args)];
    }

    method PrintActionHelp(args: CmdLineArgs)
      modifies this`presented
      ensures presented == old(presented) + [ActionHelp(args)]
    {
      presented := presented + [ActionHelp(args)];
    }

    /**
      Injects a default help option and a default action option where the
      catalog has none of that kind; nothing else is added or removed.
     */
    static method AddBuiltInOptions(supported: set<CmdLineOption>) returns (valid: set<CmdLineOption>)
      ensures valid == WithBuiltIns(supported)
    {
      valid := supported;
      if !HasKind(valid, HelpOption) {
        valid := valid + {DefaultHelpOption};
      }
      if !HasKind(valid, ActionOption) {
        valid := valid + {DefaultActionOption};
      }
    }

    /**
      Completes the catalog and runs the parser on it. The bundle is built
      from the store's actions, the completed option set and the parser's
      instances.
     */
    method Parse(argv: seq<string>, newArgs: ArgsFactory) returns (r: Result<CmdLineArgs, ParseError>)
      ensures var valid := WithBuiltIns(optionStore.supportedOptions);
              match parser(argv, valid)
              case Err(e) => r == Err(e)
              case Ok(insts) => r == Ok(newArgs(optionStore.supportedActions, valid, insts))
    {
      var valid := AddBuiltInOptions(optionStore.supportedOptions);
      var parsed := parser(argv, valid);
      match parsed
      case Err(e) => r := Err(e);
      case Ok(insts) => r := Ok(newArgs(optionStore.supportedActions, valid, insts));
    }

    /** Shows help when a help instance is present and reports whether it did. */
    method HandleHelp(args: CmdLineArgs) returns (helped: bool)
      modifies this`presented
      ensures helped <==> args.helpOptionInst.Some?
      ensures !helped ==> presented == old(presented)
      ensures helped && args.helpOptionInst.value.subOptions == {} ==> presented == old(presented) + [OptionHelp(args)]
      ensures helped && args.helpOptionInst.value.subOptions != {} ==> presented == old(presented) + [ActionHelp(args)]
    {
      if args.helpOptionInst.Some? {
        if args.helpOptionInst.value.subOptions == {} {
          PrintOptionHelp(args);
        } else {
          PrintActionHelp(args);
        }
        return true;
      }
      return false;
    }

    /** The required options for the specified action that no custom specified instance supplies. */
    static method Check(args: CmdLineArgs, required: RequiredRule) returns (notSet: set<CmdLineOption>)
      ensures notSet == RequiredNotSet(args, required)
    {
      var requiredOptions := required(args.specifiedAction, args.customSupportedOptions);
      notSet := requiredOptions;
      var rest := args.customSpecifiedOptions;
      while rest != {}
        invariant rest <= args.customSpecifiedOptions
        invariant notSet == requiredOptions - OptionsOf(args.customSpecifiedOptions - rest)
        decreases rest
      {
        var inst :| inst in rest;
        assert OptionsOf(args.customSpecifiedOptions - (rest - {inst}))
            == OptionsOf(args.customSpecifiedOptions - rest) + {inst.option};
        notSet := notSet - {inst.option};
        rest := rest - {inst};
      }
    }

    /** Every instance that fails validation, not only the first. */
    static method Validate(insts: set<OptionInstance>, accepts: Acceptance) returns (failed: set<OptionInstance>)
      ensures failed <= insts
      ensures forall i :: i in insts ==> (i in failed <==> !Validates(i, accepts))
      ensures failed == FailedValidation(insts, accepts)
    {
      failed := {};
      var rest := insts;
      while rest != {}
        invariant rest <= insts
        invariant failed == FailedValidation(insts - rest, accepts)
        decreases rest
      {
        var inst :| inst in rest;
        var ok, consulted := ValidateInstance(inst, accepts);
        if !ok {
          failed := failed + {inst};
        }
        rest := rest - {inst};
      }
    }

    /**
      Runs the validators of a validatable instance in order and stops at the
      first that rejects it; `consulted` is how many validators were run.
     */
    static method ValidateInstance(inst: OptionInstance, accepts: Acceptance) returns (ok: bool, ghost consulted: nat)
      ensures ok == Validates(inst, accepts)
      ensures !inst.IsValidatable() ==> ok && consulted == 0
      ensures inst.IsValidatable() ==>
                var vs := inst.option.validators.value;
                && consulted <= |vs|
                && (forall k :: 0 <= k < consulted - 1 ==> accepts(vs[k], inst))
                && (ok ==> consulted == |vs|)
                && (!ok ==> 0 < consulted && !accepts(vs[consulted - 1], inst))
    {
      consulted := 0;
      if inst.option.validators.Some? {
        var vs := inst.option.validators.value;
        var k := 0;
        while k < |vs|
          invariant 0 <= k <= |vs|
          invariant consulted == k
          invariant forall j :: 0 <= j < k ==> accepts(vs[j], inst)
        {
          consulted := k + 1;
          if !accepts(vs[k], inst) {
            return false, consulted;
          }
          k := k + 1;
        }
      }
      return true, consulted;
    }

    /** Calls the handler of every handleable instance once, with `action`, in some order. */
    static method Handle(action: CmdLineAction, insts: set<OptionInstance>) returns (ghost order: seq<OptionInstance>)
      modifies action`trace
      ensures multiset(order) == multiset(insts)
      ensures action.trace == old(action.trace) + HandlerCalls(order)
    {
      order := [];
      var rest := insts;
      while rest != {}
        invariant rest <= insts
        invariant multiset(order) + multiset(rest) == multiset(insts)
        invariant action.trace == old(action.trace) + HandlerCalls(order)
        decreases rest
      {
        var inst :| inst in rest;
        HandleInstance(action, inst);
        assert (order + [inst])[..|order|] == order;
        order := order + [inst];
        assert multiset(rest) == multiset(rest - {inst}) + multiset{inst};
        rest := rest - {inst};
      }
    }

    /** Calls the instance's handler with `action` when the instance is handleable. */
    static method HandleInstance(action: CmdLineAction, inst: OptionInstance)
      modifies action`trace
      ensures action.trace == old(action.trace) + HandlerCall(inst)
    {
      if inst.option.handler.Some? {
        action.trace := action.trace + [Handled(inst.option.handler.value, inst)];
      }
    }

    /**
      Required check, then validation of every specified instance, then the
      handlers, then the action's `Execute`. A failing stage ends the call
      before any later stage is reached.
     */
    method Execute(args: CmdLineArgs, required: RequiredRule, accepts: Acceptance)
      returns (r: Outcome<CmdLineError>, ghost order: seq<OptionInstance>)
      modifies args.specifiedAction
      ensures r == ExecuteOutcome(args, required, accepts)
      ensures r.Pass? ==> args.specifiedAction != null && multiset(order) == multiset(args.specifiedOptions)
      ensures args.specifiedAction != null ==>
                args.specifiedAction.trace ==
                  old(args.specifiedAction.trace) + (if r.Pass? then HandlerCalls(order) + [Executed] else [])
    {
      order := [];
      var notSet := Check(args, required);
      if notSet != {} {
        return Fail(RequiredOptionsNotSet(notSet)), order;
      }
      var failed := Validate(args.specifiedOptions, accepts);
      if failed != {} {
        return Fail(OptionsFailedValidation(failed)), order;
      }
      var action := args.specifiedAction;
      if action == null {
        return Fail(NoSpecifiedAction), order;
      }
      order := Handle(action, args.specifiedOptions);
      action.Execute();
      r := Pass;
    }

    /** Parses; shows help and stops if help was asked for; otherwise executes. */
    method Run(argv: seq<string>, newArgs: ArgsFactory, required: RequiredRule, accepts: Acceptance)
      returns (r: Outcome<CmdLineError>, ghost parsed: Result<CmdLineArgs, ParseError>, ghost order: seq<OptionInstance>)
      requires forall actions, options, insts :: newArgs(actions, options, insts).supportedActions == actions
      modifies this`presented, optionStore.supportedActions
      ensures var valid := WithBuiltIns(optionStore.supportedOptions);
              match parser(argv, valid)
              case Err(e) => parsed == Err(e)
              case Ok(insts) => parsed == Ok(newArgs(optionStore.supportedActions, valid, insts))
      ensures parsed.Err? ==> r == Fail(ParseFailed(parsed.error)) && presented == old(presented)
      ensures parsed.Ok? && parsed.value.helpOptionInst.Some? ==>
                r == Pass && presented == old(presented) + [HelpFor(parsed.value)]
      ensures parsed.Ok? && parsed.value.helpOptionInst.None? ==>
                presented == old(presented) && r == ExecuteOutcome(parsed.value, required, accepts)
      ensures forall a :: a in optionStore.supportedActions ==>
                a.trace == old(a.trace) +
                  (if r.Pass? && parsed.Ok? && parsed.value.helpOptionInst.None? && a == parsed.value.specifiedAction
                   then HandlerCalls(order) + [Executed] else [])
      ensures r.Pass? && parsed.Ok? && parsed.value.helpOptionInst.None? ==>
                multiset(order) == multiset(parsed.value.specifiedOptions)
    {
      order := [];
      var result := Parse(argv, newArgs);
      parsed := result;
      if result.Err? {
        return Fail(ParseFailed(result.error)), parsed, order;
      }
      var args := result.value;
      assert args.supportedActions == optionStore.supportedActions;
      var helped := HandleHelp(args);
      if !helped {
        r, order := Execute(args, required, accepts);
      } else {
        r := Pass;
      }
    }
  }
}
