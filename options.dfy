/**
  The option catalog entries and the option instances that the parser
  produces. Only what the orchestrator looks at is modelled: the kind of
  an option (help, action or custom) and its two optional capabilities,
  a list of validators and a handler.
 */
module Options {
  import opened Wrappers

  /** A validator plug-in, known by its name; what it accepts is given separately. */
  datatype Validator = Validator(name: string)

  /** A handler plug-in, known by its name; its effect on an action is recorded, not computed. */
  datatype Handler = Handler(name: string)

  /** The built-in help and action options, or an option of the catalog's own. */
  datatype OptionKind = HelpOption | ActionOption | CustomOption

  /**
    A catalog entry. Entries are immutable; `id` stands for the identity of
    the entry, so two entries of the catalog with the same capabilities stay
    distinct. `validators` is present exactly when the option is validatable,
    `handler` exactly when it is handleable.
   */
  datatype CmdLineOption = CmdLineOption(id: nat, kind: OptionKind, validators: Option<seq<Validator>>, handler: Option<Handler>)
  {
    predicate IsBuiltIn()
    {
      kind != CustomOption
    }
  }

  /**
    The default options injected when the catalog lacks them; neither is
    validatable or handleable.
   */
  const DefaultHelpOption := CmdLineOption(0, HelpOption, None, None)
  const DefaultActionOption := CmdLineOption(0, ActionOption, None, None)

  /**
    One option as given on a command line: the option it refers to, its
    values, and nested instances (used by the help option to name the action
    whose help was asked for).
   */
  datatype OptionInstance = OptionInstance(option: CmdLineOption, values: seq<string>, subOptions: set<OptionInstance>)
  {
    predicate IsValidatable()
    {
      option.validators.Some?
    }

    predicate IsHandleable()
    {
      option.handler.Some?
    }
  }

  /** What each validator says about each instance (the validators' own code is not modelled). */
  type Acceptance = (Validator, OptionInstance) -> bool

  /** True when `options` holds an option of kind `k`. */
  predicate HasKind(options: set<CmdLineOption>, k: OptionKind)
  {
    exists o :: o in options && o.kind == k
  }

  /** The options that a set of instances refers to. */
  function OptionsOf(insts: set<OptionInstance>): set<CmdLineOption>
  {
    set i | i in insts :: i.option
  }
}
