/**
  The parsed-arguments bundle. Its three base sets are what the parser run
  produced; the other four fields are the derived views the orchestrator
  reads (the specified action, the help instance, and the "custom", that is
  non-built-in, supported options and specified instances). How the views
  are derived is not part of this model; `ViewsConsistent` states what every
  bundle guarantees about them.
 */
module Arguments {
  import opened Wrappers
  import opened Options
  import opened Actions

  datatype ArgsBundle = ArgsBundle(
    supportedActions: set<CmdLineAction>,
    supportedOptions: set<CmdLineOption>,
    specifiedOptions: set<OptionInstance>,
    specifiedAction: CmdLineAction?,
    helpOptionInst: Option<OptionInstance>,
    customSupportedOptions: set<CmdLineOption>,
    customSpecifiedOptions: set<OptionInstance>)

  predicate ViewsConsistent(b: ArgsBundle)
  {
    && (b.specifiedAction == null || b.specifiedAction in b.supportedActions)
    && (b.helpOptionInst.Some? ==>
          b.helpOptionInst.value in b.specifiedOptions && b.helpOptionInst.value.option.kind == HelpOption)
    && b.customSupportedOptions <= b.supportedOptions
    && (forall o :: o in b.customSupportedOptions ==> !o.IsBuiltIn())
    && b.customSpecifiedOptions <= b.specifiedOptions
    && (forall i :: i in b.customSpecifiedOptions ==> !i.option.IsBuiltIn())
  }

  type CmdLineArgs = b: ArgsBundle | ViewsConsistent(b)
    witness ArgsBundle({}, {}, {}, null, None, {}, {})

  /** The bundle's constructor: supported actions, supported options, specified instances. */
  type ArgsFactory = (set<CmdLineAction>, set<CmdLineOption>, set<OptionInstance>) -> CmdLineArgs
}
