/**
  The base object every command-line action derives from: a name, a
  description and an abstract `execute`. The concrete behaviour of an action
  is not modelled; `trace` records, in order, every handler call made on the
  action and every call of `Execute`, so that the orchestrator's promises
  about them can be stated.
 */
module Actions {
  import opened Wrappers
  import opened Options

  /** A Java `String`, which may be null. */
  type NullableString = Option<string>

  /** What happened to an action: a handler bound an option instance onto it, or it was executed. */
  datatype ActionEvent = Handled(handler: Handler, inst: OptionInstance) | Executed

  class CmdLineAction {
    var name: NullableString
    var description: NullableString
    var trace: seq<ActionEvent>

    /** Leaves name and description unset. */
    constructor ()
      ensures name == None && description == None
      ensures trace == []
    {
      name := None;
      description := None;
      trace := [];
    }

    constructor Named(name: NullableString, description: NullableString)
      ensures this.name == name && this.description == description
      ensures trace == []
    {
      this.name := name;
      this.description := description;
      trace := [];
    }

    method SetName(name: NullableString)
      modifies this`name
      ensures GetName() == name
      ensures description == old(description) && trace == old(trace)
    {
      this.name := name;
    }

    function GetName(): NullableString
      reads this
    {
      name
    }

    method SetDescription(description: NullableString)
      modifies this`description
      ensures GetDescription() == description
      ensures name == old(name) && trace == old(trace)
    {
      this.description := description;
    }

    function GetDescription(): NullableString
      reads this
    {
      description
    }

    /** The action's own work is not modelled; the call itself is recorded. */
    method Execute()
      modifies this`trace
      ensures trace == old(trace) + [Executed]
    {
      trace := trace + [Executed];
    }
  }
}
