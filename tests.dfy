/** The crate's unit tests and documentation example, as client methods whose
    postconditions follow from the processor's contracts alone. */
module CommandProcessorTests {
  import opened Writers
  import opened CommandProcessing

  /** The identity under which `printer_demo` is registered. */
  const PrinterDemoId: CallbackId := 0

  /** The identity of a callback that reports `Failure`. */
  const FailingId: CallbackId := 1

  /** How the callbacks of these scenarios behave: `printer_demo` always succeeds. */
  function Callbacks(id: CallbackId, hasWriter: bool): Result<ReturnCode>
  {
    if id == PrinterDemoId then Ok(Success) else Ok(Failure)
  }

  /** `test_command_processor`: a registered command runs its callback. */
  method TestCommandProcessor() returns (added: Result<()>, result: Result<ReturnCode>)
    ensures added == Ok(()) && result == Ok(Success)
  {
    var p := new CommandProcessor(8, 32);
    added := p.AddCommand("test", PrinterDemoId, Some("Test command"));
    assert p.commands[0].command == "test" && "test"[0] != HelpName[0];
    result := p.ProcessCommand("test", null, Callbacks);
  }

  /** `test_no_commands`: nothing is found in an empty processor. */
  method TestNoCommands() returns (result: Result<ReturnCode>)
    ensures result == Err(CommandNotFound)
  {
    var p := new CommandProcessor(8, 32);
    result := p.ProcessCommand("test", null, Callbacks);
  }

  /** `test_too_many_commands`: with room for one command, a second distinct add fails. */
  method TestTooManyCommands() returns (first: Result<()>, second: Result<()>)
    ensures first == Ok(()) && second == Err(CommandListFull)
  {
    var p := new CommandProcessor(1, 32);
    first := p.AddCommand("test", PrinterDemoId, Some("Test command"));
    second := p.AddCommand("test2", PrinterDemoId, Some("Test command 2"));
  }

  /** A duplicate name is reported as such even when the list is also full. */
  method TestDuplicateOnFullList() returns (first: Result<()>, second: Result<()>, count: nat)
    ensures first == Ok(()) && second == Err(CommandAlreadyExists) && count == 1
  {
    var p := new CommandProcessor(1, 32);
    first := p.AddCommand("test", PrinterDemoId, Some("Test command"));
    assert Registered(p.commands, "test") by { assert p.commands[0].command == "test"; }
    second := p.AddCommand("test", FailingId, None);
    count := |p.commands|;
  }

  /** `test_remove_command`: a removed command is no longer found. */
  method TestRemoveCommand() returns (removed: Result<()>, result: Result<ReturnCode>)
    ensures removed == Ok(()) && result == Err(CommandNotFound)
  {
    var p := new CommandProcessor(8, 32);
    var added := p.AddCommand("test", PrinterDemoId, Some("Test command"));
    assert Registered(p.commands, "test") by { assert p.commands[0].command == "test"; }
    removed := p.RemoveCommand("test");
    assert "test"[0] != HelpName[0];
    result := p.ProcessCommand("test", null, Callbacks);
  }

  /** `test_remove_command_not_found`: removing an unknown name fails and keeps the registry. */
  method TestRemoveCommandNotFound() returns (removed: Result<()>, result: Result<ReturnCode>)
    ensures removed == Err(CommandNotFound) && result == Ok(Success)
  {
    var p := new CommandProcessor(8, 32);
    var added := p.AddCommand("test", PrinterDemoId, Some("Test command"));
    removed := p.RemoveCommand("test2");
    assert p.commands[0].command == "test" && "test"[0] != HelpName[0];
    result := p.ProcessCommand("test", null, Callbacks);
  }

  /** Removing the first of three commands moves the last one into its slot. */
  method TestSwapRemoveOrder() returns (removed: Result<()>, names: seq<string>)
    ensures removed == Ok(()) && names == ["c", "b"]
  {
    var p := new CommandProcessor(8, 32);
    var added := p.AddCommand("a", PrinterDemoId, None);
    added := p.AddCommand("b", PrinterDemoId, None);
    added := p.AddCommand("c", PrinterDemoId, None);
    assert p.commands[0].command == "a";
    removed := p.RemoveCommand("a");
    names := [p.commands[0].command, p.commands[1].command];
  }

  /** `test_writable_command`: the callback runs with a writer and leaves it alone. */
  method TestWritableCommand() returns (result: Result<ReturnCode>, output: string)
    ensures result == Ok(Success) && output == ""
  {
    var p := new CommandProcessor(8, 32);
    var added := p.AddCommand("test", PrinterDemoId, Some("Test command"));
    var buffer := new Writer(1024);
    assert p.commands[0].command == "test" && "test"[0] != HelpName[0];
    result := p.ProcessCommand("test", buffer, Callbacks);
    output := buffer.text;
  }

  /** `test_unknown_command`: an unregistered name is not found. */
  method TestUnknownCommand() returns (result: Result<ReturnCode>)
    ensures result == Err(CommandNotFound)
  {
    var p := new CommandProcessor(8, 32);
    var added := p.AddCommand("test", PrinterDemoId, Some("Test command"));
    result := p.ProcessCommand("unknown", null, Callbacks);
  }

  /** `test_help_command`: the listing is each help string with a line terminator. */
  method TestHelpCommand() returns (result: Result<ReturnCode>, output: string)
    ensures result == Ok(Success) && output == "test: Test command\n"
  {
    var p := new CommandProcessor(8, 32);
    var added := p.AddCommand("test", PrinterDemoId, Some("test: Test command"));
    var buffer := new Writer(1024);
    assert p.commands[1..] == [];
    result := p.ProcessCommand("help", buffer, Callbacks);
    output := buffer.text;
  }

  /** The documentation example: help into a `String<32>` (capacity 32; the text is ASCII). */
  method DocExample() returns (result: Result<ReturnCode>, output: string)
    ensures result == Ok(Success) && output == "Prints a message\n"
  {
    var p := new CommandProcessor(8, 32);
    var added := p.AddCommand("printer", PrinterDemoId, Some("Prints a message"));
    var writer := new Writer(32);
    assert p.commands[1..] == [];
    assert HelpText(p.commands) == "Prints a message\n";
    result := p.ProcessCommand("help", writer, Callbacks);
    output := writer.text;
  }

  /** Help without a writer fails, and help is never dispatched to a stored "help" command. */
  method TestHelpIsReserved() returns (noWriter: Result<ReturnCode>, listed: Result<ReturnCode>, output: string)
    ensures noWriter == Err(NoWriter)
    ensures listed == Ok(Success) && output == "shadowed\n"
  {
    var p := new CommandProcessor(8, 32);
    var added := p.AddCommand("help", FailingId, Some("shadowed"));
    noWriter := p.ProcessCommand("help", null, Callbacks);
    var writer := new Writer(32);
    assert p.commands[1..] == [];
    assert HelpText(p.commands) == "shadowed\n";
    listed := p.ProcessCommand("help", writer, Callbacks);
    output := writer.text;
  }

  /** A help string that exactly fills the writer stays written when its terminator does not fit. */
  method TestHelpPartialWrite() returns (result: Result<ReturnCode>, output: string)
    ensures result == Err(WriteError) && output == "Prints a message"
  {
    var p := new CommandProcessor(8, 32);
    var added := p.AddCommand("printer", PrinterDemoId, Some("Prints a message"));
    var writer := new Writer(16);
    result := p.ProcessCommand("help", writer, Callbacks);
    output := writer.text;
  }
}
