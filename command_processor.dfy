/** A fixed-capacity command registry and dispatcher.

    A `CommandProcessor` holds at most `capacity` command items (the
    `NUM_COMMANDS` const parameter), each a name bounded by 32 (bytes, in the
    source's `String<32>`), a callback and an optional help string bounded by
    `helpSize` (`HELP_STR_SIZE`). The model counts characters where the
    source counts UTF-8 bytes. Names are unique; the name "help" is intercepted by
    dispatch before any lookup and lists the stored help strings.
 */
module CommandProcessing {
  import opened Writers

  /** Capacity of the `String<32>` that holds a command name (32 bytes there; characters here). */
  const MaxNameLen: nat := 32

  /** The reserved command name that `ProcessCommand` handles itself. */
  const HelpName: string := "help"

  datatype ReturnCode = Success | Failure

  datatype CommandProcessorError =
    | CommandAlreadyExists
    | CommandNotFound
    | CommandListFull
    | WriteError
    | NoWriter

  datatype Option<T> = None | Some(value: T)

  /** Every operation of the processor, and every callback, answers with one of these. */
  datatype Result<T> = Ok(value: T) | Err(error: CommandProcessorError)

  /** Callbacks are external function pointers; the model knows them by identity only. */
  type CallbackId = nat

  datatype CommandItem = CommandItem(command: string, callback: CallbackId, help: Option<string>)

  /** The bounds that the item's `heapless` string types enforce. */
  predicate WellFormed(item: CommandItem, helpSize: nat)
  {
    |item.command| <= MaxNameLen && (item.help.Some? ==> |item.help.value| <= helpSize)
  }

  predicate Registered(items: seq<CommandItem>, name: string)
  {
    exists k :: 0 <= k < |items| && items[k].command == name
  }

  ghost predicate NamesDistinct(items: seq<CommandItem>)
  {
    forall i, j :: 0 <= i < j < |items| ==> items[i].command != items[j].command
  }

  // ---------------------------------------------------------------------------
  // Lookup

  /** The position of the first item named `name`: what `iter().find` selects. */
  function FindIndex(items: seq<CommandItem>, name: string): (r: Option<nat>)
    ensures r.None? <==> !Registered(items, name)
    ensures r.Some? ==> r.value < |items| && items[r.value].command == name
    ensures r.Some? ==> forall j :: 0 <= j < r.value ==> items[j].command != name
  {
    if items == [] then None
    else if items[0].command == name then Some(0)
    else match FindIndex(items[1..], name)
      case None => None
      case Some(k) => Some(k + 1)
  }

  /** With unique names, the item found is the one and only item with that name. */
  lemma FindIndexUnique(items: seq<CommandItem>, k: nat)
    requires NamesDistinct(items) && k < |items|
    ensures FindIndex(items, items[k].command) == Some(k)
  {
  }

  // ---------------------------------------------------------------------------
  // Removal by swap

  /** `Vec::swap_remove`: slot `i` receives the last element and the vector shrinks by one. */
  function SwapRemove<T>(s: seq<T>, i: nat): (r: seq<T>)
    requires i < |s|
    ensures |r| == |s| - 1
    ensures i < |r| ==> r[i] == s[|s| - 1]
    ensures forall j :: 0 <= j < |r| && j != i ==> r[j] == s[j]
  {
    var last := |s| - 1;
    if i == last then s[..i] else s[..i] + [s[last]] + s[i + 1..last]
  }

  /** Swap-removal takes exactly the removed element out of the multiset of elements. */
  lemma SwapRemovePermutes<T>(s: seq<T>, i: nat)
    requires i < |s|
    ensures multiset(SwapRemove(s, i)) == multiset(s) - multiset{s[i]}
  {
    var last := |s| - 1;
    if i == last {
      assert s == s[..i] + [s[i]];
    } else {
      var front, middle := s[..i], s[i + 1..last];
      assert s == front + [s[i]] + middle + [s[last]];
      assert SwapRemove(s, i) == front + [s[last]] + middle;
      assert multiset(s) == multiset(front) + multiset{s[i]} + multiset(middle) + multiset{s[last]};
      assert multiset(SwapRemove(s, i)) == multiset(front) + multiset{s[last]} + multiset(middle);
    }
  }

  /** Swap-removing an item keeps the names unique and leaves its name unregistered. */
  lemma SwapRemoveKeepsNamesDistinct(items: seq<CommandItem>, k: nat)
    requires NamesDistinct(items) && k < |items|
    ensures NamesDistinct(SwapRemove(items, k))
    ensures !Registered(SwapRemove(items, k), items[k].command)
  {
  }

  /** Appending an unregistered name keeps the names unique. */
  lemma AppendKeepsNamesDistinct(items: seq<CommandItem>, item: CommandItem)
    requires NamesDistinct(items) && !Registered(items, item.command)
    ensures NamesDistinct(items + [item])
    ensures FindIndex(items + [item], item.command) == Some(|items|)
  {
    var r := items + [item];
    forall i, j | 0 <= i < j < |r|
      ensures r[i].command != r[j].command
    {
      if j == |items| {
        assert r[i] == items[i];
      }
    }
    assert r[|items|] == item;
  }

  // ---------------------------------------------------------------------------
  // Help text

  /** What the help listing writes for one item: its help text and a line terminator. */
  function Line(item: CommandItem): (s: string)
  {
    match item.help
    case None => ""
    case Some(h) => h + "\n"
  }

  /** The complete help listing, in storage order; items without help contribute nothing. */
  function HelpText(items: seq<CommandItem>): (s: string)
  {
    if items == [] then "" else Line(items[0]) + HelpText(items[1..])
  }

  /** The listing of a sequence is the listing of any prefix followed by that of the rest. */
  lemma {:induction false} HelpTextSplit(items: seq<CommandItem>, k: nat)
    requires k <= |items|
    ensures HelpText(items) == HelpText(items[..k]) + HelpText(items[k..])
  {
    if k == 0 {
      assert items[..0] == [];
      assert items[0..] == items;
    } else {
      var rest, prefix := items[1..], items[..k];
      calc {
        HelpText(items);
        Line(items[0]) + HelpText(rest);
        { HelpTextSplit(rest, k - 1);
          assert rest[..k - 1] == prefix[1..] && rest[k - 1..] == items[k..]; }
        Line(items[0]) + (HelpText(prefix[1..]) + HelpText(items[k..]));
        { assert prefix[0] == items[0]; }
        (Line(prefix[0]) + HelpText(prefix[1..])) + HelpText(items[k..]);
        HelpText(prefix) + HelpText(items[k..]);
      }
    }
  }

  /** The listing grows by one line per item, and the listing up to and including any item
      is no longer than the whole listing. */
  lemma HelpTextGrows(items: seq<CommandItem>, k: nat)
    requires k < |items|
    ensures HelpText(items[..k + 1]) == HelpText(items[..k]) + Line(items[k])
    ensures |HelpText(items[..k])| + |Line(items[k])| <= |HelpText(items)|
  {
    HelpTextSplit(items[..k + 1], k);
    assert items[..k + 1][..k] == items[..k];
    assert items[..k + 1][k..] == [items[k]];
    HelpTextSplit(items, k);
    assert items[k..][1..] == items[k + 1..];
  }

  /** The lines written up to and including any item are a prefix of the whole listing. */
  lemma HelpTextPrefix(items: seq<CommandItem>, k: nat)
    requires k < |items|
    ensures HelpText(items[..k]) + Line(items[k]) <= HelpText(items)
  {
    HelpTextGrows(items, k);
    HelpTextSplit(items, k + 1);
  }

  /** An item without help text adds nothing to the listing, wherever it stands. */
  lemma DropHelpless(items: seq<CommandItem>, k: nat)
    requires k < |items| && items[k].help.None?
    ensures HelpText(items[..k] + items[k + 1..]) == HelpText(items)
  {
    var before, after := items[..k], items[k + 1..];
    var tail := items[k..];
    assert tail[0] == items[k] && tail[1..] == after;
    assert HelpText(tail) == HelpText(after) by {
      assert Line(tail[0]) == "";
    }
    HelpTextSplit(items, k);
    var rest := before + after;
    assert rest[..k] == before && rest[k..] == after;
    HelpTextSplit(rest, k);
  }

  /** A listing of items none of which has help text is empty. */
  lemma {:induction false} HelpTextWithoutHelp(items: seq<CommandItem>)
    requires forall k :: 0 <= k < |items| ==> items[k].help.None?
    ensures HelpText(items) == ""
  {
    if items != [] {
      HelpTextWithoutHelp(items[1..]);
    }
  }

  /** What the help listing leaves behind, starting from writer text `before` of a writer of
      `capacity` characters: on success every line, in order; on the first failed write at
      item k, the lines before k and, if the help text of k fitted but its terminator did
      not, that help text without terminator. Success exactly when the whole listing fits. */
  ghost predicate HelpPrinted(items: seq<CommandItem>, before: string, after: string, capacity: nat,
                              r: Result<ReturnCode>)
  {
    && (r.Ok? <==> |before| + |HelpText(items)| <= capacity)
    && (r.Ok? ==> r.value == Success && after == before + HelpText(items))
    && (r.Err? ==>
          && r.error == WriteError
          && exists k :: 0 <= k < |items| && items[k].help.Some? &&
               LineAborted(before + HelpText(items[..k]), items[k].help.value, after, capacity))
  }

  /** An abort at item k, from a writer that held the listing of the items before k,
      is a failed listing: the whole listing could not have fitted. */
  lemma AbortReportsWriteError(items: seq<CommandItem>, k: nat, before: string, after: string, capacity: nat)
    requires k < |items| && items[k].help.Some?
    requires |after| <= capacity
    requires LineAborted(before + HelpText(items[..k]), items[k].help.value, after, capacity)
    ensures HelpPrinted(items, before, after, capacity, Err(WriteError))
  {
    HelpTextGrows(items, k);
  }

  /** A listing that wrote every line is a successful one. */
  lemma CompleteListingSucceeds(items: seq<CommandItem>, before: string, after: string, capacity: nat)
    requires after == before + HelpText(items) && |after| <= capacity
    ensures HelpPrinted(items, before, after, capacity, Ok(Success))
  {
  }

  /** One step of the help listing: an item with help text has it written as a line;
      an item without help text writes nothing. */
  method PrintHelpLine(writer: Writer, item: CommandItem) returns (ok: bool)
    requires writer.Valid()
    modifies writer
    ensures writer.Valid()
    ensures ok <==> |old(writer.text)| + |Line(item)| <= writer.capacity
    ensures ok ==> writer.text == old(writer.text) + Line(item)
    ensures !ok ==> item.help.Some? && LineAborted(old(writer.text), item.help.value, writer.text, writer.capacity)
  {
    match item.help
    case None =>
      ok := true;
    case Some(h) =>
      ok := writer.WriteLine(h);
  }

  // ---------------------------------------------------------------------------
  // The processor

  class CommandProcessor {
    /** `NUM_COMMANDS`: the most items the processor holds. */
    const capacity: nat
    /** `HELP_STR_SIZE`: the longest help string an item carries. */
    const helpSize: nat
    /** The registered items, in storage order. */
    var commands: seq<CommandItem>

    ghost predicate Valid()
      reads this
    {
      && |commands| <= capacity
      && NamesDistinct(commands)
      && forall k :: 0 <= k < |commands| ==> WellFormed(commands[k], helpSize)
    }

    /** `new`: an empty processor. */
    constructor (numCommands: nat, helpStrSize: nat)
      ensures Valid()
      ensures capacity == numCommands && helpSize == helpStrSize
      ensures commands == []
    {
      capacity := numCommands;
      helpSize := helpStrSize;
      commands := [];
    }

    /** `add_command`: a duplicate name is refused first, then a full list; otherwise the
        item is appended at the end. */
    method AddCommand(command: string, callback: CallbackId, help: Option<string>)
      returns (r: Result<()>)
      requires Valid()
      requires WellFormed(CommandItem(command, callback, help), helpSize)
      modifies this
      ensures Valid()
      ensures Registered(old(commands), command) ==>
                r == Err(CommandAlreadyExists) && commands == old(commands)
      ensures !Registered(old(commands), command) && |old(commands)| == capacity ==>
                r == Err(CommandListFull) && commands == old(commands)
      ensures !Registered(old(commands), command) && |old(commands)| < capacity ==>
                r == Ok(()) && commands == old(commands) + [CommandItem(command, callback, help)]
    {
      var i := 0;
      while i < |commands|
        invariant 0 <= i <= |commands|
        invariant forall j :: 0 <= j < i ==> commands[j].command != command
      {
        if commands[i].command == command {
          return Err(CommandAlreadyExists);
        }
        i := i + 1;
      }
      if |commands| == capacity {
        return Err(CommandListFull);
      }
      var item := CommandItem(command, callback, help);
      AppendKeepsNamesDistinct(commands, item);
      commands := commands + [item];
      r := Ok(());
    }

    /** `remove_command`: the item with that name is swap-removed; its name is then unregistered. */
    method RemoveCommand(command: string) returns (r: Result<()>)
      requires Valid()
      modifies this
      ensures Valid()
      ensures !Registered(old(commands), command) ==>
                r == Err(CommandNotFound) && commands == old(commands)
      ensures Registered(old(commands), command) ==> r == Ok(())
      ensures forall k :: 0 <= k < |old(commands)| && old(commands)[k].command == command ==>
                commands == SwapRemove(old(commands), k) &&
                multiset(commands) == multiset(old(commands)) - multiset{old(commands)[k]}
      ensures !Registered(commands, command)
    {
      var i := 0;
      while i < |commands|
        invariant 0 <= i <= |commands|
        invariant commands == old(commands)
        invariant forall j :: 0 <= j < i ==> commands[j].command != command
      {
        if commands[i].command == command {
          SwapRemoveKeepsNamesDistinct(commands, i);
          SwapRemovePermutes(commands, i);
          commands := SwapRemove(commands, i);
          return Ok(());
        }
        i := i + 1;
      }
      r := Err(CommandNotFound);
    }

    /** `process_command`: "help" is answered by the help listing (and needs a writer),
        whatever is stored; any other name runs the callback of the item with that name,
        handing on whether a writer was given, and returns its result as it is. */
    method ProcessCommand(command: string, writer: Writer?, run: (CallbackId, bool) -> Result<ReturnCode>)
      returns (r: Result<ReturnCode>)
      requires Valid()
      requires writer != null ==> writer.Valid()
      modifies writer
      ensures writer != null ==> writer.Valid()
      ensures command == HelpName && writer == null ==> r == Err(NoWriter)
      ensures command == HelpName && writer != null ==>
                HelpPrinted(commands, old(writer.text), writer.text, writer.capacity, r)
      ensures command != HelpName && !Registered(commands, command) ==> r == Err(CommandNotFound)
      ensures command != HelpName ==>
                forall k :: 0 <= k < |commands| && commands[k].command == command ==>
                  r == run(commands[k].callback, writer != null)
      ensures command != HelpName && writer != null ==> writer.text == old(writer.text)
    {
      if command == HelpName {
        if writer == null {
          return Err(NoWriter);
        }
        r := HelpPrinter(writer);
        return;
      }
      match FindIndex(commands, command)
      case Some(k) =>
        r := run(commands[k].callback, writer != null);
      case None =>
        r := Err(CommandNotFound);
    }

    /** `help_printer`: writes each help string and a line terminator, in storage order,
        stopping at the first write that fails. */
    method HelpPrinter(writer: Writer) returns (r: Result<ReturnCode>)
      requires writer.Valid()
      modifies writer
      ensures writer.Valid()
      ensures HelpPrinted(commands, old(writer.text), writer.text, writer.capacity, r)
    {
      ghost var before := writer.text;
      var items := commands;
      var i := 0;
      while i < |items|
        invariant 0 <= i <= |items|
        invariant writer.Valid()
        invariant writer.text == before + HelpText(items[..i])
      {
        HelpTextGrows(items, i);
        var ok := PrintHelpLine(writer, items[i]);
        if !ok {
          AbortReportsWriteError(items, i, before, writer.text, writer.capacity);
          return Err(WriteError);
        }
        i := i + 1;
      }
      assert items[..i] == items;
      CompleteListingSucceeds(items, before, writer.text, writer.capacity);
      r := Ok(Success);
    }
  }
}
