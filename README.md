# command-processor, modelled in Dafny

`CommandProcessor` is a command registry and dispatcher for `no_std` targets.
It has a fixed capacity and allocates nothing. It holds at most `NUM_COMMANDS`
command items. Each item has a name of at most 32 bytes, a callback
(a plain function pointer) and an optional help string of at most
`HELP_STR_SIZE` bytes. Callers add commands and remove them by name.
They dispatch a command by name, passing an optional writer. The reserved
name `help` is answered by the processor itself: it writes every stored help
string, each followed by a line terminator.

The model has three files:

- `writer.dfy` (module `Writers`): the output sink. It is an append-only
  character sequence with a capacity. `WriteStr` appends the whole string or
  fails and appends nothing, as `heapless::String<N>` does, except that the
  model counts characters where `heapless` counts UTF-8 bytes. A writer that never
  fails, such as `std::string::String`, is a writer whose capacity is larger
  than anything written to it.
- `command_processor.dfy` (module `CommandProcessing`): the types
  (`ReturnCode`, `CommandProcessorError`, `CommandItem`), the specification
  functions (`FindIndex`, `SwapRemove`, `HelpText`) with their lemmas, and the
  class `CommandProcessor`. Its field `commands` is the `heapless::Vec`; the
  methods reassign it. `Valid()` is the invariant: at most `capacity` items,
  pairwise distinct names, and names and help strings within their bounds.
- `tests.dfy` (module `CommandProcessorTests`): the crate's unit tests and its
  documentation example, written as client methods, plus four further
  scenarios that are not crate tests (`TestDuplicateOnFullList`,
  `TestSwapRemoveOrder`, `TestHelpIsReserved`, `TestHelpPartialWrite`).
  Their postconditions follow from the processor's contracts alone.

Callbacks are known by an identifier (`CallbackId`). What a callback returns
is given to `ProcessCommand` as a total function `run(id, hasWriter)`. So
dispatch is specified as returning exactly `run` of the matched item's
callback, with the information of whether a writer was passed.

`writeln!(writer, "{}", help)` makes two writes: the help string, then `"\n"`.
The model makes the same two writes. If the help string fits but the
terminator does not, the help string stays in the writer without its
terminator, and the listing reports `WriteError`.

`add_command` does not refuse the name `help`. Such an item is stored, counts
against the capacity and appears in the help listing. Its callback can never
be dispatched, because `process_command` intercepts `help` first. The model
does the same (`TestHelpIsReserved`). It does not add an invariant that
`help` is never stored.

## Model

| member | source | states |
|---|---|---|
| `Writers.Writer.constructor` | src/lib.rs:60 | A new writer is empty and has the given capacity. |
| `Writers.Writer.WriteStr` | src/lib.rs:196 | A write succeeds exactly when the text still fits the capacity. On success the string is appended; on failure nothing changes. |
| `Writers.Writer.WriteLine` | src/lib.rs:196 | Writing a line succeeds exactly when the string and its terminator fit, and then appends both. On failure either nothing was written (the string did not fit) or the string alone was written (the terminator did not fit). |
| `CommandProcessing.FindIndex` | src/lib.rs:184 | The lookup finds nothing exactly when no item has the name. Otherwise it gives the position of the first item with that name. |
| `CommandProcessing.FindIndexUnique` | src/lib.rs:184 | When names are distinct, the lookup of any stored item's name finds that item. |
| `CommandProcessing.SwapRemove` | src/lib.rs:151 | Removal by swap shortens the sequence by one and puts the former last element into the removed slot. Every other slot is unchanged. |
| `CommandProcessing.SwapRemovePermutes` | src/lib.rs:151 | After removal by swap, the multiset of elements is the old one minus exactly the removed element. |
| `CommandProcessing.SwapRemoveKeepsNamesDistinct` | src/lib.rs:148-153 | Removal by swap keeps the names distinct. Afterwards no item has the removed name. |
| `CommandProcessing.AppendKeepsNamesDistinct` | src/lib.rs:121-134 | Appending an item whose name is not registered keeps the names distinct. The lookup then finds the new item at the end. |
| `CommandProcessing.HelpTextSplit` | src/lib.rs:194-198 | The help listing of the items is the listing of any prefix followed by the listing of the rest. |
| `CommandProcessing.HelpTextGrows` | src/lib.rs:194-198 | Each step of the listing appends one item's line. The lines written up to and including any item are no longer than the whole listing. |
| `CommandProcessing.HelpTextPrefix` | src/lib.rs:194-198 | The lines written up to and including any item are a prefix of the whole listing. |
| `CommandProcessing.DropHelpless` | src/lib.rs:195 | An item without help text adds nothing to the listing, wherever it stands: removing it leaves the listing unchanged. |
| `CommandProcessing.HelpTextWithoutHelp` | src/lib.rs:195 | A listing of items none of which has help text is empty. |
| `CommandProcessing.AbortReportsWriteError` | src/lib.rs:196 | If a write aborts at some item, the whole listing could not have fitted. The outcome is `WriteError`, and the text already written stays. |
| `CommandProcessing.CompleteListingSucceeds` | src/lib.rs:194-200 | A listing that wrote every line within the capacity reports `Success`. |
| `CommandProcessing.PrintHelpLine` | src/lib.rs:195-196 | One step of the listing: it succeeds exactly when the item's line fits, and then appends that line. An item without help writes nothing. A failure happens only for an item with help text, which is then either not written or written without its terminator. |
| `CommandProcessing.CommandProcessor.constructor` | src/lib.rs:95-99 | `new` gives an empty processor with the given capacities, and the invariant holds. |
| `CommandProcessing.CommandProcessor.AddCommand` | src/lib.rs:115-135 | A registered name gives `CommandAlreadyExists`, even on a full list, and changes nothing. A new name on a full list gives `CommandListFull` and changes nothing. Otherwise the item is appended after the unchanged earlier items. The invariant is kept. |
| `CommandProcessing.CommandProcessor.RemoveCommand` | src/lib.rs:148-157 | A name that is not registered gives `CommandNotFound` and changes nothing. A registered name is swap-removed from its slot: the multiset of items loses exactly that item, and afterwards the name is not registered. The invariant is kept. |
| `CommandProcessing.CommandProcessor.ProcessCommand` | src/lib.rs:172-188 | For `help`: without a writer the result is `NoWriter`; with a writer it is the help listing, whatever items are stored. For any other name: the result is exactly the callback result of the one item with that name, with the writer passed on. If no item has the name, the result is `CommandNotFound`. The registry is never changed. |
| `CommandProcessing.CommandProcessor.HelpPrinter` | src/lib.rs:190-201 | The listing succeeds exactly when the whole of it fits in the writer. On success the writer gains each help string plus `"\n"`, in storage order. On the first failed write the result is `WriteError`, and what was written before stays. |
| `CommandProcessorTests.TestCommandProcessor` | src/lib.rs:212-227 | Adding `test` succeeds, and dispatching it returns its callback's `Success`. |
| `CommandProcessorTests.TestNoCommands` | src/lib.rs:229-235 | Dispatch on an empty processor gives `CommandNotFound`. |
| `CommandProcessorTests.TestTooManyCommands` | src/lib.rs:237-256 | With capacity 1, a second distinct add gives `CommandListFull`. |
| `CommandProcessorTests.TestDuplicateOnFullList` | src/lib.rs:121-134 | A duplicate add on a full list gives `CommandAlreadyExists` and leaves one item. |
| `CommandProcessorTests.TestRemoveCommand` | src/lib.rs:258-276 | Removing an added command succeeds, and dispatching it afterwards gives `CommandNotFound`. |
| `CommandProcessorTests.TestRemoveCommandNotFound` | src/lib.rs:278-293 | Removing an unknown name gives `CommandNotFound`, and the stored command still dispatches. |
| `CommandProcessorTests.TestSwapRemoveOrder` | src/lib.rs:151 | Removing `a` from `a, b, c` leaves `c, b`. |
| `CommandProcessorTests.TestWritableCommand` | src/lib.rs:295-311 | Dispatch with a writer returns the callback's `Success`, and the processor itself writes nothing. |
| `CommandProcessorTests.TestUnknownCommand` | src/lib.rs:313-327 | An unregistered name gives `CommandNotFound`. |
| `CommandProcessorTests.TestHelpCommand` | src/lib.rs:329-348 | The help listing for one item is exactly `"test: Test command\n"`. |
| `CommandProcessorTests.DocExample` | src/lib.rs:52-64 | With a `String<32>` writer (capacity 32), the help listing is `"Prints a message\n"`. |
| `CommandProcessorTests.TestHelpIsReserved` | src/lib.rs:177-181 | With a stored item named `help`: dispatching `help` without a writer gives `NoWriter`; with a writer it gives the listing, not the stored callback. |
| `CommandProcessorTests.TestHelpPartialWrite` | src/lib.rs:196 | With a 16-character writer, a 16-character help string stays written without its terminator, and the result is `WriteError`. |

## Left out

- Formatting: `core::fmt::Write` and `writeln!` are modelled as the two `write_str` calls they make. Format specifiers and `fmt::Error` details are not modelled.
- `CommandProcessing.CommandProcessor.ProcessCommand`: a callback's own writes to the writer are not modelled. Callbacks are external function pointers, so the model keeps only their result. On the non-help path the writer is therefore unchanged.
- Writer failure is modelled as exceeding a capacity. A writer that fails for other reasons (a device error, say) is not modelled.
- Lengths are counted in characters (Unicode scalar values), while `heapless::String<N>` counts UTF-8 bytes. This applies to the writer's capacity, the name bound `MaxNameLen` and the help bound `helpSize`. The two agree on ASCII text. On other text the model's bounds are looser: for example, `"é"` written with one byte of room fails in the source but succeeds in `Writer.WriteStr`.
- The 32-byte name bound and the `HELP_STR_SIZE` bound are enforced by the `heapless` string types. Here they are preconditions of `AddCommand` and part of `Valid()`. The `heapless::String` and `heapless::Vec` types themselves are not modelled.
- The `Default` impl (src/lib.rs:84-90) only calls `new`. Lifetimes and `no_std` have no behaviour to model.
