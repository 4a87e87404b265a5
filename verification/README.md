# OLA message printer and RDM test summary, modelled in Dafny

This project models two small parts of OLA, the Open Lighting Architecture.

**The message printer.** A `Message` is an ordered list of fields. A field is one of four kinds:

- a Bool, String or integer value with its descriptor;
- a group occurrence holding child fields.

Descriptors are shared, immutable values. An integer descriptor has three extra properties:

- a width, UInt8 through Int32;
- an optional power-of-ten scale;
- labels, which are named raw values.

`MessagePrinter` is a visitor. It keeps a text buffer and a nesting depth, and `Message::Accept` hands it every field depth-first. Each scalar field adds one line, `"<indent><name>: <value>\n"`. A group occurrence adds `"<indent><name> {\n"`, then its children one level deeper, then `"<indent>}\n"`. The indent is two spaces per level. An integer value prints in one of three forms, in this order of priority:

- its label, when one maps to the value;
- `"<raw> x 10 ^ <scale>"`, when the descriptor has a scale;
- the plain decimal value.

The model has these parts:

- **Data types.** `wrappers.dfy` and `messaging.dfy` hold the data types.
- **Decimal text.** `decimal.dfy` writes integers as decimal text and reads them back.
- **Pure rendering.** `rendering.dfy` defines the rendering as pure functions, with a line-by-line reference view and lemmas.
- **The printer.** `printer.dfy` is the stateful printer: a class with `buf` and `depth` fields and a recursive walk over the message. It proves that the buffer ends up holding the pure rendering.
- **Test scenarios.** `printer_tests.dfy` rebuilds the three printer scenarios of the C++ test fixture and proves the exact expected text of each.

**The RDM responder test summary.** `DisplaySummary` makes one pass over the finished tests. It builds a count per test state, a count per category and state, and the list of all warnings. A second pass over the categories then derives each category's passed and run numbers. The final "run / total, passed, failed, broken" line comes from the state counts. `rdm_summary.dfy` models both passes as loops over maps and proves the counts against reference definitions.

## Model

| member | source | states |
|---|---|---|
| Decimal.IntToDecimal | common/messaging/MessagePrinterTest.cpp:96-98 | The text has a leading minus exactly when the value is negative and is otherwise only digits, so a positive exponent gets no `+` |
| Decimal.IntRoundTrip | common/messaging/MessagePrinterTest.cpp:96-98 | Reading the printed text of any integer gives back that integer: the decimal text loses nothing |
| Decimal.ParseIntRoundTrip | common/messaging/MessagePrinterTest.cpp:96-98 | Every text the reader accepts is exactly the text printed for its value, so the printed form is the only form |
| Rendering.LabelIndex | common/messaging/MessagePrinterTest.cpp:110-119 | Finds a label exactly when some label maps to the value; the one it finds maps to the value and no earlier label does |
| Rendering.LabelWins | common/messaging/MessagePrinterTest.cpp:110-126 | A value with a label prints as the first such label's text, whatever the scale (0, 1, 2 print as off, on, auto) |
| Rendering.ScaledText | common/messaging/MessagePrinterTest.cpp:79-81 | An unlabelled value with scale e prints as `<raw> x 10 ^ <e>`, and both numbers read back as the raw value and the exponent |
| Rendering.PlainText | common/messaging/MessagePrinterTest.cpp:87 | An unlabelled, unscaled value prints as decimal text that reads back as the value |
| Rendering.ScalarValues | common/messaging/MessagePrinterTest.cpp:85-86 | A Bool prints "true" exactly when it is true and "false" exactly when it is false; a String prints unchanged |
| Rendering.RenderFieldsAppend | common/messaging/MessagePrinterTest.cpp:84-99 | The text of a list of fields is the texts of its parts in order, with nothing between them |
| Rendering.FieldText | common/messaging/MessagePrinterTest.cpp:164-166 | The text of any field, nested to any depth, is exactly its lines in the line view, each followed by a newline |
| Rendering.FieldsText | common/messaging/MessagePrinterTest.cpp:164-166 | The same for a list of fields |
| Rendering.FieldLinesShift | common/messaging/MessagePrinterTest.cpp:164-166 | Rendering one level deeper gives the same lines, each with exactly two more leading spaces |
| Rendering.LinesIndented | common/messaging/MessagePrinterTest.cpp:164-166 | Every line of fields rendered at depth d starts with 2*d spaces |
| Rendering.FlatLines | common/messaging/MessagePrinterTest.cpp:84-99 | Scalar fields give one line each, in order, each `<indent><name>: <value>` |
| Rendering.TopLevelGroup | common/messaging/MessagePrinterTest.cpp:138-166 | A top-level group of scalars prints `<name> {`, then each child's line indented by exactly two spaces in child order, then an unindented `}` |
| Printer.MessagePrinter.constructor | common/messaging/MessagePrinterTest.cpp:93 | A new printer has an empty buffer at depth 0 |
| Printer.MessagePrinter.VisitBool | common/messaging/MessagePrinterTest.cpp:85 | Appends the field's rendering at the current depth; the depth is unchanged |
| Printer.MessagePrinter.VisitString | common/messaging/MessagePrinterTest.cpp:86 | Appends the field's rendering at the current depth; the depth is unchanged |
| Printer.MessagePrinter.VisitInteger | common/messaging/MessagePrinterTest.cpp:87-90 | Appends the field's rendering at the current depth; the depth is unchanged |
| Printer.MessagePrinter.VisitGroup | common/messaging/MessagePrinterTest.cpp:157-158 | Appends the opening line at the current depth and goes one level deeper |
| Printer.MessagePrinter.PostVisitGroup | common/messaging/MessagePrinterTest.cpp:164-166 | Goes back one level and appends the closing line at that depth |
| Printer.MessagePrinter.AsString | common/messaging/MessagePrinterTest.cpp:99 | Returns the buffer and changes nothing |
| Printer.AcceptField | common/messaging/MessagePrinterTest.cpp:94 | Visiting a field appends exactly its rendering at the printer's depth and leaves the depth as it was |
| Printer.AcceptGroup | common/messaging/MessagePrinterTest.cpp:156-162 | A group visit appends the whole group block, so the depth is back where it started after each occurrence |
| Printer.AcceptFields | common/messaging/MessagePrinterTest.cpp:92-94 | Visiting fields in sequence order appends their renderings in that order |
| Printer.AcceptMessage | common/messaging/MessagePrinterTest.cpp:92-94 | `Message::Accept` appends the rendering of the top-level fields |
| Printer.Print | common/messaging/MessagePrinterTest.cpp:92-99 | A fresh printer that accepts a message holds exactly the message's rendering |
| PrinterScenarios.SimpleRender | common/messaging/MessagePrinterTest.cpp:84-98 | The six-field message renders as the expected text, with scaled values `4 x 10 ^ -3`, `10 x 10 ^ 1` and `10 x 10 ^ -1` |
| PrinterScenarios.StateLabelsFromMap | common/messaging/MessagePrinterTest.cpp:110-113 | The labels off, on, auto, inserted into a map keyed by text, come out with distinct texts in ascending order: auto, off, on |
| PrinterScenarios.LabeledRender | common/messaging/MessagePrinterTest.cpp:117-126 | Three fields sharing one labelled descriptor render independently as off, on, auto |
| PrinterScenarios.NestedRender | common/messaging/MessagePrinterTest.cpp:156-166 | Two occurrences of the same group render as two separate blocks in order, not merged |
| PrinterScenarios.SimplePrinter | common/messaging/MessagePrinterTest.cpp:74-99 | A fresh printer's text for the simple message equals the expected string |
| PrinterScenarios.LabeledPrinter | common/messaging/MessagePrinterTest.cpp:106-127 | A fresh printer's text for the labelled message equals the expected string |
| PrinterScenarios.NestedPrinter | common/messaging/MessagePrinterTest.cpp:131-167 | A fresh printer's text for the nested message equals the expected string |
| RdmTestSummary.Bump | tools/rdm/ola_rdm_test.py:89 | Counting one more `k` adds 1 at `k`, adds `k` as a key, and changes no other count |
| RdmTestSummary.StateStep | tools/rdm/ola_rdm_test.py:88-89 | One more test keeps the per-state counts equal to the reference counts |
| RdmTestSummary.CategoryStep | tools/rdm/ola_rdm_test.py:92-94 | One more test keeps the per-category counts equal to the reference counts, including for a category seen for the first time |
| RdmTestSummary.Tally | tools/rdm/ola_rdm_test.py:84-94 | Per state and per category-and-state, the stored count equals the number of tests with that state (and category). A key is present exactly when that number is positive. The categories are exactly those of the tests, and the warnings are every test's warnings in test order |
| RdmTestSummary.CountsSumToTotal | tools/rdm/ola_rdm_test.py:96 | The four state counts add up to the number of tests |
| RdmTestSummary.CategoriesMembership | tools/rdm/ola_rdm_test.py:92 | A category is present exactly when some test belongs to it |
| RdmTestSummary.CountInBounded | tools/rdm/ola_rdm_test.py:92-94 | A category's count for a state is at most the overall count for that state, and is 0 for a category no test belongs to |
| RdmTestSummary.WarningsAppend | tools/rdm/ola_rdm_test.py:90 | The warnings of two runs of tests concatenate in test order |
| RdmTestSummary.CategoryReport | tools/rdm/ola_rdm_test.py:104-111 | A category gets a row exactly when its passed plus failed count is positive; the row holds its passed count and that sum |
| RdmTestSummary.DisplaySummary | tools/rdm/ola_rdm_test.py:82-119 | The total is the number of tests, and the run number is the total minus the not-run count. The run number also equals passed + failed + broken. The warnings are in test order, and the category rows match the reference counts |

## Left out

- The interval list of an integer descriptor, and the length bounds of a string descriptor. The printer does not read them.
- The boolean second argument of the integer descriptors. It is wire-format metadata that does not affect the printed text.
- Repeat bounds of a group descriptor. The printer does not read them.
- Pointer ownership, descriptor lifetimes and the test-fixture registration. Descriptors are immutable values here, so aliasing between fields that share a descriptor is not captured.
- Integer widths are recorded but not enforced. Values are unbounded integers, and no width check or wrap-around is modelled, because the printer only formats the value.
- Binary decoding of messages.
- The source of `MessagePrinter` and `Message::Accept` is not part of this model. Their behaviour is taken from the expected strings in the C++ test and generalised as follows:
  - A scale of 0 still prints ` x 10 ^ 0`.
  - A label takes priority over a scale.
  - Labels are a sequence tried in order, and the first one that matches wins. A map keyed by label text gives distinct texts in ascending order (`Messaging.LabelsFromMap`); the sequence type itself does not enforce that, so a caller builds it in that order, as the labelled scenario does.
  - Group open and close lines are indented by two spaces per level at every depth, although only depths 0 and 1 appear in the test.
- Printer.MessagePrinter.PostVisitGroup: requires depth >= 1. The only caller pairs it with a `VisitGroup` that raised the depth.
- Logging, the floating-point percentage and its `%.0f%%` rounding, option parsing and `sys.exit`, the network UID fetch, `PidStore` loading, and reflective test discovery. These are I/O, a float, event-loop plumbing, or calls into `ResponderTest`, `TestRunner`, `PidStore` and `ClientWrapper`, which this model does not cover.
- `TestState` is closed to the four states the summary reads: passed, failed, broken and not run. Because every key of `count_by_state` is one of these, `sum(count_by_state.values())` is computed as the sum of the four lookups.
- The order of the per-category lines. Python 2 dictionary iteration order is unspecified, so `CategoryReport` picks categories in an arbitrary order and states nothing about order.
