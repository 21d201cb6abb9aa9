# Hydrogen plant proposal front end: a verified model of its core

The application is a web front end for sizing green-hydrogen plants and preparing
optimisation requests. This project models its core logic in Dafny:

- **Plant sizing** (`plant_sizing.dfy`, module `PlantSizing`). This is the hour-by-hour
  storage simulation behind the sizing page. For each hour of the base profile it
  scales generation to the installed stack and requests supply to the client in
  three tiers: the high rate when the stock before supply is above the high-stock
  threshold, else the low rate when that stock is above the low rate itself, else
  nothing. Supply is clamped to the stock on hand. Gas is vented only when the
  stock after supply is above storage capacity and the hour's generation is above
  the high rate; otherwise the stock may stay above capacity. Generated, supplied
  and vented totals are accumulated, along with zero-supply hours and the running
  peak stock. The run ends with zero-supply days, the cylinder count and the
  capital cost. `RunSimulation` keeps the source's loop and mutable accumulators;
  it is proved equal to the fold `Simulate`, and the fold's properties are lemmas.
- **Profile CSV** (`profile_csv.dfy`, module `ProfileCsv`). This covers parsing an
  uploaded profile (trim, split on `\r?\n`, a single comma-separated line, drop
  non-numbers), the guard that ignores an upload yielding no numbers, and building
  the downloadable template. Both upload forms are proved to read a printed profile back: the template (one value per line) and a single comma-separated line, whose cells are trimmed.
- **Network editor** (`network_editor.dfy`, module `NetworkEditor`). The class
  `Editor` holds the canvas's node and edge lists. Its three operations are:
  - connecting two ports, admitted only when both ports resolve and their data
    types agree;
  - editing one node parameter;
  - dropping a new module from the palette, with an id built from the clock and a
    numbered label.

  The class invariant is that every edge on the canvas is one the connect rule
  admits for the current nodes. Power, hydrogen, oxygen and percentage are proved to have pairwise distinct colours; every other data type gets the default grey.
- **Route guard** (`auth_utils.dfy`, module `AuthUtils`). This decides which paths
  need a signed-in user, by exact match against five public paths.
- **Wizard** (`wizard.dfy`, module `Wizard`). The class `Page` holds the current
  step and the project details. It models:
  - backward-only step navigation;
  - merging submitted project details over the current ones;
  - coercing the forty numeric assumption fields from strings to numbers.

Floating-point numbers are modelled as `real`. `parseFloat` and `Number.prototype.toString`
are function parameters (`parse`, `show`); the CSV round trip takes as its premise that
`parse` inverts `show` on the profile's values. The clock (`Date.now()`) is a parameter
`now`. Whether the canvas is mounted is a parameter `canvasReady`.

## Model

| member | source | states |
|---|---|---|
| PlantSizing.Generation | app/app/plant-sizing/page.tsx:108 | definition: the profile value divided by the base stack capacity 350, times the installed stack. |
| PlantSizing.TierSupply | app/app/plant-sizing/page.tsx:113-120 | definition: the high rate above the high-stock threshold, else the low rate above the low rate, else 0. |
| PlantSizing.Clamp | app/app/plant-sizing/page.tsx:124-127 | The supply is the smaller of the requested rate and the stock before supply. |
| PlantSizing.Vent | app/app/plant-sizing/page.tsx:131-141 | definition: generation minus supply when the stock after supply exceeds 100000 and generation exceeds the high rate, else 0. |
| PlantSizing.Advance | app/app/plant-sizing/page.tsx:106-147 | definition: one loop iteration on the carried totals; its properties are `HourFlows`, `HourNonNegative` and `AdvancePeak`. |
| PlantSizing.Run | app/app/plant-sizing/page.tsx:99-148 | definition: the totals after the first n hours, starting from all zeros. |
| PlantSizing.Simulate | app/app/plant-sizing/page.tsx:99-148 | definition: the totals after the whole profile. |
| PlantSizing.CapitalCost | app/app/plant-sizing/page.tsx:151 | definition: the cylinder count times the cost per cylinder. |
| PlantSizing.Summarize | app/app/plant-sizing/page.tsx:149-161 | definition: the final totals with zero-supply days, cylinders and capital cost, in the result record. |
| PlantSizing.HourFlows | app/app/plant-sizing/page.tsx:106-147 | One hour of dispatch: supply never exceeds the stock before supply or the tier rate, and equals one of them. Stock changes by generation minus supply minus vent. Venting happens only when the stock after supply is above storage capacity and generation exceeds the high rate. A zero-supply hour is counted exactly when the tier rate is not positive. |
| PlantSizing.HourNonNegative | app/app/plant-sizing/page.tsx:106-147 | With non-negative stock, profile value, stack size and rates, an hour keeps stock non-negative and never decreases the generated or supplied totals. |
| PlantSizing.TierSupplyMonotone | app/app/plant-sizing/page.tsx:113-120 | When the low rate is at most the high rate, the requested supply is monotone in the stock available. |
| PlantSizing.DispatchHour | app/app/plant-sizing/page.tsx:108-141 | The dispatch branches compute the scaled generation, the tier rate, the clamped supply and the vent of one hour. |
| PlantSizing.Conservation | app/app/plant-sizing/page.tsx:99-148 | After any number of hours, generated = supplied + vented + final stock. Zero-supply hours are at most the hours run. Peak stock is non-negative and at least the final stock. |
| PlantSizing.StockNonNegative | app/app/plant-sizing/page.tsx:99-148 | With non-negative profile values, stack size and rates, the stock and the generated and supplied totals stay non-negative. |
| PlantSizing.VentedNonNegative | app/app/plant-sizing/page.tsx:131-141 | When the low rate does not exceed the high rate (and the high rate is non-negative), the vented total is never negative. |
| PlantSizing.NegativeVentWhenLowRateExceedsHigh | app/app/plant-sizing/page.tsx:113-141 | When the low rate exceeds the high rate, the vent formula generation − supply can go negative. A concrete two-hour profile ends with total vented −40000. |
| PlantSizing.StockCanExceedStorage | app/app/plant-sizing/page.tsx:131-143 | Storage capacity is not a bound on stock: when generation does not exceed the high rate, nothing is vented, and a one-hour profile ends with stock 150000 > 100000. |
| PlantSizing.AdvancePeak | app/app/plant-sizing/page.tsx:143-146 | An hour never lowers the peak. The new peak is at least the new stock, and it is unchanged unless the new stock exceeds it. |
| PlantSizing.PeakIsRunningMaximum | app/app/plant-sizing/page.tsx:99-146 | Peak stock is non-negative and bounds the stock after every hour run so far. It is either zero or the stock reached after some hour. |
| PlantSizing.Ceil | app/app/plant-sizing/page.tsx:149-150 | `Math.ceil`: the least integer not below its argument. |
| PlantSizing.ZeroSupplyDays | app/app/plant-sizing/page.tsx:149 | Zero-supply days are the least number of whole days covering the zero-supply hours. |
| PlantSizing.ZeroSupplyDaysIsIntegerCeiling | app/app/plant-sizing/page.tsx:149 | The day count equals integer ceiling division (hours + 23) / 24. |
| PlantSizing.Cylinders | app/app/plant-sizing/page.tsx:150 | The cylinder count is the least number of cylinders whose capacity holds the peak stock. |
| PlantSizing.ExactMultipleNeedsExactCylinders | app/app/plant-sizing/page.tsx:150 | A peak of exactly k cylinder capacities needs exactly k cylinders. |
| PlantSizing.EmptyProfileGivesZeroResults | app/app/plant-sizing/page.tsx:96-161 | An empty profile yields all-zero results. |
| PlantSizing.RunSimulation | app/app/plant-sizing/page.tsx:96-161 | The simulation loop returns the summary of the hourly fold. Generation balances supply, vent and final stock. Zero-supply hours are at most the profile length, and the peak is non-negative and at least the final stock. |
| ProfileCsv.TrimStart | app/app/plant-sizing/page.tsx:52 | Leading trim removes exactly the maximal whitespace prefix. |
| ProfileCsv.TrimEnd | app/app/plant-sizing/page.tsx:52 | Trailing trim removes exactly the maximal whitespace suffix. |
| ProfileCsv.Trim | app/app/plant-sizing/page.tsx:52 | `String.prototype.trim` yields a string with no whitespace at either end, no longer than its input. |
| ProfileCsv.TrimIsSlice | app/app/plant-sizing/page.tsx:52 | Trim keeps a slice of its input, and everything it drops before and after the slice is whitespace. |
| ProfileCsv.TrimIdentity | app/app/plant-sizing/page.tsx:52 | Trimming an already trimmed string changes nothing. |
| ProfileCsv.TrimIdempotent | app/app/plant-sizing/page.tsx:56 | Trimming twice is trimming once. |
| ProfileCsv.Join | app/app/plant-sizing/page.tsx:82-90 | definition: the pieces with the separator between consecutive ones and none after the last. |
| ProfileCsv.Split | app/app/plant-sizing/page.tsx:52-56 | Splitting on a separator yields at least one piece. No piece holds the separator, and joining the pieces back gives the input. |
| ProfileCsv.SplitJoin | app/app/plant-sizing/page.tsx:52-56 | Splitting the join of separator-free pieces gives back the pieces. |
| ProfileCsv.StripCarriageReturn | app/app/plant-sizing/page.tsx:52 | The optional `\r` before a line break is removed, and nothing else. |
| ProfileCsv.Lines | app/app/plant-sizing/page.tsx:52 | Splitting on `\r?\n` gives one line per `\n`-piece. Every line but the last loses its trailing `\r`, if it has one. No line holds `\n`. |
| ProfileCsv.TrimAll | app/app/plant-sizing/page.tsx:56 | Each comma-separated cell is trimmed, and the cells keep their number and order. |
| ProfileCsv.Tokens | app/app/plant-sizing/page.tsx:52-60 | There is always at least one token, and at least two when the trimmed text is a single line holding a comma. By definition, such a line is split on commas and the cells trimmed; otherwise the lines of the trimmed text are the tokens. |
| ProfileCsv.CommaLineIsOneLine | app/app/plant-sizing/page.tsx:52 | Cells with no line feed, joined by commas, are read as a single line. |
| ProfileCsv.CommaLineTokens | app/app/plant-sizing/page.tsx:52-56 | A single comma-separated line is read as its cells, each trimmed. This holds for cells with no line feed or comma, where the line neither starts nor ends with whitespace; inner cells may carry whitespace around their value. |
| ProfileCsv.CommaLineParses | app/app/plant-sizing/page.tsx:51-61 | Parsing such a line gives the numbers parsed from its trimmed cells. |
| ProfileCsv.TrimAllPrintable | app/app/plant-sizing/page.tsx:56 | Trimming printed values leaves them unchanged. |
| ProfileCsv.PrintableCommaLine | app/app/plant-sizing/page.tsx:51-61 | Two or more printed values written as one comma-separated line parse value by value. |
| ProfileCsv.CommaLineRoundTrip | app/app/plant-sizing/page.tsx:51-61 | A profile of two or more values, printed and written as one comma-separated line, parses back to the same profile, given a printer whose output the parser reads back. |
| ProfileCsv.ParseNumbers | app/app/plant-sizing/page.tsx:61 | Parsing keeps at most one number per token. |
| ProfileCsv.ParseNumbersAllParse | app/app/plant-sizing/page.tsx:61 | When every token parses, the result is exactly the parsed tokens in order. |
| ProfileCsv.ParseNumbersNoneParse | app/app/plant-sizing/page.tsx:61 | When no token parses, the result is empty. |
| ProfileCsv.ParseNumbersAppend | app/app/plant-sizing/page.tsx:61 | Parse-then-filter distributes over concatenation of token lists. |
| ProfileCsv.ParseCsvProfile | app/app/plant-sizing/page.tsx:51-62 | The parsed profile has at most as many values as there are tokens. |
| ProfileCsv.UploadProfile | app/app/plant-sizing/page.tsx:72-75 | An upload replaces the base profile exactly when it parses to a non-empty profile, so a non-empty profile never becomes empty. |
| ProfileCsv.ShowAll | app/app/plant-sizing/page.tsx:85-86 | Each profile value is rendered by `toString`, in order. |
| ProfileCsv.Template | app/app/plant-sizing/page.tsx:82-90 | definition: the rendered values joined by `\n`. |
| ProfileCsv.DownloadTemplate | app/app/plant-sizing/page.tsx:82-90 | The loop builds the rendered values joined by `\n`, with no trailing newline. |
| ProfileCsv.TemplateLines | app/app/plant-sizing/page.tsx:82-90 | Splitting the template on `\n` gives back the rendered values. |
| ProfileCsv.TemplateLinesAreValues | app/app/plant-sizing/page.tsx:52 | Splitting the template on `\r?\n` gives back the rendered values. |
| ProfileCsv.TemplateTrimmed | app/app/plant-sizing/page.tsx:52 | The template of a non-empty profile has nothing for trim to remove. |
| ProfileCsv.TemplateRoundTrip | app/app/plant-sizing/page.tsx:51-90 | For a non-empty profile whose rendered values hold no whitespace or comma and parse back to themselves, parsing the downloaded template gives back the profile. |
| ProfileCsv.EmptyTemplateIsIgnored | app/app/plant-sizing/page.tsx:72-90 | The template of an empty profile is empty, parses to nothing, and uploading it leaves the base profile unchanged. |
| NetworkEditor.PortColor | app/app/network-editor/components/NetworkEditor.tsx:251-264 | The default grey is used exactly for data types other than power, hydrogen, oxygen and percentage. |
| NetworkEditor.PortColorIdentifiesType | app/app/network-editor/components/NetworkEditor.tsx:251-264 | Two data types with the same non-default colour are the same type. |
| NetworkEditor.NodeIndex | app/app/network-editor/components/NetworkEditor.tsx:58-59 | `find` by id returns the first node with that id, or nothing exactly when no node has it. |
| NetworkEditor.PortIndex | app/app/network-editor/components/NetworkEditor.tsx:63-68 | `find` by handle returns the first port whose prefixed id equals the handle, or nothing exactly when none does. |
| NetworkEditor.NodeIndexAppend | app/app/network-editor/components/NetworkEditor.tsx:123 | Appending a node does not change which node an already-found id resolves to. |
| NetworkEditor.SourcePort | app/app/network-editor/components/NetworkEditor.tsx:58-70 | The source port resolves exactly when the source node exists and one of its output ports has handle `output-<id>`. |
| NetworkEditor.TargetPort | app/app/network-editor/components/NetworkEditor.tsx:58-70 | The target port resolves exactly when the target node exists and one of its input ports has handle `input-<id>`. |
| NetworkEditor.EdgeId | app/app/network-editor/components/NetworkEditor.tsx:75 | definition: `e<source>-<sourceHandle>-<target>-<targetHandle>`. |
| NetworkEditor.Connect | app/app/network-editor/components/NetworkEditor.tsx:56-91 | A connection is admitted exactly when both ports resolve with equal data types, and rejected as incompatible exactly when they resolve with different types. An admitted edge carries the connection, its generated id, both port ids, the data type, its colour and the animated flag. |
| NetworkEditor.AdmittedEdgesAreTyped | app/app/network-editor/components/NetworkEditor.tsx:72-85 | Every edge on a valid canvas joins two existing ports of its own data type and is drawn in that type's colour. |
| NetworkEditor.ConnectAfterAppend | app/app/network-editor/components/NetworkEditor.tsx:123 | Dropping a node does not change the outcome of an admitted connection. |
| NetworkEditor.WithParameter | app/app/network-editor/components/NetworkEditor.tsx:146-155 | definition: the node with its parameter map updated at one name, everything else copied. |
| NetworkEditor.SetParameter | app/app/network-editor/components/NetworkEditor.tsx:141-162 | A parameter edit keeps the node list's length and ids and leaves nodes with other ids untouched. A matching node gets exactly `parameters[name := value]`, with the rest of its data unchanged. |
| NetworkEditor.SetParameterChangesOneParameter | app/app/network-editor/components/NetworkEditor.tsx:141-162 | With unique ids, only the edited node changes. Its edited parameter holds the new value, its other parameters keep theirs, and its keys gain exactly the edited name. |
| NetworkEditor.ConnectAfterSetParameter | app/app/network-editor/components/NetworkEditor.tsx:141-162 | A parameter edit never changes the outcome of any connection. |
| NetworkEditor.NatToString | app/app/network-editor/components/NetworkEditor.tsx:110 | The decimal rendering of the clock is a non-empty digit string without leading zeros, whose value is the number. |
| NetworkEditor.DigitChar | app/app/network-editor/components/NetworkEditor.tsx:110 | A digit below ten is rendered as the matching character. |
| NetworkEditor.NatToStringInjective | app/app/network-editor/components/NetworkEditor.tsx:110 | Different clock readings give different id suffixes. |
| NetworkEditor.NumberedLabelsDiffer | app/app/network-editor/components/NetworkEditor.tsx:119 | Labels with one prefix and different numbers are different strings. |
| NetworkEditor.CountOfType | app/app/network-editor/components/NetworkEditor.tsx:119 | The count of nodes of a type is at most the number of nodes. |
| NetworkEditor.Dropped | app/app/network-editor/components/NetworkEditor.tsx:99-123 | A drop with an empty or unknown module type changes nothing. Otherwise it appends exactly one node, keeping the others. The new node's id is `<type>-<now>`, it copies the module's definition, and its label is the definition's label followed by one more than the count of nodes of that type. |
| NetworkEditor.DropNumbersConsecutively | app/app/network-editor/components/NetworkEditor.tsx:119 | A drop raises the count of nodes of that type by exactly one. |
| NetworkEditor.SuccessiveDropsHaveDistinctLabels | app/app/network-editor/components/NetworkEditor.tsx:119 | Two successive drops of the same module give different labels. |
| NetworkEditor.Editor.constructor | app/app/network-editor/components/NetworkEditor.tsx:42-43 | The editor starts with no nodes and no edges. |
| NetworkEditor.Editor.OnConnect | app/app/network-editor/components/NetworkEditor.tsx:56-91 | An admitted connection appends its edge. Any other outcome leaves the edges alone. Nodes never change, and every edge stays admissible. |
| NetworkEditor.Editor.OnParameterChange | app/app/network-editor/components/NetworkEditor.tsx:141-162 | The nodes become the parameter-edited list, the edges are unchanged, and every edge stays admissible. |
| NetworkEditor.Editor.OnDrop | app/app/network-editor/components/NetworkEditor.tsx:93-127 | When the canvas is ready the nodes become the dropped list, otherwise nothing changes. Edges are unchanged and stay admissible. |
| AuthUtils.Includes | app/form/authUtils.ts:121 | `includes` is list membership. |
| AuthUtils.RequiresAuth | app/form/authUtils.ts:113-122 | A path needs sign-in exactly when it is none of `/login`, `/unauthorized`, `/`, `/privacy`, `/terms`. |
| AuthUtils.HomeRequiresAuth | app/form/authConfig.ts:30-33 | The home route `/app` needs sign-in. |
| AuthUtils.ExtendedPublicPathsRequireAuth | app/form/authUtils.ts:114-121 | Any non-root public path with anything appended needs sign-in. |
| AuthUtils.TrailingSlashRequiresAuth | app/form/authUtils.ts:114-121 | Every public path with a trailing slash needs sign-in, the root included. |
| Wizard.IndexOf | app/app/page.tsx:314-315 | `findIndex` gives the first matching position, or −1 exactly when the id is not a step. |
| Wizard.StepIndex | app/app/page.tsx:314-315 | definition: the position of a step id in the four steps, or −1. |
| Wizard.NextStep | app/app/page.tsx:313-320 | definition: the target when its index is below the current step's, else the current step. |
| Wizard.NavigationOnlyGoesBack | app/app/page.tsx:313-320 | Between known steps, a move to an earlier step is taken and a move to the same or a later step is refused. The step index never increases. |
| Wizard.UnknownTargetIsAccepted | app/app/page.tsx:313-320 | From a known step, a target id that is not a step (index −1) is accepted. |
| Wizard.StuckOnUnknownStep | app/app/page.tsx:313-320 | When the current step is not a known step, no navigation is ever taken. |
| Wizard.NoMoveFromFirstStep | app/app/page.tsx:313-320 | From the first step, no known step can be reached by navigation. |
| Wizard.Override | app/app/page.tsx:323-326 | A key present in the submitted object overrides the current value, and an absent key keeps it. |
| Wizard.MergeDetails | app/app/page.tsx:322-326 | Name and financial model come from the submission. Each optional field comes from the submission when present and from the current details otherwise. |
| Wizard.MergeDetailsIdempotent | app/app/page.tsx:322-326 | Submitting the same details twice gives the same result as once. A submission carrying every optional field ignores the current details. |
| Wizard.Coerce | app/app/page.tsx:231-238 | A string that parses becomes the parsed number. A string that does not parse, or a value that is already a number, is kept. |
| Wizard.CoerceIdempotent | app/app/page.tsx:229-240 | Coercing twice is coercing once. |
| Wizard.CoercedValues | app/app/page.tsx:226-240 | Coercion keeps the key set and every field outside the numeric list, and coerces each numeric field present. |
| Wizard.CoerceNumericFields | app/app/page.tsx:226-240 | The forEach loop over the numeric field names produces the coerced values. |
| Wizard.Page.constructor | app/app/page.tsx:51-56 | The wizard starts on the first step, with an empty name and financial model. |
| Wizard.Page.HandleStepChange | app/app/page.tsx:313-320 | The current step becomes the navigation rule's result, and the details are unchanged. |
| Wizard.Page.HandleProjectDetailsSubmit | app/app/page.tsx:322-328 | The details become the merge of the submission over the current details, and the wizard moves to the financial-model step. |
| Wizard.Page.HandleAssumptionsSubmit | app/app/page.tsx:337-371 | The assumptions are coerced over the forty numeric fields, the wizard moves to the network-editor step, and the details are unchanged. |

The two counterexample lemmas record behaviour of the simulation as written; the model
keeps that behaviour. When the low rate exceeds the high rate, the vent formula can
go negative. When generation does not exceed the high rate, nothing caps stock at
storage capacity.

## Left out

- Floating point: numbers are `real`, so IEEE rounding, `NaN` and infinities are not modelled. `parseFloat` and `toString` are parameters whose behaviour the model does not fix. A `NaN` result of `parseFloat` is the parameter's `None`.
- PlantSizing.RunSimulation: does not model the React memoisation (`useCallback` and `useMemo`); the simulation is a plain function of its inputs. Its precondition requires a positive cylinder capacity. A zero capacity divides by zero in the source (`Infinity` or `NaN` cylinders), which reals cannot express. A negative capacity gives a finite count of zero or below in the source (peak 52 with capacity −26 gives −2 cylinders and a negative capital cost); the model does not cover that case.
- PlantSizing.DispatchHour: the source's loop body is one block. The model splits it into the dispatch branches (this method) and the accumulator updates (in `RunSimulation`); the accumulator updates are reordered (the source adds to the generated total before choosing the tier, counts a zero-supply hour before clamping, and updates the peak before the supplied total; the model does these after the dispatch, and the supplied total before the peak), but each update writes only its own accumulator from values already computed, so the results are the same.
- Loading the base profile from the server, the chart, and the assumption inputs' state hooks are I/O and rendering. They are not part of this model.
- The `FileReader` step of the upload is not modelled. A file input with no file, and a reader result that is not a string, leave the profile unchanged in the source; the model starts from the text that was read.
- The `Blob` and `saveAs` download is not modelled; the model ends at the CSV text.
- NetworkEditor.Editor.OnConnect: `addEdge` from the graph library also drops an edge identical to an existing one. That library is not part of this model, so the model always appends. The `alert` on incompatible types is reduced to the `Incompatible` outcome.
- NetworkEditor.Editor.OnDrop: the drop position (`reactFlowInstance.project` over the cursor) is left out. The node's fixed `type: 'moduleNode'` is left out as well. `moduleDefinitions` is a parameter map, so prototype keys of a JavaScript object are not modelled.
- NetworkEditor.Dropped: a dropped node keeps only the definition's type, label, ports and parameters, and each port only its `id` and `dataType`. The source's spread also copies the definition's `description`, and its ports also carry `name`, `unit`, `description` and `isRequired`; none of these affects connecting, colouring or labelling.
- NetworkEditor.Editor: the invariant that every edge is admissible is a precondition the methods keep. The graph library's own node and edge changes (`onNodesChange`, `onEdgesChange`) can move or delete nodes outside these methods and are not part of this model.
- Selection, save, load and clear of the network (local storage, `confirm`), `getCurrentFlow` and the submit to the server are I/O and are not part of this model.
- Wizard.Page.HandleAssumptionsSubmit: the source computes the coerced values and discards them. The model returns them so that their contents can be stated.
- Wizard.MergeDetails: a key present in the submission with the value `undefined` overrides with `undefined` in JavaScript. The model treats such a key as absent.
- Wizard.CoercedValues: a numeric field explicitly set to `undefined` is treated as absent.
- The optimisation submit (`onSubmit`: file upload, `fetch`, the response handling) is network I/O and is not part of this model.
- The static data (module definitions, network configuration, forms, sidebar, progress bar) is not part of this model.
- The session handling around the route guard (`authWrapper.tsx`, the validate and logout requests) is network I/O and is not part of this model.
