# Flow action — a Dafny model

This project models the Flow GitHub action (`flow.js`). The action finds the
`flow` executable, runs it with `--json`, and reads the diagnostics it prints.
If there are no errors it logs "No errors" and stops. Otherwise it turns every
message of every error into one annotation with level `"failure"` and sends the
whole list to the reporter once, under the title `"Flow"`.

Everything is in one module, `Flow` (`flow.dfy`):

- The checker's output is modelled by the datatypes `Pos`, `Loc`, `Message`,
  `Error` and `Report`. `ParsedOutput` says whether stdout parsed. The
  reporter's input is `Annotation`, and `Outcome` says how a run ends:
  `NoErrors`, `Reported(title, annotations)` or `Failed(reason)`.
- `Flatten` is the reference definition of the annotation list. The method
  `Run` builds that list the way the source does, with two nested loops that
  append one annotation per message. It is proved to produce exactly
  `Flatten`.
- `FlowBin` is `getFlowBin`. The `INPUT_FLOW-BIN` value is an
  `Option<string>`; JavaScript truthiness means "present and non-empty". The
  filesystem probe is the boolean parameter `guessExists`.
- `Action` is the top-level `run(getFlowBin()).catch(...)`. Running the
  checker and parsing its stdout is a function parameter, `checker`, from the
  resolved path to a `ParsedOutput`.

## Model

| member | source | states |
|---|---|---|
| `Flow.Annotate` | flow.js:47-53 | The annotation for a message has level "failure", and `Origin` recovers the message from it: path, start, end and description are copied unchanged. |
| `Flow.FlattenLength` | flow.js:44-55 | The number of annotations is the sum, over all errors, of each error's message count. |
| `Flow.FlattenAppend` | flow.js:45-46 | Flattening the concatenation of two error lists gives the annotations of the first list followed by those of the second, so errors keep report order. |
| `Flow.FlattenAt` | flow.js:45-53 | Message j of error i becomes the annotation at position (messages in errors 0..i-1) + j: errors keep report order, messages keep their order within each error, and the fields are copied from that message. |
| `Flow.FlattenFrom` | flow.js:45-53 | Every annotation has level "failure" and was made from some message of some error of the report; no other annotation is produced. |
| `Flow.FlattenEmptyMessages` | flow.js:44-55 | When no error has any message, the annotation list is empty. |
| `Flow.FlattenExample` | flow.js:44-55 | For a report with one one-message error and one two-message error, exactly three annotations come out, in report order, with their fields copied and level "failure". |
| `Flow.Run` | flow.js:40-56 | With no errors the outcome is NoErrors and nothing is reported. Otherwise the nested loops build exactly `Flatten(errors)`, and it is reported once under the title "Flow". This also holds when every error has an empty message list: the guard tests the number of errors, not the number of annotations. |
| `Flow.FlowBin` | flow.js:59-70 | A truthy input is returned verbatim, whether or not the conventional path exists. Otherwise `node_modules/.bin/flow` is returned if it exists. Otherwise resolution fails with "No flow-bin found (pass in as an input)". |
| `Flow.FlowBinResolved` | flow.js:59-70 | Resolution succeeds exactly when the input is truthy or the conventional path exists. A resolved path is never empty, and it is either the input or the conventional path. |
| `Flow.Action` | flow.js:73-76 | A failed resolution ends in `Failed(NoFlowBin)` with exit status 1. Output that does not parse ends in `Failed(ParseFailure(stdout))` with exit status 1. A parsed report gets `Run`'s outcome with exit status 0, whatever the checker's own exit status was. |

## Left out

- Running the checker (`execProm` with `--json`) is process I/O. `Action` gets its parsed stdout from the `checker` parameter. The model has no launch failure: a process that cannot be started is not represented.
- `JSON.parse` is a library call. Its result is the `ParsedOutput` given to `Action`, and JSON syntax is not modelled. Output that parses but has a different shape is not represented either.
- `sendReport` is an external module whose source is not part of this model. The call is represented by the `Reported(title, annotations)` outcome. A rejection from the reporter would reach the top-level catch, and that path is not modelled.
- `fs.existsSync` is a filesystem probe. It becomes the `guessExists` parameter.
- Logging (`console.log`, `console.error`), `process.exit` and the `@babel/register` setup are not modelled. Exit statuses appear as the `status` result of `Action`.
- The single `await` is modelled as plain sequential steps.
- A report title with a subtitle suffix and a working-directory option do not appear in `flow.js`. The title is always the literal "Flow".
- On a parse failure, `flow.js` does not catch the error locally, and it does not echo stdout or stderr. The exception goes straight to the top-level handler, which exits with status 1. The model follows the code: it ends in `Failed(ParseFailure(stdout))`.
