# Judge0 online-compiler client, modelled in Dafny

This project models the two pieces of logic in the browser front-end of an
online compiler built on the Judge0 code-execution service.

- **Language registry** (`languages.dfy`, module `Languages`). This is the
  fixed five-entry table of supported languages: Python 71, C 50, C++ 54,
  Java 62 and JavaScript 63. It has two lookups, by id and by name. Each
  returns the first matching entry, or nothing.
- **Execution client** (`api.dfy`, module `Api`). The client submits a
  program and gets back a token. It then polls the submission record until
  the status is terminal or the attempt budget (10 by default) runs out.
  Finally it turns the outcome into one result shape. Status ids 1
  ("in queue") and 2 ("processing") mean "poll again". Every other id is
  terminal, including ids the service never defines. Only id 3 ("accepted")
  counts as success. Submit faults, fetch faults and the timeout are all
  caught at `ExecuteCode` and become a fixed failure record that carries the
  fault's message.

The remote service is an input to the model. `Remote` holds what the service
answers to the submit request, plus the sequence of answers it gives to
successive status fetches. Each answer is a record or a fault. The poll
counts its fetches and its waits as events; it does not measure durations.
`Poll` is the recursive definition and `PollSubmission` is the counted loop
as the source writes it. `PollSpec` is an independent reference description:
the first answer that does not ask to continue, or the end of the budget.
Lemmas prove that all three agree.

`wrappers.dfy` (module `Wrappers`) holds the `Option` and `Result` types.

Two modelling facts:

- Status ids are raw integers, compared as line 88 of `api.js` compares
  them; any id other than 1 and 2 is terminal.
- `time` is an optional string, passed through.

## Model

| member | source | states |
|---|---|---|
| Api.Fault.Message | online-compiler/src/utils/api.js:45-97 | each fault carries the source's fixed, non-empty message, and the three messages differ |
| Api.SubmitCode | online-compiler/src/utils/api.js:30-48 | a submit that does not fault yields the service's token; any fault of the request is reported as "Failed to submit code. Please check your API key and try again." |
| Api.GetSubmission | online-compiler/src/utils/api.js:56-69 | a fetch that does not fault yields the record; any fault of the request is reported as "Failed to get submission result." |
| Api.Poll | online-compiler/src/utils/api.js:79-98 | at most `maxAttempts` fetches, none for a budget below one; waits equal fetches or are one fewer; a returned record is terminal; the result is the timeout exactly when waits equal fetches |
| Api.PollMeetsSpec | online-compiler/src/utils/api.js:80-97 | the recursive poll meets the reference description: all answers before the stop asked to continue; it stops at the first answer that does not, within the budget, or times out after the whole budget |
| Api.PollSpecUnique | online-compiler/src/utils/api.js:80-97 | the reference description fixes the fetch count, the wait count and the result uniquely |
| Api.PollSubmission | online-compiler/src/utils/api.js:79-98 | the counted loop meets the reference description and agrees with the recursive poll on every input |
| Api.PollStopsAtFirstTerminal | online-compiler/src/utils/api.js:81-94 | the first answer within the budget that is a terminal record or a fault ends the poll at index `k`: that record or fault is returned after exactly `k + 1` fetches and `k` waits, with no fetch after it |
| Api.PollFetchFaultPropagates | online-compiler/src/utils/api.js:66-81 | a fetch fault ends the poll immediately without retry, as the fetch fault "Failed to get submission result." |
| Api.PollTimesOut | online-compiler/src/utils/api.js:80-97 | if every answer within the budget is "in queue" or "processing", the poll times out after exactly `maxAttempts` fetches and `maxAttempts` waits; with a budget of zero it fetches nothing |
| Api.PollWaitBound | online-compiler/src/utils/api.js:79-90 | the total time spent waiting is at most the budget times the interval |
| Api.Normalise | online-compiler/src/utils/api.js:118-125 | success exactly when the status id is 3; output is stdout if truthy, else empty; error is stderr, else compile output, else empty; status description, time and memory are passed through unchanged |
| Api.Failed | online-compiler/src/utils/api.js:126-134 | the catch-all record: not successful, empty output, status "Error", null time and memory, and a non-empty error equal to the fault's message |
| Api.ExecuteCode | online-compiler/src/utils/api.js:109-135 | always returns a result; a submit fault gives the failure record; success holds exactly when the submit succeeded and the poll returned a record with status id 3 |
| Api.ExecuteCatchesFaults | online-compiler/src/utils/api.js:126-134 | every fault, whether from submit, a fetch or the timeout, gives `success=false`, empty output, status "Error", null time and memory, and the fault's own non-empty message; a submit fault's message asks the user to check the API key |
| Api.ExecuteNormalisesFirstTerminal | online-compiler/src/utils/api.js:112-125 | after a successful submit, the first terminal record within the default budget of 10 is the one normalised |
| Api.ExecuteTimesOut | online-compiler/src/utils/api.js:97-134 | a service that stays pending for the whole default budget yields the failure record with "Execution timeout. Please try again." |
| Api.ProcessingThenAccepted | online-compiler/src/utils/api.js:88-94 | "processing" followed by "accepted" returns the accepted record after 2 fetches and 1 wait |
| Api.HelloWorld | online-compiler/src/utils/api.js:118-125 | a Python hello-world program accepted at once gives success, output "Hello, World!\n", empty error, status "Accepted" and the reported time and memory |
| Languages.FindIndex | online-compiler/src/utils/languages.js:110 | the search `find` performs: every element before the returned index fails the test, and the element at that index passes unless the index is the length |
| Languages.Find | online-compiler/src/utils/languages.js:110 | the first element that passes the test; absent exactly when no element passes |
| Languages.GetLanguageById | online-compiler/src/utils/languages.js:109-111 | a present result is a table entry with the queried id; absent exactly when no entry has that id |
| Languages.GetLanguageByName | online-compiler/src/utils/languages.js:116-118 | a present result is a table entry with the queried name; absent exactly when no entry has that name |
| Languages.TableKeysDistinct | online-compiler/src/utils/languages.js:6-104 | the ids 71, 50, 54, 62 and 63 are pairwise distinct, and so are the names |
| Languages.GetLanguageByIdExact | online-compiler/src/utils/languages.js:6-111 | lookup by id returns `e` exactly when `e` is a table entry with that id |
| Languages.GetLanguageByNameExact | online-compiler/src/utils/languages.js:6-118 | lookup by name returns `e` exactly when `e` is a table entry with that name |
| Languages.LookupsRoundTrip | online-compiler/src/utils/languages.js:6-118 | every table entry is found again from its own id and from its own name |
| Languages.LookupExamples | online-compiler/src/utils/languages.js:8-111 | id 71 is the Python entry with editor mode "python"; id 9999 and an unknown name are absent |

## Left out

- The HTTP layer is not modelled: axios, the endpoint URLs, query strings, and the RapidAPI key and host headers. Only the outcome of each request is modelled, as a token, a record or a fault.
- The request body is not modelled. The source code, language id and stdin are only forwarded to the service and do not affect the client's logic.
- The token is not modelled as the key of the later fetches. The answer sequence stands for the service's answers about that one submission.
- A successful submit response without a `token` field is not modelled. The source returns `undefined` in that case and then polls with it; in the model a successful submit always carries a string token, and the answer sequence stands for whatever the service returns for that token.
- `Poll` requires the answer sequence to be at least as long as the budget. This is a condition on the model's input, not on the source: any service behaviour can be written as such a sequence.
- Real time is not modelled. `setTimeout`, promises and the async scheduling become a counted wait. The interval appears only in `PollWaitBound`.
- `console.error` logging is left out; it has no effect on behaviour.
- The starter snippets (`defaultCode`) keep only their first line. No operation reads them.
- The source field `label` is named `displayLabel` because `label` is a Dafny keyword.
- Malformed records are not modelled. A record without `status` would throw a TypeError in the source, and the catch-all would report it. In the model every record has a status with an integer id.
- JavaScript-specific inputs are not modelled: a non-integer `maxAttempts`, or a status id that is not a number (strict `===` would treat it as terminal).
- `undefined` and `null` are both modelled as `None`.
- `time` and `memory` are modelled as an optional string and an optional integer, passed through without being read.
- The generic message "An unexpected error occurred." is modelled in `Failed`. None of the three modelled faults can reach it, because each has a non-empty message.
- `About.jsx` and `App.jsx` are not modelled. They contain only presentational markup and routing.
