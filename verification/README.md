# stripe-mock: lifecycle, parameters and translations

A Dafny model of the parts of stripe-mock that compute something hard, with proofs of what they promise.
`dafny verify dfyconfig.toml` checks everything.

**The stateful PaymentIntent layer.** A session stores PaymentIntents and Charges and queues webhook events.
`PaymentIntents` and `Sessions` say what each request reads, decides and writes. `PaymentIntentServer` and
`StatefulStore` carry the requests out as the server does, setting fields and going through the store one
access at a time, and are proved to do what those functions say. `Lifecycle` and `LifecycleTheorems` prove
what holds of every run of requests: the language of event traces, the agreement of intents and Charges, the
count of Charges, and the bound on captures, which `CaptureBound` puts over whole runs. `Outcomes` says what
every request is answered and what it leaves, in the terms of the request, and `SessionRuns` what a client sees of
a session over a run. `Concurrency`, `Serializability` and `ConcurrencyTheorems` split requests into their store
accesses, let them interleave in every way, and prove the outcome serializable as long as no action collides with
the creation of its own intent. `CreationRaces`, `StaleActions` and `RaceRuns` are about those collisions.
`WriteOrder` shows that the interleaved steps are the writes of the request handlers, in their order. `StoreLaws` is
about many sessions and about the queue.

**Request parameters.** `KeyParser` and `KeyPrinter` read and print keys such as `a[b][]`. `Assembler` says
what assembling bracketed pairs computes and `AssemblerHeap` does it on mutable maps, merging in place.
`RoundTrip`, `RoundTripExact`, `AssemblerLaws` and `AssemblerOrder` prove what assembly preserves. `Coercer` is
coercion by schema, with its in-place effects; `CoercerLoops` runs it in any map iteration order; `CoercerLaws`,
`CoercerArrays` and `CoercerProgress` say when a second coercion changes nothing, and that coercion settles;
`CoercerRoundTrip` proves that parameters written as text are read back; `IndexedMaps` and `Decimal` prove its
index-keyed lists invertible.

**Translations.** `SchemaTranslation`, `SchemaTranslator` and `SchemaMeaning` translate OpenAPI schemas to JSON
Schemas and compare what the two accept. `ExpansionTrie` parses requested expansions. `IdRewriting`,
`IdRewriter`, `IdLaws` and `IdPlaces` are the two passes that put the ids of a request's path into generated data,
and which id is where after them.

`Json` and `OpenApi` hold the values all of them work on.

## How to read the model

- A map that Go ranges over is looped over in an arbitrary order; a contract that pins the result down
  therefore holds for every order.
- Random ids, base objects from the generator, the float parser, the pattern matcher and the format checker
  are parameters. Random ids are required to be new, at the moment they are drawn, where a theorem needs it.
- Runs start from an empty session and consist of creations, actions, retrievals, opt-ins, drains and
  resets. In the concurrent runs every request opts in, and none resets or reconfigures the session.
- Schema meaning is defined twice, once for OpenAPI schemas (Schema Object, section 4.7.24 of the OpenAPI
  Specification 3.0.3, with nullable read as adding null to everything the schema says) and once for JSON
  Schema documents; references are followed to a depth, and the theorem holds for every depth.

Where the code does not keep a promise, the model keeps the code and proves when it holds:

- A creation takes no lock, and its first event, which a drain can return, names its intent before it is stored.
  An action on that intent takes over the id with a base of its own, and the later of the two writes wins.
  - If the creation stores last, a confirm or cancellation is lost although it was served and its events are
    queued, and an intent can be captured twice. No serial order explains the outcome except where both requests
    queue the same events (`CreationRaces.RaceIsNotSerial`, `CancelBreaksTrace`, `TwoCaptures`).
  - If the action stores last, the creation is lost although it was served: the intent has the amount and the
    other terms of the action's base. No serial order explains that except where the action decides the same on
    the created intent (`StaleActions.StaleExact`, `StaleIsNotSerial`); a refused action does no harm
    (`RefusedOnCopy`).
  - `RaceRuns` runs both, and two captures, in a new session. `Concurrency.Collides` names the moves that do
    this: the action is accepted while the creation is writing, or the creation stores the intent while the
    action holds an older copy. Without them every interleaving is serializable
    (`ConcurrencyTheorems.Serializable`), and there are none while no action and creation of one intent are
    unanswered at the same time (`SeparateIsOrderly`).
- Printing and rescanning a key loses a name that dangles at its end, that is, one between a closed bracket and
  one that is never closed (`KeyPrinter.ParseNormalForm`).
- An update can raise the amount of an authorized intent, and a capture without an explicit amount then
  takes more than was authorized (`CaptureBound.RaisedAmountRun`, `LifecycleTheorems.CaptureWithinAuthorization`).
- An array schema with `additionalProperties` may coerce a value differently the second time
  (`CoercerArrays.ReadThenListed`, `SettlesExactly`); any schema settles in the end (`CoercerProgress.RoundsSettle`).
- A nullable schema with an enumeration that lacks null, or with a reference to a schema that rejects null,
  loses its null in translation (`SchemaMeaning.NodeExact`, `NullNotListed`, `NullNotReferred`).
- An array of objects is read back exactly if each object starts with a name under which the one before holds
  a string (`RoundTripExact.ObjectsSurvive`); `AssembleUndoesWriteExactly` says which objects are read back.

## Model

| member | source | states |
|---|---|---|
| `PaymentIntentServer.StubServer.HandleRequest` | server/paymentintents.go:159-341 | One request on a session, carried out access by access on the store, changes that session and answers exactly as `Sessions.Handle` says, touches no other session, and makes its writes in the order `StatefulStore.Writes` gives. |
| `PaymentIntentServer.StubServer.CheckEnabled` | server/paymentintents.go:170-175 | The opt-in header enables the session before the gate is read; without either, the request falls through. |
| `PaymentIntentServer.StubServer.CreatePaymentIntent` | server/paymentintents.go:237-249 | A creation that asks for confirmation without a payment method, or has no base object, writes nothing; any other leaves the new intent, its Charge and its events in the session; `Outcomes.CreationLeaves` says field by field which. |
| `PaymentIntentServer.StubServer.PrepareIntent` | server/paymentintents.go:346-372 | The new intent, built field by field on its base, has its lifecycle fields reset, keeps the id it is stored under, and has the status its parameters imply. |
| `PaymentIntentServer.StubServer.HandleAction` | server/paymentintents.go:254-337 | Each of the four actions is refused or accepted on the right statuses, and an accepted one leaves exactly one intent, at most one Charge and its events behind. |
| `PaymentIntentServer.StubServer.Confirm` | server/paymentintents.go:286-302 | A confirm is refused on a wrong status, and then for want of a payment method, with nothing written; an accepted one is recorded with its Charge and events; `Outcomes.ConfirmLeaves` says which payment method ends how. |
| `PaymentIntentServer.StubServer.Capture` | server/paymentintents.go:303-319 | The same for a capture, refused on a wrong status or for more than is capturable; its Charge is the authorized one; `Outcomes.ActionAnswers` and `CaptureLeaves` say exactly when and with what. |
| `PaymentIntentServer.StubServer.Cancel` | server/paymentintents.go:320-325 | The same for a cancellation, refused when the outcome is final. |
| `PaymentIntentServer.StubServer.Update` | server/paymentintents.go:326-333 | An update is never refused and records nothing. |
| `PaymentIntentServer.StubServer.Conclude` | server/paymentintents.go:334-337 | An accepted action stores its intent last, after its Charge and events, and serves it. |
| `PaymentIntentServer.StubServer.ReadIntent` | server/paymentintents.go:267-284 | An action works on a copy of the stored intent, or adopts a reset base under the id it was given, awaiting confirmation. |
| `PaymentIntentServer.StubServer.RecordTransition` | server/paymentintents.go:522-561 | The status after a transition decides which events are queued, in which order, and whether a Charge is stored. |
| `PaymentIntentServer.StubServer.RecordCharge` | server/paymentintents.go:526-555 | A Charge is stored before its own event, which comes before that of the intent; the events hold the objects as they are then. |
| `PaymentIntentServer.StubServer.EnsureChargeForPI` | server/paymentintents.go:568-614 | A live Charge is updated under its id, a missing or failed one is replaced by a new one the intent is pointed to. |
| `PaymentIntentServer.StubServer.StartCharge` | server/paymentintents.go:571-589 | The Charge to fill: a copy of the live one, or a new base with a new id that the intent then points to. |
| `Lifecycle.AfterConfirm` | server/paymentintents.go:380-416 | A confirm ends in one of four statuses, with the fields that fit it, and keeps id and Charge. |
| `Lifecycle.AfterCapture` | server/paymentintents.go:419-428 | A capture leaves an intent that has succeeded and has nothing capturable; id, Charge and amount stay. |
| `Lifecycle.AfterCancel` | server/paymentintents.go:431-438 | A cancellation leaves nothing capturable and nothing received; id, Charge and amount stay. |
| `Lifecycle.AfterUpdate` | server/paymentintents.go:326-333 | An update moves no money and no Charge; only an intent that waits for a payment method changes its status, when it has got one. |
| `Lifecycle.ConfirmMoves` | server/paymentintents.go:286-302 | An accepted confirm extends the intent's life by one attempt or settles it, with the matching events, Charge and fields. |
| `Lifecycle.CaptureMoves` | server/paymentintents.go:303-319 | An accepted capture ends an authorization, reusing its Charge. |
| `Lifecycle.CancelMoves` | server/paymentintents.go:320-325 | An accepted cancellation ends an open intent or releases an authorization, and writes no Charge. |
| `Lifecycle.UpdateMoves` | server/paymentintents.go:326-333 | An update queues nothing, writes no Charge and keeps every agreement between the intent, its Charge and its history. |
| `Lifecycle.CreateMoves` | server/paymentintents.go:346-376 | A creation starts the life of a new intent, whatever base it is built on, confirmed or not. |
| `Lifecycle.StepKeepsInv` | server/paymentintents.go:159-341 | One request of any kind keeps: every intent's events are a sentence of the trace language that tells its status, its fields and Charge agree with its status, and its Charges are counted by its history. |
| `Lifecycle.RunKeepsInv` | server/paymentintents.go:159-341 | The same for every run of requests with fresh ids, resets included. |
| `LifecycleTheorems.EventTrace` | server/paymentintents.go:522-561 | In every run the events about an intent are a complete sentence: created at most once, then any attempts, then at most one ending; and the sentence tells the stored status. |
| `LifecycleTheorems.ReachableIntents` | server/paymentintents.go:380-438 | In every run a stored intent has its own id, fields that fit its status, and a Charge that is stored, points back, and is captured, held or failed as the status says. |
| `LifecycleTheorems.ChargesAccounted` | server/paymentintents.go:568-614 | In every run the failed Charges of an intent number its declined confirms and its succeeded ones its settlements, of which there is at most one, as is its capture. |
| `LifecycleTheorems.FinalForever` | server/paymentintents.go:286-333 | Once an intent has succeeded or been canceled, no later requests before a reset change its outcome. |
| `LifecycleTheorems.ClosedForever` | server/paymentintents.go:568-614 | Once a Charge has failed or been captured, no later requests before a reset write to it. |
| `LifecycleTheorems.RefusedChangesNothing` | server/paymentintents.go:286-325 | A refused request leaves intents, Charges and the queue as they were. |
| `LifecycleTheorems.CaptureWithinAuthorization` | server/paymentintents.go:303-319 | An accepted capture receives at most the amount authorized exactly if it names an amount or the intent's own amount has not been raised above it. |
| `LifecycleTheorems.AuthorizationStands` | server/paymentintents.go:303-333 | Without an update of the amount, an authorized intent keeps the amount it was authorized for until its outcome is final. |
| `LifecycleTheorems.ConfirmAuthorizesAmount` | server/paymentintents.go:399-411 | A confirm that authorizes makes the whole amount capturable and charges that amount. |
| `LifecycleTheorems.RaisedAmountIsCaptured` | server/paymentintents.go:326-333 | An authorization of 100 whose amount an update raises to 500 is captured for 500. |
| `CaptureBound.CapturedWithinAuthorized` | server/paymentintents.go:303-319 | From the request that authorizes an intent to the one that captures it, with no reset and no update of the amount between: a capture that names no amount receives exactly what was authorized, one that names a number receives that number, which is not more. |
| `CaptureBound.AuthorizesWhole` | server/paymentintents.go:399-411 | A confirm or creation that is served as authorized has stored that intent, with its whole amount capturable. |
| `CaptureBound.RaisedAmountRun` | server/paymentintents.go:326-333 | In a new session: 100 is authorized, an update sets the amount to 500, and a capture receives 500. |
| `Outcomes.ActionAnswers` | server/paymentintents.go:286-333 | The answer to every action: a confirm is served exactly in the three open statuses with a payment method, a capture exactly of an authorized intent for no number above what is capturable, a cancellation exactly before the outcome is final, an update always; each refusal has its reason. |
| `Outcomes.CreationAnswers` | server/paymentintents.go:237-249 | The answer to every creation: refused exactly if it asks for a confirm with no payment method named or described. |
| `Outcomes.ConfirmLeaves` | server/paymentintents.go:380-416 | In every run, a served confirm is decided by the method sent, else the intent's, else a new one: declined for the five names of lines 39-43, waiting for the customer for the two of lines 37-38, else authorized exactly with manual capture, sent or stored, and else paid; each with its fields, its new Charge and its events, and all other fields kept. |
| `Outcomes.CreationLeaves` | server/paymentintents.go:346-376 | In every run, a served creation has each parameter that was sent, its base's value for each that was not, its id, secret and payment method, and, if it confirms, ends like a confirm after its own event. |
| `Outcomes.CaptureLeaves` | server/paymentintents.go:419-428 | In every run, a served capture receives what was asked for, or the whole amount, on the authorized Charge, which keeps its id. |
| `Outcomes.CapturesUpToAuthorized` | server/paymentintents.go:310-318 | In every run, a capture of an authorized intent for a number is served exactly if the number is at most what was authorized, the whole of it included, and the Charge is then captured for that number. |
| `Outcomes.CancelLeaves` | server/paymentintents.go:431-438 | In every run, a served cancellation leaves nothing capturable, keeps a reason that was sent, writes no Charge and keeps all else. |
| `Outcomes.UpdateLeaves` | server/paymentintents.go:326-333 | A served update copies each parameter that was sent, attaches a payment method by the rule of lines 132-140, and keeps all else. |
| `SessionRuns.GenericExactly` | server/paymentintents.go:170-175 | In every run, a request on an intent falls through exactly if the session is switched off, its action is not simulated, or it retrieves an intent that is not stored. |
| `SessionRuns.DrainsHandOut` | server/stateful.go:195-205 | In every run, the drains' answers since the last reset, followed by the queue, are all events that were queued, in order. |
| `SessionRuns.ReadsOwnAnswer` | server/stateful.go:125-145 | In every run, until an intent is acted on again or the session is reset, a retrieval has the answer of the last request that was served on it. |
| `SessionRuns.StepIsHandle` | server/paymentintents.go:159-341 | Each step of a run leaves the session as the handler of its request does; a reset leaves the empty one. |
| `SessionRuns.DeclinedThenPaid` | server/paymentintents.go:548-555 | In a new session: a declined creation and a confirm with another card leave a failed and a paid Charge, and all five events. |
| `SessionRuns.CapturesOf` | server/paymentintents.go:310-318 | In a new session, an authorized 100 is captured for every number up to 100 and for none above. |
| `StatefulStore.Store.EnsureSession` | server/stateful.go:79-86 | A session's store is created when first asked for, empty, and apart from every other one. |
| `StatefulStore.Store.Reset` | server/stateful.go:90-94 | A reset forgets one session and leaves the others. |
| `StatefulStore.Store.SetStatefulEnabled` | server/stateful.go:98-102 | Enabling changes that one flag of that one session. |
| `StatefulStore.Store.StatefulEnabled` | server/stateful.go:105-110 | A session that does not exist is not enabled. |
| `StatefulStore.Store.PutPaymentIntent` | server/stateful.go:113-123 | Storing an intent replaces what its id held and nothing else. |
| `StatefulStore.Store.GetPaymentIntent` | server/stateful.go:129-145 | Reading finds what was stored last, or nothing, and changes nothing. |
| `StatefulStore.Store.PutChargeObject` | server/stateful.go:113-123 | The same for storing Charges. |
| `StatefulStore.Store.GetChargeObject` | server/stateful.go:129-145 | The same for reading Charges. |
| `StatefulStore.Store.EnqueueEvent` | server/stateful.go:186-191 | An event goes to the end of its session's queue. |
| `StatefulStore.Store.Drain` | server/stateful.go:195-205 | A drain returns the whole queue in order and empties it. |
| `StoreLaws.SessionsDoNotInterfere` | server/stateful.go:79-145 | In any run of store operations of many sessions, each session sees the results and reaches the state it would see and reach alone. |
| `StoreLaws.QueueIsFifo` | server/stateful.go:186-205 | Since a session's last reset, the events queued are the drained batches in order, followed by what is still queued. |
| `ConcurrencyTheorems.Serializable` | server/paymentintents.go:254-337 | Every interleaving, without collisions, of the separate store accesses of actions, creations, reads and drains has a serial order with the same intents and answers and, when nothing is under way, the same Charges and the same events of every intent. |
| `ConcurrencyTheorems.RealTime` | server/paymentintents.go:254-258 | In every interleaving, a request that has taken effect before another arrives comes first in that order. |
| `ConcurrencyTheorems.OrderGrows` | server/paymentintents.go:254-258 | In every interleaving, the order of a run only grows at its end as the run goes on. |
| `ConcurrencyTheorems.OrderLists` | server/paymentintents.go:254-337 | In every interleaving, the order lists each request that has taken effect, once, and no other. |
| `ConcurrencyTheorems.OneCapture` | server/paymentintents.go:251-256 | Without collisions, no two captures of one intent are both served. |
| `ConcurrencyTheorems.AlwaysSound` | server/paymentintents.go:565-614 | In every interleaving, at every moment, also between two writes of an action: the fields of a stored intent fit its status, and the Charge it points to is stored. |
| `ConcurrencyTheorems.ConcurrentEventTrace` | server/paymentintents.go:522-561 | Without collisions, when nothing is under way, the events and Charges of each intent tell its status as in a serial run. |
| `ConcurrencyTheorems.SeparateIsOrderly` | server/paymentintents.go:251-258 | There is no collision in a schedule in which no action and creation of one intent are unanswered at the same time. |
| `WriteOrder.StepIsNextWrite` | server/paymentintents.go:522-561 | A step of a request at its writes does to the session what the next operation of its handler does, and nothing else. |
| `WriteOrder.AlwaysNextWrite` | server/paymentintents.go:522-561 | That holds at every such step of every run, so a request makes all writes of its handler, in their order. |
| `CreationRaces.ServeAlone` | server/paymentintents.go:254-337 | An action with nothing in between does, in its separate accesses, what the serial request does. |
| `CreationRaces.BeginCreation` | server/paymentintents.go:346-374 | A creation queues the event that names its intent while no such intent is stored. |
| `CreationRaces.ActDuringCreation` | server/paymentintents.go:346-376 | An action in that gap takes over the id and is served; then the creation is served too, and what it stores replaces what the action stored. |
| `CreationRaces.RaceExact` | server/paymentintents.go:251-258 | What a confirm or cancellation in that gap leaves is never what an action and then a creation leave, and what a creation and then the action leave exactly if the action queues the very events the creation's status queues. |
| `CreationRaces.RaceIsNotSerial` | server/paymentintents.go:346-376 | From every reachable state in which no action holds the lock, with new ids, the schedule with that gap can be run for a confirm or cancellation, and leaves just that. |
| `CreationRaces.UpdateLost` | server/paymentintents.go:326-337 | An update in that gap is served and lost: the outcome is that of the update and then the creation, and of the creation alone. |
| `CreationRaces.CancelBreaksTrace` | server/paymentintents.go:320-325 | After a cancellation in that gap no trace both has the events of the intent and tells its status. |
| `CreationRaces.TwoCaptures` | server/paymentintents.go:303-319 | A confirm and a capture in that gap, and a capture after it, are all served. |
| `StaleActions.CreationOverwritten` | server/paymentintents.go:267-281 | An action that has taken over the id can be held up until the creation has stored its intent and answered; if it is then accepted, both are served and the action's intent replaces the created one. |
| `StaleActions.RefusedOnCopy` | server/paymentintents.go:286-325 | If it is then refused, it has the answer, and leaves the outcome, of the action before the creation. |
| `StaleActions.StaleExact` | server/paymentintents.go:267-337 | What an accepted one leaves is what the creation and then the action leave exactly if the action decides the same on the created intent, and what the action and then the creation leave exactly if it is an update that makes the very intent that is created. |
| `StaleActions.StaleIsNotSerial` | server/paymentintents.go:334-374 | From every reachable state in which no action holds the lock, with new ids: if the action's own base differs from the created intent in amount, currency, customer, client secret or details, a confirm or cancellation of this kind leaves its base's terms under the id, and no serial order of the two explains that. |
| `RaceRuns.CancellationLost` | server/paymentintents.go:346-376 | In a new session: a cancellation in the gap is served, its event queued, and the intent waits for a payment method; neither serial order leaves that. |
| `RaceRuns.CreationReplaced` | server/paymentintents.go:267-281 | In a new session: a client has its intent for 100, and the session ends with a canceled one for 2000; neither serial order leaves that. |
| `RaceRuns.CapturedTwice` | server/paymentintents.go:303-319 | In a new session: two captures of one intent are served. |
| `Serializability.ScheduleSimulates` | server/paymentintents.go:254-337 | Along every schedule without collisions: running requests hold what a serial run would show them, and the store differs from the serial run by their pending writes only. |
| `Serializability.MoveSimulates` | server/paymentintents.go:254-337 | One access to the store keeps that unless it collides, and commits at most the request that makes it. |
| `Serializability.ProgressIsGood` | server/paymentintents.go:254-337 | A step of a request that does not collide is invisible to the serial run if it does not commit, and is the whole request there, with the same answer, if it does. |
| `Serializability.OtherStaysOnTrack` | server/stateful.go:125-145 | What an action has read and decided, a commit that does not collide with it does not change. |
| `Serializability.DecideLooksAtOneCharge` | server/paymentintents.go:568-584 | A decision looks at one intent and at the one Charge behind it. |
| `KeyParser.ParseKey` | param/nestedtypeassembler/nestedtypeassembler.go:120-190 | The scanning loop, with its jumps as states, terminates on every string with the parts the recursive reading of the key has. |
| `KeyPrinter.ParsePrint` | param/nestedtypeassembler/nestedtypeassembler.go:120-190 | Scanning undoes printing for exactly the part lists without empty or ambiguous contents, adjacent names or a dangling name. |
| `KeyPrinter.ParseNormalForm` | param/nestedtypeassembler/nestedtypeassembler.go:120-190 | Printing what was scanned and scanning again gives the same parts exactly if the key has no closed bracket followed by a name and a bracket that is never closed. |
| `KeyPrinter.DanglingKeys` | param/nestedtypeassembler/nestedtypeassembler.go:136-159 | The keys whose parts end in a name that nothing follows, read off their text. |
| `KeyPrinter.DanglingExample` | param/nestedtypeassembler/nestedtypeassembler.go:136-159 | The key `a[]b[` loses its last name that way. |
| `AssemblerHeap.AssembleParams` | param/nestedtypeassembler/nestedtypeassembler.go:23-52 | Assembling pairs by building one-path trees and merging them in place, all objects fresh and unshared, gives the tree or the error `Assembler.Assemble` specifies, and never panics. |
| `AssemblerHeap.AssemblePair` | param/nestedtypeassembler/nestedtypeassembler.go:24-49 | One pair is skipped, refused or merged in place, as one step of the specified assembly. |
| `AssemblerHeap.MergeMapsRecursive` | param/nestedtypeassembler/nestedtypeassembler.go:259-289 | Merging changes the first tree in place into the merged tree and writes to no other object. |
| `AssemblerHeap.MergeEntry` | param/nestedtypeassembler/nestedtypeassembler.go:263-287 | One entry is merged, kept, appended or replaced in place, as the kinds of the two values say. |
| `AssemblerHeap.MaybeCollapseArrays` | param/nestedtypeassembler/nestedtypeassembler.go:224-257 | The one element of the second list is merged into the last object of the first exactly if none of its names clashes there. |
| `AssemblerHeap.BuildParamStructure` | param/nestedtypeassembler/nestedtypeassembler.go:192-222 | The tree of one pair is a fresh single path, or an error if a name comes after the first. |
| `Assembler.BuildIsPut` | param/nestedtypeassembler/nestedtypeassembler.go:192-222 | The tree of one pair is what putting its value into nothing gives; it fails exactly on a name inside the path. |
| `Assembler.CollapseIsPut` | param/nestedtypeassembler/nestedtypeassembler.go:224-257 | Collapsing puts the value into the last array element exactly if that element can take its first name. |
| `Assembler.MergeIsPut` | param/nestedtypeassembler/nestedtypeassembler.go:259-289 | Merging the tree of one pair is putting its value at its path; no step of it can panic. |
| `Assembler.AssembleIsPutAll` | param/nestedtypeassembler/nestedtypeassembler.go:23-52 | Assembly puts the accepted pairs one after another, and fails exactly if a key is not acceptable. |
| `Assembler.AssembleNeverPanics` | param/nestedtypeassembler/nestedtypeassembler.go:84-86 | No list of pairs reaches a panic, and accumulated arrays are never empty. |
| `RoundTrip.AssembleUndoesWrite` | param/nestedtypeassembler/nestedtypeassembler.go:23-52 | Writing an object as bracketed pairs and assembling them gives the object back, for every object whose nested arrays can be told apart. |
| `RoundTrip.PutAllFlatten` | param/nestedtypeassembler/nestedtypeassembler.go:192-289 | Putting the leaves of any such value, in order, into nothing gives the value. |
| `RoundTripExact.SurvivesExactly` | param/nestedtypeassembler/nestedtypeassembler.go:192-289 | A value of any shape, with different names in each object, is made by its leaves, put in order, exactly if it is representable. |
| `RoundTripExact.ObjectsSurvive` | param/nestedtypeassembler/nestedtypeassembler.go:224-257 | An array of objects, of any length, survives exactly if each object starts with a name under which the one before holds a string. |
| `RoundTripExact.AssembleUndoesWriteExactly` | param/nestedtypeassembler/nestedtypeassembler.go:23-52 | Written and assembled, an object with different and writable names comes back exactly if all its values are representable. |
| `AssemblerLaws.AssembleConserves` | param/nestedtypeassembler/nestedtypeassembler.go:192-289 | The strings of the assembled tree are, with their multiplicity, among the values of the pairs. |
| `AssemblerLaws.PutConserves` | param/nestedtypeassembler/nestedtypeassembler.go:259-289 | One merge brings in one string and copies none. |
| `AssemblerOrder.AssembledLeaves` | param/nestedtypeassembler/nestedtypeassembler.go:23-52 | With maps only and no path inside another, the leaves of the tree are exactly the given paths and values. |
| `AssemblerOrder.AssemblyIgnoresOrder` | param/nestedtypeassembler/nestedtypeassembler.go:23-52 | Such pairs assemble to the same tree in any order. |
| `AssemblerOrder.LeavesDetermine` | param/nestedtypeassembler/nestedtypeassembler.go:259-289 | A tree of non-empty maps is determined by its leaves. |
| `AssemblerOrder.PutAt` | param/nestedtypeassembler/nestedtypeassembler.go:259-289 | A merge sets the leaf at its own path, removes those above and below it, and keeps all others. |
| `CoercerLaws.CoercionIsIdempotent` | param/coercer/coercer.go:16-203 | A second coercion leaves the parameters an error-free one has left as they are, also where a failed coercion had changed a map or list in place; for schemas without `anyOf`, or `additionalProperties` on an array. |
| `CoercerLaws.ValueStable` | param/coercer/coercer.go:38-203 | For one value: both what a coercion returns and what it leaves in place are settled, and a failed coercion does not succeed the second time. |
| `CoercerLaws.MapStable` | param/coercer/coercer.go:165-200 | An integer-keyed map whose list fails to coerce keeps its in-place changes, and coercing it again repeats the failure and changes nothing. |
| `CoercerRoundTrip.WrittenIsRead` | param/coercer/coercer.go:38-203 | Every text form of a value by a schema, with objects, lists, index-keyed maps and branches, is coerced to that value. |
| `CoercerRoundTrip.ParamsRoundTrip` | param/coercer/coercer.go:16-32 | Parameters written as text are coerced to the values they were written from; fields the schema does not name stay. |
| `CoercerRoundTrip.ParamsPartlyRead` | param/coercer/coercer.go:22-28 | A parameter the schema does not take stays as it is and keeps no other one from being read. |
| `CoercerRoundTrip.FieldsPartlyRead` | param/coercer/coercer.go:135-156 | The same for the values of a map, which is taken exactly if all of them are, nulls aside. |
| `CoercerRoundTrip.ItemsPartlyRead` | param/coercer/coercer.go:182-200 | The same for the items of a list. |
| `CoercerRoundTrip.MapKeepsObjects` | param/coercer/coercer.go:167-203 | A map that was to be a list of objects and holds something else stays a map whose objects have been coerced. |
| `CoercerRoundTrip.BooleanWords` | param/coercer/coercer.go:88-93 | Exactly six words are read as true and six as false. |
| `CoercerRoundTrip.IntPrintThenRead` | param/coercer/coercer.go:95-100 | A whole number is read back from its digits and sign exactly if it has 64 bits. |
| `CoercerRoundTrip.SignsAndZeros` | param/coercer/coercer.go:95-100 | A plus sign and leading zeros make no difference; without a digit there is no number. |
| `CoercerRoundTrip.IndexIsRead` | param/coercer/coercer.go:237-250 | A key is an index exactly if it is all digits and reads as a 64-bit number, which it then is. |
| `CoercerRoundTrip.NumeralPassesEnumeration` | param/coercer/coercer.go:122-129 | Between a string enumeration and an integer, a numeral is the integer. |
| `CoercerRoundTrip.WordStaysInEnumeration` | param/coercer/coercer.go:122-129 | Between the two, any other string is the string. |
| `CoercerRoundTrip.TooLargeIsError` | param/coercer/coercer.go:260-262 | An index over 1000 is an error, and leaves the map as it was. |
| `CoercerRoundTrip.BranchErrors` | param/coercer/coercer.go:45-52 | An error in an object branch ends the coercion, one in another branch leaves it to the next. |
| `CoercerRoundTrip.ErrorsStop` | param/coercer/coercer.go:22-25 | An error in any parameter, map value or list item is an error of the whole. |
| `CoercerRoundTrip.UntouchedByError` | param/coercer/coercer.go:135-156 | Where no value of a map changes, an error leaves the map as it was. |
| `CoercerRoundTrip.OneTouchedByError` | param/coercer/coercer.go:135-156 | Where only the value with the error changes, the map is left with that change. |
| `CoercerRoundTrip.ListLeftByError` | param/coercer/coercer.go:182-200 | An error in a list leaves the items before it coerced, that item as the error has left it, and the rest. |
| `CoercerArrays.SettlesExactly` | param/coercer/coercer.go:135-203 | An array schema with `additionalProperties` keeps what it has made of a value exactly if the fields coerce once more, the keys are no indexes, or the list tried then changes nothing. |
| `CoercerArrays.ArrayOfAnythingSettles` | param/coercer/coercer.go:135-203 | Without an item schema, it changes its own result exactly if the fields of an index-keyed map coerce but not all of them again. |
| `CoercerArrays.ArrayOfReadFieldsSettles` | param/coercer/coercer.go:135-203 | For boolean, integer and number fields this can be told before, with or without an item schema: the keys are indexes, every value is null or coerces, and one is not null; and with an item schema an index is too large or named twice. |
| `CoercerArrays.ReadThenListed` | param/coercer/coercer.go:135-176 | The map `{"0": "5"}` is first read and then turned into a list. |
| `CoercerProgress.ValueAdvances` | param/coercer/coercer.go:38-203 | Whatever the schema, `anyOf` included, a coercion changes nothing or leaves fewer strings and maps, also where it ends with an error. |
| `CoercerProgress.RoundsSettle` | param/coercer/coercer.go:16-203 | Whatever the schema, coercing the parameters again and again, if no round fails, comes to an end after at most as many rounds as they hold strings and maps. |
| `CoercerLoops.CoerceParams` | param/coercer/coercer.go:16-32 | The loop over the schema's properties gives the specified outcome in every iteration order, the first error included; `CoercerRoundTrip.ParamsPartlyRead` says what the values become. |
| `CoercerLoops.CoerceFields` | param/coercer/coercer.go:135-156 | The same for all values of a map. |
| `CoercerLoops.CoerceItems` | param/coercer/coercer.go:182-200 | The same for the items of a list, which keeps what each item has become in place. |
| `CoercerLoops.CoerceAnyOf` | param/coercer/coercer.go:158-165 | Branches are tried in order, each on what the ones before, failed or ended with an error, have left. |
| `CoercerLoops.CoerceArray` | param/coercer/coercer.go:167-203 | A list, or a map read as one, is coerced item by item; the map keeps what became of its values. |
| `CoercerLoops.CoerceNonObject` | param/coercer/coercer.go:120-203 | The kinds of schema are tried in the order of the source: primitive, map of items, branches, array. |
| `CoercerLoops.CoerceValue` | param/coercer/coercer.go:38-53 | Schemas with properties coerce objects, all others by kind. |
| `IndexedMaps.ParseIntegerIndexedMap` | param/coercer/coercer.go:234-273 | In any iteration order: refused exactly if a key is no index, an error exactly if the biggest is over 1000, else a list of that length plus one with each value at its index and null exactly at gaps. |
| `IndexedMaps.ReadsBack` | param/coercer/coercer.go:234-273 | A list of 1 to 1001 items written as an index-keyed map is read back as it was. |
| `IndexedMaps.CanonicalKeysDoNotCollide` | param/coercer/coercer.go:237-250 | Keys without leading zeros never name the same index twice. |
| `Decimal.PrintThenRead` | param/coercer/coercer.go:243-248 | Reading a printed number gives the number. |
| `Decimal.ReadThenPrint` | param/coercer/coercer.go:243-248 | Printing a number that was read gives the numeral, if it has no leading zeros. |
| `SchemaMeaning.TranslationPreservesMeaning` | spec/validate.go:65-132 | The translated schema accepts exactly the values the OpenAPI schema accepts, to every depth of references, if no nullable schema has a reference or an enumeration without null. |
| `SchemaMeaning.NodeExact` | spec/validate.go:65-132 | When the parts of a schema are translated faithfully, the schema is too exactly if it is not nullable or its enumeration and reference let null through. |
| `SchemaMeaning.ValueAgrees` | spec/validate.go:65-132 | Any other value than the null of a nullable schema is judged alike. |
| `SchemaMeaning.NullAgrees` | spec/validate.go:74-127 | That null is accepted by the translation exactly if the enumeration lists it and the reference accepts it. |
| `SchemaMeaning.NullNotListed` | spec/validate.go:85-91 | The nullable schema that lists only the string a loses its null, at every depth. |
| `SchemaMeaning.NullNotReferred` | spec/validate.go:128-130 | A nullable reference to a schema of strings loses its null as soon as it is followed. |
| `SchemaMeaning.AnyOfAgrees` | spec/validate.go:74-83 | The branch added for null accepts nothing else. |
| `SchemaMeaning.FieldsAgree` | spec/validate.go:66-73 | Properties and additional properties together judge every field as the OpenAPI schema does. |
| `SchemaTranslator.Build` | spec/validate.go:65-132 | Filling the document keyword by keyword, with its loops, gives the translation. |
| `SchemaTranslator.BuildAnyOf` | spec/validate.go:74-83 | The branches in order, and one for null if the schema is nullable. |
| `SchemaTranslator.BuildProperties` | spec/validate.go:106-112 | Every property translated, in any iteration order. |
| `ExpansionTrie.FindsPrefixes` | server/server.go:773-798 | A path can be followed in the parsed level exactly if it starts a requested path, a wildcard at its end not counted. |
| `ExpansionTrie.FindsWildcards` | server/server.go:781-783 | A level is a wildcard exactly if its path followed by a star was requested. |
| `ExpansionTrie.OrderAndDuplicatesIgnored` | server/server.go:773-775 | Lists with the same requested paths parse to the same level. |
| `ExpansionTrie.ParseExpansionLevel` | server/server.go:773-798 | The two loops and the recursion on shorter paths give the level the recursive reading specifies, in any order of the groups. |
| `ExpansionTrie.ReadPaths` | server/server.go:779-791 | The first loop sorts paths into wildcard, single names and groups. |
| `ExpansionTrie.SplitJoin` | server/server.go:780-790 | Splitting undoes joining for parts without dots. |
| `ExpansionTrie.SplitDotless` | server/server.go:780-790 | Joining undoes splitting. |
| `IdLaws.RewritingIsConsistent` | server/generator.go:128-146 | If no id from the path is one it replaces, both passes keep the data's shape, the root keeps the primary id, no replaced id is left outside urls, only recorded ids and urls change, and another pass changes urls only. |
| `IdPlaces.RootId` | server/generator.go:1042-1047 | After both passes the top has the primary id, and its old id is recorded. |
| `IdPlaces.ParentNamesId` | server/generator.go:1072-1079 | Below the top, an object under a key has the id of the first path parameter with that name. |
| `IdPlaces.ObjectNamesId` | server/generator.go:1061-1070 | Otherwise it has the id of the first path parameter with the name in its `object` field. |
| `IdPlaces.NameNamesField` | server/generator.go:1084-1098 | A string field with the name of a path parameter has its id. |
| `IdPlaces.RecordsExactly` | server/generator.go:1049-1098 | A path parameter records exactly the non-empty strings of the fields it names, wherever they are. |
| `IdPlaces.OldPrimaryBecomesNew` | server/generator.go:714-716 | Wherever else the old primary id is a field, it gives way to the primary id. |
| `IdPlaces.RecordedBecomesNew` | server/generator.go:718-724 | Any other string that was recorded becomes the id of the first path parameter that recorded it. |
| `IdPlaces.OthersStay` | server/generator.go:638-669 | A string that was not recorded stays, outside urls. |
| `IdPlaces.UrlRewritten` | server/generator.go:678-705 | In a url, the first place of the old primary id, else of an id recorded by the first parameter with one there, gives way to the new id between the same slashes; the text before and after it is kept, and any other url stays. |
| `IdLaws.DistributeLeavesNothing` | server/generator.go:638-727 | After the second pass no field but a url holds a recorded id, and not even a url is the replaced primary id. |
| `IdLaws.DistributeChangesRecorded` | server/generator.go:638-669 | The second pass changes no other field. |
| `IdLaws.NothingToChange` | server/generator.go:638-669 | Where nothing recorded is left, it changes urls only. |
| `IdLaws.RecordKeepsShape` | server/generator.go:1023-1103 | The first pass keeps keys, lengths, kinds and all values that are not strings. |
| `IdLaws.InValueFinds` | server/generator.go:708-727 | A string is replaced exactly if it was recorded, and then by an id from the path. |
| `IdRewriter.PathParamsMap.RecordAndReplace` | server/generator.go:1023-1103 | In any iteration order the first pass rewrites the data as specified and records exactly the ids it replaces. |
| `IdRewriter.PathParamsMap.ReplaceId` | server/generator.go:1049-1083 | An id gives way to the primary id at the top, below it to the id its object or its parent names, the parent winning; both record it; `IdPlaces` says which id is where in the end. |
| `IdRewriter.DistributeReplacedIDs` | server/generator.go:638-669 | The second pass, field by field in any order. |
| `IdRewriter.RewriteIDs` | server/generator.go:128-146 | Both passes one after the other give what the laws above speak about. |

## Left out

- Seeding, emitting and configuration endpoints: seeding can install any state, so nothing is claimed of runs with it; the opt-in is modelled, the routes are not.
- A reset in the middle of a request: resets happen between requests.
- HTTP, headers, session ids from API keys, path and action suffix parsing, error texts, logging and response expansion.
- The filtered list of Charges and the retrieval of single Charges: reads that change nothing; `listResources` and its order are not modelled.
- Shared references in the store: values are stored and read as values, so that the copy made on reading is a copy of everything, and fixture maps shared with a generated base are not modelled.
- Numbers are exact: the rounding of 64-bit floating point in the copy made on reading, and the special values its parser accepts, are not modelled.
- Event envelopes: an event is its type and the snapshot of its object.
- The read-write lock of the store: each store operation is one atomic step.
- Concurrent drains: the batches they return may cut the queue between the events of one request, so that only their order is compared with the serial run, not the batches.
- `Sort` of the requested expansions before parsing: `ExpansionTrie.OrderAndDuplicatesIgnored` shows that it makes no difference.
- Slices in the in-place assembler are values; the maps in them are objects. The capacity effects of `append` are not modelled.
- Fixtures, synthetic data, `findAnyOfBranch` and the rest of the data generator, which need not terminate on arbitrary schemas.
- CoercerLoops.CoerceParams: runs on values that hold their in-place changes, rather than on shared maps and slices.
- CoercerLoops.CoerceAnyOf: where what a branch that ends with an error has left depends on the iteration order, the outcome is unspecified; the same goes for two keys that name one index.
- CoercerLaws.CoercionIsIdempotent: says nothing of schemas with `anyOf`, where a failing branch can leave changes for the next one and only `CoercerProgress` applies.
- CoercerArrays.SettlesExactly: the schema has no `properties` and no `anyOf`, and its items and fields have schemas that `CoercerLaws.CoercionIsIdempotent` covers.
- IdRewriter.PathParamsMap.RecordAndReplace: no path parameter is called `object`, since otherwise the result depends on the iteration order; strings directly in lists are left alone by the source and are outside the claims.
- IdLaws.RewritingIsConsistent: needs the replaced primary id to contain no slash, since a rewritten url could otherwise spell it.
- RoundTrip.AssembleUndoesWrite: an array inside an array has a single string below it, which is what the bracket syntax can tell apart; `RoundTripExact` proves that no more comes back.
- SchemaMeaning.TranslationPreservesMeaning: a schema with additional properties both described and forbidden, which the specification reader never produces, is read as forbidding them.
