# Health-status toggle of the demo service

The service exposes a health indicator, `JunkHealthIndicator`. It holds one
mutable field `status`, and that field only ever contains one of two health
constants: OK (an "up" health) or OUT_OF_SERVICE. A new indicator starts at
OK. The `/die` endpoint overwrites the status with OUT_OF_SERVICE and answers
"Switched to OUT_OF_SERVICE". The `/live` endpoint overwrites it with OK and
answers "Switched to OK". The health probe `health()` returns the current
status. No operation has a precondition or a failure path, and neither
overwrite looks at the prior status.

The model lives in `demo_application.dfy`, in module `DemoApplication`:

- `Health = Up | OutOfService` stands for the two static `Health` constants.
  The field's type has only these two values. So the invariant "status is
  always OK or OUT_OF_SERVICE and never anything else" holds by
  construction.
- `JunkHealthIndicator` is a class with the field `status`. Its constructor
  and the methods `Health`, `Die` and `Live` mirror the Java class. The
  methods have no `requires` clause.
- A ghost field `history` records the `Die`/`Live` calls made since
  construction. `Valid()` ties `status` to `Run(Up, history)`.
- `Run` is the specification: the commands are performed one overwrite at a
  time. `LastWrite` is the reference definition: the value written by the
  last command, or the starting status if there was none. Lemmas connect the
  two.

## Model

| member | source | states |
|---|---|---|
| `DemoApplication.JunkHealthIndicator.constructor` | src/main/java/com/example/demo/DemoApplication.java:22-25 | a fresh indicator's status is OK (Up), it has seen no calls, and the invariant holds |
| `DemoApplication.JunkHealthIndicator.Health` | src/main/java/com/example/demo/DemoApplication.java:27-30 | returns exactly the current status and modifies nothing; on a valid indicator that is what the last `die`/`live` call wrote, or OK if there was none |
| `DemoApplication.JunkHealthIndicator.Die` | src/main/java/com/example/demo/DemoApplication.java:32-36 | from either prior status, the status becomes OUT_OF_SERVICE and the reply is "Switched to OUT_OF_SERVICE"; the call is appended to the history and the invariant is re-established |
| `DemoApplication.JunkHealthIndicator.Live` | src/main/java/com/example/demo/DemoApplication.java:38-42 | from either prior status, the status becomes OK and the reply is "Switched to OK"; the call is appended to the history and the invariant is re-established |
| `DemoApplication.RunIsLastWrite` | src/main/java/com/example/demo/DemoApplication.java:25-42 | for every starting status and every sequence of `die`/`live` calls, the resulting status is the value written by the last call, or the starting status if the sequence is empty |
| `DemoApplication.RunAppend` | src/main/java/com/example/demo/DemoApplication.java:32-42 | performing two batches of calls one after the other is the same as performing their concatenation |
| `DemoApplication.RepeatIsIdempotent` | src/main/java/com/example/demo/DemoApplication.java:34-40 | after any history, calling `die` (or `live`) twice in a row leaves the same status as calling it once |
| `DemoApplication.HistoryForgotten` | src/main/java/com/example/demo/DemoApplication.java:32-42 | the overwrites are unconditional: after a non-empty batch of calls, the status depends neither on the starting status nor on any earlier calls |
| `DemoApplication.Scenario` | src/main/java/com/example/demo/DemoApplication.java:22-42 | start, probe, `die`, probe, `live`, probe: the probes give UP, OUT_OF_SERVICE, UP, and the two replies are the two confirmation strings |
| `DemoApplication.DieTwice` | src/main/java/com/example/demo/DemoApplication.java:32-36 | on an indicator, two `die` calls in a row give the same status (OUT_OF_SERVICE) as one, and each answers "Switched to OUT_OF_SERVICE" |

## Left out

- `DemoApplication.main` and `SpringApplication.run` (DemoApplication.java:13-15): these start the process and wire up the framework. They contain no indicator logic.
- The annotations `@RestController`, `@PostMapping` and `@Override`: the framework supplies the HTTP routing. The handlers are modelled as plain method calls.
- Spring's `Health` objects and the `Health.up().build()` / `Health.outOfService().build()` builder calls: they belong to a library that is not part of this model. They are modelled as two distinct opaque values.
- The HTTP status code the framework gives an OUT_OF_SERVICE report: this is framework behaviour and is not in the indicator's code.
- Concurrent requests, and the memory visibility of the non-volatile `status` field: the model is sequential. "Last write wins" is stated for a single sequence of calls.
