# Lifecycle of the ORTC RTP video sender channel

`RTPSenderChannelVideo` (ortc-lib) is the video half of an RTP sender
channel. Its media work is handed to an external engine. What remains in
the component is a small lifecycle controller:

- a state that moves through `Pending`, `Ready`, `ShuttingDown` and `Shutdown`;
- `step`, which runs an ordered list of sub-tasks and becomes `Ready` once none of them is blocked;
- `cancel`, which tears the channel down while it holds a strong reference to itself;
- an error latch, `setError`, holding a code and a reason.

The project has two modules:

- `Lifecycle` (lifecycle.dfy) describes each operation as a function on a
  `Snapshot` of the channel's fields. It proves the properties of single
  operations as `ensures` clauses. It proves the properties of arbitrary
  operation sequences (`Run` over `Step`, `Cancel` and `SetError`) as lemmas.
- `SenderChannelVideo` (sender_channel_video.dfy) is the channel as a class.
  Its fields are updated in place. `OnWake`, `Step`, `Cancel` and
  `SetError` are each proved to change the fields exactly as the matching
  `Lifecycle` function says. `SetState` is proved to set the state alone.
  Each method's `modifies` frame names the only fields it may touch.

Step's sub-tasks are given as a sequence of outcomes (`AlreadyDone`,
`Blocked`, `Performed`), one per sub-task, in the order they run. The
channel's own list is `VideoSubTasks()`: one sub-task whose two guards are
stubbed to false, so it always reports `Performed`. `onWake` is `step`
over that list.

The standard text for an error code is a lookup in an HTTP helper library.
It is the parameter `statusText: Word -> string`, fixed when the channel is
built.

Four behaviours of the code are easy to miss:

- The latch closes only on a nonzero code, not on the first call. A
  `setError` with code 0 records its reason and leaves the latch open, so a
  later call overwrites both fields (`ZeroCodeDoesNotLatch`,
  `FirstNonzeroErrorWins`).
- A blocked sub-task leaves the state as it was. That state may be `Ready`,
  not only `Pending`.
- The graceful early return in `cancel` is commented out. So `cancel`
  always completes: it sets `Shutdown` and releases the self-reference in
  the same call. Between operations the channel never holds a reference to
  itself (`Valid`, `SelfReferenceReleased`).
- Nothing in ortc/cpp/ortc_RTPSenderChannelVideo.cpp ever sets `ShuttingDown`. Step still treats it like
  `Shutdown`.

The initial values come from member initialisers in the class header,
which is not part of this model. They are taken as assumptions and stated
by the constructor's postcondition: state `Pending`, error code 0, empty
reason, no self-reference.

## Model

| member | source | states |
|---|---|---|
| `Lifecycle.StateName` | ortc/cpp/ortc_RTPSenderChannelVideo.cpp:120-129 | every state has a non-empty name, and the "UNDEFINED" fallback is never produced |
| `Lifecycle.StateNameInjective` | ortc/cpp/ortc_RTPSenderChannelVideo.cpp:120-129 | the four states have four distinct names |
| `Lifecycle.IsTearingDown` | ortc/cpp/ortc_RTPSenderChannelVideo.cpp:413-422 | "isShuttingDown or isShutdown", the test step and the class's `Step` make first (lines 429-430): it holds exactly for the states at or after ShuttingDown in the lifecycle order |
| `Lifecycle.Initial` | ortc/cpp/ortc_RTPSenderChannelVideo.cpp:132-149 | a channel starts Pending, with error code 0, an empty reason and no self-reference held, so the invariant `Valid` holds from construction (the initial values are assumptions) |
| `Lifecycle.RunSubTasks` | ortc/cpp/ortc_RTPSenderChannelVideo.cpp:436-446 | the pass stops at the first blocked sub-task and reports its index; it completes exactly when no sub-task is blocked |
| `Lifecycle.LaterSubTasksNotAttempted` | ortc/cpp/ortc_RTPSenderChannelVideo.cpp:437-446 | what the sub-tasks after the first blocked one would report never affects the outcome, so they are not attempted |
| `Lifecycle.BogusDoSomething` | ortc/cpp/ortc_RTPSenderChannelVideo.cpp:456-475 | the sub-task blocks only when it is not already done and cannot proceed; it reports "already done" exactly when its work is done |
| `Lifecycle.VideoSubTasks` | ortc/cpp/ortc_RTPSenderChannelVideo.cpp:436-440 | the channel's step runs one sub-task, and with its stubbed guards that sub-task never blocks |
| `Lifecycle.StepSpec` | ortc/cpp/ortc_RTPSenderChannelVideo.cpp:425-453 | during teardown step is exactly cancel and ends in Shutdown, so it never sets Ready; otherwise the result is Ready iff the channel was Ready or no sub-task blocked; a blocked sub-task changes nothing; when none blocks, only the state changes, to Ready; the state never moves backwards; the error fields are untouched |
| `Lifecycle.VideoStepReachesReady` | ortc/cpp/ortc_RTPSenderChannelVideo.cpp:437-452 | from Pending or Ready, the channel's own step ends in Ready and changes nothing else |
| `Lifecycle.CancelSpec` | ortc/cpp/ortc_RTPSenderChannelVideo.cpp:478-498 | cancel always ends in Shutdown; from Shutdown it changes nothing; from any other state it leaves no self-reference held; the error fields are untouched |
| `Lifecycle.CancelIdempotent` | ortc/cpp/ortc_RTPSenderChannelVideo.cpp:483 | a second cancel changes nothing |
| `Lifecycle.EffectiveReason` | ortc/cpp/ortc_RTPSenderChannelVideo.cpp:518-521 | an empty reason is replaced by the code's standard text; a non-empty reason is kept verbatim |
| `Lifecycle.SetErrorSpec` | ortc/cpp/ortc_RTPSenderChannelVideo.cpp:516-532 | setError never changes the state or the self-reference; once a nonzero code is recorded it changes nothing; otherwise it records the code and the effective reason; the latch is closed afterwards iff it was closed before or the code is nonzero |
| `Lifecycle.RunMonotonic` | ortc/cpp/ortc_RTPSenderChannelVideo.cpp:425-498 | no sequence of step, cancel and setError moves the state backwards along Pending, Ready, ShuttingDown, Shutdown |
| `Lifecycle.ShutdownAbsorbing` | ortc/cpp/ortc_RTPSenderChannelVideo.cpp:425-498 | from Shutdown, no sequence of step, cancel and setError changes anything but the error fields; in particular the state stays Shutdown |
| `Lifecycle.ErrorLatched` | ortc/cpp/ortc_RTPSenderChannelVideo.cpp:523-526 | once a nonzero code is recorded, no sequence of operations changes the code or the reason |
| `Lifecycle.SelfReferenceReleased` | ortc/cpp/ortc_RTPSenderChannelVideo.cpp:485-497 | if no self-reference is held before a sequence of operations, none is held after it |
| `Lifecycle.FirstNonzeroErrorWins` | ortc/cpp/ortc_RTPSenderChannelVideo.cpp:516-532 | starting with code 0, the recorded error after any sequence of operations comes from the first setError with a nonzero code, with its effective reason; without such a call the code stays 0 |
| `Lifecycle.ZeroCodeDoesNotLatch` | ortc/cpp/ortc_RTPSenderChannelVideo.cpp:523-529 | a setError with code 0 leaves the latch open, and a later nonzero code and its reason replace it |
| `Lifecycle.Wake` | ortc/cpp/ortc_RTPSenderChannelVideo.cpp:312-318 | a wake, as an operation in a sequence, is a step over the channel's own sub-tasks, and that pass never blocks |
| `Lifecycle.LifecycleScenario` | ortc/cpp/ortc_RTPSenderChannelVideo.cpp:312-318 | built, woken once: Ready; cancelled: Shutdown; cancelled again: unchanged; then setError(404, ""): 404 is recorded with its standard text, the state stays Shutdown and no self-reference is held |
| `SenderChannelVideo.RtpSenderChannelVideo.constructor` | ortc/cpp/ortc_RTPSenderChannelVideo.cpp:132-149 | a new channel is Pending, with error code 0, an empty reason and no self-reference (the initial values are assumptions) |
| `SenderChannelVideo.RtpSenderChannelVideo.Create` | ortc/cpp/ortc_RTPSenderChannelVideo.cpp:275-285 | fails with InvalidParameters exactly when no sender channel is given (the check at line 148); otherwise returns a fresh Pending channel whose weak self-reference resolves |
| `SenderChannelVideo.RtpSenderChannelVideo.HandlePacket` | ortc/cpp/ortc_RTPSenderChannelVideo.cpp:256-264 | every inbound packet is reported as not handled, and nothing changes |
| `SenderChannelVideo.RtpSenderChannelVideo.OnWake` | ortc/cpp/ortc_RTPSenderChannelVideo.cpp:312-318 | the fields change as step over the channel's own sub-tasks says; from Pending or Ready the channel ends Ready |
| `SenderChannelVideo.RtpSenderChannelVideo.Step` | ortc/cpp/ortc_RTPSenderChannelVideo.cpp:425-453 | the new fields are StepSpec of the old ones; only the state and the self-reference may change |
| `SenderChannelVideo.RtpSenderChannelVideo.Cancel` | ortc/cpp/ortc_RTPSenderChannelVideo.cpp:478-498 | the new fields are CancelSpec of the old ones; only the state and the self-reference may change |
| `SenderChannelVideo.RtpSenderChannelVideo.SetState` | ortc/cpp/ortc_RTPSenderChannelVideo.cpp:501-513 | the state becomes the given one; its frame admits no other field, so the error fields and the self-reference are untouched; an equal state is a no-op |
| `SenderChannelVideo.RtpSenderChannelVideo.SetError` | ortc/cpp/ortc_RTPSenderChannelVideo.cpp:516-532 | the new fields are SetErrorSpec of the old ones; only the error code and reason may change |

## Left out

- `init` is left out. It starts the module process thread, detects CPU cores and builds the codec send stream and encoder configuration, all in an external media engine. Its asynchronous wake is assumed to reach `OnWake` later.
- Locking is left out: the recursive lock, the wake-delegate proxy and message queue, and thread start and stop. Each operation is modelled as atomic, and their serialisation is assumed, not proved.
- `onTimer` is left out. It only logs and takes the lock, so it has no effect on the modelled fields.
- `SendRtp` and `SendRtcp` are left out. They are transport stubs that return true.
- Logging is left out: `log`, `debug` and `toDebug`. They build diagnostic XML through helper libraries. One detail is not modelled: the snapshot reports the sender channel's id as 0 once that channel is gone.
- The standard-text lookup for an error code is left out. It belongs to an HTTP helper library and is the `statusText` parameter.
- Lifetime mechanics are left out: the factory singleton, the `convert` casts, `applyDefaults` and the destructor. Of the shared and weak pointers, only two flags are kept: whether the self-reference is held, and whether the weak self-reference resolves. The channel id counter and the owned track and parameters live in the header, which is not part of this model.
- The order of the null check is different. The constructor throws after its fields are initialised. `Create` checks before it builds anything. In both cases the caller never receives a channel.
- `Step` takes the sub-tasks' outcomes as already known, in order. Any side effects a sub-task has when it performs its work are not modelled; the channel's one sub-task has none.
- `Lifecycle.StateName`: the source also returns "UNDEFINED" for a value outside the enumeration. A `State` cannot hold such a value, so that branch is absent.
