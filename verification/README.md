# QR-code login window: a Dafny model of its worker bookkeeping

The application (`src/main.rs`) shows a QR-code image in an orbtk window while
two background threads run. The *refresher* sends a new image path
(`UpdatetQRCodeImage("./img/qrcodeN.png")`) every iteration until the shared
`scan_result` flag is set. The *poller* asks a simulated scan check on every
iteration and sends `ScanCodeFinished` once the answer is positive. The
single-threaded `MainViewState` stores the two join handles. It handles the
messages: a new image marks the image widget dirty, and `ScanCodeFinished`
sets `scan_result` and asks the window to close. Its `update` step rebuilds
the image widget when the dirty flag is set, and its `cleanup` takes and joins
both handles.

The model has four modules:

- `Decimal` renders an integer as Rust's `{}` does. It has a parser beside it,
  so that the rendering is proved to lose nothing.
- `QrCode` holds the `Message` enum, `get_new_qrcode` (`NewQrCodePath`) and
  `get_user_scan_code_result` (`UserScanCodeResult`).
- `Workers` holds the two loop bodies as sequential methods. Sleep and the
  threads are abstracted away. The refresher gets the flag value each of its
  iterations loads. The poller gets the number of iterations it has time for.
- `MainView` holds the state machine. The class `MainViewState` has the
  source's fields, and its methods change them in place. Each method is proved
  to produce `F(old(Model()))`, where `F` is a pure function on the
  `ViewState` value. The lemmas about those functions state the properties.
  Thread handles are opaque `HandleId` values. The atomic flag is a plain
  `bool`. The window's close request is a count of requests sent. The widget
  tree is reduced to the path of the image it shows, a ghost field.

Facts about the code that the model keeps:

- `cleanup` takes and joins both handles but never stores true in `scan_result` (src/main.rs:109-122).
- Join results are discarded (`let _ = h.join()`, src/main.rs:113 and 118).
- The refresher loads the flag on its first iteration too (src/main.rs:55-59).
- The poller never reads the flag (src/main.rs:84-96).

## Model

| member | source | states |
|---|---|---|
| `Decimal.NatToString` | src/main.rs:44 | the digits of a non-negative counter: never empty, every character a digit, no leading zero except for 0 itself |
| `Decimal.IntToString` | src/main.rs:44 | the text of an i32 counter starts with '-' exactly when it is negative |
| `Decimal.ParseIntToString` | src/main.rs:44 | parsing the text of any integer gives that integer back |
| `Decimal.IntToStringInjective` | src/main.rs:44 | two integers print alike if and only if they are equal |
| `QrCode.QrCodeCounterOfPath` | src/main.rs:43-45 | every path `get_new_qrcode(i)` builds is "./img/qrcode" + text of i + ".png", and i can be read back from it |
| `QrCode.NewQrCodePathInjective` | src/main.rs:43-45 | distinct counters give distinct image paths, and equal counters equal paths |
| `QrCode.UserScanCodeResult` | src/main.rs:74-79 | the simulated scan check is negative exactly for 0..=3 and positive otherwise, negative counters included |
| `Workers.FirstSet` | src/main.rs:57-59 | the iteration at which the refresher first loads a set flag: every earlier flag is clear, and that one is set unless none is |
| `Workers.RefreshQrCode` | src/main.rs:52-68 | the refresher loop sends one image per iteration for counters 1, 2, 3, ... until the first iteration that loads a set flag, which sends nothing and stops it; the final counter is that iteration's number |
| `Workers.FirstSetAppend` | src/main.rs:57-59 | flags loaded after the first set one cannot change where the loop stops |
| `Workers.RefreshCountersIncrease` | src/main.rs:52-68 | every refresher message is an image update whose path carries the counter j + 1: counters start at 1 and rise by one per message |
| `Workers.RefreshStopsAtFlag` | src/main.rs:56-59 | once an iteration loads a set flag, it and every later iteration send nothing |
| `Workers.RefreshRunsWhileClear` | src/main.rs:53-68 | the refresher sends one message per iteration if and only if no iteration loads a set flag |
| `Workers.PollScanResult` | src/main.rs:84-96 | the poller loop sends exactly what PollEvents describes (the first positive scan check's ScanCodeFinished, nothing after it) and stops with its count at 4 once it gets that far |
| `Workers.PollEventsClosedForm` | src/main.rs:74-96 | the poller sends nothing in its first three iterations and exactly one ScanCodeFinished, on the fourth |
| `MainView.Initial` | src/main.rs:25-35 | the default state: no handles, scan_result false, dirty flag set, current image "./img/qrcode0.png" and shown |
| `MainView.Updated` | src/main.rs:124-138 | update leaves the dirty flag clear; a pending image is put on display; with the flag already clear nothing changes; no other field changes |
| `MainView.CleanedUp` | src/main.rs:109-122 | after cleanup both handles are None and no other field changes |
| `MainView.ApplyLastUpdate` | src/main.rs:149-156 | after a batch the current image is the payload of its last UpdatetQRCodeImage |
| `MainView.ApplyWithoutUpdate` | src/main.rs:149-162 | a batch with no image update leaves the current image and the dirty flag as they were |
| `MainView.ApplyFlags` | src/main.rs:149-162 | after a batch the dirty flag is set iff it was or the batch holds an image update, and scan_result is set iff it was or the batch holds ScanCodeFinished |
| `MainView.ApplyOthers` | src/main.rs:149-167 | a batch sends one close request per ScanCodeFinished and leaves both handles and the shown image unchanged |
| `MainView.ApplyConsistent` | src/main.rs:149-156 | handling messages keeps the dirty-flag protocol: while the flag is clear the shown image is the current one |
| `MainView.UpdateIdempotent` | src/main.rs:124-138 | a second consecutive update changes nothing; an update leaves the current image on display |
| `MainView.CleanupTakesOnce` | src/main.rs:109-122 | a second cleanup joins nothing and changes nothing; cleanup joins at most the two stored handles |
| `MainView.RunInvariants` | src/main.rs:102-167 | over any sequence of init, messages, update and cleanup calls the dirty-flag protocol holds and scan_result, once true, stays true |
| `MainView.RefresherDelivered` | src/main.rs:149-156 | after delivering everything the refresher sent, the current image is the one for its last counter, an update is pending if anything was sent, and scan_result is unchanged |
| `MainView.PollerDelivered` | src/main.rs:158-162 | delivering what the poller sent within any number of iterations sets scan_result and sends exactly one close request once four iterations have run, changes nothing before that, and never touches the image or the dirty flag |
| `MainView.MainViewState.constructor` | src/main.rs:25-35 | the new object holds the initial state |
| `MainView.MainViewState.Init` | src/main.rs:103-107 | init stores both workers' handles and changes nothing else |
| `MainView.MainViewState.Messages` | src/main.rs:141-167 | handling a batch in place gives the state of the batch applied in order, keeping the dirty-flag protocol |
| `MainView.MainViewState.Update` | src/main.rs:124-138 | the in-place update gives the updated state |
| `MainView.MainViewState.Cleanup` | src/main.rs:109-122 | takes each handle, returns the handles joined (refresher first) and leaves the cleaned-up state |

## Left out

- The orbtk widget tree and rendering: `create_image_widget`, the `MainView` template, and the child lookup, removal and append in `update`. These are calls into the GUI library. The image widget is reduced to the path it shows.
- `ctx.window().update_dirty(true)` in the message handler is not recorded. It is a request to the host's renderer.
- `Image::from_path(...).unwrap()`, which is image file I/O, and its panic when the file is missing.
- `gui`, `other` and `main`, which are window creation and process entry.
- Threads, `std::thread::sleep`, the `Arc<AtomicBool>` memory ordering, the message adapter's delivery and the blocking of `JoinHandle::join`. Spawning is reduced to storing handles passed in by the caller. The refresher's flag values are an input and are not tied, iteration by iteration, to the view state's `scan_result`. `RunInvariants` shows that `scan_result` never goes back to false, so the flags from a real run are a clear prefix followed by set values.
- Timing bounds (iterations every 3 seconds) are not modelled. The source has no timing logic beyond `sleep`.
- `println!` logging, which is diagnostic only.
- Workers.RefreshQrCode: the `i32` counter is an unbounded integer, so its overflow after 2^31 - 1 iterations is not modelled. A debug build panics there. A release build wraps `counter` to i32::MIN and sends "./img/qrcode-2147483648.png". The model sends the unbounded value instead. The poller's count never exceeds 4.
- QrCode.NewQrCodePath takes an unbounded integer instead of an `i32`. A counter above i32::MAX reaches it only through `Workers.RefreshEvents` after 2^31 - 1 iterations, which is the overflow of the line above.
