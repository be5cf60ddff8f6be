# LED bridge server: a Dafny model

`led_server.py` is a small HTTP bridge that shows a battery cabinet's status on three LEDs
(green, yellow and red). `POST /set_led` carries a `status` string. The server first drives all
three GPIO outputs LOW, then raises at most one of them:

| status | green | yellow | red |
|---|---|---|---|
| `available` | on | off | off |
| `charging` | off | on | off |
| `faulty` | off | off | on |
| `checked-out`, `off`, any other string | off | off | off |

A missing or empty `status` is answered with HTTP 400 and `{"success": false, "error": "No status provided"}`,
and the LEDs are left alone. Any other status is applied without validation and echoed back as
`{"success": true, "status_set": status}`. At startup the pins are set up LOW and then `available` is applied.

The model has three modules:

- `Wrappers` (`wrappers.dfy`) holds `Option`, used for the `status` field, which may be absent.
- `LedStatus` (`led_status.dfy`) holds the pure specification. `Render` is the status table.
  `Respond` is the endpoint's answer. `Step` and `Run` give the effect of one request and of a
  sequence of requests, and the lemmas about `Run` cover last-write-wins, idempotence and the
  at-most-one-lit invariant.
- `LedServer` (`led_server.dfy`) holds the class `LedBank`, with one `bool` field per LED.
  `Write` stands for one `GPIO.output` call, and also for the initial LOW level that `GPIO.setup` gives a pin. `SetupGpio` loops over the pin list. `SetLedStatus`
  and `SetLedRoute` are the server's functions, written as step-by-step writes. Each method is
  proved against the `LedStatus` functions.

The `status` field is modelled as `Option<string>`. Python's `not status` is true for `None` and for `""`,
and `Truthy` captures exactly that.

## Model

| member | source | states |
|---|---|---|
| LedStatus.Render | led_server.py:30-47 | Green is lit iff the status is `available`, yellow iff `charging`, red iff `faulty`. All three are off exactly when the status is none of those three, which covers `checked-out`, `off` and unknown strings. At most one LED is lit. |
| LedStatus.Respond | led_server.py:56-60 | The answer is a success iff the status is present and non-empty. A success has code 200 and echoes the status unchanged, known or not. A failure has code 400 and the error "No status provided". |
| LedStatus.LastAcceptedIsAccepted | led_server.py:56-59 | The last accepted status of a request sequence is non-empty and occurs in the sequence. There is none exactly when every request was missing or empty. |
| LedStatus.LastWriteWins | led_server.py:30-33 | After any sequence of requests, the LEDs show `Render` of the last accepted status. If no request was accepted, they are as they started. Earlier state never shows through. |
| LedStatus.IndependentOfStart | led_server.py:30-33 | Once any request has been accepted, the LEDs no longer depend on their state before the sequence. |
| LedStatus.KeepsAtMostOneLit | led_server.py:30-47 | If at most one LED was lit before, no sequence of requests lights two at once. |
| LedStatus.RepeatRequest | led_server.py:30-33 | Sending the same request twice in a row leaves the LEDs as sending it once does. |
| LedStatus.ReplayIdempotent | led_server.py:30-33 | Serving a whole request sequence a second time changes nothing. |
| LedStatus.RejectedChangeNothing | led_server.py:56-57 | A sequence of only missing or empty statuses leaves the LEDs exactly as they were. |
| LedServer.LedBank.constructor | led_server.py:64 | The bank starts with arbitrary levels. Nothing sets the pins before `setup_gpio` runs at startup, so their levels before then are not known. |
| LedServer.LedBank.Write | led_server.py:25-43 | One output write, or the initial LOW level of a pin setup, sets the named LED to the given level and leaves the other two unchanged. |
| LedServer.LedBank.SetupGpio | led_server.py:18-25 | After the loop over the pin list, all three LEDs are off. |
| LedServer.LedBank.SetLedStatus | led_server.py:27-47 | After the three LOW writes and the conditional HIGH write, the LEDs equal `Render(status)`, whatever they were before. |
| LedServer.LedBank.SetLedRoute | led_server.py:51-60 | The response is `Respond(status)`. A missing or empty status leaves the object unchanged. Otherwise the LEDs equal `Render(status)`. The at-most-one-lit property is preserved. |
| LedServer.LedBank.Startup | led_server.py:64-70 | After setup followed by `available`, green is on and yellow and red are off. |

## Left out

- Flask app creation, CORS, the route decorator and `app.run` (port 5000, all interfaces). These are framework plumbing.
- JSON parsing of the request body. The model takes the extracted `status` field. A non-JSON body, where `request.json` is `None` and `.get` raises, is not modelled.
- A `status` field that is a JSON value other than a string (a number, `false`, a list) is not modelled. Python would treat it by truthiness, and a truthy one would turn all LEDs off and be echoed back.
- The GPIO driver itself (`setmode`, `setwarnings`, `setup`, `output`, `cleanup`). This is a foreign library. The outputs are the three `bool` fields, and the BCM pin numbers 17, 27 and 22 appear only as labels in comments.
- The `GPIO.cleanup()` at shutdown and the `KeyboardInterrupt` handling. These are process lifecycle.
- All `print` logging.
- Concurrency. The source has no lock, thread or polling loop. Requests are modelled as served one after another. `app.run` may serve requests on several threads, and the four GPIO writes of `set_led_status` are not atomic, so two overlapping requests (say `available` and `charging`) could leave two LEDs lit. `KeepsAtMostOneLit` and the at-most-one-lit ensures of `SetLedRoute` hold only for requests served one after another.
- The setup-first ordering. RPi.GPIO raises an error when `output` is called on a pin that was never set up. The program avoids this because `setup_gpio` runs at startup before any other write. The model does not capture this: `SetLedStatus` and `SetLedRoute` may run on a bank that `SetupGpio` never touched, and no error path is modelled for that case.
