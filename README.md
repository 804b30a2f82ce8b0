# OCF device servers: button toggle, illuminance sensor, RGB LED

This project models three device servers of the Smart Home OCF demo.
Each server publishes one observable resource over iotivity-node and keeps
its state in module-level variables. The button and illuminance servers
sample their hardware (or a simulation of it) in `getProperties` and push
changes to observers from a `setTimeout` loop that re-arms itself. The RGB
LED server's `getProperties` only formats `rgbValue` and `range`; every
request schedules one notification that does not re-arm.

- **Button toggle** (`button_toggle.dfy`). A push button on a GPIO pin
  becomes an `oic.r.button` resource whose value toggles on every press.
  - The edge detector is the function `Sample`.
  - The server is the class `ButtonServer`, with one field per module
    global.
  - Its notify loop is kept alive by an observer count.
- **Illuminance sensor** (`ambient_light.dfy`). An
  `oic.r.sensor.illuminance` resource whose simulated reading rises by
  0.1 lux per sample.
  - Readings are rounded to two decimals. A change is published only when
    the rounded value differs.
  - The notify loop is gated by a `noObservers` flag.
  - Illuminance is kept in integer hundredths of a lux, and
    `Math.round(temp * 100)` is computed exactly over the reals.
- **RGB LED** (`rgb_led.dfy`). An `oic.r.colour.rgb` resource.
  - An update carries a colour as the string `"r,g,b"`.
  - Each channel is read with `String.prototype.split` and `parseInt`
    (`js_string.dfy`) and range-checked against the published range
    `"0,255"`.
  - An accepted colour is clocked out on two GPIO pins as a 12-byte frame.
    Every pin write is recorded in the server's `writes` trace.
  - A model of the receiving driver chip (`Receiver`, `Feed`) proves that
    the frame delivers exactly the colour that was sent.
  - `Start` runs `setupHardware` (which switches the LED off) before
    registration. From then on, with the GPIO module present, the last frame
    on the pins is the colour `rgbValue` names (`InitialColour`,
    `UpdateShows`).

Timers are bookkeeping (`scheduling.dfy`). A `TimerQueue` maps each pending
handle to its delay. A server keeps the one handle it stores, and the
queue also holds the timers whose handles the code drops. Requests,
notification outcomes, raw GPIO levels and "timer `id` fired" are method
parameters.

Two consequences of the code are worth spelling out:

- **First illuminance push.** The first push an observer of the simulated
  illuminance receives carries 0.3 lux. Registration, the observe request
  and the first tick each take a sample (`AmbientLight.ObserveThenStop`).
- **Update response.** `entityHandler` responds with
  `rgbLEDResource.properties`, which only a retrieve or a notification
  refreshes. The response to an accepted update therefore still carries
  the previous value (`RgbLed.StaleResponseScenario`).

## Model

| member | source | states |
|---|---|---|
| ButtonToggle.Sample | ocf-servers/js-servers/button-toggle.js:56-78 | With hardware, `prevState` becomes the level read, and `sensorState` flips iff that level is a press the previous sample had not seen (a rising edge). `hasUpdate` ends up set iff it was already set or an edge rose: sampling never clears it. Without hardware, `sensorState` is negated and `hasUpdate` is set. |
| ButtonToggle.RunToggleParity | ocf-servers/js-servers/button-toggle.js:54-72 | Over any sequence of hardware samples, the published state is its start value XOR the parity of the rising edges, and `prevState` is the last level read. `hasUpdate` is set iff it was set before or some edge rose. |
| ButtonToggle.ButtonServer.constructor | ocf-servers/js-servers/button-toggle.js:29-32 | The globals start false, the count at 0 and no handle is stored. The registration payload is one sample. |
| ButtonToggle.ButtonServer.GetProperties | ocf-servers/js-servers/button-toggle.js:54-88 | The three globals become `Sample` of their old values and the level read. The payload is `{rt: 'oic.r.button', id: 'button', value: sensorState}`. |
| ButtonToggle.ButtonServer.NotifyObservers | ocf-servers/js-servers/button-toggle.js:91-118 | A tick samples and nulls the stored handle. If the sample left `hasUpdate` set, it publishes the payload, clears `hasUpdate` and pushes exactly once; otherwise nothing is pushed. It re-arms a 200 ms timer and stores its handle iff `observerCount > 0`. Every stored handle names a pending timer. |
| ButtonToggle.ButtonServer.Publish | ocf-servers/js-servers/button-toggle.js:95-111 | Pushes the payload iff `hasUpdate` was set, and clears `hasUpdate`. |
| ButtonToggle.ButtonServer.Rearm | ocf-servers/js-servers/button-toggle.js:115-117 | Arms a fresh 200 ms timer and stores its handle iff `observerCount > 0`. |
| ButtonToggle.ButtonServer.OnNotifyFailure | ocf-servers/js-servers/button-toggle.js:101-109 | An empty observer list forces the count to 0, cancels the stored timer if any, and nulls the handle. A non-empty list changes nothing. |
| ButtonToggle.ButtonServer.Retrieve | ocf-servers/js-servers/button-toggle.js:121-131 | Samples and responds with the fresh payload. An observe request sets `hasUpdate` and moves the count by exactly +1 or -1; a plain retrieve leaves the count alone. An untracked 200 ms timer is armed iff the request observes, no handle is stored and the count is positive. |
| ButtonToggle.ButtonServer.Observe | ocf-servers/js-servers/button-toggle.js:125-130 | Sets `hasUpdate`, counts the (de)registration, and arms a first tick without storing its handle when none is stored and the count is positive. |
| ButtonToggle.ExampleTrace | ocf-servers/js-servers/button-toggle.js:54-72 | From `prevState = sensorState = false`, the levels 0,1,1,0,1 publish `true` after the second read and `false` after the fifth. |
| ButtonToggle.DoubleArming | ocf-servers/js-servers/button-toggle.js:128-129 | Two observe requests before the first tick leave two timers pending at once. |
| ButtonToggle.NegativeObserverCount | ocf-servers/js-servers/button-toggle.js:127 | A deregistration without a registration drives the observer count to -1. |
| AmbientLight.RoundHundredths | ocf-servers/soletta-servers/ambient_light.js:52 | `Math.round(x * 100)` is the integer within one half of `100x`, halves rounded up. |
| AmbientLight.Quantise | ocf-servers/soletta-servers/ambient_light.js:52-56 | The new reading is the sample rounded to two decimals. `hasUpdate` ends up set iff it was set or the rounded value differs from the last reading: sampling never clears it. |
| AmbientLight.SimulatedSample | ocf-servers/soletta-servers/ambient_light.js:47-56 | A simulated sample raises the reading by exactly 0.1 (ten hundredths) and always marks the resource dirty. |
| AmbientLight.SampleTimesDrift | ocf-servers/soletta-servers/ambient_light.js:40-56 | After `n` simulated samples, the reading has risen by exactly `n` tenths, and `hasUpdate` is set iff it was set before or `n > 0`. |
| AmbientLight.QuantiseExamples | ocf-servers/soletta-servers/ambient_light.js:52-56 | 3.14159 followed by 3.144 is not a change; 3.14 followed by 3.15 is. |
| AmbientLight.IlluminanceServer.constructor | ocf-servers/soletta-servers/ambient_light.js:8-11 | The globals start at zero and false, and no timer or handle exists. The registration payload is one sample, 0.1 lux. |
| AmbientLight.IlluminanceServer.GetProperties | ocf-servers/soletta-servers/ambient_light.js:40-66 | The reading becomes `Quantise` of the simulated value, which is exactly 0.1 more. The payload is `{rt: 'oic.r.sensor.illuminance', id: 'illuminance', illuminance: lux}` with the updated reading. |
| AmbientLight.IlluminanceServer.SendDeviceNotify | ocf-servers/soletta-servers/ambient_light.js:68-90 | Pushes iff `hasUpdate` was set, and clears it; with no update, no push. Re-arms a 2000 ms timer and stores its handle iff `noObservers` is false. |
| AmbientLight.IlluminanceServer.NotifyObservers | ocf-servers/soletta-servers/ambient_light.js:93-104 | A tick of the simulated server refreshes the properties (0.1 lux more) and always pushes them. The re-arm is as in `SendDeviceNotify`. |
| AmbientLight.IlluminanceServer.OnNotifyFailure | ocf-servers/soletta-servers/ambient_light.js:72-81 | `noObservers` becomes the error's flag. When that flag is true, the stored timer is cancelled and the handle nulled. |
| AmbientLight.IlluminanceServer.ObserveHandler | ocf-servers/soletta-servers/ambient_light.js:107-114 | Samples, responds and resets `noObservers`. It arms an untracked 200 ms tick iff no handle is stored. |
| AmbientLight.IlluminanceServer.RetrieveHandler | ocf-servers/soletta-servers/ambient_light.js:116-127 | Samples and responds. It changes neither `noObservers` nor the handle nor any timer. |
| AmbientLight.ObserveThenStop | ocf-servers/soletta-servers/ambient_light.js:68-114 | Register, observe, let the first tick fire, then fail with no observers: the first push carries 0.3 lux, and afterwards no timer is pending. |
| Scheduling.TimerQueue.SetTimeout | ocf-servers/soletta-servers/ambient_light.js:88 | `setTimeout` returns a handle that names no pending timer. That handle becomes pending with the given delay, and the others stay as they were. |
| Scheduling.TimerQueue.Cancel | ocf-servers/soletta-servers/ambient_light.js:78 | `clearTimeout` leaves every other timer pending and that one not pending. |
| JsString.JoinSplit | ocf-servers/js-servers/rgb_led.js:111 | Joining the parts of `s.split(sep)` with `sep` gives `s` back. |
| JsString.SplitJoin | ocf-servers/js-servers/rgb_led.js:94 | Splitting a join of separator-free parts gives the parts back. |
| JsString.ParseDecimal | ocf-servers/js-servers/rgb_led.js:112-114 | `parseInt` reads every decimal numeral back as its number. |
| JsString.ParseNonNumeral | ocf-servers/js-servers/rgb_led.js:112-114 | `parseInt` of a string that starts with neither white space, a sign nor a digit is `NaN`. |
| JsString.ParseUndefined | ocf-servers/js-servers/rgb_led.js:112-114 | `parseInt(undefined)` is `NaN`. |
| JsString.ParseHex | ocf-servers/js-servers/rgb_led.js:112-114 | `parseInt` of `0x` followed by hexadecimal digits is their value in radix 16, so a channel such as `0x1F` reads as 31 and passes `checkColour`. |
| JsString.ParseHexNumeral | ocf-servers/js-servers/rgb_led.js:112-114 | `parseInt` reads back every `0x`-prefixed hexadecimal numeral as its number. |
| RgbLed.RangeBounds | ocf-servers/js-servers/rgb_led.js:94-96 | The bounds parsed out of `range = "0,255"` are 0 and 255. |
| RgbLed.CheckColour | ocf-servers/js-servers/rgb_led.js:93-102 | `checkColour(c)` holds iff `c` is a number (not `NaN`) with 0 <= c <= 255. |
| RgbLed.ParseRgb | ocf-servers/js-servers/rgb_led.js:111-116 | An update string yields a colour iff all three `parseInt(input.split(',')[i])` are numbers from 0 to 255, and then exactly those three channels. |
| RgbLed.MissingChannelRejected | ocf-servers/js-servers/rgb_led.js:111-115 | A string with fewer than three comma-separated parts is rejected, because the missing channel parses as `NaN`. |
| RgbLed.TripleChannels | ocf-servers/js-servers/rgb_led.js:111-114 | The three channels of a decimal triple `"r,g,b"` parse to `r`, `g` and `b`. |
| RgbLed.ParseTriple | ocf-servers/js-servers/rgb_led.js:111-116 | A decimal triple is accepted iff every channel is at most 255, and then as that colour. |
| RgbLed.Prefix | ocf-servers/js-servers/rgb_led.js:58-67 | The prefix byte has its top two bits set. Bits 5 to 0 are the complements of B7, B6, G7, G6, R7 and R6. |
| RgbLed.ShiftWritesBits | ocf-servers/js-servers/rgb_led.js:42-56 | Shifting the register left `n` times sends the first `n` bits of the byte, most significant first, each as a data write then a clock pulse. |
| RgbLed.FrameSize | ocf-servers/js-servers/rgb_led.js:77-91 | A colour frame is 12 bytes: 96 clocked bits, 288 pin writes. |
| RgbLed.DecodeFrameBytes | ocf-servers/js-servers/rgb_led.js:58-91 | The frame is four zero bytes, the prefix, blue, green, red and four zero bytes. A chip that checks the flag byte bit by bit (bits 7-6 set, bits 5-0 the complements of B7, B6, G7, G6, R7, R6) accepts it as exactly that colour. |
| RgbLed.BytesLatched | ocf-servers/js-servers/rgb_led.js:42-56 | A receiver that shifts the data level in on every rising clock edge reads back, in order, every byte `sendByte` sends. |
| RgbLed.FrameRoundTrip | ocf-servers/js-servers/rgb_led.js:77-91 | Clocking out a colour frame delivers exactly the frame's bytes to the chip, and the chip decodes the colour that was sent. |
| RgbLed.RgbLedServer.constructor | ocf-servers/js-servers/rgb_led.js:7-8 | At module load `rgbValue` is `"0,0,0"`, and the properties are the `getProperties()` payload of that value. No pin has been written before `setupHardware` runs. |
| RgbLed.Start | ocf-servers/js-servers/rgb_led.js:197-209 | `setupHardware` runs before the resource is registered. With the GPIO module present, the trace is then exactly the frame of colour 0,0,0, and the LED shows that colour. Without it, nothing is written. |
| RgbLed.InitialColour | ocf-servers/js-servers/rgb_led.js:8 | The value published at load, `"0,0,0"`, parses to the colour `setupHardware` sends. |
| RgbLed.UpdateShows | ocf-servers/js-servers/rgb_led.js:106-122 | If the LED shows the colour `rgbValue` names before an update, it still does afterwards: an accepted update sends the frame of the colour it stores, and a rejected one changes neither. |
| RgbLed.ShowsSent | ocf-servers/js-servers/rgb_led.js:77-91 | After a frame is sent, the last frame on the pins is that colour, whatever was sent before. |
| RgbLed.Payload | ocf-servers/js-servers/rgb_led.js:126-137 | `getProperties` is `{rt: 'oic.r.colour.rgb', id: 'rgbled', rgbValue, range}` with the current `rgbValue` and the range `"0,255"`. |
| RgbLed.Channel | ocf-servers/js-servers/rgb_led.js:111-114 | Channel `i` is `parseInt(input.split(',')[i])`. A channel past the last part is `NaN`. |
| RgbLed.Accepted | ocf-servers/js-servers/rgb_led.js:107-116 | An update applies a colour iff the GPIO module is present, the value is a non-empty string, and all three channels are numbers from 0 to 255. The colour is then the one `ParseRgb` reads. |
| RgbLed.OutOfRangeRejected | ocf-servers/js-servers/rgb_led.js:115-116 | A triple whose red channel is above 255 applies no colour. |
| JsString.Split | ocf-servers/js-servers/rgb_led.js:111 | `input.split(',')` has at least one part, and no part contains the separator. Its partners are `JoinSplit` and `SplitJoin`. |
| JsString.TrimStart | ocf-servers/js-servers/rgb_led.js:112-114 | `parseInt` skips exactly the leading white space: what it drops is white space, and what is left starts with none. |
| JsString.ParseIntShape | ocf-servers/js-servers/rgb_led.js:112-114 | `parseInt` yields a number only when a sign or a decimal digit follows the white space, and a negative number only after a minus. |
| RgbLed.RgbLedServer.SetupHardware | ocf-servers/js-servers/rgb_led.js:22-32 | With the GPIO module present, the LED is sent the frame for colour 0,0,0; without it, nothing is written. |
| RgbLed.RgbLedServer.Clk | ocf-servers/js-servers/rgb_led.js:34-40 | One clock pulse, low then high, or nothing without hardware. |
| RgbLed.RgbLedServer.SendByte | ocf-servers/js-servers/rgb_led.js:42-56 | The 32-bit shift loop appends exactly `ByteWrites(b)`: eight data bits, most significant first, each followed by a clock pulse. |
| RgbLed.RgbLedServer.SendBit | ocf-servers/js-servers/rgb_led.js:47-53 | One pass of the loop writes bit 7 of the register, then a clock pulse. |
| RgbLed.RgbLedServer.SendColour | ocf-servers/js-servers/rgb_led.js:58-74 | Appends the writes of the prefix byte, then blue, green and red. |
| RgbLed.RgbLedServer.SendZeros | ocf-servers/js-servers/rgb_led.js:78-82 | Appends the writes of four zero bytes. |
| RgbLed.RgbLedServer.SetColourRGB | ocf-servers/js-servers/rgb_led.js:77-91 | Appends exactly `FrameWrites(c)`, the writes of the 12-byte frame. |
| RgbLed.RgbLedServer.UpdateProperties | ocf-servers/js-servers/rgb_led.js:106-122 | A missing or empty value, no GPIO module, or a channel that is `NaN` or out of range leaves `rgbValue` and the pins untouched. Otherwise `rgbValue` becomes exactly the input and one colour frame is sent. |
| RgbLed.RgbLedServer.EntityHandler | ocf-servers/js-servers/rgb_led.js:154-171 | Applies the update only for `update` and refreshes the properties only for `retrieve`. It always responds with the resource's properties and arms one 200 ms notification. |
| RgbLed.RgbLedServer.NotifyObservers | ocf-servers/js-servers/rgb_led.js:140-151 | A notification refreshes the properties from `rgbValue` and pushes them. Nothing re-arms it. |
| RgbLed.OutOfRangeScenario | ocf-servers/js-servers/rgb_led.js:111-116 | After start-up, an update with a channel above 255 leaves `rgbValue` at `"0,0,0"` and adds no pin writes. |
| RgbLed.StaleResponseScenario | ocf-servers/js-servers/rgb_led.js:154-171 | An accepted update sets `rgbValue`. The response to it still carries `"0,0,0"`, and a later retrieve responds with the new value. |

## Left out

- Transport: iotivity-node configuration, presence, registration, `notify`, `respond`/`sendResponse` and event listeners. Outcomes become inputs: "timer `id` fired", a failed notification's observer list or `noObservers` flag. Every push and response is recorded in order. A successful push or response has no effect on state and is not modelled.
- Hardware drivers: mraa `Gpio` and soletta `aio` handles and their set-up. A button read is the `raw` parameter of the sampling methods. GPIO writes of the LED are recorded in `writes`.
- The illuminance server's hardware path (`ambient_light.js:42-45`, `95-99`, `117-122`). It converts with floating-point `Math.pow`, and it reads `raw_value`, a name the file never declares. The class models the simulated server only.
- Floating point: illuminance is exact over the reals in integer hundredths, so IEEE rounding of `lux + 0.1` is not modelled.
- Wall-clock time: a timer is a token that stays pending until it fires or is cancelled. No "at most one pending timer" invariant is stated, because the code does not keep one.
- ButtonToggle.ButtonServer.Valid: keeps no floor on `observerCount`, which the code lets go negative.
- Process lifecycle: the SIGINT/SIGTERM handlers, `exitHandler` and its `exitId` guard, switching the LED off on exit, unregistration and `process.exit`.
- Logging (`console.log`, `debuglog`) and the device and platform metadata.
- JsString.ParseInt: reads arbitrarily long numerals exactly. JavaScript loses precision above 2^53, which makes no difference to the 0..255 check.
- RgbLed.RgbLedServer.UpdateProperties: takes `res.rgbValue` as an optional string. A non-string value and a request without `res` (which throws in the code) are not modelled.
