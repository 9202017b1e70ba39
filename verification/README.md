# Servo firmware: driver and angle handlers

This project models the firmware core of an ESP32 servo controller, with proofs.

- **Driver** (`src/servo.c`):
  - the process-wide `current_angle`;
  - `set_servo_angle`, which clamps the angle to [0, 180], turns it into a pulse width and a 13-bit timer duty, and writes the duty to the LEDC channel;
  - `move_servo_smooth_to`, which steps one degree at a time towards a clamped target, pausing after each step, and then sets the target;
  - the parse-error branch of the two console commands `servo` and `servo_smooth`.
- **HTTP handlers** (`src/http_server.c`):
  - `set_angle_handler` (POST `/set_angle`) receives at most 31 bytes into a 32-byte buffer and NUL-terminates it. It parses `angle=%d` and checks 0..180. It then applies the angle, answers 400 "Invalid angle", or answers 500 when the receive fails;
  - `get_angle_handler` (GET `/get_angle`) formats `{"angle":N}` into a 32-byte buffer.

## Modules

- `servo.dfy`, module `Servo`: the angle-to-duty arithmetic as functions, with its bounds and its monotonicity.
  - The class `Driver` holds `current_angle`. Its set and smooth-move methods are proved against specification functions (`Clamp`, `DutyFor`, `Path`, `SmoothTrace`).
  - The LEDC writes and the FreeRTOS delays are not hardware or time here. Each one is appended, in order, to a ghost log of `Effect`s.
- `servo_console.dfy`, module `ServoConsole`: `servo_cmd` and `servo_smooth_cmd`, given what argtable3's `arg_parse` returned (the error count and the parsed integers).
- `clib.dfy`, module `CLib`: the C library behaviour the handlers rely on, for 8-bit `char` in the "C" locale:
  - NUL-terminated strings;
  - the `%d` conversion of sscanf (section 7.21.6.2 of ISO/IEC 9899:2011, with the strtol subject sequence of section 7.22.1.4);
  - the `%d` conversion of printf (section 7.21.6.1);
  - snprintf truncation (section 7.21.6.5).
- `http_server.dfy`, module `HttpServer`:
  - the two handlers as methods on a 32-byte `array`;
  - the decision of `set_angle_handler` as the pure function `Decide`;
  - the JSON formatting as the pure function `AngleJson`.
- `end_to_end.dfy`, module `EndToEnd`: whole interactions from boot, through both front ends.

## Model

| member | source | states |
|---|---|---|
| Servo.Clamp | src/servo.c:36-37 | the clamped angle is always in [0, 180], and an in-range angle is left as it is |
| Servo.ClampIsNearest | src/servo.c:36-37 | clamping picks the angle of [0, 180] nearest to the request |
| Servo.PulseWidth | src/servo.c:39 | the pulse width lies in [500, 2500] us and is the floor of 500 + 2000*angle/180, as C's truncating division gives for these non-negative operands |
| Servo.TimerDuty | src/servo.c:42-43 | the uint32_t product is reduced modulo 2^32 before the division, so the result is a uint32_t value |
| Servo.ScaledDuty | src/servo.c:39-43 | the duty written for any in-range angle lies in [204, 1023] |
| Servo.PulseWidthFitsTimer | src/servo.c:42-43 | duty*8191 stays below 2^32, so the unsigned arithmetic never wraps, and the scaled duty is exactly duty*8191/20000 |
| Servo.DutyFor | src/servo.c:36-43 | the duty that set_servo_angle writes for any int: always in [204, 1023], and the scaled duty of the angle itself when that is in range |
| Servo.DutyEndPoints | src/servo.c:39-43 | angle 0 gives 500 us and duty 204; angle 180 gives 2500 us and duty 1023 |
| Servo.PulseWidthIncreasing | src/servo.c:39 | each extra degree adds at least 11 us of pulse width |
| Servo.ScaledDutyIncreasing | src/servo.c:39-43 | the scaled duty is strictly increasing in the in-range angle |
| Servo.DutyForMonotone | src/servo.c:36-43 | for any two requested angles a <= b, set_servo_angle(a) writes no larger a duty than set_servo_angle(b) |
| Servo.SetAngleIdempotent | src/servo.c:33-49 | setting the angle that a call recorded again records the same angle and writes the same duty |
| Servo.Step | src/servo.c:56 | the direction is +1 or -1, and +1 exactly when the start is below the target |
| Servo.Path | src/servo.c:58 | the values the loop variable takes while it differs from the target: abs(e-s) of them, starting at s, with the last one step short of e |
| Servo.PathSteps | src/servo.c:58 | each visited angle is the previous one plus the step |
| Servo.StepTrace | src/servo.c:58-61 | the loop body's effects for a list of angles: two per angle |
| Servo.StepTraceAt | src/servo.c:59-60 | for the i-th visited angle the loop writes its duty and then delays d |
| Servo.SmoothTrace | src/servo.c:58-63 | all effects of a smooth move: 2*abs(e-s)+1 of them, the last being the target's duty write |
| Servo.PathMonotone | src/servo.c:56-61 | the angles the loop passes to set_servo_angle strictly increase when moving up and strictly decrease when moving down |
| Servo.PathCovers | src/servo.c:56-61 | the loop visits exactly the angles from the start (included) to the target (excluded), and none when they are equal |
| Servo.PathInRange | src/servo.c:58-59 | between in-range end points every visited angle is in range |
| Servo.StepTraceDelays | src/servo.c:58-61 | the loop issues one delay of d ms per visited angle |
| Servo.SmoothTraceShape | src/servo.c:58-63 | a smooth move writes, for each visited angle, its duty and then a delay of d. It ends with the target's duty and no delay after it. That is 2*abs(e-s)+1 effects and abs(e-s) delays, the logged delays sum to abs(e-s)*d, and the last duty is the target's |
| Servo.SmoothTraceAtTarget | src/servo.c:56-63 | when the start equals the target, only the final write happens |
| Servo.Driver.constructor | src/servo.c:8 | the angle starts at 0, with no command, no duty written and no effect |
| Servo.Driver.WriteDuty | src/servo.c:45-46 | the channel holds the new duty and one write is appended; the angle is not touched |
| Servo.Driver.TaskDelay | src/servo.c:60 | one delay is appended and nothing else changes |
| Servo.Driver.SetServoAngle | src/servo.c:33-49 | for any int, the new angle is its clamp and the one effect is the duty write for it. Afterwards the channel holds that duty, which is also the last write in the log, and the angle stays in range |
| Servo.Driver.MoveServoSmoothTo | src/servo.c:51-64 | the loop terminates from any start. It ends at the clamped target, having passed exactly the path's angles and then the target to set_servo_angle, and its effects are the smooth-move trace. The channel ends holding the target's duty, the last write in the log |
| ServoConsole.ExitCode | src/servo.c:82-90 | a command returns 1 exactly when arg_parse reported errors, and 0 otherwise |
| ServoConsole.ServoCmd | src/servo.c:79-91 | on a parse error it returns 1 and changes nothing; otherwise it does what set_servo_angle does, channel duty included |
| ServoConsole.ServoSmoothCmd | src/servo.c:93-106 | on a parse error it returns 1 and changes nothing; otherwise it does what move_servo_smooth_to does, channel duty included |
| CLib.CString | src/http_server.c:33-36 | sscanf reads the buffer up to, not including, its first NUL |
| CLib.CStringStopsAt | src/http_server.c:33 | writing NUL at buf[ret] makes the string end there at the latest, whatever the rest of the buffer holds |
| CLib.CStringOfNoNul | src/http_server.c:20 | strlen of a NUL-free text followed by NUL is the text's own length |
| CLib.ScanInt | src/http_server.c:36 | the %d directive: white space, an optional sign, then digits; an input without any digit is a matching failure (ScanIntAccepts and ScanIntRejects state what it converts) |
| CLib.SkipSpaces | src/http_server.c:36 | %d skips exactly the leading white space |
| CLib.LeadingDigits | src/http_server.c:36 | %d takes the longest run of decimal digits |
| CLib.ScanIntAccepts | src/http_server.c:36 | white space, an optional sign and one or more digits convert to the signed value of the digits, whatever non-digit follows |
| CLib.ScanIntRejects | src/http_server.c:36 | without a digit after the white space and the optional sign, %d fails to match |
| CLib.NatDigits | src/http_server.c:18 | printf's digits are non-empty decimal digits without a leading zero |
| CLib.Decimal | src/http_server.c:18 | %d prints digits, preceded by '-' for a negative value |
| CLib.DecimalHasNoNul | src/http_server.c:18-20 | a printed number contains no NUL |
| CLib.NatDigitsValue | src/http_server.c:18 | reading the printed digits back gives the number |
| CLib.NatDigitsLength | src/http_server.c:17-18 | a number below 10^k prints in at most k digits |
| CLib.ScanIntDecimal | src/http_server.c:36 | sscanf's %d reads back exactly what printf's %d printed |
| CLib.DecimalLength | src/http_server.c:17-18 | any int prints in at most 11 characters, and an angle of [0, 180] in at most 3 |
| CLib.Snprintf | src/http_server.c:17-18 | snprintf keeps a prefix of the output shorter than the buffer. It keeps all of it when it fits, and exactly size-1 bytes when it does not |
| HttpServer.ScanAngle | src/http_server.c:36 | `sscanf(buf, "angle=%d", &angle)`: a conversion happens only after the literal `angle=` matched, and never without a digit (DecideAccepts states what it converts) |
| HttpServer.ReceivedText | src/http_server.c:27-33 | the text that is parsed lies within the first ret bytes, so within the 32-byte buffer |
| HttpServer.Decide | src/http_server.c:28-44 | a receive failure is reported exactly when ret <= 0, and only an angle in [0, 180] is ever applied |
| HttpServer.SetAngleHandler | src/http_server.c:25-45 | fills the 32-byte buffer, terminates it at buf[ret] and takes the branch that Decide names. A receive failure gives 500 and ESP_FAIL; a bad or out-of-range body gives 400 and ESP_FAIL; both leave the driver untouched. A valid angle is set, answered "OK" with ESP_OK, becomes the current angle, and its duty is what the channel holds |
| HttpServer.DecideFormBody | src/http_server.c:36-40 | the body `angle=N` that the control page posts fits the buffer and sscanf reads N back for every int N. It is applied when N is in [0, 180] and refused with 400 otherwise |
| HttpServer.DecideAccepts | src/http_server.c:36-40 | every body sscanf accepts, `angle=` then white space, an optional sign, digits and any non-digit tail, is read as its signed value. It is applied when that value is in [0, 180] and refused with 400 otherwise |
| HttpServer.RejectsWhereDriverClamps | src/http_server.c:37-44 | the handler applies N if and only if clamping would leave N unchanged, and then it applies the clamped value. An out-of-range N is refused, where set_servo_angle would move to 0 or 180 |
| HttpServer.NoPrefixRejected | src/http_server.c:36-44 | a body shorter than `angle=`, or differing from it at some byte, is answered 400 |
| HttpServer.PrefixWithoutIntegerRejected | src/http_server.c:36-44 | `angle=` followed by anything but an optionally signed integer is answered 400 |
| HttpServer.ScanIntRejectsPrefix | src/http_server.c:33-36 | cutting a non-integer short, as an embedded NUL does, never makes it an integer |
| HttpServer.BytesAfterNulIgnored | src/http_server.c:33-36 | bytes received after an embedded NUL are never parsed |
| HttpServer.AngleJson | src/http_server.c:17-18 | the snprintf into the 32-byte response: a prefix of `{"angle":N}` shorter than the buffer that keeps at least `{"angle":` |
| HttpServer.AngleJsonExact | src/http_server.c:17-18 | for every int, the JSON is exactly `{"angle":N}` without truncation, in at most 21 bytes (13 for an angle in range), and N can be read back from it |
| HttpServer.AngleJsonHasNoNul | src/http_server.c:18-20 | the formatted response contains no NUL, so strlen covers all of it |
| HttpServer.GetAngleHandler | src/http_server.c:15-22 | answers with content type application/json, the body `{"angle":N}` for the current angle as strlen of the filled buffer, and ESP_OK; nothing changes |
| EndToEnd.DecimalExamples | src/http_server.c:18 | 90 prints as "90" and 180 as "180" |
| EndToEnd.JsonExamples | src/http_server.c:18 | the GET bodies for 90 and 180 are `{"angle":90}` and `{"angle":180}` |
| EndToEnd.PostThenGet | src/http_server.c:25-45 | from boot, POST angle=90 is answered OK, a following POST angle=200 is answered 400, and GET then reports `{"angle":90}` |
| EndToEnd.ConsoleClampsHttpRefuses | src/http_server.c:36-44 | `servo 300` moves to 180 and returns 0, while POST angle=300 is answered 400 and GET still reports `{"angle":180}` |
| EndToEnd.FirstDuties | src/servo.c:39-43 | angles 0, 1, 2 and 3 give duties 204, 209, 213 and 218 |
| EndToEnd.SmoothFromBoot | src/servo.c:93-106 | `servo_smooth 3 10` from boot writes 204, delay 10, 209, delay 10, 213, delay 10, 218, and ends at 3. A following command with a parse error returns 1 and writes nothing |

## Left out

- `init_servo` is LEDC timer and channel configuration through vendor calls. Before the first write, the model records that no duty was written; it does not record the 0 that the channel configuration sets.
- The LEDC calls and `vTaskDelay` are logged effects, not hardware or time. Their return codes are ignored, as the source ignores them. A delay logs its millisecond argument; the `pdMS_TO_TICKS` tick conversion is not modelled.
- Console argument parsing:
  - argtable3's `arg_parse` is not modelled. A command receives its error count and parsed integers as values;
  - `arg_print_errors` and the console `printf` messages are output only;
  - `register_servo_command` and `register_servo_smooth_command` are library registration.
- `httpd_req_recv` is not modelled. Its return value and the bytes it delivered are parameters of `SetAngleHandler`, and a result above 31 is excluded, as the call promises.
- SetAngleHandler: requires that a number after `angle=` fits in an `int`. sscanf's behaviour on overflow is undefined, so the model does not choose a result for it.
- Responses are modelled as a status and a body. Only GET's content type is modelled. The headers and the socket writes of the ESP HTTP server are not.
- `root_handler` and the HTML page are static content. `http_server_init`, `http_server_stop` and URI registration belong to the HTTP library. The registered routes are `/get_angle` and `/set_angle`. The page's `'angle=' + angle` body is used only as `FormBody`.
- WiFi association (`src/wifi.h`), the console REPL (`src/setup_console.h`) and the boot sequence (`src/main.c`) are network plumbing and I/O.
- Concurrency: the HTTP task and the console task share the unlocked `current_angle`. The model assumes one caller at a time.
- TimerDuty: its own contract says only that the result is a uint32_t value. Its exact value for every duty that `set_servo_angle` computes is stated by `PulseWidthFitsTimer`.
