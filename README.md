# UDP broadcast controller, modelled in Dafny

The controller is a small desktop tool that broadcasts UDP datagrams to an
actuator on the local subnet (port 12345) and listens on that port.
It exists twice: a GTK program in C++ (`central_mockup/udp_broadcast.cpp`) and
a Tk program in Python (`central_mockup/central_mockup.py`). Both have a class
`UDPBroadcastApp` with the same three pieces of logic behind the widgets:

- a **log channel**: handlers push text lines onto a FIFO queue, and a timer
  drains the queue into the log display, one line and a newline at a time;
- two **sessions**: the periodic sender and the receiver, each with one
  boolean flag and start/stop handlers that check guards and log fixed lines;
- **command validation**: the toggle command (URI `100/10`, `comando` 0 or 1)
  and the control command (URI `100/11`, `parametro`, `valor`, `ACK` true).
  Both address the fixed actuator id 5.

The project has these modules:

- `Protocol` (`protocol.dfy`) holds what both versions share:
  - the parsed numbers (`Option`, `Double` with its non-finite values);
  - the command objects as field maps, with `Encode` and an actuator-side
    `Decode` proved inverse to each other;
  - the log lines, word for word;
  - the toggle check;
  - `Rendered`, the text a drained list of lines becomes in the display.
- `UdpBroadcast` (`udp_broadcast.dfy`) models the C++ class.
- `CentralMockup` (`central_mockup.dfy`) models the Python class.
- `Comparison` (`comparison.dfy`) states where the two versions agree and
  where they differ.

Each class has the source's fields:

- the two flags;
- the log queue as a `seq<string>`;
- the display as a `string`;
- the worker thread handles;
- a ghost `sent`, the datagrams whose send succeeded.

Each button handler is a method. Its inputs are the already-parsed entry
fields and, when it sends, how the socket calls ended. Its `ensures` give the
exact line logged and what was sent. Rejections are specified by pure
functions (`ToggleRequest`, `ControlRequest`, `PeriodicStartRejection`,
`SendLog`), and their contracts state the accept/reject conditions in both
directions. The drain is a loop whose invariant keeps display plus rendered
queue constant.

Some behaviours of the code are easy to miss, and the model keeps them as they are:

- Neither version rejects a non-finite `valor`, so `Double` keeps infinities
  and NaN, and they are sent unchanged.
- The Python stop methods do not join the worker, so they leave the thread
  fields as they were. The C++ stop handlers join, and its `Valid()` ties each
  joinable handle to its flag.
- The Python version reads the interval as a float and tests it with the IEEE
  `<=`, so a NaN interval starts the sender (`NaNIntervalAccepted`).
- Each session is one boolean flag, in both versions and in the model.

## Model

| member | source | states |
|---|---|---|
| `Protocol.ToggleRequest` | central_mockup/udp_broadcast.cpp:349-360 | the toggle command is accepted iff the parsed `comando` is 0 or 1, and the command carries that value; unparsable input and other integers give their two distinct error lines |
| `Protocol.AtMostZero` | central_mockup/central_mockup.py:193 | the IEEE test `x <= 0`: on finite numbers the real comparison, false for NaN and +infinity |
| `Protocol.Encode` | central_mockup/central_mockup.py:154-175 | the toggle object has exactly the keys URI, idAtuador, comando with URI 100/10 and actuator 5; the control object exactly URI, idAtuador, parametro, valor, ACK with URI 100/11, actuator 5 and ACK true, each carrying the command's fields |
| `Protocol.Rendered` | central_mockup/central_mockup.py:112 | the display text of the drained lines: empty iff there are none, otherwise ending with a newline and at least one character per line |
| `Protocol.DecodeEncode` | central_mockup/udp_broadcast.cpp:362-391 | the object built for either command reads back as that command: URI 100/10 or 100/11, actuator 5, the given fields, ACK true |
| `Protocol.EncodeDecode` | central_mockup/central_mockup.py:154-176 | an object read as a command is exactly that command's object, with no other key, URI or actuator id |
| `Protocol.RenderedAppend` | central_mockup/central_mockup.py:107-115 | draining the queue in two ticks leaves the same display text as draining it once |
| `Protocol.RenderedLine` | central_mockup/udp_broadcast.cpp:246-253 | the i-th drained line stands, followed by a newline, after the rendering of the lines before it |
| `UdpBroadcast.SendLog` | central_mockup/udp_broadcast.cpp:207-235 | a send logs exactly one line: "Mensagem enviada:\n" + message iff it was delivered, otherwise one of the three socket error lines |
| `UdpBroadcast.ControlRequest` | central_mockup/udp_broadcast.cpp:371-384 | the control command is accepted iff `parametro` is non-empty and `valor` parsed; an empty `parametro` is refused whatever `valor` is; else an unparsable `valor` is refused |
| `UdpBroadcast.PeriodicStartRejection` | central_mockup/udp_broadcast.cpp:281-297 | a start is let through iff the message is non-empty and the interval parsed to a value > 0, otherwise the matching one of three lines is given |
| `UdpBroadcast.UdpBroadcastApp.constructor` | central_mockup/udp_broadcast.cpp:70-74 | both flags false, empty queue and display, nothing sent, no worker |
| `UdpBroadcast.UdpBroadcastApp.Destroy` | central_mockup/udp_broadcast.cpp:194-205 | the destructor clears both flags and leaves no joinable worker |
| `UdpBroadcast.UdpBroadcastApp.LogMessage` | central_mockup/udp_broadcast.cpp:237-241 | exactly one line is added at the back of the queue; nothing else changes |
| `UdpBroadcast.UdpBroadcastApp.ProcessLogQueue` | central_mockup/udp_broadcast.cpp:243-264 | the queue ends empty and the display gains every queued line, in FIFO order, each with a newline; the timer is kept |
| `UdpBroadcast.UdpBroadcastApp.SendUdpMessage` | central_mockup/udp_broadcast.cpp:207-235 | one `SendLog` line is queued and the payload is added to `sent` iff the send was delivered |
| `UdpBroadcast.UdpBroadcastApp.OnSendButtonClicked` | central_mockup/udp_broadcast.cpp:266-273 | an empty message logs "Mensagem vazia. Nada foi enviado." and sends nothing; any other is sent as typed |
| `UdpBroadcast.UdpBroadcastApp.OnStartPeriodicClicked` | central_mockup/udp_broadcast.cpp:275-305 | while running: the warning line and no state change; a rejected input: its line, flag stays false, no worker; else flag true, one worker with the message and interval, "Envio periódico iniciado." |
| `UdpBroadcast.UdpBroadcastApp.OnStopPeriodicClicked` | central_mockup/udp_broadcast.cpp:307-317 | always: flag false, worker joined, "Envio periódico parado." logged, nothing sent |
| `UdpBroadcast.UdpBroadcastApp.OnStartReceivingClicked` | central_mockup/udp_broadcast.cpp:319-331 | while running: the warning line and no state change; else flag true, receiver started, "Recepção iniciada." |
| `UdpBroadcast.UdpBroadcastApp.OnStopReceivingClicked` | central_mockup/udp_broadcast.cpp:333-343 | always: flag false, receiver joined, "Recepção parada." logged |
| `UdpBroadcast.UdpBroadcastApp.OnJsonButtonClicked` | central_mockup/udp_broadcast.cpp:349-369 | a rejected `comando` logs its line and sends nothing; else exactly the toggle object goes through one send |
| `UdpBroadcast.UdpBroadcastApp.OnJsonControlButtonClicked` | central_mockup/udp_broadcast.cpp:371-395 | a rejected input logs its line and sends nothing; else exactly the five-field control object goes through one send |
| `CentralMockup.SendLog` | central_mockup/central_mockup.py:123-131 | a send logs exactly one line: "Mensagem enviada:\n " + message iff delivered, else "Erro ao enviar mensagem: " + the exception text |
| `CentralMockup.SpaceCharsAreSpace` | central_mockup/central_mockup.py:150 | `IsSpace`, the white space of `str.isspace` given as code-point ranges, holds of exactly the 29 characters `strip()` removes |
| `CentralMockup.RunEnd` | central_mockup/central_mockup.py:150 | the index reached from `i` by skipping characters of the set: everything skipped is in the set, and it stops at the end or at a character outside it |
| `CentralMockup.RunStart` | central_mockup/central_mockup.py:150 | the same scan backwards from `e`, never going below `lo` |
| `CentralMockup.Strip` | central_mockup/central_mockup.py:150 | `str.strip(chars)` gives the slice of the input that starts after the leading run of the set; everything cut off on either side is in the set, and the result neither starts nor ends with a character of the set |
| `CentralMockup.StripEmptyIffBlank` | central_mockup/central_mockup.py:150 | `strip()` gives the empty string iff every character is white space |
| `CentralMockup.ControlRequest` | central_mockup/central_mockup.py:141-152 | the control command is accepted iff `valor` parsed and `parametro` is not blank; an unparsable `valor` is refused whatever `parametro` is; the name is sent unstripped |
| `CentralMockup.PeriodicStartRejection` | central_mockup/central_mockup.py:186-198 | a start is let through iff the message is non-empty and the float interval is not `<= 0` in IEEE terms, otherwise the matching one of three lines is given |
| `CentralMockup.NaNIntervalAccepted` | central_mockup/central_mockup.py:191-195 | a NaN interval passes the `interval <= 0` guard |
| `CentralMockup.UdpBroadcastApp.constructor` | central_mockup/central_mockup.py:14-17 | both flags false, empty queue and display, nothing sent, no worker |
| `CentralMockup.UdpBroadcastApp.Log` | central_mockup/central_mockup.py:103-105 | exactly one line is added at the back of the queue; nothing else changes |
| `CentralMockup.UdpBroadcastApp.ProcessLogQueue` | central_mockup/central_mockup.py:107-115 | the queue ends empty and the log area gains every queued line, in arrival order, each with a newline |
| `CentralMockup.UdpBroadcastApp.SendUdpMessage` | central_mockup/central_mockup.py:123-131 | one `SendLog` line is queued and the payload is added to `sent` iff no exception was raised |
| `CentralMockup.UdpBroadcastApp.SendMessage` | central_mockup/central_mockup.py:133-139 | an empty message logs one line and sends nothing; any other is sent as typed |
| `CentralMockup.UdpBroadcastApp.SendCustomJsonMessage` | central_mockup/central_mockup.py:141-161 | a rejected input logs its line and sends nothing; else exactly the five-field control object with ACK true and actuator 5 goes through one send |
| `CentralMockup.UdpBroadcastApp.SendJsonMessage` | central_mockup/central_mockup.py:163-178 | a rejected `comando` logs its line and sends nothing; else exactly the toggle object goes through one send |
| `CentralMockup.UdpBroadcastApp.StartPeriodicSending` | central_mockup/central_mockup.py:180-205 | while running: the warning line and no state change; a rejected input: its line and flag false; else flag true, a worker with the message and interval, "Envio periódico iniciado." |
| `CentralMockup.UdpBroadcastApp.StopPeriodicSending` | central_mockup/central_mockup.py:207-212 | always: flag false and "Envio periódico parado." logged; the worker is not waited for |
| `CentralMockup.UdpBroadcastApp.StartReceiving` | central_mockup/central_mockup.py:220-231 | while running: the warning line and no state change; else flag true, receiver started, "Recepção iniciada." |
| `CentralMockup.UdpBroadcastApp.StopReceiving` | central_mockup/central_mockup.py:233-238 | always: flag false and "Recepção parada." logged; the worker is not waited for |
| `Comparison.ControlPythonAcceptsLess` | central_mockup/central_mockup.py:144-152 | for the same parsed `valor`, every control command the Python version sends, the C++ version sends too, identically |
| `Comparison.ControlBlankParametro` | central_mockup/central_mockup.py:150-152 | a whitespace-only `parametro` is sent by C++ and refused by Python |
| `Comparison.ControlCheckOrder` | central_mockup/central_mockup.py:143-152 | with both fields wrong, C++ reports `parametro` and Python reports `valor` |
| `Comparison.PeriodicStartAgrees` | central_mockup/central_mockup.py:191-198 | for the same parsed value (a whole number of seconds on both sides), and for an unparsable interval, both versions decide a periodic start alike |

## Left out

- Widgets, layout, button sensitivity, scrolling and the clear button (`on_clear_button_clicked`, `clear_log`): these are presentation only.
- Socket creation, `setsockopt`, `sendto`, `bind`, `recvfrom`, `select` and the timeouts are operating-system I/O. A send is a `status` parameter naming how it ended.
- The worker loops `periodic_send` and `receive_messages` are threads and timing, and so are `join`, `sleep` and the timer that calls the drain every 100 ms. They are not modelled, so neither are the lines the receiver logs. The same goes for the C++ receive buffer, where `buffer[n]` with `n` up to 1024 writes one byte past a 1024-byte array (udp_broadcast.cpp:441-463).
- Concurrency is not modelled: the mutex around the C++ queue, producers pushing while the drain has the lock released, and the unsynchronised reads of the flags by the workers. The model is one sequential caller.
- Text-to-number parsing (`std::stoi`, `std::stod`, Python `int` and `float`) is taken as already done, as `Option` inputs. So the model does not capture that `std::stoi` and `std::stod` accept a numeric prefix and ignore what follows, nor the 32-bit range of `std::stoi`, nor that Python `int` and `float` accept underscores between digits and non-ASCII Unicode digits. The `Comparison` lemmas therefore compare the two versions on the same parsed value, not on the same entry text.
- JSON serialisation (jsoncpp `Json::writeString`, Python `json.dumps`) is a foreign library, so it is the constructor parameter `serialize`. Payloads are field maps.
- CentralMockup.UdpBroadcastApp.SendUdpMessage: an exception raised when the `with` block closes the socket after a successful send would add a second log line. Closing is not modelled, so the contract states one line.
- CentralMockup.UdpBroadcastApp.StartPeriodicSending: the model keeps only the newest Python worker, but an earlier daemon thread keeps running. A stop and a restart within one interval leave the old worker, which wakes to find the flag set again, sending its old message alongside the new one (central_mockup.py:214-218).
- CentralMockup.UdpBroadcastApp.StartReceiving: likewise, a stop and a restart within the 1 s receive timeout leave the old receiver running, and the new thread's `bind` to the same port fails and is logged as a reception error (central_mockup.py:240-256).
- CentralMockup.UdpBroadcastApp.ProcessLogQueue: the call to `root.after` that schedules the next drain is timing and is not modelled.
