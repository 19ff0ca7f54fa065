# Smart-room controller (ESP32 sketch) — Dafny model

This project models the state logic of the ESP32 sketch in `src/main.cpp`. The sketch watches a PIR
motion sensor and a photoresistor. It drives a red/green indicator pair and a lamp, and talks
to an MQTT broker. The model covers four parts:

- **Light classification** (`medirLuz`): the 10/200/500/800 threshold ladder maps a raw
  sample to one of five levels. The level's text ("Escuro" … "Muito claro") is published on
  `controle_luminosidade` only when the level differs from the previous one.
- **Motion edge detection** (`loop` and `movimentacao`): the loop shifts the motion status
  into "previous" before taking the new reading. Only a LOW→HIGH or HIGH→LOW change publishes
  "Movimento detectado!" or "Movimento parou!" on `controle_movimento`. It then blinks the
  indicators and latches them.
- **Command interpretation** (`mqtt_callback`): the payload bytes become text. Case-sensitive
  `"L"`/`"D"` switch the lamp. `"Controle luminosidade"`, matched ignoring ASCII case,
  publishes `"Controle de luminosidade: <valorLuz>/4095"`. The sketch formats it into the local
  buffer `msgResposta`, declared with 35 characters. That is one too few for readings of 1000
  and more (see "## Findings"), so the model formats into the corrected 36-character buffer.
  Everything else is ignored.
- **Indicator sequencing** (`piscar`, `movimento`, `parou`): fixed pin patterns.

Modules:

- `Light` (light.dfy): the ladder and the level texts.
- `Ascii` (ascii.dfy): bytes as characters and ASCII case folding.
- `Decimal` (decimal.dfy): `%d` and a decimal reader as its inverse.
- `CText` (ctext.dfy): reading a NUL-terminated buffer.
- `Edges` (edges.dfy): counting changes in a run of readings.
- `Commands` (commands.dfy): payload decoding, dispatch, the report text and the buffer it goes into.
- `Board` (board.dfy): the class `Controller`.

`Controller`'s fields mirror the sketch's globals. The pins are booleans, with HIGH as true.
Four ghost logs sit beside them: every publish (topic, message), every `digitalWrite`, every
motion reading and every computed light level.

The class invariant `Valid` says two things:

- the statuses are the last readings;
- the motion publishes number exactly the changes in `[LOW] + readings`, and the level texts
  published number exactly the changes in `[0] + levels`.

In other words, every edge is published exactly once and nothing else is published on those
counts. Every method states its whole new state: the fields, plus what it appended to the logs.

The pin fields and the write log are related by lemmas, not by the class invariant:

- the writes each operation appends leave each pin exactly at the level its field is given
  (`MotionWritesLevels`, `LampWritesLevels`, `BlinkEndsOccupied`);
- the last write to a pin determines its level (`PinLevel`).

The globals start as C++ zero-initialises them: both light statuses are 0, so a first dark
reading publishes nothing. The pins start LOW.

## Model

| member | source | states |
|---|---|---|
| Light.ClassifyLight | src/main.cpp:238-248 | Total over every integer: the level lies in the band of its cut points (below 10 → 0, 10..199 → 1, 200..499 → 2, 500..799 → 3, 800 and above → 4) |
| Light.BandsDisjoint | src/main.cpp:238-248 | A reading lies in exactly one band, so the ladder's level is the only level whose band contains the reading |
| Light.ClassifyMonotonic | src/main.cpp:238-248 | A larger reading never gives a darker level |
| Light.LevelText | src/main.cpp:251-255 | The published level texts are 5 to 12 characters long |
| Light.LevelTextDistinct | src/main.cpp:251-285 | Each level's text is one of the five level texts, and two levels share a text exactly when they are the same level |
| Ascii.ByteToChar | src/main.cpp:93 | The `(char)` cast keeps the byte's code |
| Ascii.AsText | src/main.cpp:91-95 | The text has one character per byte, each with that byte's code |
| Ascii.ToLowerAscii | src/main.cpp:115 | The folded character is never upper case; upper-case letters move up by 32, to their lower-case letter, and every other character is unchanged |
| Ascii.Lower | src/main.cpp:115 | Folding keeps the length and folds each character |
| Ascii.EqualsIgnoreCase | src/main.cpp:115 | Defines `equalsIgnoreCase`: equal lengths, and the characters agree pairwise after ASCII folding |
| Ascii.EqualsIgnoreCaseIffLower | src/main.cpp:115 | Case-insensitive equality holds exactly when the lower-case foldings are equal |
| Ascii.EqualsIgnoreCaseEquivalence | src/main.cpp:115 | Case-insensitive equality includes plain equality and is symmetric and transitive |
| Decimal.DecimalText | src/main.cpp:117 | `%d` of a non-negative value is a non-empty run of digits with no leading zero unless the value is 0 |
| Decimal.DecimalRoundTrip | src/main.cpp:117 | Reading back the digits `%d` produces gives the original value |
| Decimal.DecimalLength | src/main.cpp:116-117 | A value takes at most k digits exactly when it is below 10^k |
| CText.CString | src/main.cpp:118 | The text read from a buffer is its prefix before the first NUL, and it contains no NUL |
| CText.CStringOfTerminated | src/main.cpp:117-118 | A NUL-free text written at the start of a buffer, followed by a NUL, reads back unchanged |
| Commands.DecodePayload | src/main.cpp:91-95 | The decoded message has exactly `length` characters, each the character of the matching payload byte |
| Commands.Interpret | src/main.cpp:103-119 | The lamp-on command iff the message is exactly "L", lamp-off iff exactly "D", the report iff it equals "Controle luminosidade" ignoring case, ignored iff none of these |
| Commands.LampAfter | src/main.cpp:104-110 | Defines the lamp level a command leaves: HIGH after "L", LOW after "D", unchanged otherwise |
| Commands.LampCommandsCaseSensitive | src/main.cpp:103-112 | "l" and "d" are ignored |
| Commands.ReportRequestIgnoresCase | src/main.cpp:115 | "CONTROLE LUMINOSIDADE" asks for the report; "Controle de luminosidade" is ignored |
| Commands.LampAfterIdempotent | src/main.cpp:104-110 | Applying a command twice leaves the lamp as applying it once; on sets HIGH, off sets LOW, others keep the level |
| Commands.Response | src/main.cpp:117 | The report is 31 characters plus the digits of the reading, has the fixed prefix and "/4095" suffix, its middle reads back as the reading, and it has no NUL |
| Commands.ResponseIsNotLevelText | src/main.cpp:117-118 | A report is never one of the five level texts |
| Commands.ResponseFitsSourceBuffer | src/main.cpp:116-117 | The report and its NUL fit the 35-character `msgResposta` exactly when the reading is below 1000 |
| Commands.SourceBufferOverflowAt1000 | src/main.cpp:116-117 | The report for 1000 is 35 characters, so with its NUL it does not fit 35 |
| Commands.ResponseFitsBuffer | src/main.cpp:116-117 | With 36 characters, the report for every converter reading fits with its NUL |
| Commands.FormatResponse | src/main.cpp:117 | After `sprintf`, the buffer reads back as the report text |
| Commands.ReportText | src/main.cpp:116-118 | The text published for the report request is the report for the reading, formatted into the corrected 36-character buffer (the declared 35 overflows; see "## Findings") |
| Edges.ChangesSnoc | src/main.cpp:259 | One more reading adds one change exactly when it differs from the last reading |
| Edges.ChangesOfSteady | src/main.cpp:259 | A run of equal readings changes at most once, at its start |
| Board.OccupiedWrites | src/main.cpp:194-197 | Defines the writes of `movimento`: red HIGH, then green LOW |
| Board.VacantWrites | src/main.cpp:204-207 | Defines the writes of `parou`: red LOW, then green HIGH |
| Board.BlinkWrites | src/main.cpp:214-227 | Defines the eight writes of `piscar`: the vacant pattern, the occupied pattern, and both again |
| Board.MotionWrites | src/main.cpp:297-313 | Defines the writes of `movimentacao`: none without a change; otherwise the blink followed by `movimento` (new reading HIGH) or `parou` (new reading LOW) |
| Board.MotionReport | src/main.cpp:297-313 | Defines the publishes of `movimentacao`: "Movimento detectado!" on LOW→HIGH, "Movimento parou!" on HIGH→LOW, on `controle_movimento`; none otherwise |
| Board.LevelReport | src/main.cpp:259-285 | Defines the publishes of `medirLuz`: the new level's text on `controle_luminosidade` when the level changed, none otherwise |
| Board.LampWrites | src/main.cpp:103-112 | Defines the writes of a command: the lamp HIGH for "L", LOW for "D", none otherwise |
| Board.CommandReport | src/main.cpp:114-119 | Defines the publishes of a command: the report for the current reading on `controle_luminosidade` for the report request, none otherwise |
| Board.LevelAfterAppend | src/main.cpp:194-227 | Running two batches of pin writes one after the other composes their effects on every pin |
| Board.LevelAfterOthers | src/main.cpp:214-227 | Writes to other pins leave a pin's level unchanged |
| Board.BlinkEndsOccupied | src/main.cpp:214-227 | Whatever came before, the blink ends with red HIGH and green LOW and leaves the lamp alone |
| Board.MotionWritesLevels | src/main.cpp:297-313 | The writes of a motion change leave red at the new reading and green at its opposite; without a change every pin keeps its level; the lamp is never touched |
| Board.LampWritesLevels | src/main.cpp:103-112 | The writes of a command leave the lamp as the command says and the indicators alone |
| Board.ReportsAppend | src/main.cpp:268-309 | Motion publishes and level texts count additively over consecutive parts of the log |
| Board.MotionReportCount | src/main.cpp:297-313 | A motion change publishes exactly one message on the motion topic and steady motion publishes none; never a level text |
| Board.LevelReportCount | src/main.cpp:259-289 | A level change publishes exactly one level text and a steady level none; never on the motion topic |
| Board.CommandReportCount | src/main.cpp:114-119 | Answering a command publishes neither a motion message nor a level text |
| Board.MotionKeepsAccounted | src/main.cpp:338-341 | A motion reading, with its publish, keeps "motion publishes = changes of the readings" |
| Board.LevelKeepsAccounted | src/main.cpp:235-289 | A level, with its publish, keeps "level texts = changes of the levels" |
| Board.CommandKeepsAccounted | src/main.cpp:114-119 | A command's publish keeps both counts |
| Board.Controller.Valid | src/main.cpp:30-34 | The class invariant: the statuses are the last readings, motion publishes number the changes of `[LOW] + readings`, and level texts number the changes of `[0] + levels`, so every edge is published exactly once |
| Board.Controller.constructor | src/main.cpp:30-34 | Zero-initialised statuses and reading, pins LOW, empty logs, invariant established |
| Board.Controller.DigitalWrite | src/main.cpp:195-196 | Sets exactly the written pin and logs the write |
| Board.Controller.Movimento | src/main.cpp:194-197 | Red HIGH, green LOW, lamp unchanged; two writes logged |
| Board.Controller.Parou | src/main.cpp:204-207 | Red LOW, green HIGH, lamp unchanged; two writes logged |
| Board.Controller.Piscar | src/main.cpp:214-227 | Logs the eight blink writes and ends red HIGH, green LOW, lamp unchanged, from any starting state |
| Board.Controller.Movimentacao | src/main.cpp:297-313 | On LOW→HIGH: one "Movimento detectado!" publish, red HIGH, green LOW. On HIGH→LOW: one "Movimento parou!", red LOW, green HIGH. With no change: no publish and LEDs unchanged |
| Board.Controller.MedirLuz | src/main.cpp:234-291 | Saves the old level, stores the ladder's level, and publishes that level's text on the light topic iff it differs from the saved level |
| Board.Controller.SenseMotion | src/main.cpp:338-341 | The motion half of the loop: shifts the status, reports the edge, keeps the invariant |
| Board.Controller.SenseLight | src/main.cpp:358 | The light half of the loop: classifies the reading, reports a level change, keeps the invariant |
| Board.Controller.Tick | src/main.cpp:336-358 | One loop pass: the new statuses, the motion then the light publishes, the LED result, and the lamp unchanged; keeps "each edge published exactly once" |
| Board.Controller.PublishReport | src/main.cpp:115-118 | Appends exactly the report for the current reading on the light topic and keeps the invariant |
| Board.Controller.Apply | src/main.cpp:102-119 | The lamp after a command, its write and its publish (the report carries `valorLuz`), with the LEDs unchanged; keeps the invariant |
| Board.Controller.Callback | src/main.cpp:86-121 | For exactly `length` payload bytes, the lamp, write log and publish log follow the interpreted command; the LEDs are unchanged and the invariant is kept |

## Left out

- Commands.ReportText, Board.Controller.PublishReport, Board.Controller.Apply: the buffer is the
  corrected 36 characters. The sketch's 35-character buffer overflows for readings of 1000 and
  more (see "## Findings"), and the model does not capture what that overflow does.
- Connectivity is not modelled: `initWiFi`, `initMQTT`, `reconnectWiFi`, `reconnectMQTT` and
  `VerificaConexoesWiFIEMQTT`. These are network I/O through libraries outside this model,
  with unbounded retry loops. Publishing is an append to the ghost log.
- `MQTT.loop` is not modelled. It is where the library delivers inbound messages, and it runs
  after `medirLuz` in every pass. `Callback` is therefore a separate method, called between
  `Tick`s.
- `delay` and the loop cadence are not modelled: they are timing with no effect on the state.
- `Serial` output is not modelled. That includes the `valorLuz + " - "` print, which offsets a
  string pointer: it is debug output only.
- `setup` is not modelled: `pinMode`, and `digitalRead`/`analogRead` themselves. The readings
  are `Tick`'s parameters. `raw` is an `AdcSample` (0..4095), and the PIR reading is a boolean.
- `Tick` assigns `valorLuz` before the motion half rather than between the two readings. The
  motion half does not read it, so the resulting state is the same.
- `Callback` does not consult its `topic` parameter, and neither does the sketch.
- Case folding covers ASCII only. Bytes above 127 compare by code.
- A payload byte equal to zero is compared as an ordinary character. How the `String` library
  compares texts that embed a NUL is not part of this model.
- Board.Controller.Valid does not state that the pin fields equal the levels the write log
  leaves. That agreement is proved per operation by Board.MotionWritesLevels,
  Board.LampWritesLevels and Board.BlinkEndsOccupied. The fields themselves are proved by
  each method's postconditions.

## Findings

| source | as written | input that shows it | evidently intended | confidence | as-written member | corrected member |
|---|---|---|---|---|---|---|
| src/main.cpp:116-117 | `msgResposta` holds 35 characters. The report `"Controle de luminosidade: %d/4095"` is 31 characters plus the digits of `valorLuz`, and `sprintf` also writes a NUL | `valorLuz` = 1000 (any reading from 1000 to 4095): 35 characters plus the NUL need 36 | a buffer large enough for every 12-bit reading, at least 36 characters | high (not executed) | Commands.SourceBufferOverflowAt1000 | Commands.ResponseFitsBuffer |
