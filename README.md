# EiE firmware core, modelled in Dafny

This project models the behavioural core of the Engenuics "Embedded in Embedded" development-board
firmware:

- **ANT API** (`ant_api.c`). Each application keeps a table of ANT channel settings. The API turns
  a request to assign a channel into eight ANT protocol configuration messages and queues them one at
  a time. A small state machine follows each message's response and stops on a timeout. The API also:
  - opens, closes and unassigns channels, depending on the status encoded in each channel's flags;
  - seals broadcast and acknowledged data frames with the XOR checksum of section 7.1 of the ANT
    Message Protocol and Usage document;
  - hands incoming application messages to the user one at a time;
  - formats an RSSI value as three ASCII characters.
- **Board test application** (`ascii_boardtesting.c`):
  - BUTTON0 toggles the colour LEDs;
  - BUTTON1 opens or closes the test channel;
  - BUTTON2 cycles the LCD backlight colours;
  - BUTTON3 cycles the buzzers;
  - received ANT data is dumped as hex;
  - every ANT tick bumps a 24-bit counter in the broadcast payload;
  - two LCD lines scroll every 200 ms.
- **User application 1** (`user_app1.c`): shows a 4-bit counter on the dot-matrix board's LED rows,
  in a colour taken from a seven-row colour table.
- **LCD driver** (`lcd_nhd-c0220biz.c`): command, message and clear-characters writes as I²C (TWI)
  frames.
- **Heap break hook** `_sbrk` (`sbrk.c`).
- **Board-support functions** (`mpgl2-ehdw-02.c`) that do more than write registers:
  - the LED configuration table and its order;
  - SysTickSetup;
  - the 1 ms timing check;
  - the PWM audio frequency, on and off operations.

How the C code maps into Dafny:

- Imperative code is modelled imperatively. Each module's static state becomes the fields of a
  class: `AntApi.Ant`, `BoardTest.BoardTask`, `UserApp1.UserApp1Task`, `Lcd.LcdDriver`,
  `Sbrk.Heap`, `Bsp.SystemTime` and `Bsp.PwmAudio`.
- Fixed buffers (the ANT message arrays, the board test's test message, the LCD buffers) are
  `array<byte>`.
- Every state machine step is a method whose contract states the new state. That contract refers to
  specification functions such as `AntApi.AssignStep`, `BoardTest.DataDump`,
  `UserApp1.Pattern` and `UserApp1.AdvanceCorrected`, and the properties of those functions are
  proved as lemmas.
- Calls into code that is not part of the model become parameters or logs:
  - the outgoing ANT queue is a log of queued frames, and whether the queue accepts is a parameter;
  - `IsTimeUp` results are boolean parameters;
  - button presses are a set;
  - LED, buzzer and LCD calls are logs or sets;
  - of the debug port, only the board test's data dump (its two DebugPrintf calls) is logged.
- Module map:
  - `common.dfy`: bytes, ASCII and C strings;
  - `ant_api.dfy`: the ANT API;
  - `board_test.dfy`: the board test;
  - `user_app1.dfy`: user application 1;
  - `lcd.dfy`: the LCD driver;
  - `sbrk.dfy`: `_sbrk`;
  - `bsp.dfy`: the board-support functions.

Where the C code and its design notes disagree, the model follows the code:

- The power message's channel byte is never written.
- After an error response, the assignment sequencer's index keeps its value, so a retry resumes mid-sequence.
- User application 1's colour index passes the end of its table (see Findings).

## Model

| member | source | states |
|---|---|---|
| Common.Ascii | firmware_common/application/ascii_boardtesting.c:203-204 | the bytes of an ASCII literal are its characters' codes, one per character |
| Common.Char | firmware_common/drivers/ant_api.c:665-689 | a character literal's byte is its code |
| Common.CString | firmware_ascii/drivers/lcd_nhd-c0220biz.c:150-154 | the text a C string pointer denotes is the prefix before the first NUL; it contains no NUL, and it is the whole buffer or is followed by a NUL |
| Common.CStringOfTerminated | firmware_ascii/drivers/lcd_nhd-c0220biz.c:150-154 | a NUL-free text followed by NUL reads back as exactly that text, whatever follows |
| AntApi.Mirror | firmware_common/drivers/ant_api.c:192-256 | assigning a channel copies every setting of the request into the channel's table entry but keeps the entry's own channel number and flags |
| AntApi.Checksum | firmware_common/drivers/ant_api.c:190-201 | the checksum the AntCalculateTxChecksum calls at these lines fill in, over the first n bytes, taken as the ANT protocol's: the sync byte XOR-ed with each byte; ChecksumPrefix states that only those bytes matter |
| AntApi.TxChecksum | firmware_common/drivers/ant_api.c:190-201 | the value of each AntCalculateTxChecksum call at these lines: Checksum over the whole frame body |
| AntApi.WellFormedFrame | firmware_common/drivers/ant_api.c:192-256 | a frame whose size byte counts its data bytes and whose last byte is its checksum; SealedWellFormed and RequestFrame establish it |
| AntApi.ChecksumPrefix | firmware_common/drivers/ant_api.c:192-256 | the checksum over the first n bytes depends only on those bytes |
| AntApi.Sealed | firmware_common/drivers/ant_api.c:192-256 | sealing a message keeps its bytes and appends the XOR checksum of them |
| AntApi.SealedWellFormed | firmware_common/drivers/ant_api.c:192-256 | a sealed message whose size byte matches its length is a well-formed frame (size byte consistent, checksum valid) |
| AntApi.RequestFrame | firmware_common/drivers/ant_api.c:292-296 | an unassign/open/close request is a well-formed 4-byte frame with the message id and channel in place |
| AntApi.StatusOf | firmware_common/drivers/ant_api.c:488-510 | channel status from flags: unconfigured iff the configured bit is clear, closing iff close-pending, open iff the open bit is set and no close is pending, closed otherwise; never "opening" |
| AntApi.OpenRequestStillReportsClosed | firmware_common/drivers/ant_api.c:353-354 | after an open request sets the open-pending bit, the channel still reports closed |
| AntApi.CloseRequestReportsClosing | firmware_common/drivers/ant_api.c:458-459 | after a close request sets the close-pending bit, an open channel reports closing |
| AntApi.DbmAscii | firmware_common/drivers/ant_api.c:657-693 | the dBm text is a sign character (+, space for zero, -) followed by two decimal digits |
| AntApi.DbmAsciiRoundTrip | firmware_common/drivers/ant_api.c:657-693 | the text reads back as the RSSI value clamped to -99..99 |
| AntApi.AssignStep | firmware_common/drivers/ant_api.c:782-838 | one tick of the assignment sequencer keeps its message index within the eight setup messages |
| AntApi.AssignStepSpec | firmware_common/drivers/ant_api.c:782-838 | per tick: the current message is queued iff none is pending; a matching response without error always advances the index (by one, or back to 0 after the eighth) whether or not time is up, and only such a response moves it; CONFIGURED is set iff the eighth message succeeds; an error response ends the round keeping the index; the round ends iff configured, timed out or answered with an error |
| AntApi.AssignStepQueuesFirst | firmware_common/drivers/ant_api.c:789-794 | with no message pending, the tick queues exactly the current message and waits for its response |
| AntApi.AssignStepCountsQueued | firmware_common/drivers/ant_api.c:782-838 | a tick queues at most one message, the next index in order and only when none was pending; while the round goes on the count of sent messages grows by what was queued, and configuring happens only once all eight were sent |
| AntApi.AssignRun | firmware_common/drivers/ant_api.c:782-838 | a run of ticks keeps the sequencer's index in range |
| AntApi.AssignRunInOrder | firmware_common/drivers/ant_api.c:782-838 | over any run of ticks the setup messages are queued in table order without gaps or repeats, and the channel is configured only after all eight were queued |
| AntApi.RangeSplit | firmware_common/drivers/ant_api.c:118-121 | consecutive index ranges concatenate |
| AntApi.RetryAfterErrorResumesMidSequence | firmware_common/drivers/ant_api.c:815-821 | after an error response the index stays at the failed message, so a later assignment resumes there |
| AntApi.RetryAfterTimeoutQueuesNothing | firmware_common/drivers/ant_api.c:830-836 | a timeout returns to idle with the message still pending, so the next assignment queues nothing until that message's response arrives |
| AntApi.Ant.constructor | firmware_common/drivers/ant_api.c:714-728 | the API's static state: all channels unconfigured, no message queued, sequencer at the first message, state idle |
| AntApi.Ant.NewBuffers | firmware_common/drivers/ant_api.c:98-108 | the setup, broadcast and acknowledged message arrays with their sizes and headers |
| AntApi.Ant.NewBuffer | firmware_common/drivers/ant_api.c:98-108 | one message array with its size and id header |
| AntApi.Ant.AssignChannel | firmware_common/drivers/ant_api.c:182-263 | succeeds iff the channel is unconfigured; then the table entry mirrors the request, all eight setup messages hold its settings sealed with checksums, the timeout restarts and the state becomes assign-channel; otherwise nothing changes |
| AntApi.Ant.Configure | firmware_common/drivers/ant_api.c:192-261 | the accepted branch of the assignment: table entry, setup messages, timeout and state as above |
| AntApi.Ant.FillSetup | firmware_common/drivers/ant_api.c:192-256 | the setup messages are filled from the request and keep their headers |
| AntApi.Ant.FillSetupMessages | firmware_common/drivers/ant_api.c:192-256 | each setup message holds exactly the request fields the source writes, sealed; the power message's channel byte is kept as it was |
| AntApi.Ant.SetupContentsWellFormed | firmware_common/drivers/ant_api.c:192-256 | filled setup messages are well-formed frames with their headers |
| AntApi.Ant.Seal | firmware_common/drivers/ant_api.c:192-256 | writing values after a header and then the checksum yields the sealed message |
| AntApi.Ant.FillNetworkKey | firmware_common/drivers/ant_api.c:195-201 | the network key message holds the network number and the eight key bytes, sealed |
| AntApi.Ant.Request | firmware_common/drivers/ant_api.c:335-358 | a request is queued, and its pending flag set, iff the channel has the required status; otherwise nothing changes |
| AntApi.Ant.UnassignChannelNumber | firmware_common/drivers/ant_api.c:281-299 | queues the unassign frame iff the channel is closed, and reports whether the queue accepted it |
| AntApi.Ant.OpenChannelNumber | firmware_common/drivers/ant_api.c:335-358 | queues the open frame and sets open-pending iff the channel is configured and closed |
| AntApi.Ant.OpenScanningChannel | firmware_common/drivers/ant_api.c:392-409 | the same on channel 0 with the scanning-open frame |
| AntApi.Ant.CloseChannelNumber | firmware_common/drivers/ant_api.c:443-463 | queues the close frame and sets close-pending iff the channel is open |
| AntApi.Ant.QueueBroadcastMessage | firmware_common/drivers/ant_api.c:528-541 | the broadcast frame holds the channel and the eight data bytes, sealed, and is queued; the result is the queue's answer |
| AntApi.Ant.QueueAcknowledgedMessage | firmware_common/drivers/ant_api.c:557-569 | the same for the acknowledged frame |
| AntApi.Ant.ReadAppMessageBuffer | firmware_common/drivers/ant_api.c:603-636 | reports a message iff one is waiting; then the oldest one's class, channel and bytes become current and it is removed; otherwise nothing changes |
| AntApi.Ant.Initialize | firmware_common/drivers/ant_api.c:714-728 | the API starts idle iff the ANT application flag is set, and otherwise stays in failed-init |
| AntApi.Ant.AssignChannelStep | firmware_common/drivers/ant_api.c:782-838 | one assign-channel tick of the object follows AssignStep: index, pending message, table and state |
| AntApi.Ant.QueueNextSetupMessage | firmware_common/drivers/ant_api.c:789-794 | queues the current setup message and remembers its id as pending |
| AntApi.Ant.HandleSetupResponse | firmware_common/drivers/ant_api.c:797-836 | handles a response or timeout exactly as AssignStep does, marking the channel configured after the last message |
| AntApi.Ant.SetupIdsMatch | firmware_common/drivers/ant_api.c:118-121 | the k-th setup message carries the k-th message id of the sequence |
| AntApi.Ant.RunActiveState | firmware_common/drivers/ant_api.c:746-771 | idle and failed-init leave table, queue, sequencer and state as they were; the assign-channel state makes exactly the AssignStep tick of AssignChannelStep |
| Lcd.CommandFrame | firmware_ascii/drivers/lcd_nhd-c0220biz.c:99-115 | a command write goes to the LCD address: the command control byte, then the command |
| Lcd.DataFrame | firmware_ascii/drivers/lcd_nhd-c0220biz.c:142-160 | a data write goes to the LCD address: the data control byte, then the text |
| Lcd.Spaces | firmware_ascii/drivers/lcd_nhd-c0220biz.c:181-198 | count space characters |
| Lcd.LcdDriver.constructor | firmware_ascii/drivers/lcd_nhd-c0220biz.c:101-184 | the three static message buffers (command, message and clear-characters) hold their control bytes, are distinct, and nothing has been written yet |
| Lcd.LcdDriver.Command | firmware_ascii/drivers/lcd_nhd-c0220biz.c:99-115 | exactly one command frame is written |
| Lcd.LcdDriver.Message | firmware_ascii/drivers/lcd_nhd-c0220biz.c:142-160 | a set-address command, then a data frame holding the message up to its NUL |
| Lcd.LcdDriver.ClearChars | firmware_ascii/drivers/lcd_nhd-c0220biz.c:181-198 | a set-address command, then a data frame of that many spaces |
| Lcd.LcdDriver.Initialize | firmware_ascii/drivers/lcd_nhd-c0220biz.c:217-263 | the LCD application flag is raised, every other flag is kept, the timer starts and the driver goes idle |
| Lcd.LcdDriver.RunActiveState | firmware_ascii/drivers/lcd_nhd-c0220biz.c:281-301 | the idle state writes nothing and stays idle |
| Lcd.MessageFrameShowsText | firmware_ascii/drivers/lcd_nhd-c0220biz.c:142-160 | the data frame of a NUL-terminated message carries exactly the text |
| BoardTest.Inc | firmware_common/application/ascii_boardtesting.c:309-317 | a u8 increment wraps 255 to 0 |
| BoardTest.Ticked | firmware_common/application/ascii_boardtesting.c:309-318 | the test message one tick later keeps its first five bytes and its 24-bit counter goes up by one modulo 2^24 |
| BoardTest.CounterDetermines | firmware_common/application/ascii_boardtesting.c:309-318 | the three counter bytes are the 24-bit counter, so two messages with the same head and counter are equal |
| BoardTest.HexUpper | firmware_common/application/ascii_boardtesting.c:295-296 | a nibble becomes an upper-case hex digit denoting that nibble |
| BoardTest.DataDump | firmware_common/application/ascii_boardtesting.c:293-301 | the dump has 26 characters ending with newline, carriage return and NUL |
| BoardTest.DataDumpDecodes | firmware_common/application/ascii_boardtesting.c:293-301 | each data byte reads back from its two hex digits, and all but the last are followed by '-' |
| BoardTest.RotatedRight | firmware_common/application/ascii_boardtesting.c:417-429 | the scrolled line moves character j to position (j + r) mod 20 |
| BoardTest.RotationSource | firmware_common/application/ascii_boardtesting.c:417-429 | every position of the scrolled line is filled from some character |
| BoardTest.RotatedRightInverse | firmware_common/application/ascii_boardtesting.c:417-429 | scrolling by r and then by 20 - r restores the text |
| BoardTest.NextResetIndex | firmware_common/application/ascii_boardtesting.c:432-439 | from 0..20 the next index is again in 0..20 and is the index minus one modulo 21 (0 goes to 20) |
| BoardTest.ResetIndexCycle | firmware_common/application/ascii_boardtesting.c:432-439 | the scroll index cycles 0, 20, 19, …, 1, 0 with period 21 |
| BoardTest.BacklightAfterPress | firmware_common/application/ascii_boardtesting.c:328-373 | each BUTTON2 state lights only backlight LEDs |
| BoardTest.Button2Next | firmware_common/application/ascii_boardtesting.c:323-374 | a step 0..4 moves to a different step 0..4; any other value stays |
| BoardTest.Button3Next | firmware_common/application/ascii_boardtesting.c:376-410 | a step 0..2 moves to a different step 0..2; any other value stays |
| BoardTest.AudioAfterPress | firmware_common/application/ascii_boardtesting.c:376-410 | a press in steps 0..2 makes audio calls, always including turning off the buzzer that the new step does not sound; any other value makes none |
| BoardTest.ButtonCycles | firmware_common/application/ascii_boardtesting.c:324-410 | BUTTON2 cycles through five backlight states and BUTTON3 through three buzzer states, each press changing the state; every BUTTON3 press makes at least two buzzer calls |
| BoardTest.BoardTestChannel | firmware_common/application/ascii_boardtesting.c:106-123 | the board test channel settings, with the default network key in all eight bytes |
| BoardTest.Button0Leds | firmware_common/application/ascii_boardtesting.c:212-245 | BUTTON0 changes only the colour LEDs: all off as the test starts, all on as it ends; no press, no change |
| BoardTest.Button2Leds | firmware_common/application/ascii_boardtesting.c:323-374 | BUTTON2 changes only the backlight LEDs, to the colour of the step pressed in; no press, no change |
| BoardTest.Button1Requests | firmware_common/application/ascii_boardtesting.c:251-266 | BUTTON1 queues one frame iff pressed on a closed or open channel: a well-formed 4-byte open request for a closed channel, a close request for an open one |
| BoardTest.Button1Flags | firmware_common/application/ascii_boardtesting.c:251-266 | BUTTON1 sets open-pending on a closed channel, which still reports closed, and close-pending on an open one, which then reports closing; otherwise the flags stay |
| BoardTest.Button1After | firmware_common/application/ascii_boardtesting.c:251-266 | the BUTTON1 block on the ANT side changes only the channel's flags and the queue |
| BoardTest.MessageAfterSpec | firmware_common/application/ascii_boardtesting.c:287-321 | the ANT message block pops the oldest message into the current one; only a data message writes its hex dump; the table never changes; without a tick the test message, broadcast and queue stay |
| BoardTest.MessageAfterTick | firmware_common/application/ascii_boardtesting.c:306-320 | a tick keeps the first five bytes, counts the 24-bit counter up modulo 2^24 and queues exactly one well-formed broadcast frame on the board test channel carrying the new test message |
| BoardTest.PanelAfter | firmware_common/application/ascii_boardtesting.c:212-440 | the reset index stays in 0..20; the colour LEDs follow BUTTON0 and the backlight follows BUTTON2; without the LCD timer the LCD timer, index and writes stay |
| BoardTest.BoardTask.constructor | firmware_common/application/ascii_boardtesting.c:194-210 | the task's static state at reset: LED test off, backlight and buzzer tests at 0, reset index, timers and error flag zero, an all-zero test message, no LED lit and no press latched |
| BoardTest.BoardTask.Initialize | firmware_common/application/ascii_boardtesting.c:89-131 | all LEDs on, the board test channel loaded, the timer started and the state setup-ANT; an unconfigured channel is mirrored into the table, the eight assignment messages carry its settings, and the ANT task starts assigning with its timeout restarted; otherwise the ANT table, messages, state and timeout are unchanged |
| BoardTest.BoardTask.LoadAndRequest | firmware_common/application/ascii_boardtesting.c:106-129 | the request holds the board test channel and AntAssignChannel's outcome is as in RequestChannel |
| BoardTest.BoardTask.RequestChannel | firmware_common/application/ascii_boardtesting.c:126-129 | AntAssignChannel's outcome seen from the task: for an unconfigured channel the table entry mirrors the request, the assignment messages carry it and the ANT task starts assigning; otherwise the ANT state and messages are unchanged |
| BoardTest.BoardTask.LoadChannel | firmware_common/application/ascii_boardtesting.c:106-123 | the setup structure holds the board test channel |
| BoardTest.BoardTask.RunActiveState | firmware_common/application/ascii_boardtesting.c:149-187 | setup-ANT leaves for idle iff the channel is configured or time is up; idle stays idle and makes one full Idle pass (IdleTicked); error stays error with its entry flag set; outside idle nothing but the state and the error flag changes; the test never enters error on its own |
| BoardTest.BoardTask.SetupAntStep | firmware_common/application/ascii_boardtesting.c:166-187 | goes idle iff the channel is configured or time is up |
| BoardTest.BoardTask.IdleStep | firmware_common/application/ascii_boardtesting.c:192-442 | every latched press is acknowledged; the ANT side is BUTTON1's request followed by the message block (MessageAfter of Button1After) and the LEDs, tests, audio and LCD state follow PanelAfter; the state and the error flag are kept |
| BoardTest.BoardTask.RadioBlocks | firmware_common/application/ascii_boardtesting.c:251-321 | BUTTON1 is acknowledged; channel table, queue, message buffer, current message, debug output, test message and broadcast are exactly MessageAfter of Button1After of the state before |
| BoardTest.BoardTask.LocalBlocks | firmware_common/application/ascii_boardtesting.c:212-440 | BUTTON0, BUTTON2 and BUTTON3 are acknowledged and the LEDs, tests, audio and LCD state become PanelAfter of what they were |
| BoardTest.BoardTask.PanelBlocks | firmware_common/application/ascii_boardtesting.c:323-440 | BUTTON2 and BUTTON3 are acknowledged and advance their tests; the backlight LEDs show the new BUTTON2 step, the BUTTON3 audio calls are appended, and the LCD lines, timer and index follow the refresh iff the timer expired |
| BoardTest.BoardTask.Button0Block | firmware_common/application/ascii_boardtesting.c:212-245 | a press flips the LED test; the colour LEDs turn on or off with it |
| BoardTest.BoardTask.Button1Block | firmware_common/application/ascii_boardtesting.c:251-266 | a press opens a closed channel (open-pending, still reported closed) and closes an open one (close-pending, reported closing), queueing that one frame; any other status, or no press, changes only the acknowledgement |
| BoardTest.BoardTask.ToggleChannel | firmware_common/application/ascii_boardtesting.c:253-266 | the channel's flags become Button1Flags and the queue gains Button1Requests for its status |
| BoardTest.BoardTask.AntMessageBlock | firmware_common/application/ascii_boardtesting.c:287-321 | the ANT side becomes MessageAfter of what it was: the oldest message is consumed; data is dumped in hex to the debug log; a tick bumps the counter and queues a broadcast |
| BoardTest.BoardTask.HandleMessage | firmware_common/application/ascii_boardtesting.c:289-320 | the ANT side becomes Handled of what it was: a data message is dumped, a tick is counted and broadcast |
| BoardTest.BoardTask.BroadcastCount | firmware_common/application/ascii_boardtesting.c:306-320 | the test message is Ticked, the broadcast buffer holds it sealed on the board test channel, and exactly that frame is queued |
| BoardTest.BoardTask.Button2Block | firmware_common/application/ascii_boardtesting.c:323-374 | a press advances the backlight state and shows its colour |
| BoardTest.BoardTask.Button3Block | firmware_common/application/ascii_boardtesting.c:376-410 | a press advances the buzzer state and makes its buzzer calls |
| BoardTest.BoardTask.LcdBlock | firmware_common/application/ascii_boardtesting.c:413-440 | when the timer expires, both lines are written scrolled by the index and the index steps down cyclically; otherwise nothing changes |
| BoardTest.BoardTask.ErrorStep | firmware_common/application/ascii_boardtesting.c:447-458 | the error state is entered |
| BoardTest.BoardTask.IncrementCounter | firmware_common/application/ascii_boardtesting.c:309-318 | the counter bytes count up by one modulo 2^24 and the first five bytes are kept |
| BoardTest.BoardTask.FormatData | firmware_common/application/ascii_boardtesting.c:291-301 | the buffer holds the hex dump of the data bytes |
| BoardTest.BoardTask.RotateLines | firmware_common/application/ascii_boardtesting.c:417-429 | both line buffers hold their text scrolled by the index, NUL-terminated |
| BoardTest.BoardTask.IsRotation | firmware_common/application/ascii_boardtesting.c:417-429 | a buffer filled position by position is the scrolled text |
| Bsp.LedIndex | firmware_dotmatrix/bsp/mpgl2-ehdw-02.c:29-41 | the LED of a colour and position lies below the backlight entry |
| Bsp.LedTableOrder | firmware_dotmatrix/bsp/mpgl2-ehdw-02.c:29-41 | 13 entries; the LED of each colour and position has that colour and position, and the backlight is last |
| Bsp.Violation | firmware_dotmatrix/bsp/mpgl2-ehdw-02.c:271 | a timing violation: the u32 difference of the two readings is not 1 |
| Bsp.OnTimeIsSuccessor | firmware_dotmatrix/bsp/mpgl2-ehdw-02.c:271-275 | a step is on time iff the counter reached the u32 successor, so the wrap to 0 is on time |
| Bsp.SystemTime.constructor | firmware_dotmatrix/bsp/mpgl2-ehdw-02.c:266-287 | timers, counter and flags start at zero |
| Bsp.SystemTime.SysTickSetup | firmware_dotmatrix/bsp/mpgl2-ehdw-02.c:240-250 | both system timers are reset |
| Bsp.SystemTime.SystemTimeCheck | firmware_dotmatrix/bsp/mpgl2-ehdw-02.c:266-287 | a violation is counted and flagged iff the counter did not advance by one; no other flag changes; the tick is remembered |
| Bsp.PwmAudio.SetFrequency | firmware_dotmatrix/bsp/mpgl2-ehdw-02.c:386-425 | for BUZZER1, period clock/frequency and half duty go to the update registers while running and to the direct registers otherwise; any other channel, at any frequency including 0, changes nothing |
| Bsp.PwmAudio.On | firmware_dotmatrix/bsp/mpgl2-ehdw-02.c:447-452 | the channel's status bit is set and the other channels keep theirs |
| Bsp.PwmAudio.Off | firmware_dotmatrix/bsp/mpgl2-ehdw-02.c:472-477 | the channel's status bit is cleared and the other channels keep theirs |
| Bsp.PeriodMatchesFrequency | firmware_dotmatrix/bsp/mpgl2-ehdw-02.c:409 | the period is the number of whole clock cycles per tone cycle and fits in 32 bits |
| UserApp1.RowLedsMembers | firmware_common/application/user_app1.c:190-233 | an LED is lit by a row iff it is a table entry other than NONE, shifted by the bit position |
| UserApp1.RowLeds | firmware_common/application/user_app1.c:192-200 | the LEDs a pass over a colour row lights at an offset; RowLedsMembers characterises them |
| UserApp1.BitLeds | firmware_common/application/user_app1.c:190-233 | the LEDs counter bit k lights: the row at column 3 - k when the bit is set |
| UserApp1.Pattern | firmware_common/application/user_app1.c:190-233 | the union of the four bits' LEDs; PatternMembers, PatternLedNames and PatternBelowBacklight state it |
| UserApp1.PatternMembers | firmware_common/application/user_app1.c:190-233 | an LED is in the pattern iff some set counter bit and some colour of the row light it |
| UserApp1.PatternLedNames | firmware_common/application/user_app1.c:176-233 | counter bit k lights LED position 3-k in each colour of the row |
| UserApp1.PatternBelowBacklight | firmware_common/application/user_app1.c:176-233 | the pattern never touches the backlight |
| UserApp1.AdvanceCorrected | firmware_common/application/user_app1.c:234-249 | the blink, counter and colour counters stay in range |
| UserApp1.AdvanceAsWritten | firmware_common/application/user_app1.c:244-247 | the step as written agrees with the corrected one except on the call that leaves row 6, where it moves the index to 7, past the table |
| UserApp1.TicksAt | firmware_common/application/user_app1.c:234-249 | after round·4000 + k·250 + b calls the clock reads (b, k, round) |
| UserApp1.ColorCycle | firmware_common/application/user_app1.c:234-249 | round r of 4000 calls shows colour row r, and after 28000 calls the clock restarts |
| UserApp1.RowSevenReached | firmware_common/application/user_app1.c:244-247 | as written, 28000 calls leave the colour index at 7, past the table, with the counter 0; 250 calls later the counter is 1, so call 28251 is the first to read row 7 |
| UserApp1.LastCallOfRowSix | firmware_common/application/user_app1.c:234-249 | the call that ends row 6 moves to index 7 as written and to 0 when corrected |
| UserApp1.Below | firmware_common/application/user_app1.c:185-188 | the LED indices below n |
| UserApp1.UserApp1Task.constructor | firmware_common/application/user_app1.c:93-134 | the counters start at zero, state unset |
| UserApp1.UserApp1Task.Initialize | firmware_common/application/user_app1.c:93-134 | every LED is off and the task goes idle |
| UserApp1.UserApp1Task.RunActiveState | firmware_common/application/user_app1.c:152-156 | idle performs one idle step; error changes nothing |
| UserApp1.UserApp1Task.IdleStep | firmware_common/application/user_app1.c:169-276 | the colour LEDs show exactly the counter pattern of the current row, the backlight is untouched, and the clock advances |
| UserApp1.UserApp1Task.ClearColourLeds | firmware_common/application/user_app1.c:185-188 | every LED but the backlight is off |
| UserApp1.UserApp1Task.ShowCounter | firmware_common/application/user_app1.c:190-233 | the counter pattern is lit |
| UserApp1.UserApp1Task.LightRow | firmware_common/application/user_app1.c:192-200 | the row's LEDs at the bit position are lit |
| UserApp1.UserApp1Task.Advance | firmware_common/application/user_app1.c:234-249 | the clock advances as corrected |
| Sbrk.Accepts | firmware_common/bsp/sbrk.c:17-18 | the request is not rejected by either test: the new break neither passes the heap's end nor goes below its start |
| Sbrk.AcceptsIffInside | firmware_common/bsp/sbrk.c:17-18 | a request is accepted iff the new break stays inside the heap |
| Sbrk.Heap.constructor | firmware_common/bsp/sbrk.c:14 | the break starts at the heap start |
| Sbrk.Heap.Sbrk | firmware_common/bsp/sbrk.c:16-26 | accepted: returns the old break and moves it; rejected: returns -1, sets errno to ENOMEM, keeps the break; -1 is returned exactly on rejection, since no heap address is negative; the break stays inside the heap |
| Sbrk.TwoRequests | firmware_common/bsp/sbrk.c:16-26 | two successive `_sbrk` calls: when both are accepted the second region starts where the first ends and both lie inside the heap, with the break at the end of the second; when only the second is rejected the break stays at the end of the first |

## Left out

- The board set-up functions (ClockSetup, GpioSetup, WatchDogSetup, PWMSetupAudio, SystemSleep) and the SysTick interrupt handler: register writes and an interrupt with no behaviour to state; the 1 ms counter is a field its caller sets.
- LCD initialisation's reset pin, waits and TWI traffic, and LcdCommand's spin delay: timing and hardware only; Initialize models only the flag, timer and state.
- configuration.h, main.h, ant_api.h, ant.h, the board header and board_cstartup_gcc.c are not part of this model. Their constants are placeholders: CPRE_CLCK, BUZZER1/BUZZER2, SYSTEM_TIME_WARNING, the CHANNEL_* flag bits, CHANNEL_SCANNING (ANT_CHANNEL_SCANNING, on which the open frame's channel byte depends), the search timeout, the application flag bits and ENOMEM (newlib's value).
- The ANT driver in ant.c (its queue, the message parsing that fills the application message list and the SPI transport): not part of this model. The queue is a log of frames with an accepts parameter, and incoming messages are a list.
- IsTimeUp, WasButtonPressed/ButtonAcknowledge, LedOn/LedOff, PWMAudio calls from the board test and LcdMessage calls: modelled as parameters, sets and logs rather than calls into those drivers.
- DebugPrintf: only the data dump's two calls (ascii_boardtesting.c:303-304) are logged, each as its C string with the ending NUL. The other debug prints are output only and are not modelled. These include the board test's prints at ascii_boardtesting.c:128, 171-174, 183 and 454, and every print in ant_api.c (:187, :288, :342, :399, :450, :719, :807-808, :819-820, :833-834).
- BoardTest.HexUpper: HexToASCIICharUpper is defined in utilities.c, which is not part of this model. It is assumed to map 0..15 to '0'..'9', 'A'..'F'.
- The 1 ms time budget of each state machine: timing.
- AntApi.Checksum: AntCalculateTxChecksum is defined in ant.c, which is not part of this model; the checksum is assumed to be the ANT protocol's (the sync byte 0xA4 XOR-ed with every byte of the frame), not read from the code.
- AntApi.Ant.AssignChannelStep: the source indexes the channel table with the response's channel on the eighth success without checking it (ant_api.c:806); the model requires the driver to report a channel below the channel count in that case, and RunActiveState requires it only then.
- AntApi.RadioStatusChannel: a lookup of the table entry through StatusOf, which carries the contract.
- BoardTest.BoardTask.LcdBlock: the static u8Index is a local, since it is written before every read.
- Sbrk.Heap.Sbrk: addresses are unbounded integers; the width of intptr_t and pointer wrap-around are not modelled.
- UserApp1.UserApp1Task.IdleStep: follows the corrected colour-index reset (see Findings); UserApp1.AdvanceAsWritten models the code as written.
- UserApp1.UserApp1Task.Advance: the step of IdleStep, so it too follows the corrected reset rather than `u8ColorIndex > 7`.
- Lcd.LcdDriver.Initialize: the three LedOn calls that turn the backlight white (lcd_nhd-c0220biz.c:252-254) are not modelled; the LCD driver keeps no LED state.
- Bsp.PwmAudio.constructor: the registers start at zero, the controller's reset state; the initial values PWMSetupAudio writes are left out with the other set-up functions.
- Bsp.SystemTime.SystemTimeCheck: the optional debug print of a violation is output only; the flag is raised before the counter is incremented, which touches disjoint state.
- BoardTest.BoardTask.IdleStep: the BUTTON1 and ANT message blocks run before the BUTTON0 block; they touch disjoint state, so the composed result is the source order's (IdleTicked states it block by block in source order).
- The audio block that follows BUTTON1 in BoardTestSM_Idle (ascii_boardtesting.c:268-282) sits under `#if 0` and is not compiled, so it is not modelled.

## Findings

| source | as written | input that shows it | evidently intended | confidence | as-written member | corrected member |
|---|---|---|---|---|---|---|
| firmware_common/application/user_app1.c:244-247 | the colour index is reset only when `u8ColorIndex > 7` | after 28000 idle calls from start-up (the 28000th has blink 249, counter 15, index 6) the clock is blink 0, counter 0, index 7; with counter 0 no row is read, and after call 28250 the counter is 1, so call 28251 reads row 7 of the seven-row colour table for bit 0 | reset when the index reaches the table's seven rows | not executed | UserApp1.RowSevenReached | UserApp1.AdvanceCorrected |
