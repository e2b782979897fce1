/**
  The board-test task of the ASCII development board (ascii_boardtesting.c): it assigns an ANT
  channel at start-up, then each pass of its Idle state reacts to the four buttons, handles one
  incoming ANT message (a hex dump for data, a 24-bit counter broadcast for a tick) and scrolls
  two lines of text across the LCD.

  LEDs, buttons, the buzzers, the debug port and LcdMessage are collaborators: the model keeps
  the set of lit LEDs, the set of latched button presses, and logs of the audio and LCD calls.
  Of the debug port only the data dump's two prints are logged; the other debug prints are
  output only and are not modelled. IsTimeUp is an input of each step.
*/
module BoardTest {
  import opened Common
  import opened AntApi
  import Lcd

  /** The radio settings of ascii_board_test.h. The channel type, the transmit power and the default
      network key come from ant.h, which is not part of this model: the values are the ANT
      protocol's bidirectional master type, its 0 dBm setting and a zero key. */
  const CHANNEL: byte := 0
  const CHANNEL_TYPE_MASTER: byte := 0x10
  const PERIOD_HI: byte := 0x20
  const PERIOD_LO: byte := 0x00
  const DEVICE_ID_HI: byte := 0x12
  const DEVICE_ID_LO: byte := 0x34
  const DEVICE_TYPE: byte := 0x60
  const TRANSMISSION_TYPE: byte := 0x01
  const NETWORK: byte := 0
  const FREQUENCY: byte := 50
  const TX_POWER_0DBM: byte := 3
  const DEFAULT_NETWORK_KEY: byte := 0

  /** The LEDs of the ASCII board. */
  datatype Led = White | Purple | Blue | Cyan | Green | Yellow | Orange | Red | LcdBlue | LcdGreen | LcdRed

  const COLOUR_LEDS: set<Led> := {White, Purple, Blue, Cyan, Green, Yellow, Orange, Red}
  const BACKLIGHT_LEDS: set<Led> := {LcdRed, LcdGreen, LcdBlue}

  datatype Button = Button0 | Button1 | Button2 | Button3
  const BUTTONS: set<Button> := {Button0, Button1, Button2, Button3}

  datatype Buzzer = Buzzer1 | Buzzer2

  /** One call into the PWM audio driver. */
  datatype AudioCall = SetFrequency(buzzer: Buzzer, hertz: nat) | AudioOn(buzzer: Buzzer) | AudioOff(buzzer: Buzzer)

  /** BoardTest_pfStateMachine. */
  datatype TestState = SetupAnt | Idle | Error

  /*---------------------------------------------------------------------------------------------
    The 24-bit tick counter in bytes 5..7 of the test message
  ---------------------------------------------------------------------------------------------*/

  /** Bytes 5, 6 and 7 of the test message read as a big-endian number. */
  function Counter(m: seq<byte>): nat
    requires |m| == DATA_BYTES
  {
    m[5] as nat * 0x1_0000 + m[6] as nat * 0x100 + m[7] as nat
  }

  /** The u8 increment, which wraps from 255 to 0. */
  function Inc(b: byte): (r: byte)
    ensures r as int == (b as int + 1) % 256
  {
    if b == 255 then 0 else b + 1
  }

  /** The test message one tick later: byte 7 incremented, each wrap to 0 carried into the byte
      above, up to byte 5. */
  function Ticked(m: seq<byte>): (t: seq<byte>)
    requires |m| == DATA_BYTES
    ensures |t| == DATA_BYTES && t[..5] == m[..5]
    ensures Counter(t) == (Counter(m) + 1) % 0x100_0000
  {
    var b7 := Inc(m[7]);
    var b6 := if b7 == 0 then Inc(m[6]) else m[6];
    var b5 := if b7 == 0 && b6 == 0 then Inc(m[5]) else m[5];
    m[5 := b5][6 := b6][7 := b7]
  }

  /** The counter value and the first five bytes determine the whole test message. */
  lemma CounterDetermines(a: seq<byte>, b: seq<byte>)
    requires |a| == DATA_BYTES && |b| == DATA_BYTES
    requires a[..5] == b[..5] && Counter(a) == Counter(b)
    ensures a == b
  {
    // each byte weighs more than all the bytes below it together
    assert a[5] == b[5];
    assert a[6] == b[6];
    assert forall i :: 0 <= i < 5 ==> a[i] == a[..5][i] == b[..5][i] == b[i];
  }

  /*---------------------------------------------------------------------------------------------
    The hex dump of a data message
  ---------------------------------------------------------------------------------------------*/

  /** The value of an upper-case hexadecimal digit. */
  function HexValue(c: byte): int {
    if c <= Char('9') then c as int - '0' as int else c as int - 'A' as int + 10
  }

  /** HexToASCIICharUpper (utilities.c is not part of this model): the upper-case digit of a nibble. */
  function HexUpper(n: nat): (c: byte)
    requires n < 16
    ensures Char('0') <= c <= Char('9') || Char('A') <= c <= Char('F')
    ensures HexValue(c) == n
  {
    if n < 10 then Char('0') + n as byte else Char('A') + (n - 10) as byte
  }

  /** Character `p` of the dump before its line end: two digits and a dash per byte. */
  function DumpChar(data: seq<byte>, p: nat): byte
    requires |data| == DATA_BYTES && p < 3 * DATA_BYTES
  {
    var b := data[p / 3] as nat;
    if p % 3 == 0 then HexUpper(b / 16) else if p % 3 == 1 then HexUpper(b % 16) else Char('-')
  }

  /** au8DataContent: the dump of the eight data bytes, whose last dash gives way to "\n\r" and a NUL. */
  function DataDump(data: seq<byte>): (d: seq<byte>)
    requires |data| == DATA_BYTES
    ensures |d| == 3 * DATA_BYTES + 2
    ensures d[23..] == [Char('\n'), Char('\r'), NUL]
  {
    seq(23, p requires 0 <= p < 23 => DumpChar(data, p)) + [Char('\n'), Char('\r'), NUL]
  }

  /** Reading the dump's digits back gives the data bytes; the dashes separate them. */
  lemma DataDumpDecodes(data: seq<byte>, i: nat)
    requires |data| == DATA_BYTES && i < DATA_BYTES
    ensures HexValue(DataDump(data)[3 * i]) * 16 + HexValue(DataDump(data)[3 * i + 1]) == data[i] as int
    ensures i < DATA_BYTES - 1 ==> DataDump(data)[3 * i + 2] == Char('-')
  {
    var d := DataDump(data);
    assert (3 * i) / 3 == i && (3 * i) % 3 == 0;
    assert (3 * i + 1) / 3 == i && (3 * i + 1) % 3 == 1;
    assert d[3 * i] == DumpChar(data, 3 * i);
    assert d[3 * i + 1] == DumpChar(data, 3 * i + 1);
    if i < DATA_BYTES - 1 {
      assert (3 * i + 2) % 3 == 2;
      assert d[3 * i + 2] == DumpChar(data, 3 * i + 2);
    }
  }

  /** The prefix printed before each dump, au8DataMessage, with the NUL that ends it as a C string
      (the dump carries its own NUL too). */
  const DATA_PREFIX: seq<byte> := Ascii("ANT data: ") + [NUL]

  /*---------------------------------------------------------------------------------------------
    The scrolling LCD text
  ---------------------------------------------------------------------------------------------*/

  const LINE_CHARS: nat := 20
  const ENG_TEXT: seq<byte> := Ascii("ENGENUICS RAZOR     ")
  const MPG_TEXT: seq<byte> := Ascii("ASCII DEV BOARD     ")

  /** Position j moved r places to the right on a line of 20, for r <= 20. */
  function Shift(j: nat, r: nat): nat {
    if j + r < LINE_CHARS then j + r else j + r - LINE_CHARS
  }

  /** A line of text rotated right by `r` places: character j moves to position (j + r) mod 20. */
  function RotatedRight(text: seq<byte>, r: nat): (t: seq<byte>)
    requires |text| == LINE_CHARS && r < LINE_CHARS
    ensures |t| == LINE_CHARS
    ensures forall j :: 0 <= j < LINE_CHARS ==> t[Shift(j, r)] == text[j]
  {
    seq(LINE_CHARS, p requires 0 <= p < LINE_CHARS => text[Shift(p, LINE_CHARS - r)])
  }

  /** The position a character must come from to land on `p` after a rotation by `r`. */
  lemma RotationSource(r: nat, p: nat) returns (j: nat)
    requires r < LINE_CHARS && p < LINE_CHARS
    ensures j < LINE_CHARS && Shift(j, r) == p
  {
    j := if p >= r then p - r else p + LINE_CHARS - r;
  }

  /** Rotating right by r and then by the rest of the line gives the text back. */
  lemma {:induction false} RotatedRightInverse(text: seq<byte>, r: nat)
    requires |text| == LINE_CHARS && r < LINE_CHARS
    ensures RotatedRight(RotatedRight(text, r), if r == 0 then 0 else LINE_CHARS - r) == text
  {
    var s := if r == 0 then 0 else LINE_CHARS - r;
    var once := RotatedRight(text, r);
    var back := RotatedRight(once, s);
    forall j | 0 <= j < LINE_CHARS
      ensures back[j] == text[j]
    {
      var k := Shift(j, r);
      assert once[k] == text[j];
      assert back[Shift(k, s)] == once[k];
    }
  }

  /** u8ResetIndex after a refresh: 0 wraps to 20, anything else counts down. */
  function NextResetIndex(r: nat): (n: nat)
    ensures r <= 20 ==> n <= 20 && n == (r + 20) % 21
  {
    (if r == 0 then 21 else r) - 1
  }

  /** u8ResetIndex after k refreshes from its initial 0. */
  function ResetIndexAfter(k: nat): nat {
    if k == 0 then 0 else NextResetIndex(ResetIndexAfter(k - 1))
  }

  /** The reset index runs 0, 20, 19, ..., 1 and then repeats: after 21 * rounds + m refreshes
      it depends on m alone. */
  lemma {:induction false} ResetIndexCycle(rounds: nat, m: nat)
    requires m < 21
    ensures ResetIndexAfter(21 * rounds + m) == if m == 0 then 0 else 21 - m
    decreases 21 * rounds + m
  {
    if m > 0 {
      ResetIndexCycle(rounds, m - 1);
    } else if rounds > 0 {
      ResetIndexCycle(rounds - 1, 20);
    }
  }

  /*---------------------------------------------------------------------------------------------
    The button cycles
  ---------------------------------------------------------------------------------------------*/

  /** The five steps of the backlight test (0 to 4) and the three of the buzzer test (0 to 2). */
  type Button2Step = x: byte | x <= 4
  type Button3Step = x: byte | x <= 2

  /** u8Button2Test after a press: 0 to 4 and back to 0; any other value stays. */
  function Button2Next(x: byte): (y: byte)
    ensures x <= 4 ==> y <= 4 && y != x
    ensures x > 4 ==> y == x
  {
    if x == 4 then 0 else if x < 4 then x + 1 else x
  }

  /** The backlight LEDs that are on after a BUTTON2 press made in state `x`. */
  function BacklightAfterPress(x: byte): (s: set<Led>)
    requires x <= 4
    ensures s <= BACKLIGHT_LEDS
  {
    if x == 0 then {} else if x == 1 then {LcdRed} else if x == 2 then {LcdGreen}
    else if x == 3 then {LcdBlue} else BACKLIGHT_LEDS
  }

  /** u8Button3Test after a press: 0, 1, 2 and back to 0; any other value stays. */
  function Button3Next(x: byte): (y: byte)
    ensures x <= 2 ==> y <= 2 && y != x
    ensures x > 2 ==> y == x
  {
    if x == 2 then 0 else if x < 2 then x + 1 else x
  }

  /** The audio calls of a BUTTON3 press made in state `x`. */
  function AudioAfterPress(x: byte): (calls: seq<AudioCall>)
    ensures calls == [] <==> x > 2
    ensures x <= 2 ==> AudioOff(if x == 1 then Buzzer2 else Buzzer1) in calls
  {
    if x == 0 then [SetFrequency(Buzzer2, 1000), AudioOff(Buzzer1), AudioOn(Buzzer2)]
    else if x == 1 then [SetFrequency(Buzzer1, 500), AudioOn(Buzzer1), AudioOff(Buzzer2)]
    else if x == 2 then [AudioOff(Buzzer1), AudioOff(Buzzer2)]
    else []
  }

  /** Five BUTTON2 presses walk the backlight through off, red, green, blue and white and return
      to the start; three BUTTON3 presses return to the start. */
  lemma ButtonCycles(x: byte, y: byte)
    requires x <= 4 && y <= 2
    ensures Button2Next(x) <= 4 && Button2Next(x) != x
    ensures Button2Next(Button2Next(Button2Next(Button2Next(Button2Next(x))))) == x
    ensures Button3Next(y) <= 2 && Button3Next(y) != y && Button3Next(Button3Next(Button3Next(y))) == y
    ensures BacklightAfterPress(x) == BacklightAfterPress(Button2Next(Button2Next(Button2Next(
                                        Button2Next(Button2Next(x))))))
    ensures |AudioAfterPress(y)| >= 2
  {
  }

  /** The request the task hands to AntAssignChannel. */
  function BoardTestChannel(): (info: ChannelInfo)
    ensures info.channel == CHANNEL && |info.networkKey| == NETWORK_NUMBER_BYTES
    ensures forall i :: 0 <= i < NETWORK_NUMBER_BYTES ==> info.networkKey[i] == DEFAULT_NETWORK_KEY
  {
    ChannelInfo(CHANNEL, CHANNEL_TYPE_MASTER, PERIOD_HI, PERIOD_LO, DEVICE_ID_HI, DEVICE_ID_LO, DEVICE_TYPE,
                TRANSMISSION_TYPE, FREQUENCY, TX_POWER_0DBM, NETWORK,
                seq(NETWORK_NUMBER_BYTES, _ => DEFAULT_NETWORK_KEY), 0)
  }

  /** The class of the oldest incoming message, Empty when there is none. */
  function HeadClass(messages: seq<AppMessage>): MessageClass {
    if messages == [] then Empty else messages[0].messageType
  }

  /** The ANT side of the Idle state: the channel table, the frames handed to the message queue,
      the application message buffer and the current message, with the debug output, the test
      message and the broadcast buffer. */
  datatype Radio = Radio(table: seq<ChannelInfo>, queueCalls: seq<seq<byte>>, appMessages: seq<AppMessage>,
                         current: AppMessage, debugLog: seq<seq<byte>>, testMessage: seq<byte>,
                         broadcast: seq<byte>)

  /** The BUTTON1 block: a latched press asks to open a closed channel or to close an open one;
      only the channel's flags and the queue change. */
  function Button1After(s: Radio, press: bool): (r: Radio)
    requires CHANNEL as int < |s.table|
    ensures r.(table := s.table, queueCalls := s.queueCalls) == s
    ensures r.appMessages == s.appMessages && r.testMessage == s.testMessage && r.broadcast == s.broadcast
    ensures |r.table| == |s.table| && r.table[CHANNEL].flags == Button1Flags(press, s.table[CHANNEL].flags)
  {
    var c := s.table[CHANNEL];
    s.(table := s.table[CHANNEL := c.(flags := Button1Flags(press, c.flags))],
       queueCalls := s.queueCalls + Button1Requests(press, StatusOf(c.flags)))
  }

  /** The ANT message block: the oldest message, if any, becomes the current one and is handled. */
  function MessageAfter(s: Radio): Radio
    requires |s.testMessage| == DATA_BYTES && |s.broadcast| >= 2
    requires forall x :: x in s.appMessages ==> |x.data| == DATA_BYTES
  {
    if s.appMessages == [] then s
    else Handled(s.(appMessages := s.appMessages[1..], current := s.appMessages[0]))
  }

  /** The handling of the current message: a data message is dumped to the debug output; a tick
      advances the counter of the test message, which is sealed into the broadcast buffer and
      handed to the queue; an empty message changes nothing. */
  function Handled(s: Radio): Radio
    requires |s.testMessage| == DATA_BYTES && |s.broadcast| >= 2 && |s.current.data| == DATA_BYTES
  {
    match s.current.messageType
    case Data => s.(debugLog := s.debugLog + [DATA_PREFIX, DataDump(s.current.data)])
    case Tick =>
      var t := Ticked(s.testMessage);
      var frame := Sealed(s.broadcast[..2] + ([CHANNEL] + t));
      s.(testMessage := t, broadcast := frame, queueCalls := s.queueCalls + [frame])
    case Empty => s
  }

  /** What the ANT message block does, stated outright: the oldest message is popped into the
      current message; only a data message writes debug output; only a tick changes the test
      message, by one count in bytes 5..7, and queues exactly one new frame, a well-formed
      broadcast on the board test channel carrying the new test message. The table never changes. */
  lemma MessageAfterSpec(s: Radio)
    requires |s.testMessage| == DATA_BYTES && |s.broadcast| == 12
    requires forall x :: x in s.appMessages ==> |x.data| == DATA_BYTES
    ensures var r, m := MessageAfter(s), s.appMessages;
            && r.table == s.table
            && r.appMessages == (if m == [] then [] else m[1..])
            && r.current == (if m == [] then s.current else m[0])
            && r.debugLog == s.debugLog + (if HeadClass(m) == Data then [DATA_PREFIX, DataDump(m[0].data)] else [])
    ensures var r := MessageAfter(s);
            HeadClass(s.appMessages) != Tick ==>
              r.testMessage == s.testMessage && r.broadcast == s.broadcast && r.queueCalls == s.queueCalls
  {
  }

  /** A tick message counts the test message up and queues it, sealed, as the new broadcast. */
  lemma MessageAfterTick(s: Radio)
    requires |s.testMessage| == DATA_BYTES && |s.broadcast| == 12
    requires s.broadcast[0] == 9 && s.broadcast[1] == MESG_BROADCAST_DATA_ID
    requires forall x :: x in s.appMessages ==> |x.data| == DATA_BYTES
    ensures var r := MessageAfter(s);
            HeadClass(s.appMessages) == Tick ==>
              && r.testMessage[..5] == s.testMessage[..5]
              && Counter(r.testMessage) == (Counter(s.testMessage) + 1) % 0x100_0000
              && r.queueCalls == s.queueCalls + [r.broadcast]
              && |r.broadcast| == 12 && WellFormedFrame(r.broadcast) && r.broadcast[1] == MESG_BROADCAST_DATA_ID
              && r.broadcast[2] == CHANNEL && r.broadcast[3..11] == r.testMessage
  {
    if HeadClass(s.appMessages) == Tick {
      var body := s.broadcast[..2] + ([CHANNEL] + Ticked(s.testMessage));
      SealedWellFormed(body);
      assert Sealed(body)[3..11] == body[3..11];
    }
  }

  /** The Idle-state statics and outputs that only the BUTTON0, BUTTON2, BUTTON3 and LCD blocks touch. */
  datatype Panel = Panel(lit: set<Led>, button0Test: bool, button2Test: byte, button3Test: byte,
                         audio: seq<AudioCall>, lcdTimer: u32, resetIndex: byte, lcdLog: seq<(byte, seq<byte>)>)

  /** The LcdMessage calls of one LCD refresh with reset index `r`: both lines rotated right by it. */
  function LcdLines(r: nat): seq<(byte, seq<byte>)> {
    [(Lcd.LINE1_START_ADDR, RotatedRight(ENG_TEXT, r % 20) + [NUL]),
     (Lcd.LINE2_START_ADDR, RotatedRight(MPG_TEXT, r % 20) + [NUL])]
  }

  /** BUTTON0, BUTTON2, BUTTON3 and the LCD refresh of one Idle pass, given which of the three
      buttons were latched and whether the 200 ms are up: only the LEDs, the three tests, the audio
      calls and the LCD state change, the LCD state only when the time is up. */
  function PanelAfter(s: Panel, b0: bool, b2: bool, b3: bool, lcdTimeUp: bool, now: u32): (r: Panel)
    requires s.resetIndex <= 20
    ensures r.resetIndex <= 20
    ensures r.lit * BACKLIGHT_LEDS == Button2Leds(s.lit, b2, s.button2Test) * BACKLIGHT_LEDS
    ensures r.lit * COLOUR_LEDS == Button0Leds(s.lit, b0, s.button0Test) * COLOUR_LEDS
    ensures !lcdTimeUp ==> r.lcdTimer == s.lcdTimer && r.resetIndex == s.resetIndex && r.lcdLog == s.lcdLog
  {
    var n: nat := NextResetIndex(s.resetIndex as nat);
    Panel(Button2Leds(Button0Leds(s.lit, b0, s.button0Test), b2, s.button2Test),
          b0 != s.button0Test,
          if b2 then Button2Next(s.button2Test) else s.button2Test,
          if b3 then Button3Next(s.button3Test) else s.button3Test,
          s.audio + (if b3 then AudioAfterPress(s.button3Test) else []),
          if lcdTimeUp then now else s.lcdTimer,
          if lcdTimeUp then n as byte else s.resetIndex,
          if lcdTimeUp then s.lcdLog + LcdLines(s.resetIndex as nat) else s.lcdLog)
  }

  /** The LEDs after the BUTTON0 block, given whether BUTTON0 was latched and the LED test flag
      before it: only the colour LEDs change, all off as the test starts and all on as it ends. */
  function Button0Leds(lit: set<Led>, press: bool, test: bool): (r: set<Led>)
    ensures r * BACKLIGHT_LEDS == lit * BACKLIGHT_LEDS
    ensures press ==> r * COLOUR_LEDS == if test then COLOUR_LEDS else {}
    ensures !press ==> r == lit
  {
    if !press then lit else if test then lit + COLOUR_LEDS else lit - COLOUR_LEDS
  }

  /** The LEDs after the BUTTON2 block: only the backlight changes, to the colour of the new step. */
  function Button2Leds(lit: set<Led>, press: bool, test: byte): (r: set<Led>)
    ensures r * COLOUR_LEDS == lit * COLOUR_LEDS
    ensures press && test <= 4 ==> r * BACKLIGHT_LEDS == BacklightAfterPress(test)
    ensures !press || test > 4 ==> r == lit
  {
    if press && test <= 4 then (lit - BACKLIGHT_LEDS) + BacklightAfterPress(test) else lit
  }

  /** The frames the BUTTON1 block queues for a channel in status `status`: an open request for a
      closed channel, a close request for an open one, nothing otherwise. */
  function Button1Requests(press: bool, status: ChannelStatus): (r: seq<seq<byte>>)
    ensures |r| <= 1 && (r != [] <==> press && (status == Closed || status == Open))
    ensures forall f :: f in r ==> |f| == 4 && WellFormedFrame(f) && f[2] == CHANNEL
                                   && f[1] == if status == Closed then MESG_OPEN_CHANNEL_ID else MESG_CLOSE_CHANNEL_ID
  {
    if press && status == Closed then [RequestFrame(MESG_OPEN_CHANNEL_ID, CHANNEL)]
    else if press && status == Open then [RequestFrame(MESG_CLOSE_CHANNEL_ID, CHANNEL)]
    else []
  }

  /** The channel's flags after the BUTTON1 block: a closed channel gets open-pending and still
      reports closed, an open one gets close-pending and reports closing. */
  function Button1Flags(press: bool, flags: bv8): (r: bv8)
    ensures press && StatusOf(flags) == Closed ==> StatusOf(r) == Closed && r & CHANNEL_OPEN_PENDING != 0
    ensures press && StatusOf(flags) == Open ==> StatusOf(r) == Closing
    ensures !press || (StatusOf(flags) != Closed && StatusOf(flags) != Open) ==> r == flags
  {
    if press && StatusOf(flags) == Closed then
      OpenRequestStillReportsClosed(flags);
      flags | CHANNEL_OPEN_PENDING
    else if press && StatusOf(flags) == Open then
      CloseRequestReportsClosing(flags);
      flags | CHANNEL_CLOSE_PENDING
    else flags
  }

  /*---------------------------------------------------------------------------------------------
    The task
  ---------------------------------------------------------------------------------------------*/

  /** A channel request whose network key holds its eight bytes. */
  type Request = c: ChannelInfo | |c.networkKey| == NETWORK_NUMBER_BYTES
    witness ChannelInfo(0, 0, 0, 0, 0, 0, 0, 0, 0, 0, 0, seq(NETWORK_NUMBER_BYTES, _ => 0), 0)

  class BoardTask {
    /** The ANT API task whose functions this task calls. */
    const ant: Ant
    var state: TestState
    /** BoardTest_u32Timeout and BoardTest_sChannelInfo. */
    var timeout: u32
    var channelInfo: Request
    /** The LEDs that are on. */
    var lit: set<Led>
    /** Button presses the button driver has latched and this task has not yet acknowledged. */
    var pressed: set<Button>
    /** Calls into the PWM audio driver, the strings sent to the debug port and the LcdMessage
        calls (address and buffer), in order. */
    var audio: seq<AudioCall>
    var debugLog: seq<seq<byte>>
    var lcdLog: seq<(byte, seq<byte>)>
    /** The statics of the Idle state. */
    var button0Test: bool
    var button2Test: Button2Step
    var button3Test: Button3Step
    const testMessage: array<byte>
    var resetIndex: byte
    var lcdTimer: u32
    /** bErrorStateEntered of the Error state. */
    var errorEntered: bool

    ghost predicate Valid()
      reads this, ant, ant.Buffers(), testMessage
    {
      && ant.Valid() && testMessage.Length == DATA_BYTES && testMessage !in ant.Buffers()
      && resetIndex <= 20
    }

    /** One pass of the Idle state, from the state before it to the state after it, block by block
        in source order: BUTTON0, BUTTON1, the ANT message, BUTTON2, BUTTON3 and the LCD refresh. */
    twostate predicate IdleTicked(lcdTimeUp: bool, now: u32)
      reads this, ant, ant.currentBytes, ant.broadcastMsg, testMessage
      requires old(Valid()) && ant.broadcastMsg.Length == 12
    {
      var p := old(pressed);
      && pressed == p - BUTTONS
      && RadioState() == MessageAfter(Button1After(old(RadioState()), Button1 in p))
      && PanelState() == PanelAfter(old(PanelState()), Button0 in p, Button2 in p, Button3 in p, lcdTimeUp, now)
    }

    /** The Idle-state statics and outputs that only the BUTTON0, BUTTON2, BUTTON3 and LCD blocks touch. */
    function PanelState(): Panel
      reads this`lit, this`button0Test, this`button2Test, this`button3Test, this`audio, this`lcdTimer,
            this`resetIndex, this`lcdLog
    {
      Panel(lit, button0Test, button2Test, button3Test, audio, lcdTimer, resetIndex, lcdLog)
    }

    /** The ANT side of the Idle state, as one value. */
    function RadioState(): Radio
      reads this`debugLog, ant, ant.currentBytes, ant.broadcastMsg, testMessage
    {
      Radio(ant.table, ant.queueCalls, ant.appMessages, ant.CurrentMessage(), debugLog, testMessage[..],
            ant.broadcastMsg[..])
    }

    /** The LCD refresh: when the 200 ms are up, both lines are written rotated right by the reset
        index and the reset index counts down, wrapping from 0 to 20; otherwise nothing changes. */
    twostate predicate LcdRefreshed(timeUp: bool, now: u32)
      reads this`lcdTimer, this`resetIndex, this`lcdLog
    {
      && (!timeUp ==> lcdTimer == old(lcdTimer) && resetIndex == old(resetIndex) && lcdLog == old(lcdLog))
      && (timeUp ==>
            && lcdTimer == now && resetIndex as nat == NextResetIndex(old(resetIndex) as nat)
            && lcdLog == old(lcdLog) + LcdLines(old(resetIndex) as nat))
    }

    /** The task's static storage at reset, next to the ANT API task `ant`: every static zero, no LED
        lit, no press latched. The state pointer is set by BoardTestInitialize. */
    constructor (ant: Ant)
      requires ant.Valid()
      ensures Valid() && this.ant == ant && fresh(testMessage)
      ensures lit == {} && pressed == {} && audio == [] && debugLog == [] && lcdLog == []
      ensures testMessage[..] == seq(DATA_BYTES, _ => 0)
      ensures !button0Test && button2Test == 0 && button3Test == 0 && resetIndex == 0 && lcdTimer == 0
      ensures !errorEntered && timeout == 0
    {
      this.ant := ant;
      testMessage := new byte[DATA_BYTES](_ => 0);
      channelInfo := ChannelInfo(0, 0, 0, 0, 0, 0, 0, 0, 0, 0, 0, seq(NETWORK_NUMBER_BYTES, _ => 0), 0);
      lit, pressed, audio, debugLog, lcdLog := {}, {}, [], [], [];
      button0Test, button2Test, button3Test := false, 0, 0;
      resetIndex, lcdTimer, errorEntered := 0, 0, false;
      timeout := 0;
      state := SetupAnt;
    }

    /** BoardTestInitialize: all LEDs on, the channel request loaded with every network-key byte set
        to the default, AntAssignChannel called once and the task waiting in SetupAnt. */
    method Initialize(now: u32)
      requires Valid()
      modifies this`lit, this`channelInfo, this`timeout, this`state, ant`table, ant`state, ant`timeoutStart,
               ant.networkKeyMsg, ant.libConfigMsg, ant.assignChannelMsg, ant.channelIdMsg, ant.channelPeriodMsg,
               ant.rfFreqMsg, ant.txPowerMsg, ant.searchTimeoutMsg
      ensures Valid()
      ensures lit == old(lit) + COLOUR_LEDS + BACKLIGHT_LEDS
      ensures channelInfo == BoardTestChannel().(flags := old(channelInfo.flags))
      ensures state == SetupAnt && timeout == now
      // an unconfigured channel: the assignment messages carry the board test channel and the ANT
      // task starts assigning it
      ensures StatusOf(old(ant.table[CHANNEL].flags)) == Unconfigured ==>
                && ant.state == ApiState.AssignChannel && ant.timeoutStart == now
                && ant.table == old(ant.table)[CHANNEL := Mirror(old(ant.table[CHANNEL]), BoardTestChannel())]
                && ant.SetupContents(old(ant.SetupHeaders()), channelInfo)
      ensures StatusOf(old(ant.table[CHANNEL].flags)) != Unconfigured ==>
                && ant.state == old(ant.state) && ant.timeoutStart == old(ant.timeoutStart)
                && ant.table == old(ant.table)
                && unchanged(ant.networkKeyMsg, ant.libConfigMsg, ant.assignChannelMsg, ant.channelIdMsg,
                             ant.channelPeriodMsg, ant.rfFreqMsg, ant.txPowerMsg, ant.searchTimeoutMsg)
    {
      lit := lit + COLOUR_LEDS + BACKLIGHT_LEDS;
      LoadAndRequest(now);
      timeout := now;
      state := SetupAnt;
    }

    /** The channel part of BoardTestInitialize: load the request and hand it to AntAssignChannel. */
    method LoadAndRequest(now: u32)
      requires Valid()
      modifies this`channelInfo, ant`table, ant`state, ant`timeoutStart,
               ant.networkKeyMsg, ant.libConfigMsg, ant.assignChannelMsg, ant.channelIdMsg, ant.channelPeriodMsg,
               ant.rfFreqMsg, ant.txPowerMsg, ant.searchTimeoutMsg
      ensures ant.Valid()
      ensures channelInfo == BoardTestChannel().(flags := old(channelInfo.flags))
      ensures StatusOf(old(ant.table[CHANNEL].flags)) == Unconfigured ==>
                && ant.state == ApiState.AssignChannel && ant.timeoutStart == now
                && ant.table == old(ant.table)[CHANNEL := Mirror(old(ant.table[CHANNEL]), BoardTestChannel())]
                && ant.SetupContents(old(ant.SetupHeaders()), channelInfo)
      ensures StatusOf(old(ant.table[CHANNEL].flags)) != Unconfigured ==>
                && ant.state == old(ant.state) && ant.timeoutStart == old(ant.timeoutStart)
                && ant.table == old(ant.table)
                && unchanged(ant.networkKeyMsg, ant.libConfigMsg, ant.assignChannelMsg, ant.channelIdMsg,
                             ant.channelPeriodMsg, ant.rfFreqMsg, ant.txPowerMsg, ant.searchTimeoutMsg)
    {
      channelInfo := LoadChannel(channelInfo);
      RequestChannel(channelInfo, now);
    }

    /** The AntAssignChannel call of BoardTestInitialize, seen from the board test: the request is
        accepted exactly when its channel was unconfigured, and then mirrored into the table. */
    method RequestChannel(info: ChannelInfo, now: u32)
      requires ant.Valid() && info.channel == CHANNEL && |info.networkKey| == NETWORK_NUMBER_BYTES
      modifies ant`table, ant`state, ant`timeoutStart, ant.networkKeyMsg, ant.libConfigMsg,
               ant.assignChannelMsg, ant.channelIdMsg, ant.channelPeriodMsg, ant.rfFreqMsg, ant.txPowerMsg,
               ant.searchTimeoutMsg
      ensures ant.Valid()
      ensures StatusOf(old(ant.table[CHANNEL].flags)) == Unconfigured ==>
                && ant.state == ApiState.AssignChannel && ant.timeoutStart == now
                && ant.table == old(ant.table)[CHANNEL := Mirror(old(ant.table[CHANNEL]), info)]
                && ant.SetupContents(old(ant.SetupHeaders()), info)
      ensures StatusOf(old(ant.table[CHANNEL].flags)) != Unconfigured ==>
                && ant.state == old(ant.state) && ant.timeoutStart == old(ant.timeoutStart)
                && ant.table == old(ant.table)
                && unchanged(ant.networkKeyMsg, ant.libConfigMsg, ant.assignChannelMsg, ant.channelIdMsg,
                             ant.channelPeriodMsg, ant.rfFreqMsg, ant.txPowerMsg, ant.searchTimeoutMsg)
    {
      var _ := ant.AssignChannel(info, now);
    }

    /** The field-by-field loading of the channel request in BoardTestInitialize, with the
        network key filled byte by byte. */
    static method LoadChannel(current: ChannelInfo) returns (info: ChannelInfo)
      requires |current.networkKey| == NETWORK_NUMBER_BYTES
      ensures info == BoardTestChannel().(flags := current.flags)
    {
      var key := current.networkKey;
      for i := 0 to NETWORK_NUMBER_BYTES
        invariant |key| == NETWORK_NUMBER_BYTES
        invariant forall j :: 0 <= j < i ==> key[j] == DEFAULT_NETWORK_KEY
      {
        key := key[i := DEFAULT_NETWORK_KEY];
      }
      info := current.(channel := CHANNEL, channelType := CHANNEL_TYPE_MASTER, periodLo := PERIOD_LO,
                       periodHi := PERIOD_HI, deviceIdHi := DEVICE_ID_HI, deviceIdLo := DEVICE_ID_LO,
                       deviceType := DEVICE_TYPE, transmissionType := TRANSMISSION_TYPE,
                       frequency := FREQUENCY, txPower := TX_POWER_0DBM, network := NETWORK,
                       networkKey := key);
    }

    /** BoardTestRunActiveState: run the current state once. The Error state is never entered. */
    method RunActiveState(setupTimeUp: bool, queueAccepts: bool, lcdTimeUp: bool, now: u32)
      requires Valid()
      modifies this`state, this`errorEntered, this`pressed, this`lit, this`button0Test, this`button2Test,
               this`button3Test, this`audio, this`debugLog, this`lcdLog, this`resetIndex, this`lcdTimer, testMessage,
               ant`table, ant`queueCalls, ant`appMessages, ant`currentTimeStamp, ant`currentClass, ant`currentExt,
               ant.currentBytes, ant.broadcastMsg
      ensures Valid()
      ensures old(state) == SetupAnt ==>
                state == if StatusOf(ant.table[CHANNEL].flags) == Configured || setupTimeUp then TestState.Idle else SetupAnt
      ensures old(state) == TestState.Idle ==> state == TestState.Idle && errorEntered == old(errorEntered) && IdleTicked(lcdTimeUp, now)
      ensures old(state) == Error ==> state == Error && errorEntered
      // outside Idle, nothing but the state and the error flag changes
      ensures old(state) != TestState.Idle ==>
                pressed == old(pressed) && PanelState() == old(PanelState()) && RadioState() == old(RadioState())
      ensures old(state) != Error ==> state != Error
    {
      match state
      case SetupAnt => SetupAntStep(setupTimeUp);
      case Idle => IdleStep(queueAccepts, lcdTimeUp, now);
      case Error => ErrorStep();
    }

    /** BoardTestSM_SetupAnt: go to Idle once the channel reports configured, or when the 3000 ms
        timeout has elapsed (`timeUp`); otherwise keep waiting. */
    method SetupAntStep(timeUp: bool)
      requires Valid()
      modifies this`state
      ensures Valid()
      ensures state == if StatusOf(ant.table[CHANNEL].flags) == Configured || timeUp then TestState.Idle else old(state)
    {
      if ant.RadioStatusChannel(CHANNEL as nat) == Configured {
        state := TestState.Idle;
      }
      if timeUp {
        state := TestState.Idle;
      }
    }

    /** BoardTestSM_Idle: the button blocks, the ANT message and the LCD refresh, in source order. */
    method IdleStep(queueAccepts: bool, lcdTimeUp: bool, now: u32)
      requires Valid()
      modifies this`pressed, this`lit, this`button0Test, this`button2Test, this`button3Test, this`audio,
               this`debugLog, this`lcdLog, this`resetIndex, this`lcdTimer, testMessage,
               ant`table, ant`queueCalls, ant`appMessages, ant`currentTimeStamp, ant`currentClass, ant`currentExt,
               ant.currentBytes, ant.broadcastMsg
      ensures Valid() && state == old(state) && errorEntered == old(errorEntered)
      ensures IdleTicked(lcdTimeUp, now)
    {
      // BUTTON0 and the radio blocks touch disjoint state, so the radio blocks are run first here
      RadioBlocks(queueAccepts);
      assert PanelState() == old(PanelState());
      ghost var radio := RadioState();
      LocalBlocks(lcdTimeUp, now);
      assert RadioState() == radio;
    }

    /** The BUTTON1 block and the ANT message block. */
    method RadioBlocks(queueAccepts: bool)
      requires Valid()
      modifies this`pressed, this`debugLog, testMessage, ant`table, ant`queueCalls, ant`appMessages,
               ant`currentTimeStamp, ant`currentClass, ant`currentExt, ant.currentBytes, ant.broadcastMsg
      ensures Valid() && pressed == old(pressed) - {Button1}
      ensures state == old(state) && errorEntered == old(errorEntered)
      ensures RadioState() == MessageAfter(Button1After(old(RadioState()), Button1 in old(pressed)))
    {
      Button1Block(queueAccepts);
      AntMessageBlock(queueAccepts);
    }

    /** The blocks that change only the task's own state: BUTTON0, BUTTON2, BUTTON3 and the LCD refresh. */
    method LocalBlocks(lcdTimeUp: bool, now: u32)
      requires Valid()
      modifies this`pressed, this`lit, this`button0Test, this`button2Test, this`button3Test, this`audio,
               this`lcdLog, this`resetIndex, this`lcdTimer
      ensures Valid() && state == old(state) && errorEntered == old(errorEntered)
      ensures pressed == old(pressed) - {Button0, Button2, Button3}
      ensures PanelState() == PanelAfter(old(PanelState()), Button0 in old(pressed), Button2 in old(pressed),
                                         Button3 in old(pressed), lcdTimeUp, now)
    {
      Button0Block();
      PanelBlocks(lcdTimeUp, now);
    }

    /** The BUTTON2 block, the BUTTON3 block and the LCD refresh. */
    method PanelBlocks(lcdTimeUp: bool, now: u32)
      requires resetIndex <= 20
      modifies this`pressed, this`lit, this`button2Test, this`button3Test, this`audio, this`lcdLog, this`resetIndex,
               this`lcdTimer
      ensures resetIndex <= 20
      ensures pressed == old(pressed) - {Button2, Button3}
      ensures button2Test == if Button2 in old(pressed) then Button2Next(old(button2Test)) else old(button2Test)
      ensures button3Test == if Button3 in old(pressed) then Button3Next(old(button3Test)) else old(button3Test)
      ensures resetIndex as nat == if lcdTimeUp then NextResetIndex(old(resetIndex) as nat) else old(resetIndex) as nat
      ensures lit == Button2Leds(old(lit), Button2 in old(pressed), old(button2Test))
      ensures audio == old(audio) + if Button3 in old(pressed) then AudioAfterPress(old(button3Test)) else []
      ensures LcdRefreshed(lcdTimeUp, now)
    {
      Button2Block();
      Button3Block();
      LcdBlock(lcdTimeUp, now);
    }

    /** BUTTON0: flip the LED test; its start turns the colour LEDs off, its end turns them on. */
    method Button0Block()
      modifies this`pressed, this`lit, this`button0Test
      ensures pressed == old(pressed) - {Button0}
      ensures button0Test == ((Button0 in old(pressed)) != old(button0Test))
      ensures lit == Button0Leds(old(lit), Button0 in old(pressed), old(button0Test))
    {
      if Button0 in pressed {
        pressed := pressed - {Button0};
        if button0Test {
          button0Test := false;
          // LedOn on each of the eight colour LEDs
          lit := lit + COLOUR_LEDS;
        } else {
          button0Test := true;
          // LedOff on each of the eight colour LEDs
          lit := lit - COLOUR_LEDS;
        }
      }
    }

    /** BUTTON1: ask to open a closed channel or to close an open one; otherwise do nothing. */
    method Button1Block(queueAccepts: bool)
      requires ant.Valid()
      modifies this`pressed, ant`table, ant`queueCalls
      ensures ant.Valid() && pressed == old(pressed) - {Button1}
      ensures state == old(state) && errorEntered == old(errorEntered)
      ensures RadioState() == Button1After(old(RadioState()), Button1 in old(pressed))
    {
      ghost var before := RadioState();
      if Button1 in pressed {
        pressed := pressed - {Button1};
        ToggleChannel(queueAccepts);
      }
      assert RadioState() == before.(table := ant.table, queueCalls := ant.queueCalls);
    }

    /** The body of the BUTTON1 block: read the board test channel's status, then ask to open it
        if it is closed or to close it if it is open. */
    method ToggleChannel(queueAccepts: bool)
      requires ant.Valid()
      modifies ant`table, ant`queueCalls
      ensures ant.Valid()
      ensures var c := old(ant.table[CHANNEL]);
              && ant.table == old(ant.table)[CHANNEL := c.(flags := Button1Flags(true, c.flags))]
              && ant.queueCalls == old(ant.queueCalls) + Button1Requests(true, StatusOf(c.flags))
    {
      var status := ant.RadioStatusChannel(CHANNEL as nat);
      if status == Closed {
        var _ := ant.OpenChannelNumber(CHANNEL as nat, queueAccepts);
      }
      if status == Open {
        var _ := ant.CloseChannelNumber(CHANNEL as nat, queueAccepts);
      }
    }

    /** Handle the oldest ANT message, if any: print the dump of a data message, or count a tick
        in bytes 5..7 of the test message and broadcast it. */
    method AntMessageBlock(queueAccepts: bool)
      requires ant.Valid() && testMessage.Length == DATA_BYTES && testMessage !in ant.Buffers()
      modifies ant`appMessages, ant`currentTimeStamp, ant`currentClass, ant`currentExt, ant.currentBytes,
               ant.broadcastMsg, ant`queueCalls, testMessage, this`debugLog
      ensures ant.Valid() && state == old(state) && errorEntered == old(errorEntered)
      ensures RadioState() == MessageAfter(old(RadioState()))
    {
      ghost var before := RadioState();
      var found := ant.ReadAppMessageBuffer();
      if found {
        assert RadioState() == before.(appMessages := before.appMessages[1..], current := before.appMessages[0]);
        HandleMessage(queueAccepts);
      }
    }

    /** The body of the ANT message block once a message is current: print the dump of a data
        message, or count a tick and broadcast it. */
    method HandleMessage(queueAccepts: bool)
      requires ant.Valid() && testMessage.Length == DATA_BYTES && testMessage !in ant.Buffers()
      modifies ant.broadcastMsg, ant`queueCalls, testMessage, this`debugLog
      ensures ant.Valid()
      ensures RadioState() == Handled(old(RadioState()))
    {
      if ant.currentClass == Data {
        var content := FormatData(ant.currentBytes);
        debugLog := debugLog + [DATA_PREFIX, content[..]];
      } else if ant.currentClass == Tick {
        BroadcastCount(queueAccepts);
      }
    }

    /** The EVENT_TX branch: count the tick in bytes 5..7 of the test message and queue the
        message as the channel's next broadcast. */
    method BroadcastCount(queueAccepts: bool)
      requires ant.Valid() && testMessage.Length == DATA_BYTES && testMessage !in ant.Buffers()
      modifies testMessage, ant.broadcastMsg, ant`queueCalls
      ensures ant.Valid()
      ensures testMessage[..] == Ticked(old(testMessage[..]))
      ensures ant.broadcastMsg[..] == Sealed(old(ant.broadcastMsg[..2]) + ([CHANNEL] + testMessage[..]))
      ensures ant.queueCalls == old(ant.queueCalls) + [ant.broadcastMsg[..]]
    {
      IncrementCounter(testMessage);
      var _ := ant.QueueBroadcastMessage(CHANNEL, testMessage, queueAccepts);
      assert testMessage[..DATA_BYTES] == testMessage[..];
    }

    /** BUTTON2: step the backlight test and set the three backlight LEDs for the new step. */
    method Button2Block()
      modifies this`pressed, this`lit, this`button2Test
      ensures pressed == old(pressed) - {Button2}
      ensures button2Test == if Button2 in old(pressed) then Button2Next(old(button2Test)) else old(button2Test)
      ensures lit == Button2Leds(old(lit), Button2 in old(pressed), old(button2Test))
    {
      if Button2 in pressed {
        pressed := pressed - {Button2};
        match button2Test
        case 0 =>
          button2Test := 1;
          lit := lit - {LcdRed} - {LcdGreen} - {LcdBlue};
        case 1 =>
          button2Test := 2;
          lit := lit + {LcdRed} - {LcdGreen} - {LcdBlue};
        case 2 =>
          button2Test := 3;
          lit := lit - {LcdRed} + {LcdGreen} - {LcdBlue};
        case 3 =>
          button2Test := 4;
          lit := lit - {LcdRed} - {LcdGreen} + {LcdBlue};
        case 4 =>
          button2Test := 0;
          lit := lit + {LcdRed} + {LcdGreen} + {LcdBlue};
        case _ =>
      }
    }

    /** BUTTON3: step the buzzer test and make its audio calls. */
    method Button3Block()
      modifies this`pressed, this`audio, this`button3Test
      ensures pressed == old(pressed) - {Button3}
      ensures button3Test == if Button3 in old(pressed) then Button3Next(old(button3Test)) else old(button3Test)
      ensures audio == old(audio) + if Button3 in old(pressed) then AudioAfterPress(old(button3Test)) else []
    {
      if Button3 in pressed {
        pressed := pressed - {Button3};
        match button3Test
        case 0 =>
          button3Test := 1;
          audio := audio + [SetFrequency(Buzzer2, 1000)];
          audio := audio + [AudioOff(Buzzer1)];
          audio := audio + [AudioOn(Buzzer2)];
        case 1 =>
          button3Test := 2;
          audio := audio + [SetFrequency(Buzzer1, 500)];
          audio := audio + [AudioOn(Buzzer1)];
          audio := audio + [AudioOff(Buzzer2)];
        case 2 =>
          button3Test := 0;
          audio := audio + [AudioOff(Buzzer1)];
          audio := audio + [AudioOff(Buzzer2)];
        case _ =>
      }
    }

    /** The LCD refresh every 200 ms (`timeUp`): both lines rotated right by the reset index, then
        the reset index counts down, wrapping from 0 to 20. */
    method LcdBlock(timeUp: bool, now: u32)
      requires resetIndex <= 20
      modifies this`lcdTimer, this`resetIndex, this`lcdLog
      ensures resetIndex <= 20
      ensures LcdRefreshed(timeUp, now)
    {
      if timeUp {
        lcdTimer := now;
        var line1, line2 := RotateLines(resetIndex, ENG_TEXT, MPG_TEXT);
        lcdLog := lcdLog + [(Lcd.LINE1_START_ADDR, line1[..]), (Lcd.LINE2_START_ADDR, line2[..])];
        if resetIndex == 0 {
          resetIndex := 21;
        }
        resetIndex := resetIndex - 1;
      }
    }

    /** BoardTestSM_Error: note the entry once (the message itself goes to the debug port). */
    method ErrorStep()
      modifies this`errorEntered
      ensures errorEntered
    {
      if !errorEntered {
        errorEntered := true;
      }
    }

    /** The 24-bit big-endian increment of bytes 5..7, carrying from byte 7 towards byte 5. */
    static method IncrementCounter(m: array<byte>)
      requires m.Length == DATA_BYTES
      modifies m
      ensures m[..] == Ticked(old(m[..]))
    {
      m[7] := Inc(m[7]);
      if m[7] == 0 {
        m[6] := Inc(m[6]);
        if m[6] == 0 {
          m[5] := Inc(m[5]);
        }
      }
    }

    /** The dump loop of the ANT_DATA branch. */
    static method FormatData(bytes: array<byte>) returns (content: array<byte>)
      requires bytes.Length == DATA_BYTES
      ensures fresh(content) && content[..] == DataDump(bytes[..])
    {
      content := new byte[3 * DATA_BYTES + 2];
      for i := 0 to DATA_BYTES
        invariant forall p :: 0 <= p < 3 * i ==> content[p] == DumpChar(bytes[..], p)
      {
        assert (3 * i) / 3 == i && (3 * i + 1) / 3 == i && (3 * i + 2) / 3 == i;
        content[3 * i] := HexUpper(bytes[i] as nat / 16);
        content[3 * i + 1] := HexUpper(bytes[i] as nat % 16);
        content[3 * i + 2] := Char('-');
      }
      content[23] := Char('\n');
      content[24] := Char('\r');
      content[25] := NUL;
    }

    /** The rotation loop: character i of each text goes to u8Index, which starts at the reset
        index and wraps from 20 to 0. */
    static method RotateLines(reset: byte, text1: seq<byte>, text2: seq<byte>)
      returns (line1: array<byte>, line2: array<byte>)
      requires reset <= 20 && |text1| == LINE_CHARS && |text2| == LINE_CHARS
      ensures fresh(line1) && fresh(line2)
      ensures line1[..] == RotatedRight(text1, reset as nat % 20) + [NUL]
      ensures line2[..] == RotatedRight(text2, reset as nat % 20) + [NUL]
    {
      line1 := new byte[LINE_CHARS + 1];
      line2 := new byte[LINE_CHARS + 1];
      line1[20] := NUL;
      line2[20] := NUL;
      var r := reset as nat;
      var index := reset;
      for i := 0 to LINE_CHARS
        invariant index as nat == if i == 0 then r else Shift(i - 1, r) + 1
        invariant forall j :: 0 <= j < i ==> line1[Shift(j, r)] == text1[j]
        invariant forall j :: 0 <= j < i ==> line2[Shift(j, r)] == text2[j]
        invariant line1[20] == NUL && line2[20] == NUL
      {
        if index == 20 {
          index := 0;
        }
        assert index as nat == Shift(i, r);
        line1[index] := text1[i];
        line2[index] := text2[i];
        index := index + 1;
      }
      IsRotation(line1, text1, r);
      IsRotation(line2, text2, r);
    }

    /** A line whose character j sits at Shift(j, r), followed by a NUL, is the rotated text. */
    static lemma IsRotation(line: array<byte>, text: seq<byte>, r: nat)
      requires line.Length == LINE_CHARS + 1 && |text| == LINE_CHARS && r <= 20
      requires forall j :: 0 <= j < LINE_CHARS ==> line[Shift(j, r)] == text[j]
      requires line[20] == NUL
      ensures line[..] == RotatedRight(text, r % 20) + [NUL]
    {
      var q := if r == LINE_CHARS then 0 else r;
      assert q == r % 20;
      var e := RotatedRight(text, q);
      forall p | 0 <= p < LINE_CHARS
        ensures line[p] == e[p]
      {
        var j := RotationSource(q, p);
        assert Shift(j, r) == p;
        assert e[Shift(j, q)] == text[j];
      }
      assert line[..] == e + [NUL];
    }
  }
}
