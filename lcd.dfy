/**
  The driver of the NHD-C0220BiZ character LCD (lcd_nhd-c0220biz.c): the builders of the I2C
  payloads that carry one command, a text or a run of spaces, each a control byte followed by
  its data, kept in static buffers and handed to the TWI driver.
*/
module Lcd {
  import opened Common

  /** Constants of the LCD header (not part of this model); the values follow the display's data sheet. */
  const LCD_ADDRESS: byte := 0x3C
  const LCD_CONTROL_COMMAND: byte := 0x00
  const LCD_CONTROL_DATA: byte := 0x40
  const LCD_ADDRESS_CMD: byte := 0x80
  const LINE1_START_ADDR: byte := 0x00
  const LINE2_START_ADDR: byte := 0x40
  /** U8_LCD_MESSAGE_OVERHEAD_SIZE + U8_LCD_MAX_MESSAGE_SIZE: the control byte and 40 characters. */
  const MESSAGE_BUFFER_SIZE: nat := 41

  /** One call of TwiWriteData: the device address, the bytes it was given and whether it ends in a stop. */
  datatype TwiWrite = TwiWrite(device: byte, bytes: seq<byte>, stop: bool)

  /** The payload LcdCommand sends for `command`. */
  function CommandFrame(command: byte): (w: TwiWrite)
    ensures w.device == LCD_ADDRESS && w.stop && |w.bytes| == 2
    ensures w.bytes[0] == LCD_CONTROL_COMMAND && w.bytes[1] == command
  {
    TwiWrite(LCD_ADDRESS, [LCD_CONTROL_COMMAND, command], true)
  }

  /** The payload that shows `text` at the cursor: the data control byte, then the characters. */
  function DataFrame(text: seq<byte>): (w: TwiWrite)
    ensures w.device == LCD_ADDRESS && w.stop && |w.bytes| == |text| + 1
    ensures w.bytes[0] == LCD_CONTROL_DATA && w.bytes[1..] == text
  {
    TwiWrite(LCD_ADDRESS, [LCD_CONTROL_DATA] + text, true)
  }

  /** `count` space characters. */
  function Spaces(count: nat): (s: seq<byte>)
    ensures |s| == count && forall i :: 0 <= i < count ==> s[i] == Char(' ')
  {
    seq(count, _ => Char(' '))
  }

  /** The command that moves the cursor to `address`. */
  function AddressCommand(address: byte): byte {
    Or(LCD_ADDRESS_CMD, address)
  }

  /** Lcd_pfnStateMachine: the driver has a single state. */
  datatype LcdState = Idle

  class LcdDriver {
    /** au8LCDWriteCommand of LcdCommand. */
    const commandBuffer: array<byte>
    /** The static au8LCDMessage of LcdMessage. */
    const messageBuffer: array<byte>
    /** The static au8LCDMessage of LcdClearChars, a separate buffer. */
    const clearBuffer: array<byte>
    /** Every call of TwiWriteData, in order (the TWI driver is not part of this model). */
    var twiLog: seq<TwiWrite>
    var state: LcdState
    /** Lcd_u32Timer. */
    var timer: u32

    /** The buffers keep their control byte: no call writes index 0. */
    ghost predicate Valid()
      reads this, commandBuffer, messageBuffer, clearBuffer
    {
      && commandBuffer.Length == 2 && messageBuffer.Length == MESSAGE_BUFFER_SIZE
      && clearBuffer.Length == MESSAGE_BUFFER_SIZE
      && commandBuffer != messageBuffer && commandBuffer != clearBuffer && messageBuffer != clearBuffer
      && commandBuffer[0] == LCD_CONTROL_COMMAND && messageBuffer[0] == LCD_CONTROL_DATA
      && clearBuffer[0] == LCD_CONTROL_DATA
    }

    /** The static storage at start-up: the buffers hold their control byte, the rest zero. */
    constructor ()
      ensures Valid() && twiLog == [] && fresh(commandBuffer) && fresh(messageBuffer) && fresh(clearBuffer)
    {
      commandBuffer := new byte[2](i => if i == 0 then LCD_CONTROL_COMMAND else 0);
      messageBuffer := new byte[MESSAGE_BUFFER_SIZE](i => if i == 0 then LCD_CONTROL_DATA else 0);
      clearBuffer := new byte[MESSAGE_BUFFER_SIZE](i => if i == 0 then LCD_CONTROL_DATA else 0);
      twiLog := [];
      state := Idle;
      timer := 0;
    }

    /** LcdCommand: queue the control byte and the command (the start-up delay loop is not modelled). */
    method Command(command: byte)
      requires Valid()
      modifies commandBuffer, this`twiLog
      ensures Valid()
      ensures twiLog == old(twiLog) + [CommandFrame(command)]
    {
      commandBuffer[1] := command;
      assert commandBuffer[..] == [LCD_CONTROL_COMMAND, command];
      twiLog := twiLog + [TwiWrite(LCD_ADDRESS, commandBuffer[..], true)];
    }

    /** LcdMessage: move the cursor, then queue the C string `message` behind the data control byte.
        The copy loop has no bound: the characters must fit in the static buffer. */
    method Message(address: byte, message: seq<byte>)
      requires Valid() && NUL in message && |CString(message)| + 1 <= MESSAGE_BUFFER_SIZE
      modifies commandBuffer, messageBuffer, this`twiLog
      ensures Valid()
      ensures twiLog == old(twiLog) + [CommandFrame(AddressCommand(address)), DataFrame(CString(message))]
    {
      Command(AddressCommand(address));
      ghost var text := CString(message);
      assert |text| < |message|;
      var index := 1;
      var k := 0;
      while message[k] != NUL
        invariant 0 <= k <= |text| < |message| && index == k + 1
        invariant messageBuffer[1..index] == text[..k]
        invariant Valid() && twiLog == old(twiLog) + [CommandFrame(AddressCommand(address))]
        decreases |text| - k
      {
        messageBuffer[index] := message[k];
        index, k := index + 1, k + 1;
      }
      assert k == |text|;
      assert messageBuffer[..index] == [LCD_CONTROL_DATA] + text;
      twiLog := twiLog + [TwiWrite(LCD_ADDRESS, messageBuffer[..index], true)];
    }

    /** LcdClearChars: move the cursor, then queue `count` spaces behind the data control byte. */
    method ClearChars(address: byte, count: byte)
      requires Valid() && count as int + 1 <= MESSAGE_BUFFER_SIZE
      modifies commandBuffer, clearBuffer, this`twiLog
      ensures Valid()
      ensures twiLog == old(twiLog) + [CommandFrame(AddressCommand(address)), DataFrame(Spaces(count as nat))]
    {
      Command(AddressCommand(address));
      for i := 0 to count as int
        invariant clearBuffer[1..i + 1] == Spaces(i)
        invariant Valid() && twiLog == old(twiLog) + [CommandFrame(AddressCommand(address))]
      {
        clearBuffer[i + 1] := Char(' ');
      }
      assert clearBuffer[..count as int + 1] == [LCD_CONTROL_DATA] + Spaces(count as nat);
      twiLog := twiLog + [TwiWrite(LCD_ADDRESS, clearBuffer[..count as int + 1], true)];
    }

    /** LcdInitialize, without the reset pin, the start-up waits and the controller set-up traffic:
        select Idle, restart the timer and report the LCD ready in the application flags. */
    method Initialize(now: u32, applicationFlags: u32) returns (flags: u32)
      modifies this`state, this`timer
      ensures state == Idle && timer == now
      ensures flags & APPLICATION_FLAGS_LCD != 0
      ensures flags & !APPLICATION_FLAGS_LCD == applicationFlags & !APPLICATION_FLAGS_LCD
    {
      state := Idle;
      timer := now;
      flags := applicationFlags | APPLICATION_FLAGS_LCD;
    }

    /** LcdRunActiveState: LcdSM_Idle does nothing. */
    method RunActiveState()
      requires Valid()
      ensures Valid() && twiLog == old(twiLog) && state == old(state)
    {
      match state
      case Idle =>
    }
  }

  /** What a message frame shows: the text up to the terminator, so a text without NUL comes back whole. */
  lemma MessageFrameShowsText(text: seq<byte>)
    requires NUL !in text
    ensures DataFrame(CString(text + [NUL])).bytes[1..] == text
  {
    CStringOfTerminated(text, []);
    assert text + [NUL] + [] == text + [NUL];
  }
}
