/** The board-support functions of the dot-matrix board (mpgl2-ehdw-02.c) that have behaviour beyond
    register set-up: the LED configuration table, the system tick reset, the 1 ms timing check and the
    PWM audio channel. Registers are fields; the SysTick interrupt that advances the 1 ms counter is
    outside the model, so the counter is a field its caller sets. */
module Bsp {
  import opened Common

  /*---------------------------------------------------------------------------------------------
    The LED configuration table
  ---------------------------------------------------------------------------------------------*/

  datatype Port = PortA | PortB
  datatype Colour = Red | Green | Blue | Backlight

  /** One row of G_asBspLedConfigurations: which LED it drives, and the port bit that drives it. */
  datatype LedConfiguration = LedConfiguration(colour: Colour, position: nat, port: Port, bit: nat, activeHigh: bool)

  /** The table in LedNameType order: the four red LEDs, the four green, the four blue, then the backlight. */
  const LED_CONFIGURATIONS: seq<LedConfiguration> := [
    LedConfiguration(Red, 0, PortB, 20, true), LedConfiguration(Red, 1, PortB, 17, true),
    LedConfiguration(Red, 2, PortB, 19, true), LedConfiguration(Red, 3, PortB, 18, true),
    LedConfiguration(Green, 0, PortA, 29, true), LedConfiguration(Green, 1, PortB, 2, true),
    LedConfiguration(Green, 2, PortA, 26, true), LedConfiguration(Green, 3, PortA, 7, true),
    LedConfiguration(Blue, 0, PortB, 1, true), LedConfiguration(Blue, 1, PortB, 13, true),
    LedConfiguration(Blue, 2, PortA, 6, true), LedConfiguration(Blue, 3, PortA, 8, true),
    LedConfiguration(Backlight, 0, PortB, 5, true)]

  const U8_TOTAL_LEDS: nat := 13

  /** LedNameType values of the first LED of each colour, and of the backlight. */
  const RED0: nat := 0
  const GREEN0: nat := 4
  const BLUE0: nat := 8
  const LCD_BL: nat := 12

  /** The LedNameType value of LED `position` of a colour: the colour's first LED plus the position. */
  function LedIndex(colour: Colour, position: nat): (i: nat)
    requires colour != Backlight && position < 4
    ensures i < LCD_BL
  {
    (match colour
     case Red => RED0
     case Green => GREEN0
     case Blue => BLUE0) + position
  }

  /** The table has one row per LedNameType value, each colour's LEDs are consecutive in position
      order, and the backlight is the last row. */
  lemma LedTableOrder(colour: Colour, position: nat)
    requires colour != Backlight && position < 4
    ensures |LED_CONFIGURATIONS| == U8_TOTAL_LEDS && LCD_BL == U8_TOTAL_LEDS - 1
    ensures LED_CONFIGURATIONS[LedIndex(colour, position)].colour == colour
    ensures LED_CONFIGURATIONS[LedIndex(colour, position)].position == position
    ensures LED_CONFIGURATIONS[LCD_BL].colour == Backlight
  {
  }

  /*---------------------------------------------------------------------------------------------
    System time
  ---------------------------------------------------------------------------------------------*/

  /** The warning bit of G_u32SystemFlags (main.h is not part of this model: the position is a placeholder). */
  const SYSTEM_TIME_WARNING: u32 := 0x8000_0000

  /** A timing violation: the 1 ms counter did not advance by exactly one, in u32 arithmetic. */
  predicate Violation(previous: u32, now: u32) {
    now - previous != 1
  }

  /** A step is on time exactly when the counter moved to the u32 successor of the previous value,
      which for 0xFFFFFFFF is 0: the wrap-around of the counter is not a violation. */
  lemma OnTimeIsSuccessor(previous: u32, now: u32)
    ensures !Violation(previous, now) <==> now == previous + 1
    ensures !Violation(0xFFFF_FFFF, 0)
  {
  }

  /** The global timers and the static state of SystemTimeCheck. */
  class SystemTime {
    var time1ms: u32          // G_u32SystemTime1ms, advanced by the SysTick interrupt
    var time1s: u32           // G_u32SystemTime1s
    var previousTick: u32     // the static u32PreviousSystemTick
    var violations: u32       // Bsp_u32TimingViolationsCounter
    var systemFlags: u32      // G_u32SystemFlags

    /** Static storage at reset. */
    constructor ()
      ensures time1ms == 0 && time1s == 0 && previousTick == 0 && violations == 0 && systemFlags == 0
    {
      time1ms, time1s, previousTick, violations, systemFlags := 0, 0, 0, 0, 0;
    }

    /** SysTickSetup: both system timers are reset (the SysTick registers are not modelled). */
    method SysTickSetup()
      modifies this`time1ms, this`time1s
      ensures time1ms == 0 && time1s == 0
    {
      time1ms := 0;
      time1s := 0;
    }

    /** SystemTimeCheck: count and flag a step of the 1 ms counter other than one, and remember the
        counter for the next call in every case. */
    method SystemTimeCheck()
      modifies this`previousTick, this`violations, this`systemFlags
      // no flag but the warning changes
      ensures systemFlags & !SYSTEM_TIME_WARNING == old(systemFlags & !SYSTEM_TIME_WARNING)
      ensures previousTick == time1ms
      ensures violations == if Violation(old(previousTick), time1ms) then old(violations) + 1 else old(violations)
      ensures systemFlags == if Violation(old(previousTick), time1ms) then old(systemFlags) | SYSTEM_TIME_WARNING
                             else old(systemFlags)
    {
      if time1ms - previousTick != 1 {
        // the flag is raised before the count here; the two writes are independent
        systemFlags := systemFlags | SYSTEM_TIME_WARNING;
        violations := violations + 1;
      }
      previousTick := time1ms;
    }
  }

  /*---------------------------------------------------------------------------------------------
    PWM audio
  ---------------------------------------------------------------------------------------------*/

  /** BuzzerChannelType values: the channel bits of the PWM controller (the board header is not
      part of this model: the values follow the controller's channel-ID bit order). */
  const BUZZER1: u32 := 0x01
  const BUZZER2: u32 := 0x02

  /** The clock of the PWM channels in Hz (placeholder for the board header's CPRE_CLCK). */
  const CPRE_CLCK: nat := 1_500_000

  /** The PWM controller's status register and the period and duty registers of channel 0, which
      drives BUZZER1. */
  class PwmAudio {
    var status: u32          // PWMC_SR: a bit per running channel
    var period: nat          // PWMC_CPRDR of channel 0
    var duty: nat            // PWMC_CDTYR
    var periodUpdate: nat    // PWMC_CPRDUPDR
    var dutyUpdate: nat      // PWMC_CDTYUPDR

    constructor ()
      ensures status == 0 && period == 0 && duty == 0 && periodUpdate == 0 && dutyUpdate == 0
    {
      status, period, duty, periodUpdate, dutyUpdate := 0, 0, 0, 0, 0;
    }

    /** PWMAudioSetFrequency: for BUZZER1, the period CPRE_CLCK / frequency and half of it as duty go
        to the update registers while the channel runs and to the direct registers while it is
        stopped; any other channel writes nothing. */
    method SetFrequency(channel: u32, frequency: nat)
      // only BUZZER1 divides by the frequency; any other channel returns before the division
      requires channel == BUZZER1 ==> frequency > 0
      requires frequency < 0x1_0000
      modifies this`period, this`duty, this`periodUpdate, this`dutyUpdate
      ensures channel != BUZZER1 ==> period == old(period) && duty == old(duty)
                                     && periodUpdate == old(periodUpdate) && dutyUpdate == old(dutyUpdate)
      ensures channel == BUZZER1 && status & BUZZER1 != 0 ==>
                periodUpdate == CPRE_CLCK / frequency && dutyUpdate == periodUpdate / 2
                && period == old(period) && duty == old(duty)
      ensures channel == BUZZER1 && status & BUZZER1 == 0 ==>
                period == CPRE_CLCK / frequency && duty == period / 2
                && periodUpdate == old(periodUpdate) && dutyUpdate == old(dutyUpdate)
    {
      if channel != BUZZER1 {
        return;
      }
      var channelPeriod := CPRE_CLCK / frequency;
      if status & channel != 0 {
        periodUpdate := channelPeriod;
        dutyUpdate := channelPeriod / 2;
      } else {
        period := channelPeriod;
        duty := channelPeriod / 2;
      }
    }

    /** PWMAudioOn: writing the channel to PWMC_ENA starts it, which the controller shows as the
        channel's bit set in PWMC_SR. */
    method On(channel: u32)
      modifies this`status
      ensures status == old(status) | channel
      // the other channels keep their bits
      ensures status & !channel == old(status & !channel)
    {
      status := status | channel;
    }

    /** PWMAudioOff: writing the channel to PWMC_DIS stops it and clears its bit in PWMC_SR. */
    method Off(channel: u32)
      modifies this`status
      ensures status == old(status) & !channel
      // the other channels keep their bits
      ensures status & !channel == old(status & !channel)
    {
      status := status & !channel;
    }
  }

  /** The period written for a frequency is the number of whole PWM clock cycles in one cycle of the
      tone: `frequency` periods fit in one second of the PWM clock and one more does not. */
  lemma PeriodMatchesFrequency(frequency: nat)
    requires 0 < frequency < 0x1_0000
    ensures (CPRE_CLCK / frequency) * frequency <= CPRE_CLCK < (CPRE_CLCK / frequency + 1) * frequency
    ensures CPRE_CLCK / frequency < 0x1_0000_0000
  {
  }
}
