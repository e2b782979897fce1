/** User application 1 of the dot-matrix board: a 4-bit counter shown on the four columns of RGB
    LEDs. Every Idle call clears the LEDs, lights the colours of the current colour row on the
    columns whose counter bit is set, and advances three nested counters: the blink count (250 calls),
    the 4-bit counter (16 steps) and the colour row. LedOn/LedOff are modelled by the set of lit
    LedNameType values. */
module UserApp1 {
  import opened Bsp

  /*---------------------------------------------------------------------------------------------
    The colour table and the LEDs lit for one counter value
  ---------------------------------------------------------------------------------------------*/

  /** The table marker for "no LED of this colour". */
  const NONE: nat := 0xFF

  /** aau8Color: red, yellow, green, cyan, blue, purple and white, as the first LED of each colour
      that makes it up. */
  const COLOR_TABLE: seq<seq<nat>> := [
    [RED0, NONE, NONE], [RED0, GREEN0, NONE], [NONE, GREEN0, NONE], [NONE, GREEN0, BLUE0],
    [NONE, NONE, BLUE0], [RED0, NONE, BLUE0], [RED0, GREEN0, BLUE0]]

  /** The counter bits tested in order; bit k lights the LEDs of column 3 - k. */
  const BIT_MASKS: seq<bv8> := [0x01, 0x02, 0x04, 0x08]

  /** `counter & mask` is non-zero. */
  predicate Bit(counter: nat, mask: bv8)
    requires counter < 256
  {
    (counter as bv8) & mask != 0
  }

  /** The LEDs a pass over the first n entries of a colour row lights at an offset: every entry
      other than NONE, moved by the offset. */
  function RowLeds(row: seq<nat>, offset: nat, n: nat): set<nat>
    requires n <= |row|
  {
    if n == 0 then {} else RowLeds(row, offset, n - 1) + (if row[n - 1] != NONE then {row[n - 1] + offset} else {})
  }

  /** The LEDs lit for counter bit k: the row's entries moved to column 3 - k, when the bit is set. */
  function BitLeds(counter: nat, row: seq<nat>, k: nat): set<nat>
    requires counter < 256 && |row| == 3 && k < 4
  {
    if Bit(counter, BIT_MASKS[k]) then RowLeds(row, 3 - k, 3) else {}
  }

  /** The LEDs an Idle call lights for a counter value and a colour row. */
  function Pattern(counter: nat, row: seq<nat>): set<nat>
    requires counter < 256 && |row| == 3
  {
    BitLeds(counter, row, 0) + BitLeds(counter, row, 1) + BitLeds(counter, row, 2) + BitLeds(counter, row, 3)
  }

  /** A pass over a row lights exactly the entries other than NONE, each moved by the offset. */
  lemma {:induction false} RowLedsMembers(row: seq<nat>, offset: nat, n: nat, i: nat)
    requires n <= |row|
    ensures i in RowLeds(row, offset, n) <==> exists j :: 0 <= j < n && row[j] != NONE && i == row[j] + offset
  {
    if n > 0 {
      RowLedsMembers(row, offset, n - 1, i);
      if i in RowLeds(row, offset, n) && i !in RowLeds(row, offset, n - 1) {
        assert row[n - 1] != NONE && i == row[n - 1] + offset;
      }
    }
  }

  /** An LED is lit for a counter value exactly when some set counter bit k and some entry of the
      row other than NONE put it at that entry plus 3 - k. */
  lemma PatternMembers(counter: nat, row: seq<nat>, i: nat)
    requires counter < 256 && |row| == 3
    ensures i in Pattern(counter, row) <==>
              exists k, j :: 0 <= k < 4 && 0 <= j < 3 && Bit(counter, BIT_MASKS[k]) && row[j] != NONE
                             && i == row[j] + (3 - k)
  {
    RowLedsMembers(row, 3, 3, i);
    RowLedsMembers(row, 2, 3, i);
    RowLedsMembers(row, 1, 3, i);
    RowLedsMembers(row, 0, 3, i);
  }

  /** The LED lit for bit k and a row entry is the entry's colour at column 3 - k (RED0 + 3 is
      RED3, and so on), so no lit LED reaches the backlight. */
  lemma PatternLedNames(counter: nat, c: nat, k: nat, j: nat)
    requires counter < 256 && c < |COLOR_TABLE| && k < 4 && j < 3
    requires Bit(counter, BIT_MASKS[k]) && COLOR_TABLE[c][j] != NONE
    ensures COLOR_TABLE[c][j] + (3 - k) in Pattern(counter, COLOR_TABLE[c])
    ensures COLOR_TABLE[c][j] + (3 - k) < LCD_BL
    ensures LED_CONFIGURATIONS[COLOR_TABLE[c][j] + (3 - k)].colour == LED_CONFIGURATIONS[COLOR_TABLE[c][j]].colour
    ensures LED_CONFIGURATIONS[COLOR_TABLE[c][j] + (3 - k)].position == 3 - k
  {
    PatternMembers(counter, COLOR_TABLE[c], COLOR_TABLE[c][j] + (3 - k));
  }

  /** Every LED lit from a row of the table is a colour LED, below the backlight. */
  lemma PatternBelowBacklight(counter: nat, c: nat)
    requires counter < 256 && c < |COLOR_TABLE|
    ensures forall i :: i in Pattern(counter, COLOR_TABLE[c]) ==> i < LCD_BL
  {
    forall i | i in Pattern(counter, COLOR_TABLE[c])
      ensures i < LCD_BL
    {
      PatternMembers(counter, COLOR_TABLE[c], i);
    }
  }

  /*---------------------------------------------------------------------------------------------
    The nested counters
  ---------------------------------------------------------------------------------------------*/

  /** u16BlinkCount, u8Counter and u8ColorIndex. */
  datatype Clock = Clock(blinkCount: nat, counter: nat, colorIndex: nat)

  const BLINK_PERIOD: nat := 250
  const COUNTER_STEPS: nat := 16

  /** The counters after one Idle call, when the colour index is reset once it reaches `rows`. */
  function Advance(c: Clock, rows: nat): Clock {
    if c.blinkCount + 1 != BLINK_PERIOD then c.(blinkCount := c.blinkCount + 1)
    else if c.counter + 1 != COUNTER_STEPS then Clock(0, c.counter + 1, c.colorIndex)
    else Clock(0, 0, if c.colorIndex + 1 >= rows then 0 else c.colorIndex + 1)
  }

  /** The counters after n Idle calls from their initial zeros. */
  function Ticks(n: nat, rows: nat): Clock {
    if n == 0 then Clock(0, 0, 0) else Advance(Ticks(n - 1, rows), rows)
  }

  /** The advance as the source writes it: `u8ColorIndex > 7` resets only once the index reaches 8. */
  function AdvanceAsWritten(c: Clock): (r: Clock)
    // it agrees with the intended step except on the call that leaves the last row, where it
    // moves the index to 7, one past the table
    ensures c.colorIndex + 1 != |COLOR_TABLE| ==> r == Advance(c, |COLOR_TABLE|)
    ensures r != Advance(c, |COLOR_TABLE|) ==> r.colorIndex == |COLOR_TABLE|
  {
    Advance(c, 8)
  }

  /** The evidently intended advance: the index is reset when it reaches the table's row count. */
  function AdvanceCorrected(c: Clock): (r: Clock)
    requires c.blinkCount < BLINK_PERIOD && c.counter < COUNTER_STEPS && c.colorIndex < |COLOR_TABLE|
    ensures r.blinkCount < BLINK_PERIOD && r.counter < COUNTER_STEPS && r.colorIndex < |COLOR_TABLE|
  {
    Advance(c, |COLOR_TABLE|)
  }

  /** After rounds * 4000 + k * 250 + b calls the counters read (b, k, rounds), as long as the
      colour index has not been reset: the counter advances once every 250 calls and the colour
      index once every 16 counter steps. */
  lemma {:induction false} TicksAt(rows: nat, round: nat, k: nat, b: nat)
    requires round < rows && k < COUNTER_STEPS && b < BLINK_PERIOD
    ensures Ticks(round * 4000 + k * 250 + b, rows) == Clock(b, k, round)
    decreases round * 4000 + k * 250 + b
  {
    if b > 0 {
      TicksAt(rows, round, k, b - 1);
    } else if k > 0 {
      TicksAt(rows, round, k - 1, BLINK_PERIOD - 1);
    } else if round > 0 {
      TicksAt(rows, round - 1, COUNTER_STEPS - 1, BLINK_PERIOD - 1);
    }
  }

  /** With the intended reset the counters return to zero after 7 * 16 * 250 calls, having shown
      every colour row once. */
  lemma ColorCycle()
    ensures Ticks(7 * 4000, |COLOR_TABLE|) == Clock(0, 0, 0)
    ensures forall round :: 0 <= round < |COLOR_TABLE| ==> Ticks(round * 4000, |COLOR_TABLE|).colorIndex == round
  {
    TicksAt(|COLOR_TABLE|, 6, COUNTER_STEPS - 1, BLINK_PERIOD - 1);
    forall round | 0 <= round < |COLOR_TABLE|
      ensures Ticks(round * 4000, |COLOR_TABLE|).colorIndex == round
    {
      TicksAt(|COLOR_TABLE|, round, 0, 0);
    }
  }

  /** As written, 7 * 4000 Idle calls after start-up the colour index is 7, one past the last row
      of aau8Color. The counter is then 0, so no row is read until 250 calls later: after call
      7 * 4000 + 250 the counter is 1, and call 7 * 4000 + 251 reads row 7 for bit 0. */
  lemma RowSevenReached()
    ensures Ticks(7 * 4000, 8).colorIndex == 7 >= |COLOR_TABLE|
    ensures Ticks(7 * 4000 + 250, 8) == Clock(0, 1, 7)
  {
    TicksAt(8, 6, COUNTER_STEPS - 1, BLINK_PERIOD - 1);
    TicksAt(8, 7, 1, 0);
  }

  /** The same step in one call: the last call of row 6 moves the as-written index out of the table,
      while the intended one wraps to row 0. */
  lemma LastCallOfRowSix()
    ensures AdvanceAsWritten(Clock(249, 15, 6)) == Clock(0, 0, 7)
    ensures AdvanceCorrected(Clock(249, 15, 6)) == Clock(0, 0, 0)
  {
  }

  /*---------------------------------------------------------------------------------------------
    The task
  ---------------------------------------------------------------------------------------------*/

  /** The state pointer: unset until UserApp1Initialize runs. */
  datatype AppState = Unset | Idle | Error

  /** The LEDs UserApp1SM_Idle turns off first: LedNameType 0 to U8_TOTAL_LEDS - 2. */
  function Below(n: nat): (r: set<nat>)
    ensures forall i: nat :: i in r <==> i < n
  {
    if n == 0 then {} else Below(n - 1) + {n - 1}
  }

  class UserApp1Task {
    var lit: set<nat>        // the LedNameType values that are on
    var state: AppState
    var blinkCount: nat      // u16BlinkCount
    var counter: nat         // u8Counter
    var colorIndex: nat      // u8ColorIndex

    ghost predicate Valid()
      reads this
    {
      && (forall i :: i in lit ==> i < U8_TOTAL_LEDS)
      && blinkCount < BLINK_PERIOD && counter < COUNTER_STEPS && colorIndex < |COLOR_TABLE|
    }

    function ClockOf(): Clock
      reads this
    {
      Clock(blinkCount, counter, colorIndex)
    }

    /** The static storage at reset, next to the LEDs as they happen to be. */
    constructor (initiallyLit: set<nat>)
      requires forall i :: i in initiallyLit ==> i < U8_TOTAL_LEDS
      ensures Valid() && lit == initiallyLit && state == Unset && ClockOf() == Clock(0, 0, 0)
    {
      lit := initiallyLit;
      state := Unset;
      blinkCount, counter, colorIndex := 0, 0, 0;
    }

    /** UserApp1Initialize: all thirteen LEDs off and the task in Idle; its initialisation check is
        the constant 1, so Error is never selected. */
    method Initialize()
      requires Valid()
      modifies this`lit, this`state
      ensures Valid() && lit == {} && state == Idle
    {
      lit := lit - {LedIndex(Red, 0), LedIndex(Green, 0), LedIndex(Blue, 0)};
      lit := lit - {LedIndex(Red, 1), LedIndex(Green, 1), LedIndex(Blue, 1)};
      lit := lit - {LedIndex(Red, 2), LedIndex(Green, 2), LedIndex(Blue, 2)};
      lit := lit - {LedIndex(Red, 3), LedIndex(Green, 3), LedIndex(Blue, 3)};
      lit := lit - {LCD_BL};
      state := Idle;
    }

    /** UserApp1RunActiveState: one call of the current state; Idle and Error keep the state, and
        Error changes nothing. */
    method RunActiveState()
      requires Valid() && state != Unset
      modifies this`lit, this`blinkCount, this`counter, this`colorIndex
      ensures Valid() && state == old(state)
      ensures old(state) == Idle ==>
                && lit == (old(lit) - Below(U8_TOTAL_LEDS - 1)) + Pattern(old(counter), COLOR_TABLE[old(colorIndex)])
                && ClockOf() == AdvanceCorrected(old(ClockOf()))
      ensures old(state) == Error ==> lit == old(lit) && ClockOf() == old(ClockOf())
    {
      match state
      case Idle => IdleStep();
      case Error =>
    }

    /** UserApp1SM_Idle: every LED but the backlight off, the current row's colours lit on the
        columns of the set counter bits, then the counters advanced. The backlight is left alone. */
    method IdleStep()
      requires Valid()
      modifies this`lit, this`blinkCount, this`counter, this`colorIndex
      ensures Valid()
      ensures lit == (old(lit) - Below(U8_TOTAL_LEDS - 1)) + Pattern(old(counter), COLOR_TABLE[old(colorIndex)])
      ensures LCD_BL in lit <==> LCD_BL in old(lit)
      ensures ClockOf() == AdvanceCorrected(old(ClockOf()))
    {
      ClearColourLeds();
      ShowCounter();
      PatternBelowBacklight(old(counter), old(colorIndex));
      Advance();
    }

    /** The first loop of UserApp1SM_Idle: LedOff for LedNameType 0 to U8_TOTAL_LEDS - 2. */
    method ClearColourLeds()
      modifies this`lit
      ensures lit == old(lit) - Below(U8_TOTAL_LEDS - 1)
    {
      for i := 0 to U8_TOTAL_LEDS - 1
        invariant lit == old(lit) - Below(i)
      {
        lit := lit - {i};
      }
    }

    /** The four bit tests of UserApp1SM_Idle: for each set bit of the counter, the current row lit
        on the bit's column. */
    method ShowCounter()
      requires counter < COUNTER_STEPS && colorIndex < |COLOR_TABLE|
      modifies this`lit
      ensures lit == old(lit) + Pattern(counter, COLOR_TABLE[colorIndex])
    {
      var row := COLOR_TABLE[colorIndex];
      if Bit(counter, 0x01) {
        LightRow(row, 3);
      }
      if Bit(counter, 0x02) {
        LightRow(row, 2);
      }
      if Bit(counter, 0x04) {
        LightRow(row, 1);
      }
      if Bit(counter, 0x08) {
        LightRow(row, 0);
      }
    }

    /** One pass of the inner loop: every entry of the row other than NONE lit at the offset. */
    method LightRow(row: seq<nat>, offset: nat)
      requires |row| == 3
      modifies this`lit
      ensures lit == old(lit) + RowLeds(row, offset, 3)
    {
      for j := 0 to 3
        invariant lit == old(lit) + RowLeds(row, offset, j)
      {
        if row[j] != NONE {
          lit := lit + {row[j] + offset};
        }
      }
    }

    /** The end of UserApp1SM_Idle: count the call and carry into the counter and the colour index,
        which is reset when it reaches the number of rows. */
    method Advance()
      requires blinkCount < BLINK_PERIOD && counter < COUNTER_STEPS && colorIndex < |COLOR_TABLE|
      modifies this`blinkCount, this`counter, this`colorIndex
      ensures ClockOf() == AdvanceCorrected(old(ClockOf()))
    {
      blinkCount := blinkCount + 1;
      if blinkCount == BLINK_PERIOD {
        blinkCount := 0;
        counter := counter + 1;
        if counter == COUNTER_STEPS {
          counter := 0;
          colorIndex := colorIndex + 1;
          if colorIndex >= |COLOR_TABLE| {
            colorIndex := 0;
          }
        }
      }
    }
  }
}
