/**
  The ANT channel API (ant_api.c): channel status decoding, the guarded channel requests,
  the data-message builders, the read of the incoming application-message FIFO, the RSSI
  formatter and the task that sends the eight channel-assignment messages.

  Outgoing messages use the serial message structure of section 7.1 of Dynastream's
  "ANT Message Protocol and Usage" without its sync byte: length, message ID, data, checksum.
*/
module AntApi {
  import opened Common

  const NUM_CHANNELS: nat := 8
  const NETWORK_NUMBER_BYTES: nat := 8
  const DATA_BYTES: nat := 8
  const APPLICATION_MESSAGE_BYTES: nat := 8
  const ASSIGN_MESSAGES: nat := 8
  /** ANT_CHANNEL_SCANNING, whose channel shares channel 0's configuration entry (ant_api.h is not
      part of this model: the value is a placeholder). */
  const CHANNEL_SCANNING: nat := 0

  /** Per-channel AntFlags bits (ant.h is not part of this model: only their distinctness matters). */
  const CHANNEL_CONFIGURED: bv8 := 0x01
  const CHANNEL_OPEN_PENDING: bv8 := 0x02
  const CHANNEL_OPEN: bv8 := 0x04
  const CHANNEL_CLOSE_PENDING: bv8 := 0x08

  /** Protocol constants of the ANT Message Protocol. */
  const MESG_TX_SYNC: byte := 0xA4
  const RESPONSE_NO_ERROR: byte := 0x00
  const MESG_UNASSIGN_CHANNEL_ID: byte := 0x41
  const MESG_ASSIGN_CHANNEL_ID: byte := 0x42
  const MESG_CHANNEL_MESG_PERIOD_ID: byte := 0x43
  const MESG_CHANNEL_SEARCH_TIMEOUT_ID: byte := 0x44
  const MESG_CHANNEL_RADIO_FREQ_ID: byte := 0x45
  const MESG_NETWORK_KEY_ID: byte := 0x46
  const MESG_OPEN_CHANNEL_ID: byte := 0x4B
  const MESG_CLOSE_CHANNEL_ID: byte := 0x4C
  const MESG_BROADCAST_DATA_ID: byte := 0x4E
  const MESG_ACKNOWLEDGED_DATA_ID: byte := 0x4F
  const MESG_CHANNEL_ID_ID: byte := 0x51
  const MESG_OPEN_SCAN_CHANNEL_ID: byte := 0x5B
  const MESG_CHANNEL_RADIO_TX_POWER_ID: byte := 0x60
  const MESG_LIB_CONFIG_ID: byte := 0x6E

  /** The search timeout written into every assignment (its value lives in ant.h; a placeholder here). */
  const SEARCH_TIMEOUT: byte := 0x0C

  /** Message IDs of the eight assignment messages, in the order the task sends them. */
  const SETUP_IDS: seq<byte> := [MESG_NETWORK_KEY_ID, MESG_LIB_CONFIG_ID, MESG_ASSIGN_CHANNEL_ID,
                                 MESG_CHANNEL_ID_ID, MESG_CHANNEL_MESG_PERIOD_ID, MESG_CHANNEL_RADIO_FREQ_ID,
                                 MESG_CHANNEL_RADIO_TX_POWER_ID, MESG_CHANNEL_SEARCH_TIMEOUT_ID]

  /** AntChannelStatusType. ANT_CONFIGURED and ANT_CLOSED are the same value. */
  datatype ChannelStatus = Unconfigured | Closed | Opening | Open | Closing
  const Configured: ChannelStatus := Closed

  /** AntAssignChannelInfoType: both the caller's request and an entry of the channel table. */
  datatype ChannelInfo = ChannelInfo(
    channel: byte, channelType: byte, periodHi: byte, periodLo: byte,
    deviceIdHi: byte, deviceIdLo: byte, deviceType: byte, transmissionType: byte,
    frequency: byte, txPower: byte, network: byte, networkKey: seq<byte>, flags: bv8)

  /** A table entry after AntAssignChannel copied a request into it: every configuration field
      comes from the request, while the channel number and the status flags stay the entry's own. */
  function Mirror(entry: ChannelInfo, info: ChannelInfo): (r: ChannelInfo)
    ensures r.channel == entry.channel && r.flags == entry.flags
    ensures r.(channel := info.channel, flags := info.flags) == info
  {
    entry.(networkKey := info.networkKey, channelType := info.channelType, network := info.network,
           deviceIdLo := info.deviceIdLo, deviceIdHi := info.deviceIdHi,
           deviceType := info.deviceType, transmissionType := info.transmissionType,
           periodLo := info.periodLo, periodHi := info.periodHi,
           frequency := info.frequency, txPower := info.txPower)
  }

  /** AntApplicationMessageType. */
  datatype MessageClass = Empty | Data | Tick

  /** AntExtendedDataType. */
  datatype ExtendedData = ExtendedData(channel: byte, flags: byte, deviceId: u16, deviceType: byte,
                                       transType: byte, rssi: s8)

  /** One entry of the incoming application message list kept by the ANT driver. */
  datatype AppMessage = AppMessage(timeStamp: u32, messageType: MessageClass, data: seq<byte>, ext: ExtendedData)

  /** The last response or event the ANT driver recorded (G_stAntMessageResponse). */
  datatype MessageResponse = MessageResponse(messageNumber: byte, responseCode: byte, channel: byte)

  /** The task's states; a function pointer in the source. */
  datatype ApiState = Idle | AssignChannel | FailedInit

  /*---------------------------------------------------------------------------------------------
    Message frames
  ---------------------------------------------------------------------------------------------*/

  /** The exclusive or of the sync byte and the first `n` bytes of `m`. */
  function Checksum(m: seq<byte>, n: nat): byte
    requires n <= |m|
  {
    if n == 0 then MESG_TX_SYNC else Xor(Checksum(m, n - 1), m[n - 1])
  }

  /** The checksum of a frame body: the exclusive or of the sync byte and every byte of the body. */
  function TxChecksum(body: seq<byte>): byte {
    Checksum(body, |body|)
  }

  /** A frame whose length byte counts its data bytes and whose last byte is its checksum. */
  predicate WellFormedFrame(m: seq<byte>) {
    |m| >= 3 && |m| == m[0] as int + 3 && m[|m| - 1] == Checksum(m, |m| - 1)
  }

  /** The checksum depends only on the bytes it covers. */
  lemma {:induction false} ChecksumPrefix(m: seq<byte>, m': seq<byte>, n: nat)
    requires n <= |m| && n <= |m'| && forall i :: 0 <= i < n ==> m[i] == m'[i]
    ensures Checksum(m, n) == Checksum(m', n)
  {
    if n > 0 {
      ChecksumPrefix(m, m', n - 1);
    }
  }

  /** A frame body followed by its checksum. */
  function Sealed(body: seq<byte>): (m: seq<byte>)
    ensures |m| == |body| + 1 && m[..|body|] == body && m[|body|] == TxChecksum(body)
  {
    var m := body + [TxChecksum(body)];
    assert m[..|body|] == body;
    m
  }

  /** Sealing a body whose length byte is right gives a well-formed frame with the same header. */
  lemma SealedWellFormed(body: seq<byte>)
    requires |body| >= 2 && |body| == body[0] as int + 2
    ensures WellFormedFrame(Sealed(body)) && Sealed(body)[..2] == body[..2]
  {
    var m := Sealed(body);
    assert forall i :: 0 <= i < |body| ==> m[i] == body[i] by {
      forall i | 0 <= i < |body| ensures m[i] == body[i] {
        assert m[..|body|][i] == m[i];
      }
    }
    ChecksumPrefix(m, body, |body|);
  }

  /** The four-byte frame of an open, close or unassign request for one channel. */
  function RequestFrame(id: byte, channel: byte): (f: seq<byte>)
    ensures |f| == 4 && WellFormedFrame(f)
    ensures f[1] == id && f[2] == channel
  {
    SealedWellFormed([1, id, channel]);
    Sealed([1, id, channel])
  }

  /*---------------------------------------------------------------------------------------------
    Channel status (AntRadioStatusChannel)
  ---------------------------------------------------------------------------------------------*/

  /** The status a channel's AntFlags stand for. */
  function StatusOf(flags: bv8): (s: ChannelStatus)
    ensures s == Unconfigured <==> flags & CHANNEL_CONFIGURED == 0
    ensures s == Closing <==> flags & CHANNEL_CONFIGURED != 0 && flags & CHANNEL_CLOSE_PENDING != 0
    ensures s == Open <==> flags & CHANNEL_CONFIGURED != 0 && flags & CHANNEL_CLOSE_PENDING == 0
                           && flags & CHANNEL_OPEN != 0
    ensures s == Closed <==> flags & CHANNEL_CONFIGURED != 0 && flags & CHANNEL_CLOSE_PENDING == 0
                             && flags & CHANNEL_OPEN == 0
    ensures s != Opening
  {
    if flags & CHANNEL_CONFIGURED != 0 then
      if flags & CHANNEL_CLOSE_PENDING != 0 then Closing
      else if flags & CHANNEL_OPEN != 0 then Open
      else Closed
    else Unconfigured
  }

  /** An accepted open request leaves the channel reported as closed (open-pending is not a status). */
  lemma OpenRequestStillReportsClosed(flags: bv8)
    requires StatusOf(flags) == Configured
    ensures StatusOf(flags | CHANNEL_OPEN_PENDING) == Closed
  {
    assert (flags | CHANNEL_OPEN_PENDING) & CHANNEL_CONFIGURED == flags & CHANNEL_CONFIGURED;
    assert (flags | CHANNEL_OPEN_PENDING) & CHANNEL_CLOSE_PENDING == flags & CHANNEL_CLOSE_PENDING;
    assert (flags | CHANNEL_OPEN_PENDING) & CHANNEL_OPEN == flags & CHANNEL_OPEN;
  }

  /** An accepted close request makes an open channel report closing. */
  lemma CloseRequestReportsClosing(flags: bv8)
    requires StatusOf(flags) == Open
    ensures StatusOf(flags | CHANNEL_CLOSE_PENDING) == Closing
  {
    assert (flags | CHANNEL_CLOSE_PENDING) & CHANNEL_CONFIGURED == flags & CHANNEL_CONFIGURED;
    assert (flags | CHANNEL_CLOSE_PENDING) & CHANNEL_CLOSE_PENDING != 0;
  }

  /*---------------------------------------------------------------------------------------------
    RSSI formatting (AntGetdBmAscii)
  ---------------------------------------------------------------------------------------------*/

  const ASCII_ZERO: byte := 0x30

  /** The value a sign character and two decimal digits stand for. */
  function DbmValue(text: seq<byte>): int
    requires |text| == 3
  {
    var magnitude := (text[1] as int - ASCII_ZERO as int) * 10 + (text[2] as int - ASCII_ZERO as int);
    if text[0] == Char('-') then -magnitude else magnitude
  }

  /** The three characters written for a signed 8-bit RSSI value. */
  function DbmAscii(rssi: int): (text: seq<byte>)
    requires -128 <= rssi < 128
    ensures |text| == 3
    ensures text[0] == (if rssi > 0 then Char('+') else if rssi == 0 then Char(' ') else Char('-'))
    ensures Char('0') <= text[1] <= Char('9') && Char('0') <= text[2] <= Char('9')
  {
    var sign := if rssi >= 0 then (if rssi == 0 then Char(' ') else Char('+')) else Char('-');
    // (u8)(~v + 1) of a negative s8 is its magnitude, 128 for -128
    var magnitude := if rssi >= 0 then rssi else (-rssi) % 256;
    var shown := if magnitude > 99 then 99 else magnitude;
    [sign, (shown / 10) as byte + ASCII_ZERO, (shown % 10) as byte + ASCII_ZERO]
  }

  /** Reading the three characters back gives the value clipped to two digits. */
  lemma DbmAsciiRoundTrip(rssi: int)
    requires -128 <= rssi < 128
    ensures DbmValue(DbmAscii(rssi)) == if rssi > 99 then 99 else if rssi < -99 then -99 else rssi
  {
    var text := DbmAscii(rssi);
    var magnitude := if rssi >= 0 then rssi else (-rssi) % 256;
    var shown := if magnitude > 99 then 99 else magnitude;
    assert text[1] as int - ASCII_ZERO as int == shown / 10;
    assert text[2] as int - ASCII_ZERO as int == shown % 10;
    assert (shown / 10) * 10 + shown % 10 == shown;
  }

  /*---------------------------------------------------------------------------------------------
    The channel-assignment sequencer (AntApiSM_AssignChannel), as a function of its statics
  ---------------------------------------------------------------------------------------------*/

  /** The contents of the eight channel-assignment messages. */
  datatype AssignFrames = AssignFrames(networkKey: seq<byte>, libConfig: seq<byte>, assignChannel: seq<byte>,
                                       channelId: seq<byte>, channelPeriod: seq<byte>, rfFreq: seq<byte>,
                                       txPower: seq<byte>, searchTimeout: seq<byte>)

  /** u8CurrentMessageToSend, u8CurrentMesssageId and bMessageInProgress. */
  datatype Progress = Progress(toSend: nat, messageId: byte, inProgress: bool)

  /** What one call of the assignment state does: its new statics, the indices of the assignment
      messages it queued, whether it set CONFIGURED and whether it returned the task to Idle. */
  datatype AssignOutcome = AssignOutcome(next: Progress, queued: seq<nat>, configured: bool, finished: bool)

  /** The number of assignment messages queued so far in the current round. */
  function Sent(p: Progress): nat {
    p.toSend + if p.inProgress then 1 else 0
  }

  /** One call of AntApiSM_AssignChannel: queue the next assignment message unless one is in
      progress, then act on a response to it, then give up if the timeout has elapsed. */
  function AssignStep(p: Progress, r: MessageResponse, timeUp: bool): (o: AssignOutcome)
    requires p.toSend < ASSIGN_MESSAGES
    ensures o.next.toSend < ASSIGN_MESSAGES
  {
    var id := if p.inProgress then p.messageId else SETUP_IDS[p.toSend];
    var queued := if p.inProgress then [] else [p.toSend];
    if id == r.messageNumber then
      if r.responseCode == RESPONSE_NO_ERROR then
        if p.toSend + 1 == ASSIGN_MESSAGES then
          AssignOutcome(Progress(0, id, false), queued, true, true)
        else
          AssignOutcome(Progress(p.toSend + 1, id, false), queued, false, timeUp)
      else
        AssignOutcome(Progress(p.toSend, id, false), queued, false, true)
    else
      AssignOutcome(Progress(p.toSend, id, true), queued, false, timeUp)
  }

  /** What one call of the assignment state does, stated outright. */
  lemma AssignStepSpec(p: Progress, r: MessageResponse, timeUp: bool)
    requires p.toSend < ASSIGN_MESSAGES
    ensures var o := AssignStep(p, r, timeUp);
            o.queued == if p.inProgress then [] else [p.toSend]
    ensures var o := AssignStep(p, r, timeUp);
            o.next.messageId == if p.inProgress then p.messageId else SETUP_IDS[p.toSend]
    ensures var o := AssignStep(p, r, timeUp);
            o.next.inProgress <==> r.messageNumber != o.next.messageId
    // the index moves only on a matching response without error, and then by one or back to 0
    ensures var o := AssignStep(p, r, timeUp);
            o.next.toSend != p.toSend ==> r.messageNumber == o.next.messageId && r.responseCode == RESPONSE_NO_ERROR
    ensures var o := AssignStep(p, r, timeUp);
            o.next.toSend != p.toSend && !o.configured ==> o.next.toSend == p.toSend + 1
    // ... and a matching response without error always moves it, whether or not time is up
    ensures var o := AssignStep(p, r, timeUp);
            r.messageNumber == o.next.messageId && r.responseCode == RESPONSE_NO_ERROR ==>
              o.next.toSend == if p.toSend + 1 == ASSIGN_MESSAGES then 0 else p.toSend + 1
    // CONFIGURED is set exactly when the eighth message is answered without error
    ensures var o := AssignStep(p, r, timeUp);
            o.configured <==> p.toSend == ASSIGN_MESSAGES - 1 && r.messageNumber == o.next.messageId
                              && r.responseCode == RESPONSE_NO_ERROR
    ensures var o := AssignStep(p, r, timeUp);
            o.configured ==> o.next.toSend == 0
    // an error response ends the round, keeps the index and leaves CONFIGURED clear
    ensures var o := AssignStep(p, r, timeUp);
            r.messageNumber == o.next.messageId && r.responseCode != RESPONSE_NO_ERROR ==>
              o.finished && !o.configured && o.next.toSend == p.toSend
    ensures var o := AssignStep(p, r, timeUp);
            o.finished <==> o.configured || timeUp
                            || (r.messageNumber == o.next.messageId && r.responseCode != RESPONSE_NO_ERROR)
  {
  }

  /** Queuing the message first and then handling the response is the same step with the
      message already in progress. */
  lemma AssignStepQueuesFirst(p: Progress, r: MessageResponse, timeUp: bool)
    requires p.toSend < ASSIGN_MESSAGES && !p.inProgress
    ensures AssignStep(p, r, timeUp)
            == AssignStep(p.(messageId := SETUP_IDS[p.toSend], inProgress := true), r, timeUp).(queued := [p.toSend])
  {
  }

  /** One step never loses count of the queued messages while the round goes on. */
  lemma AssignStepCountsQueued(p: Progress, r: MessageResponse, timeUp: bool)
    requires p.toSend < ASSIGN_MESSAGES
    ensures var o := AssignStep(p, r, timeUp);
            && o.queued == (if p.inProgress then [] else [Sent(p)])
            && (!o.finished ==> Sent(o.next) == Sent(p) + |o.queued| <= ASSIGN_MESSAGES)
            && (o.configured ==> Sent(p) + |o.queued| == ASSIGN_MESSAGES && o.next.toSend == 0)
            && o.queued == Range(Sent(p), Sent(p) + |o.queued|)
  {
  }

  /** The result of calling the assignment state once per tick until it returns to Idle. */
  datatype AssignRunResult = AssignRunResult(last: Progress, queued: seq<nat>, configured: bool, finished: bool)

  function AssignRun(p: Progress, ticks: seq<(MessageResponse, bool)>): (res: AssignRunResult)
    requires p.toSend < ASSIGN_MESSAGES
    ensures res.last.toSend < ASSIGN_MESSAGES
    decreases |ticks|
  {
    if ticks == [] then AssignRunResult(p, [], false, false)
    else
      var o := AssignStep(p, ticks[0].0, ticks[0].1);
      if o.finished then AssignRunResult(o.next, o.queued, o.configured, true)
      else
        var rest := AssignRun(o.next, ticks[1..]);
        AssignRunResult(rest.last, o.queued + rest.queued, rest.configured, rest.finished)
  }

  /** The consecutive indices lo, lo + 1, ..., hi - 1. */
  function Range(lo: nat, hi: nat): seq<nat>
    requires lo <= hi
  {
    seq(hi - lo, i requires 0 <= i < hi - lo => lo + i)
  }

  /** Over any run, the assignment messages are queued strictly in table order, each once, starting
      with the first one not yet sent; CONFIGURED is set only once all eight have been answered. */
  lemma {:induction false} AssignRunInOrder(p: Progress, ticks: seq<(MessageResponse, bool)>)
    requires p.toSend < ASSIGN_MESSAGES && Sent(p) <= ASSIGN_MESSAGES
    ensures Sent(p) + |AssignRun(p, ticks).queued| <= ASSIGN_MESSAGES
    ensures AssignRun(p, ticks).queued == Range(Sent(p), Sent(p) + |AssignRun(p, ticks).queued|)
    ensures AssignRun(p, ticks).configured ==>
              Sent(p) + |AssignRun(p, ticks).queued| == ASSIGN_MESSAGES && AssignRun(p, ticks).last.toSend == 0
    decreases |ticks|
  {
    if ticks != [] {
      var o := AssignStep(p, ticks[0].0, ticks[0].1);
      AssignStepCountsQueued(p, ticks[0].0, ticks[0].1);
      if o.finished {
        assert AssignRun(p, ticks).queued == o.queued;
      } else {
        var rest := AssignRun(o.next, ticks[1..]);
        assert AssignRun(p, ticks).queued == o.queued + rest.queued;
        AssignRunInOrder(o.next, ticks[1..]);
        var hi := Sent(o.next) + |rest.queued|;
        assert o.queued + rest.queued == Range(Sent(p), hi) by {
          assert o.queued == Range(Sent(p), Sent(o.next));
          assert rest.queued == Range(Sent(o.next), hi);
          RangeSplit(Sent(p), Sent(o.next), hi);
        }
        assert Sent(p) + |AssignRun(p, ticks).queued| == hi;
      }
    }
  }

  lemma {:induction false} RangeSplit(lo: nat, mid: nat, hi: nat)
    requires lo <= mid <= hi
    ensures Range(lo, mid) + Range(mid, hi) == Range(lo, hi)
  {
    assert forall i :: 0 <= i < hi - lo ==> (Range(lo, mid) + Range(mid, hi))[i] == lo + i;
  }

  /** A round that ends with an error response does not reset the message index, so the next round
      starts with the message that failed instead of the network key. */
  lemma RetryAfterErrorResumesMidSequence()
    ensures var failed := AssignStep(Progress(3, SETUP_IDS[3], true), MessageResponse(SETUP_IDS[3], 0x28, 0), false);
            && failed.finished && !failed.configured && failed.next.toSend == 3
            && AssignStep(failed.next, MessageResponse(0, 0, 0), false).queued == [3]
  {
  }

  /** A round that ends by timeout leaves a message in progress, so the next round queues nothing
      until a response to that old message arrives. */
  lemma RetryAfterTimeoutQueuesNothing()
    ensures var timedOut := AssignStep(Progress(0, 0, false), MessageResponse(0, 0, 0), true);
            && timedOut.finished && timedOut.next.inProgress
            && AssignStep(timedOut.next, MessageResponse(0, 0, 0), false).queued == []
  {
  }

  /*---------------------------------------------------------------------------------------------
    The API's state: the channel table, the message buffers, the current message and the task
  ---------------------------------------------------------------------------------------------*/

  class Ant {
    /** G_asAntChannelConfiguration. */
    var table: seq<ChannelInfo>
    /** The static message buffers of ant.c that this API fills. */
    const networkKeyMsg: array<byte>
    const libConfigMsg: array<byte>
    const assignChannelMsg: array<byte>
    const channelIdMsg: array<byte>
    const channelPeriodMsg: array<byte>
    const rfFreqMsg: array<byte>
    const txPowerMsg: array<byte>
    const searchTimeoutMsg: array<byte>
    const broadcastMsg: array<byte>
    const ackMsg: array<byte>
    /** Every frame handed to AntQueueOutgoingMessage, in call order (the queue is external). */
    var queueCalls: seq<seq<byte>>
    /** G_psAntApplicationMsgList, oldest first. */
    var appMessages: seq<AppMessage>
    /** The current message: G_u32AntApiCurrentMessageTimeStamp, G_eAntApiCurrentMessageClass,
        G_au8AntApiCurrentMessageBytes and G_sAntApiCurrentMessageExtData. */
    var currentTimeStamp: u32
    var currentClass: MessageClass
    const currentBytes: array<byte>
    var currentExt: ExtendedData
    /** AntApi_StateMachine and AntApi_u32Timeout. */
    var state: ApiState
    var timeoutStart: u32
    /** The statics of the assignment state. */
    var toSend: nat
    var messageId: byte
    var inProgress: bool

    /** AntApi_apu8AntAssignChannel: the assignment messages in sending order. */
    function SetupMessages(): seq<array<byte>> {
      [networkKeyMsg, libConfigMsg, assignChannelMsg, channelIdMsg, channelPeriodMsg, rfFreqMsg,
       txPowerMsg, searchTimeoutMsg]
    }

    /** Every buffer this API owns. */
    function Buffers(): set<object> {
      {networkKeyMsg, libConfigMsg, assignChannelMsg, channelIdMsg, channelPeriodMsg, rfFreqMsg,
       txPowerMsg, searchTimeoutMsg, broadcastMsg, ackMsg, currentBytes}
    }

    /** The current-message globals, read as one application message. */
    function CurrentMessage(): AppMessage reads this, currentBytes {
      AppMessage(currentTimeStamp, currentClass, currentBytes[..], currentExt)
    }

    function CurrentProgress(): Progress reads this {
      Progress(toSend, messageId, inProgress)
    }

    static ghost predicate Header(a: array<byte>, size: byte, id: byte) reads a {
      a.Length >= 2 && a[0] == size && a[1] == id
    }

    /** The parts of the invariant that do not depend on the buffers' contents. */
    ghost predicate Shape()
      reads this
    {
      && |table| == NUM_CHANNELS
      // buffer lengths: each is length, ID, data and checksum
      && networkKeyMsg.Length == 12 && libConfigMsg.Length == 5 && assignChannelMsg.Length == 6
      && channelIdMsg.Length == 8 && channelPeriodMsg.Length == 6 && rfFreqMsg.Length == 5
      && txPowerMsg.Length == 5 && searchTimeoutMsg.Length == 5 && broadcastMsg.Length == 12
      && ackMsg.Length == 12 && currentBytes.Length == APPLICATION_MESSAGE_BYTES
      // the buffers are distinct objects (lengths tell the others apart)
      && networkKeyMsg != broadcastMsg && networkKeyMsg != ackMsg && broadcastMsg != ackMsg
      && libConfigMsg != rfFreqMsg && libConfigMsg != txPowerMsg && libConfigMsg != searchTimeoutMsg
      && rfFreqMsg != txPowerMsg && rfFreqMsg != searchTimeoutMsg && txPowerMsg != searchTimeoutMsg
      && assignChannelMsg != channelPeriodMsg && channelIdMsg != currentBytes
      && toSend < ASSIGN_MESSAGES
      && (forall m :: m in appMessages ==> |m.data| == APPLICATION_MESSAGE_BYTES)
    }

    /** The length and ID bytes of the assignment messages, set once by ant.c and never rewritten here. */
    ghost predicate SetupHeadersSet()
      reads networkKeyMsg, libConfigMsg, assignChannelMsg, channelIdMsg, channelPeriodMsg, rfFreqMsg,
            txPowerMsg, searchTimeoutMsg
    {
      && Header(networkKeyMsg, 9, MESG_NETWORK_KEY_ID) && Header(libConfigMsg, 2, MESG_LIB_CONFIG_ID)
      && Header(assignChannelMsg, 3, MESG_ASSIGN_CHANNEL_ID) && Header(channelIdMsg, 5, MESG_CHANNEL_ID_ID)
      && Header(channelPeriodMsg, 3, MESG_CHANNEL_MESG_PERIOD_ID)
      && Header(rfFreqMsg, 2, MESG_CHANNEL_RADIO_FREQ_ID)
      && Header(txPowerMsg, 2, MESG_CHANNEL_RADIO_TX_POWER_ID)
      && Header(searchTimeoutMsg, 2, MESG_CHANNEL_SEARCH_TIMEOUT_ID)
    }

    /** The same for the two data messages. */
    ghost predicate DataHeadersSet()
      reads broadcastMsg, ackMsg
    {
      Header(broadcastMsg, 9, MESG_BROADCAST_DATA_ID) && Header(ackMsg, 9, MESG_ACKNOWLEDGED_DATA_ID)
    }

    /** Every assignment message is a well-formed frame. */
    ghost predicate SetupFramed()
      reads networkKeyMsg, libConfigMsg, assignChannelMsg, channelIdMsg, channelPeriodMsg, rfFreqMsg,
            txPowerMsg, searchTimeoutMsg
    {
      && WellFormedFrame(networkKeyMsg[..]) && WellFormedFrame(libConfigMsg[..])
      && WellFormedFrame(assignChannelMsg[..]) && WellFormedFrame(channelIdMsg[..])
      && WellFormedFrame(channelPeriodMsg[..]) && WellFormedFrame(rfFreqMsg[..])
      && WellFormedFrame(txPowerMsg[..]) && WellFormedFrame(searchTimeoutMsg[..])
    }

    ghost predicate Valid()
      reads this, networkKeyMsg, libConfigMsg, assignChannelMsg, channelIdMsg, channelPeriodMsg, rfFreqMsg,
            txPowerMsg, searchTimeoutMsg, broadcastMsg, ackMsg
    {
      Shape() && SetupHeadersSet() && DataHeadersSet()
    }

    /** The static storage at start-up: every channel unconfigured, every buffer holding only its
        length and ID, the incoming list as the ANT driver delivers it. */
    constructor (incoming: seq<AppMessage>)
      requires forall m :: m in incoming ==> |m.data| == APPLICATION_MESSAGE_BYTES
      ensures Valid()
      ensures fresh(networkKeyMsg) && fresh(libConfigMsg) && fresh(assignChannelMsg) && fresh(channelIdMsg)
      ensures fresh(channelPeriodMsg) && fresh(rfFreqMsg) && fresh(txPowerMsg) && fresh(searchTimeoutMsg)
      ensures fresh(broadcastMsg) && fresh(ackMsg) && fresh(currentBytes)
      ensures forall c :: 0 <= c < NUM_CHANNELS ==> StatusOf(table[c].flags) == Unconfigured
      ensures appMessages == incoming && queueCalls == [] && state == Idle
      ensures CurrentProgress() == Progress(0, 0, false)
    {
      var blank := ChannelInfo(0, 0, 0, 0, 0, 0, 0, 0, 0, 0, 0, seq(NETWORK_NUMBER_BYTES, _ => 0), 0);
      table := seq(NUM_CHANNELS, _ => blank);
      var nk, lc, ac, ci, cp, rf, tp, st, bc, ak := NewBuffers();
      var cb := new byte[APPLICATION_MESSAGE_BYTES](_ => 0);
      networkKeyMsg, libConfigMsg, assignChannelMsg, channelIdMsg := nk, lc, ac, ci;
      channelPeriodMsg, rfFreqMsg, txPowerMsg, searchTimeoutMsg := cp, rf, tp, st;
      broadcastMsg, ackMsg, currentBytes := bc, ak, cb;
      queueCalls, appMessages := [], incoming;
      currentTimeStamp, currentClass, currentExt := 0, Empty, ExtendedData(0, 0, 0, 0, 0, 0);
      state, timeoutStart := Idle, 0;
      toSend, messageId, inProgress := 0, 0, false;
    }

    static method NewBuffers() returns (nk: array<byte>, lc: array<byte>, ac: array<byte>, ci: array<byte>,
                                        cp: array<byte>, rf: array<byte>, tp: array<byte>, st: array<byte>,
                                        bc: array<byte>, ak: array<byte>)
      ensures fresh(nk) && fresh(lc) && fresh(ac) && fresh(ci) && fresh(cp) && fresh(rf) && fresh(tp)
      ensures fresh(st) && fresh(bc) && fresh(ak)
      ensures nk.Length == 12 && lc.Length == 5 && ac.Length == 6 && ci.Length == 8 && cp.Length == 6
      ensures rf.Length == 5 && tp.Length == 5 && st.Length == 5 && bc.Length == 12 && ak.Length == 12
      ensures nk != bc && nk != ak && bc != ak && lc != rf && lc != tp && lc != st && rf != tp && rf != st
      ensures tp != st && ac != cp
      ensures Header(nk, 9, MESG_NETWORK_KEY_ID) && Header(lc, 2, MESG_LIB_CONFIG_ID)
      ensures Header(ac, 3, MESG_ASSIGN_CHANNEL_ID) && Header(ci, 5, MESG_CHANNEL_ID_ID)
      ensures Header(cp, 3, MESG_CHANNEL_MESG_PERIOD_ID) && Header(rf, 2, MESG_CHANNEL_RADIO_FREQ_ID)
      ensures Header(tp, 2, MESG_CHANNEL_RADIO_TX_POWER_ID) && Header(st, 2, MESG_CHANNEL_SEARCH_TIMEOUT_ID)
      ensures Header(bc, 9, MESG_BROADCAST_DATA_ID) && Header(ak, 9, MESG_ACKNOWLEDGED_DATA_ID)
    {
      nk := NewBuffer(12, 9, MESG_NETWORK_KEY_ID);
      lc := NewBuffer(5, 2, MESG_LIB_CONFIG_ID);
      ac := NewBuffer(6, 3, MESG_ASSIGN_CHANNEL_ID);
      ci := NewBuffer(8, 5, MESG_CHANNEL_ID_ID);
      cp := NewBuffer(6, 3, MESG_CHANNEL_MESG_PERIOD_ID);
      rf := NewBuffer(5, 2, MESG_CHANNEL_RADIO_FREQ_ID);
      tp := NewBuffer(5, 2, MESG_CHANNEL_RADIO_TX_POWER_ID);
      st := NewBuffer(5, 2, MESG_CHANNEL_SEARCH_TIMEOUT_ID);
      bc := NewBuffer(12, 9, MESG_BROADCAST_DATA_ID);
      ak := NewBuffer(12, 9, MESG_ACKNOWLEDGED_DATA_ID);
    }

    static method NewBuffer(length: nat, size: byte, id: byte) returns (a: array<byte>)
      requires length >= 2
      ensures fresh(a) && a.Length == length && a[0] == size && a[1] == id
    {
      a := new byte[length](_ => 0);
      a[0], a[1] := size, id;
    }

    /** AntRadioStatusChannel. */
    function RadioStatusChannel(channel: nat): ChannelStatus
      reads this
      requires channel < |table|
    {
      StatusOf(table[channel].flags)
    }

    /** AntAssignChannel: fill every assignment message and the channel's table entry from the
        request and start the assignment task, but only for an unconfigured channel. */
    method AssignChannel(info: ChannelInfo, now: u32) returns (ok: bool)
      requires Valid() && info.channel as int < NUM_CHANNELS && |info.networkKey| == NETWORK_NUMBER_BYTES
      modifies this`table, this`state, this`timeoutStart, networkKeyMsg, libConfigMsg, assignChannelMsg,
               channelIdMsg, channelPeriodMsg, rfFreqMsg, txPowerMsg, searchTimeoutMsg
      ensures Valid()
      ensures ok <==> StatusOf(old(table[info.channel].flags)) == Unconfigured
      ensures !ok ==> table == old(table) && state == old(state) && timeoutStart == old(timeoutStart)
                      && unchanged(networkKeyMsg, libConfigMsg, assignChannelMsg, channelIdMsg, channelPeriodMsg,
                                   rfFreqMsg, txPowerMsg, searchTimeoutMsg)
      ensures ok ==> state == ApiState.AssignChannel && timeoutStart == now
      // the channel's table entry mirrors the request; nothing else in the table changes
      ensures ok ==> table == old(table)[info.channel := Mirror(old(table[info.channel]), info)]
      // each message holds its header, the request fields in protocol order and its checksum
      ensures ok ==> SetupContents(old(SetupHeaders()), info)
      // ... and every assignment message ends in its checksum
      ensures ok ==> SetupFramed()
    {
      if StatusOf(table[info.channel].flags) != Unconfigured {
        return false;
      }
      Configure(info, now);
      ok := true;
    }

    /** The part of AntAssignChannel that runs once the channel is known to be unconfigured. */
    method Configure(info: ChannelInfo, now: u32)
      requires Valid() && info.channel as int < NUM_CHANNELS && |info.networkKey| == NETWORK_NUMBER_BYTES
      modifies this`table, this`state, this`timeoutStart, networkKeyMsg, libConfigMsg, assignChannelMsg,
               channelIdMsg, channelPeriodMsg, rfFreqMsg, txPowerMsg, searchTimeoutMsg
      ensures Valid()
      ensures state == ApiState.AssignChannel && timeoutStart == now
      ensures table == old(table)[info.channel := Mirror(old(table[info.channel]), info)]
      ensures SetupContents(old(SetupHeaders()), info)
      ensures SetupFramed()
    {
      ghost var kept := SetupHeaders();
      table := table[info.channel := Mirror(table[info.channel], info)];
      timeoutStart := now;
      state := ApiState.AssignChannel;
      FillSetup(kept, info);
    }

    /** The message-building part of AntAssignChannel on this task's own buffers. */
    method FillSetup(ghost kept: seq<seq<byte>>, info: ChannelInfo)
      requires Shape() && SetupHeadersSet() && kept == SetupHeaders() && |info.networkKey| == NETWORK_NUMBER_BYTES
      modifies networkKeyMsg, libConfigMsg, assignChannelMsg, channelIdMsg, channelPeriodMsg, rfFreqMsg,
               txPowerMsg, searchTimeoutMsg
      ensures SetupContents(kept, info) && SetupHeadersSet() && SetupFramed()
    {
      assert KeptHeaders(kept);
      FillSetupMessages(networkKeyMsg, libConfigMsg, assignChannelMsg, channelIdMsg, channelPeriodMsg, rfFreqMsg,
                        txPowerMsg, searchTimeoutMsg, info);
      SetupContentsWellFormed(kept, info);
    }

    /** The first two bytes (length and ID) of each assignment message, in sending order. */
    function SetupHeaders(): seq<seq<byte>>
      reads this, networkKeyMsg, libConfigMsg, assignChannelMsg, channelIdMsg, channelPeriodMsg, rfFreqMsg,
            txPowerMsg, searchTimeoutMsg
      requires Shape()
    {
      [networkKeyMsg[..2], libConfigMsg[..4], assignChannelMsg[..2], channelIdMsg[..2],
       channelPeriodMsg[..2], rfFreqMsg[..2], txPowerMsg[..3], searchTimeoutMsg[..2]]
    }

    /** The eight assignment messages as they stand, in sending order. */
    function SetupFrames(): AssignFrames
      reads networkKeyMsg, libConfigMsg, assignChannelMsg, channelIdMsg, channelPeriodMsg, rfFreqMsg,
            txPowerMsg, searchTimeoutMsg
    {
      AssignFrames(networkKeyMsg[..], libConfigMsg[..], assignChannelMsg[..], channelIdMsg[..],
                   channelPeriodMsg[..], rfFreqMsg[..], txPowerMsg[..], searchTimeoutMsg[..])
    }

    /** What AntAssignChannel writes: after the bytes it keeps (`kept`), each message holds the
        request's fields at their protocol offsets and ends in its checksum. The library-config
        message keeps its first four bytes and the power message its channel byte. */
    static function Assigned(kept: seq<seq<byte>>, info: ChannelInfo): AssignFrames
      requires |kept| == ASSIGN_MESSAGES
    {
      AssignFrames(
        Sealed(kept[0] + [info.network] + info.networkKey),
        Sealed(kept[1]),
        Sealed(kept[2] + [info.channel, info.channelType, info.network]),
        Sealed(kept[3] + [info.channel, info.deviceIdLo, info.deviceIdHi, info.deviceType, info.transmissionType]),
        Sealed(kept[4] + [info.channel, info.periodLo, info.periodHi]),
        Sealed(kept[5] + [info.channel, info.frequency]),
        Sealed(kept[6] + [info.txPower]),
        Sealed(kept[7] + [info.channel, SEARCH_TIMEOUT]))
    }

    ghost predicate SetupContents(kept: seq<seq<byte>>, info: ChannelInfo)
      reads networkKeyMsg, libConfigMsg, assignChannelMsg, channelIdMsg, channelPeriodMsg, rfFreqMsg,
            txPowerMsg, searchTimeoutMsg
      requires |kept| == ASSIGN_MESSAGES
    {
      SetupFrames() == Assigned(kept, info)
    }

    /** The message-building part of AntAssignChannel, over the eight assignment buffers. */
    static method FillSetupMessages(nk: array<byte>, lc: array<byte>, ac: array<byte>, ci: array<byte>,
                                    cp: array<byte>, rf: array<byte>, tp: array<byte>, st: array<byte>,
                                    info: ChannelInfo)
      requires nk.Length == 12 && lc.Length == 5 && ac.Length == 6 && ci.Length == 8 && cp.Length == 6
      requires rf.Length == 5 && tp.Length == 5 && st.Length == 5 && |info.networkKey| == NETWORK_NUMBER_BYTES
      requires lc != rf && lc != tp && lc != st && rf != tp && rf != st && tp != st && ac != cp
      modifies nk, lc, ac, ci, cp, rf, tp, st
      ensures nk[..] == Sealed(old(nk[..2]) + [info.network] + info.networkKey)
      ensures lc[..] == Sealed(old(lc[..4]))
      ensures ac[..] == Sealed(old(ac[..2]) + [info.channel, info.channelType, info.network])
      ensures ci[..] == Sealed(old(ci[..2]) + [info.channel, info.deviceIdLo, info.deviceIdHi, info.deviceType,
                                               info.transmissionType])
      ensures cp[..] == Sealed(old(cp[..2]) + [info.channel, info.periodLo, info.periodHi])
      ensures rf[..] == Sealed(old(rf[..2]) + [info.channel, info.frequency])
      ensures tp[..] == Sealed(old(tp[..3]) + [info.txPower])
      ensures st[..] == Sealed(old(st[..2]) + [info.channel, SEARCH_TIMEOUT])
    {
      var ch := info.channel;
      assert old(lc[..4]) + [] == old(lc[..4]);
      Seal(lc, 4, []);
      FillNetworkKey(nk, info.network, info.networkKey);
      Seal(ac, 2, [ch, info.channelType, info.network]);
      Seal(ci, 2, [ch, info.deviceIdLo, info.deviceIdHi, info.deviceType, info.transmissionType]);
      Seal(cp, 2, [ch, info.periodLo, info.periodHi]);
      Seal(rf, 2, [ch, info.frequency]);
      // the power message's channel byte is left as it was
      Seal(tp, 3, [info.txPower]);
      Seal(st, 2, [ch, SEARCH_TIMEOUT]);
    }

    /** The bytes AntAssignChannel keeps: each message's length and ID, the library-config message's
        two configuration bytes and the power message's channel byte. */
    static ghost predicate KeptHeaders(kept: seq<seq<byte>>) {
      && |kept| == ASSIGN_MESSAGES
      && |kept[0]| == 2 && kept[0][0] == 9 && kept[0][1] == MESG_NETWORK_KEY_ID
      && |kept[1]| == 4 && kept[1][0] == 2 && kept[1][1] == MESG_LIB_CONFIG_ID
      && |kept[2]| == 2 && kept[2][0] == 3 && kept[2][1] == MESG_ASSIGN_CHANNEL_ID
      && |kept[3]| == 2 && kept[3][0] == 5 && kept[3][1] == MESG_CHANNEL_ID_ID
      && |kept[4]| == 2 && kept[4][0] == 3 && kept[4][1] == MESG_CHANNEL_MESG_PERIOD_ID
      && |kept[5]| == 2 && kept[5][0] == 2 && kept[5][1] == MESG_CHANNEL_RADIO_FREQ_ID
      && |kept[6]| == 3 && kept[6][0] == 2 && kept[6][1] == MESG_CHANNEL_RADIO_TX_POWER_ID
      && |kept[7]| == 2 && kept[7][0] == 2 && kept[7][1] == MESG_CHANNEL_SEARCH_TIMEOUT_ID
    }

    /** The rebuilt messages keep their headers and are well-formed frames. */
    lemma SetupContentsWellFormed(kept: seq<seq<byte>>, info: ChannelInfo)
      requires Shape() && |kept| == ASSIGN_MESSAGES && |info.networkKey| == NETWORK_NUMBER_BYTES
      requires KeptHeaders(kept)
      requires SetupContents(kept, info)
      ensures SetupHeadersSet() && SetupFramed()
    {
      SealedWellFormed(kept[0] + [info.network] + info.networkKey);
      SealedWellFormed(kept[1]);
      SealedWellFormed(kept[2] + [info.channel, info.channelType, info.network]);
      SealedWellFormed(kept[3] + [info.channel, info.deviceIdLo, info.deviceIdHi, info.deviceType,
                                  info.transmissionType]);
      SealedWellFormed(kept[4] + [info.channel, info.periodLo, info.periodHi]);
      SealedWellFormed(kept[5] + [info.channel, info.frequency]);
      SealedWellFormed(kept[6] + [info.txPower]);
      SealedWellFormed(kept[7] + [info.channel, SEARCH_TIMEOUT]);
    }

    /** Write `values` from offset `from` up to the checksum byte, then the checksum itself. */
    static method Seal(a: array<byte>, from: nat, values: seq<byte>)
      requires 2 <= from && from + |values| + 1 == a.Length
      modifies a
      ensures a[..] == Sealed(old(a[..from]) + values)
    {
      for i := 0 to |values|
        invariant a[..from] == old(a[..from]) && a[from..from + i] == values[..i]
      {
        a[from + i] := values[i];
      }
      assert a[..a.Length - 1] == old(a[..from]) + values;
      a[a.Length - 1] := TxChecksum(a[..a.Length - 1]);
    }

    /** The network key message: network number, the eight key bytes copied one by one, checksum. */
    static method FillNetworkKey(msg: array<byte>, network: byte, key: seq<byte>)
      requires msg.Length == 12 && |key| == NETWORK_NUMBER_BYTES
      modifies msg
      ensures msg[..] == Sealed(old(msg[..2]) + [network] + key)
    {
      msg[2] := network;
      for i := 0 to NETWORK_NUMBER_BYTES
        invariant msg[..3] == old(msg[..2]) + [network]
        invariant msg[3..3 + i] == key[..i]
      {
        msg[i + 3] := key[i];
      }
      assert msg[..11] == old(msg[..2]) + [network] + key;
      msg[11] := TxChecksum(msg[..11]);
    }

    /** The shape shared by the guarded requests: refuse unless the channel is in `required`;
        otherwise OR `pending` into its flags and queue the request frame. */
    method Request(channel: nat, required: ChannelStatus, pending: bv8, frame: seq<byte>, queueAccepts: bool)
      returns (ok: bool)
      requires Valid() && channel < NUM_CHANNELS
      modifies this`table, this`queueCalls
      ensures Valid()
      ensures StatusOf(old(table[channel].flags)) != required ==>
                !ok && table == old(table) && queueCalls == old(queueCalls)
      ensures StatusOf(old(table[channel].flags)) == required ==>
                && ok == queueAccepts
                && table == old(table)[channel := old(table[channel]).(flags := old(table[channel].flags) | pending)]
                && queueCalls == old(queueCalls) + [frame]
    {
      if StatusOf(table[channel].flags) != required {
        return false;
      }
      table := table[channel := table[channel].(flags := table[channel].flags | pending)];
      queueCalls := queueCalls + [frame];
      ok := queueAccepts;
    }

    /** AntUnassignChannelNumber: only a closed channel may be unassigned; no flag changes. */
    method UnassignChannelNumber(channel: nat, queueAccepts: bool) returns (ok: bool)
      requires Valid() && channel < NUM_CHANNELS
      modifies this`queueCalls
      ensures Valid()
      ensures StatusOf(table[channel].flags) != Closed ==> !ok && queueCalls == old(queueCalls)
      ensures StatusOf(table[channel].flags) == Closed ==>
                ok == queueAccepts
                && queueCalls == old(queueCalls) + [RequestFrame(MESG_UNASSIGN_CHANNEL_ID, channel as byte)]
    {
      if StatusOf(table[channel].flags) != Closed {
        return false;
      }
      queueCalls := queueCalls + [RequestFrame(MESG_UNASSIGN_CHANNEL_ID, channel as byte)];
      ok := queueAccepts;
    }

    /** AntOpenChannelNumber: only a configured channel may be opened. */
    method OpenChannelNumber(channel: nat, queueAccepts: bool) returns (ok: bool)
      requires Valid() && channel < NUM_CHANNELS
      modifies this`table, this`queueCalls
      ensures Valid()
      ensures StatusOf(old(table[channel].flags)) != Configured ==>
                !ok && table == old(table) && queueCalls == old(queueCalls)
      ensures StatusOf(old(table[channel].flags)) == Configured ==>
                && ok == queueAccepts
                && table == old(table)[channel := old(table[channel]).(
                                         flags := old(table[channel].flags) | CHANNEL_OPEN_PENDING)]
                && queueCalls == old(queueCalls) + [RequestFrame(MESG_OPEN_CHANNEL_ID, channel as byte)]
    {
      var target: byte := 0;
      if channel != CHANNEL_SCANNING {
        target := channel as byte;
      }
      ok := Request(channel, Configured, CHANNEL_OPEN_PENDING, RequestFrame(MESG_OPEN_CHANNEL_ID, target),
                    queueAccepts);
    }

    /** AntOpenScanningChannel: channel 0 must be configured. */
    method OpenScanningChannel(queueAccepts: bool) returns (ok: bool)
      requires Valid()
      modifies this`table, this`queueCalls
      ensures Valid()
      ensures StatusOf(old(table[0].flags)) != Configured ==>
                !ok && table == old(table) && queueCalls == old(queueCalls)
      ensures StatusOf(old(table[0].flags)) == Configured ==>
                && ok == queueAccepts
                && table == old(table)[0 := old(table[0]).(flags := old(table[0].flags) | CHANNEL_OPEN_PENDING)]
                && queueCalls == old(queueCalls) + [RequestFrame(MESG_OPEN_SCAN_CHANNEL_ID, 0)]
    {
      ok := Request(0, Configured, CHANNEL_OPEN_PENDING, RequestFrame(MESG_OPEN_SCAN_CHANNEL_ID, 0), queueAccepts);
    }

    /** AntCloseChannelNumber: only an open channel may be closed. */
    method CloseChannelNumber(channel: nat, queueAccepts: bool) returns (ok: bool)
      requires Valid() && channel < NUM_CHANNELS
      modifies this`table, this`queueCalls
      ensures Valid()
      ensures StatusOf(old(table[channel].flags)) != Open ==>
                !ok && table == old(table) && queueCalls == old(queueCalls)
      ensures StatusOf(old(table[channel].flags)) == Open ==>
                && ok == queueAccepts
                && table == old(table)[channel := old(table[channel]).(
                                         flags := old(table[channel].flags) | CHANNEL_CLOSE_PENDING)]
                && queueCalls == old(queueCalls) + [RequestFrame(MESG_CLOSE_CHANNEL_ID, channel as byte)]
    {
      ok := Request(channel, Open, CHANNEL_CLOSE_PENDING, RequestFrame(MESG_CLOSE_CHANNEL_ID, channel as byte),
                    queueAccepts);
    }

    /** AntQueueBroadcastMessage: channel, the eight payload bytes and the checksum, then queue it. */
    method QueueBroadcastMessage(channel: byte, data: array<byte>, queueAccepts: bool) returns (ok: bool)
      requires Valid() && data.Length >= DATA_BYTES && data != broadcastMsg
      modifies broadcastMsg, this`queueCalls
      ensures Valid()
      ensures broadcastMsg[..] == Sealed(old(broadcastMsg[..2]) + ([channel] + data[..DATA_BYTES]))
      ensures WellFormedFrame(broadcastMsg[..]) && broadcastMsg[1] == MESG_BROADCAST_DATA_ID
      ensures queueCalls == old(queueCalls) + [broadcastMsg[..]] && ok == queueAccepts
    {
      Seal(broadcastMsg, 2, [channel] + data[..DATA_BYTES]);
      SealedWellFormed(old(broadcastMsg[..2]) + ([channel] + data[..DATA_BYTES]));
      queueCalls := queueCalls + [broadcastMsg[..]];
      ok := queueAccepts;
    }

    /** AntQueueAcknowledgedMessage: the same with the acknowledged-data message. */
    method QueueAcknowledgedMessage(channel: byte, data: array<byte>, queueAccepts: bool) returns (ok: bool)
      requires Valid() && data.Length >= DATA_BYTES && data != ackMsg
      modifies ackMsg, this`queueCalls
      ensures Valid()
      ensures ackMsg[..] == Sealed(old(ackMsg[..2]) + ([channel] + data[..DATA_BYTES]))
      ensures WellFormedFrame(ackMsg[..]) && ackMsg[1] == MESG_ACKNOWLEDGED_DATA_ID
      ensures queueCalls == old(queueCalls) + [ackMsg[..]] && ok == queueAccepts
    {
      Seal(ackMsg, 2, [channel] + data[..DATA_BYTES]);
      SealedWellFormed(old(ackMsg[..2]) + ([channel] + data[..DATA_BYTES]));
      queueCalls := queueCalls + [ackMsg[..]];
      ok := queueAccepts;
    }

    /** AntReadAppMessageBuffer: move the oldest incoming message into the current-message globals. */
    method ReadAppMessageBuffer() returns (found: bool)
      requires Valid()
      modifies this`appMessages, this`currentTimeStamp, this`currentClass, this`currentExt, currentBytes
      ensures Valid()
      ensures found <==> old(appMessages) != []
      ensures CurrentMessage() == if found then old(appMessages[0]) else old(CurrentMessage())
      ensures !found ==> currentBytes[..] == old(currentBytes[..])
                         && currentTimeStamp == old(currentTimeStamp) && currentClass == old(currentClass)
                         && currentExt == old(currentExt) && appMessages == old(appMessages)
      ensures found ==> var head := old(appMessages[0]);
                        && currentTimeStamp == head.timeStamp && currentClass == head.messageType
                        && currentBytes[..] == head.data && currentExt == head.ext
                        && appMessages == old(appMessages[1..])
    {
      if appMessages == [] {
        return false;
      }
      var head := appMessages[0];
      currentTimeStamp := head.timeStamp;
      currentClass := head.messageType;
      for i := 0 to APPLICATION_MESSAGE_BYTES
        modifies currentBytes
        invariant currentBytes[..i] == head.data[..i]
      {
        currentBytes[i] := head.data[i];
      }
      currentExt := ExtendedData(head.ext.channel, head.ext.flags, head.ext.deviceId, head.ext.deviceType,
                                 head.ext.transType, head.ext.rssi);
      appMessages := appMessages[1..];
      found := true;
    }

    /** AntApiInitialize: Idle when the ANT driver reported a good start, otherwise FailedInit. */
    method Initialize(applicationFlags: u32)
      modifies this`state
      ensures state == if applicationFlags & APPLICATION_FLAGS_ANT != 0 then Idle else FailedInit
    {
      if applicationFlags & APPLICATION_FLAGS_ANT != 0 {
        state := Idle;
      } else {
        state := FailedInit;
      }
    }

    /** What one call of the assignment state did to the object, as AssignStep says: the sequencer's
        statics, the message it queued, CONFIGURED on the response's channel and the return to Idle. */
    twostate predicate AssignTicked(response: MessageResponse, timeUp: bool)
      reads this, networkKeyMsg, libConfigMsg, assignChannelMsg, channelIdMsg, channelPeriodMsg, rfFreqMsg,
            txPowerMsg, searchTimeoutMsg
      requires old(toSend) < ASSIGN_MESSAGES
      requires AssignStep(old(CurrentProgress()), response, timeUp).configured ==> response.channel as int < |old(table)|
    {
      var o := AssignStep(old(CurrentProgress()), response, timeUp);
      && CurrentProgress() == o.next
      // o.queued is [] or [the index of the message to send]
      && queueCalls == old(queueCalls) + (if o.queued == [] then [] else [old(SetupMessages()[toSend][..])])
      && table == (if o.configured then
                     old(table)[response.channel := old(table[response.channel]).(
                                  flags := old(table[response.channel].flags) | CHANNEL_CONFIGURED)]
                   else old(table))
      && state == if o.finished then Idle else old(state)
    }

    /** AntApiSM_AssignChannel: one call of the assignment state, given the driver's last response
        and whether the assignment timeout has elapsed. */
    method AssignChannelStep(response: MessageResponse, timeUp: bool)
      requires Valid()
      // the response's channel indexes the table only on the eighth success
      requires AssignStep(CurrentProgress(), response, timeUp).configured ==> response.channel as int < NUM_CHANNELS
      modifies this`toSend, this`messageId, this`inProgress, this`queueCalls, this`table, this`state
      ensures Valid()
      ensures AssignTicked(response, timeUp)
    {
      if !inProgress {
        AssignStepQueuesFirst(CurrentProgress(), response, timeUp);
        QueueNextSetupMessage();
      }
      HandleSetupResponse(response, timeUp);
    }

    /** The first part of the assignment state: queue the current message and remember its ID. */
    method QueueNextSetupMessage()
      requires Valid() && !inProgress
      modifies this`messageId, this`inProgress, this`queueCalls
      ensures Valid() && inProgress && messageId == SETUP_IDS[toSend]
      ensures queueCalls == old(queueCalls) + [SetupMessages()[toSend][..]]
    {
      SetupIdsMatch();
      messageId := SetupMessages()[toSend][1];
      queueCalls := queueCalls + [SetupMessages()[toSend][..]];
      inProgress := true;
    }

    /** The rest of the assignment state, once a message is in progress. */
    method HandleSetupResponse(response: MessageResponse, timeUp: bool)
      requires toSend < ASSIGN_MESSAGES && inProgress
      requires AssignStep(CurrentProgress(), response, timeUp).configured ==> response.channel as int < |table|
      modifies this`toSend, this`inProgress, this`table, this`state
      ensures CurrentProgress() == AssignStep(old(CurrentProgress()), response, timeUp).next
      ensures table == (if AssignStep(old(CurrentProgress()), response, timeUp).configured then
                          old(table)[response.channel := old(table[response.channel]).(
                                       flags := old(table[response.channel].flags) | CHANNEL_CONFIGURED)]
                        else old(table))
      ensures state == if AssignStep(old(CurrentProgress()), response, timeUp).finished then Idle else old(state)
    {
      ghost var o := AssignStep(CurrentProgress(), response, timeUp);
      if messageId == response.messageNumber {
        if response.responseCode == RESPONSE_NO_ERROR {
          toSend := toSend + 1;
          if toSend == ASSIGN_MESSAGES {
            var ch := response.channel;
            table := table[ch := table[ch].(flags := table[ch].flags | CHANNEL_CONFIGURED)];
            toSend := 0;
            state := Idle;
          }
        } else {
          state := Idle;
        }
        inProgress := false;
      }
      if timeUp {
        state := Idle;
      }
    }

    /** The ID byte of each assignment message is the one the task expects in the response. */
    lemma SetupIdsMatch()
      requires Shape() && SetupHeadersSet()
      ensures forall k :: 0 <= k < ASSIGN_MESSAGES ==> SetupMessages()[k][1] == SETUP_IDS[k]
    {
    }

    /** AntApiRunActiveState: run the current state once. Idle and FailedInit do nothing. */
    method RunActiveState(response: MessageResponse, timeUp: bool)
      requires Valid()
      requires state == ApiState.AssignChannel && AssignStep(CurrentProgress(), response, timeUp).configured ==>
                 response.channel as int < NUM_CHANNELS
      modifies this`toSend, this`messageId, this`inProgress, this`queueCalls, this`table, this`state
      ensures Valid()
      ensures old(state) != ApiState.AssignChannel ==>
                state == old(state) && table == old(table) && queueCalls == old(queueCalls)
                && CurrentProgress() == old(CurrentProgress())
      ensures old(state) == ApiState.AssignChannel ==> AssignTicked(response, timeUp)
    {
      match state
      case Idle =>
      case FailedInit =>
      case AssignChannel => AssignChannelStep(response, timeUp);
    }
  }
}
