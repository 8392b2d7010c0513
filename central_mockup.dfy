/**
 The Tk version of the controller (class UDPBroadcastApp in central_mockup.py),
 without its widgets and sockets. Each button command becomes a method whose
 inputs are the already-parsed entry fields and, where it sends, how the send
 ended. Sending is recorded in the ghost field `sent`. Worker threads are
 daemons that are never joined; the model keeps only the last one started.
 */
module CentralMockup {
  import opened Protocol

  /** How one `send_udp_message` call ends: sent, or the text of the exception raised. */
  datatype SendStatus = Delivered | Raised(error: string)

  const SentPrefix := "Mensagem enviada:\n "
  const SendErrorPrefix := "Erro ao enviar mensagem: "

  /** The one line `send_udp_message` logs for the text `wire`. */
  function SendLog(wire: string, status: SendStatus): (line: string)
    ensures status.Delivered? <==> line == SentPrefix + wire
    ensures status.Raised? ==> line == SendErrorPrefix + status.error
  {
    var line := match status
      case Delivered => SentPrefix + wire
      case Raised(e) => SendErrorPrefix + e;
    assert status.Raised? ==> line[0] != (SentPrefix + wire)[0];
    line
  }

  /** A white-space character in Python's sense (`str.isspace`): the ASCII tab, line
      feed, vertical tab, form feed, carriage return, the four information separators
      and space, then next line, no-break space, and the Unicode space and line and
      paragraph separators. */
  predicate IsSpace(c: char) {
    || '\t' <= c <= '\r'
    || '\U{1c}' <= c <= ' '
    || c == '\U{85}' || c == '\U{a0}' || c == '\U{1680}'
    || '\U{2000}' <= c <= '\U{200a}'
    || c == '\U{2028}' || c == '\U{2029}' || c == '\U{202f}' || c == '\U{205f}'
    || c == '\U{3000}'
  }

  /** The same 29 characters listed one by one: what `str.strip()` with no argument
      removes, written as the `chars` argument it is equivalent to. */
  const SpaceChars: set<char> := {
    '\t', '\n', '\U{b}', '\U{c}', '\r', '\U{1c}', '\U{1d}', '\U{1e}', '\U{1f}', ' ',
    '\U{85}', '\U{a0}', '\U{1680}', '\U{2000}', '\U{2001}', '\U{2002}', '\U{2003}',
    '\U{2004}', '\U{2005}', '\U{2006}', '\U{2007}', '\U{2008}', '\U{2009}', '\U{200a}',
    '\U{2028}', '\U{2029}', '\U{202f}', '\U{205f}', '\U{3000}'
  }

  /** The list is exactly the white space. */
  lemma SpaceCharsAreSpace(c: char)
    ensures c in SpaceChars <==> IsSpace(c)
  {
  }

  /** Every character of `s` is white space (true of the empty string). */
  predicate Blank(s: string) {
    forall i | 0 <= i < |s| :: IsSpace(s[i])
  }

  /** Where the run of characters from `chars` that starts at `i` ends. */
  function RunEnd(s: string, chars: set<char>, i: nat): (k: nat)
    requires i <= |s|
    ensures i <= k <= |s|
    ensures forall j | i <= j < k :: s[j] in chars
    ensures k == |s| || s[k] !in chars
    decreases |s| - i
  {
    if i < |s| && s[i] in chars then RunEnd(s, chars, i + 1) else i
  }

  /** Where the run of characters from `chars` that ends at `e` starts, looking no
      further back than `lo`. */
  function RunStart(s: string, chars: set<char>, lo: nat, e: nat): (k: nat)
    requires lo <= e <= |s|
    ensures lo <= k <= e
    ensures forall j | k <= j < e :: s[j] in chars
    ensures k == lo || s[k - 1] !in chars
    decreases e
  {
    if lo < e && s[e - 1] in chars then RunStart(s, chars, lo, e - 1) else e
  }

  /** `str.strip(chars)`: the middle of `s` left once the characters from `chars`
      are cut off at both ends, found as CPython does, by moving an index in from
      the front and then one in from the back, never past the first. */
  function Strip(s: string, chars: set<char>): (r: string)
    ensures var k := RunEnd(s, chars, 0);
              k + |r| <= |s| && r == s[k..k + |r|]
              && (forall i | 0 <= i < k :: s[i] in chars)
              && (forall i | k + |r| <= i < |s| :: s[i] in chars)
    ensures r == [] || (r[0] !in chars && r[|r| - 1] !in chars)
  {
    var k := RunEnd(s, chars, 0);
    s[k..RunStart(s, chars, k, |s|)]
  }

  /** `not parametro.strip()` holds exactly of the strings made only of white space,
      the empty one included. */
  lemma StripEmptyIffBlank(s: string)
    ensures Strip(s, SpaceChars) == [] <==> Blank(s)
  {
    if Strip(s, SpaceChars) == [] {
      forall i | 0 <= i < |s| ensures IsSpace(s[i]) {
        SpaceCharsAreSpace(s[i]);
      }
    } else {
      var k := RunEnd(s, SpaceChars, 0);
      SpaceCharsAreSpace(s[k]);
    }
  }

  /** The control command (URI 100/11): the value's parse is checked first, and
      only then the parameter name, which may not be blank. `valor` is None when
      `float()` raises ValueError. The name is sent as typed, not stripped. */
  function ControlRequest(parametro: string, valor: Option<Double>): (v: Verdict)
    ensures v.Accept? <==> valor.Some? && !Blank(parametro)
    ensures v.Accept? ==> v.cmd == Control(parametro, valor.value)
    ensures valor.None? ==> v == Reject(ValorNotANumber)
    ensures valor.Some? && Blank(parametro) ==> v == Reject(ParametroInvalid)
  {
    StripEmptyIffBlank(parametro);
    if valor.None? then Reject(ValorNotANumber)
    else if Strip(parametro, SpaceChars) == "" then Reject(ParametroInvalid)
    else Accept(Control(parametro, valor.value))
  }

  /** Why starting the periodic sender is refused when no session is running,
      None when it may start. `interval` is None when `float()` raises; the
      test `interval <= 0` is the IEEE one, so NaN and +infinity pass it. */
  function PeriodicStartRejection(message: string, interval: Option<Double>): (r: Option<string>)
    ensures r.None? <==> message != "" && interval.Some? && !AtMostZero(interval.value)
    ensures message == "" ==> r == Some(EmptyPeriodicMessage)
    ensures message != "" && interval.None? ==> r == Some(IntervalNotANumber)
    ensures message != "" && interval.Some? && AtMostZero(interval.value) ==>
      r == Some(IntervalNotPositive)
  {
    if message == "" then Some(EmptyPeriodicMessage)
    else if interval.None? then Some(IntervalNotANumber)
    else if AtMostZero(interval.value) then Some(IntervalNotPositive)
    else None
  }

  /** A NaN interval is let through; `time.sleep` is then handed NaN. */
  lemma NaNIntervalAccepted(message: string)
    requires message != ""
    ensures PeriodicStartRejection(message, Some(NaN)) == None
  {
  }

  /** The arguments a periodic worker thread was started with. */
  datatype PeriodicJob = PeriodicJob(message: string, interval: Double)

  class UdpBroadcastApp {
    /** `self.port`. */
    const port: int
    /** Python's `json.dumps`, a library function taken as given. */
    const serialize: JsonObject -> string

    /** `self.running`: the receiver session is on. */
    var running: bool
    /** `self.periodic_sending`: the periodic session is on. */
    var periodicSending: bool
    /** `self.log_queue`, front first. */
    var logQueue: seq<string>
    /** The text of the log area. */
    var logText: string
    /** `self.periodic_thread`: the job of the last periodic worker started, if any. */
    var periodicThread: Option<PeriodicJob>
    /** `self.receiver_thread` has been set: a receiver worker was started. */
    var receiverThread: bool
    /** Every datagram `sendto` accepted, oldest first. */
    ghost var sent: seq<Payload>

    /** A session flag is set only after its worker was started. Since stopping
        never joins, the converse does not hold. */
    ghost predicate Valid()
      reads this
    {
      port == Port
      && (periodicSending ==> periodicThread.Some?)
      && (running ==> receiverThread)
    }

    /** The text a payload goes on the wire as. */
    function Wire(p: Payload): string {
      match p
      case Text(t) => t
      case Json(obj) => serialize(obj)
    }

    /** In this call, `line` was queued and nothing was sent. */
    twostate predicate LoggedOnly(line: string)
      reads this
    {
      logQueue == old(logQueue) + [line] && sent == old(sent)
    }

    /** In this call, `p` went through `send_udp_message`, which ended as `status`. */
    twostate predicate Dispatched(p: Payload, status: SendStatus)
      reads this
    {
      logQueue == old(logQueue) + [SendLog(Wire(p), status)]
      && sent == (if status.Delivered? then old(sent) + [p] else old(sent))
    }

    constructor (serialize: JsonObject -> string)
      ensures Valid() && this.serialize == serialize
      ensures !running && !periodicSending
      ensures logQueue == [] && logText == "" && sent == []
      ensures periodicThread.None? && !receiverThread
    {
      this.serialize := serialize;
      port := Port;
      running, periodicSending := false, false;
      logQueue, logText := [], "";
      periodicThread, receiverThread := None, false;
      sent := [];
    }

    /** `log`: one line at the back of the queue. */
    method Log(message: string)
      modifies this`logQueue
      ensures logQueue == old(logQueue) + [message]
    {
      logQueue := logQueue + [message];
    }

    /** `process_log_queue`: every queued line, in order and followed by a newline,
        moves to the log area. */
    method ProcessLogQueue()
      modifies this`logQueue, this`logText
      ensures logQueue == []
      ensures logText == old(logText) + Rendered(old(logQueue))
    {
      while logQueue != []
        invariant logText + Rendered(logQueue) == old(logText) + Rendered(old(logQueue))
        decreases |logQueue|
      {
        var message := logQueue[0];
        logQueue := logQueue[1..];
        logText := logText + (message + "\n");
      }
    }

    /** `send_udp_message`: exactly one line is logged, and the payload counts as
        sent only when no exception was raised. */
    method SendUdpMessage(p: Payload, status: SendStatus)
      modifies this`logQueue, this`sent
      ensures Dispatched(p, status)
    {
      match status
      case Delivered =>
        sent := sent + [p];
        Log(SentPrefix + Wire(p));
      case Raised(e) =>
        Log(SendErrorPrefix + e);
    }

    /** `send_message`: an empty message is refused, any other is sent as typed. */
    method SendMessage(message: string, status: SendStatus)
      modifies this`logQueue, this`sent
      ensures message == "" ==> LoggedOnly(EmptyMessage)
      ensures message != "" ==> Dispatched(Text(message), status)
    {
      if message == "" {
        Log(EmptyMessage);
        return;
      }
      SendUdpMessage(Text(message), status);
    }

    /** `send_custom_json_message`: the control command with ACK set. */
    method SendCustomJsonMessage(parametro: string, valor: Option<Double>, status: SendStatus)
      modifies this`logQueue, this`sent
      ensures ControlRequest(parametro, valor).Reject? ==>
        LoggedOnly(ControlRequest(parametro, valor).reason)
      ensures ControlRequest(parametro, valor).Accept? ==>
        Dispatched(Json(Encode(ControlRequest(parametro, valor).cmd)), status)
    {
      if valor.None? {
        Log(ValorNotANumber);
        return;
      }
      if Strip(parametro, SpaceChars) == "" {
        Log(ParametroInvalid);
        return;
      }
      var obj := map["URI" := JString(ControlUri), "idAtuador" := JInt(ActuatorId),
                     "parametro" := JString(parametro), "valor" := JDouble(valor.value),
                     "ACK" := JBool(true)];
      SendUdpMessage(Json(obj), status);
    }

    /** `send_json_message`: the toggle command, sent only for 0 or 1. */
    method SendJsonMessage(comando: Option<int>, status: SendStatus)
      modifies this`logQueue, this`sent
      ensures ToggleRequest(comando).Reject? ==> LoggedOnly(ToggleRequest(comando).reason)
      ensures ToggleRequest(comando).Accept? ==>
        Dispatched(Json(Encode(ToggleRequest(comando).cmd)), status)
    {
      if comando.None? {
        Log(ComandoNotANumber);
        return;
      }
      if comando.value != 0 && comando.value != 1 {
        Log(ComandoOutOfRange);
        return;
      }
      var obj := map["URI" := JString(ToggleUri), "idAtuador" := JInt(ActuatorId),
                     "comando" := JInt(comando.value)];
      SendUdpMessage(Json(obj), status);
    }

    /** `start_periodic_sending`: refused while a session runs or when the input is
        invalid; otherwise the flag is set and a worker is started. */
    method StartPeriodicSending(message: string, interval: Option<Double>)
      requires Valid()
      modifies this`logQueue, this`periodicSending, this`periodicThread
      ensures Valid()
      ensures old(periodicSending) ==>
        LoggedOnly(PeriodicAlreadyRunning) && periodicSending && periodicThread == old(periodicThread)
      ensures !old(periodicSending) && PeriodicStartRejection(message, interval).Some? ==>
        LoggedOnly(PeriodicStartRejection(message, interval).value)
        && !periodicSending && periodicThread == old(periodicThread)
      ensures !old(periodicSending) && PeriodicStartRejection(message, interval).None? ==>
        LoggedOnly(PeriodicStarted) && periodicSending
        && periodicThread == Some(PeriodicJob(message, interval.value))
    {
      if periodicSending {
        Log(PeriodicAlreadyRunning);
        return;
      }
      if message == "" {
        Log(EmptyPeriodicMessage);
        return;
      }
      if interval.None? {
        Log(IntervalNotANumber);
        return;
      }
      if AtMostZero(interval.value) {
        Log(IntervalNotPositive);
        return;
      }
      periodicSending := true;
      periodicThread := Some(PeriodicJob(message, interval.value));
      Log(PeriodicStarted);
    }

    /** `stop_periodic_sending`: unconditionally clears the flag and logs that sending
        stopped, without waiting for the worker. */
    method StopPeriodicSending()
      requires Valid()
      modifies this`logQueue, this`periodicSending
      ensures Valid()
      ensures LoggedOnly(PeriodicStopped) && !periodicSending
    {
      periodicSending := false;
      Log(PeriodicStopped);
    }

    /** `start_receiving`: refused while receiving; otherwise the flag is set and a
        receiver worker started. */
    method StartReceiving()
      requires Valid()
      modifies this`logQueue, this`running, this`receiverThread
      ensures Valid()
      ensures old(running) ==> LoggedOnly(ReceiverAlreadyRunning) && running
      ensures !old(running) ==> LoggedOnly(ReceiverStarted) && running && receiverThread
    {
      if running {
        Log(ReceiverAlreadyRunning);
        return;
      }
      running := true;
      receiverThread := true;
      Log(ReceiverStarted);
    }

    /** `stop_receiving`: unconditionally clears the flag and logs that receiving
        stopped, without waiting for the worker. */
    method StopReceiving()
      requires Valid()
      modifies this`logQueue, this`running
      ensures Valid()
      ensures LoggedOnly(ReceiverStopped) && !running
    {
      running := false;
      Log(ReceiverStopped);
    }
  }
}
