/**
 The GTK version of the controller (class UDPBroadcastApp in udp_broadcast.cpp),
 without its widgets and sockets. Each button handler becomes a method whose
 inputs are the already-parsed text fields and, where it sends, the way the
 socket calls end. Sending is recorded in the ghost field `sent`. A std::thread
 handle is kept only as "is it joinable, and with which job".
 */
module UdpBroadcast {
  import opened Protocol

  /** How one `send_udp_message` call ends: sent, or which socket call failed. */
  datatype SendStatus = Delivered | SocketCreateFailed | BroadcastOptionFailed | SendToFailed

  const SocketCreateError := "Erro ao criar socket"
  const BroadcastOptionError := "Erro ao configurar broadcast"
  const SendToError := "Erro ao enviar mensagem"
  const SentPrefix := "Mensagem enviada:\n"

  /** The one line `send_udp_message` logs for the text `wire`. */
  function SendLog(wire: string, status: SendStatus): (line: string)
    ensures status.Delivered? <==> line == SentPrefix + wire
    ensures !status.Delivered? ==> line in {SocketCreateError, BroadcastOptionError, SendToError}
  {
    var line := match status
      case SocketCreateFailed => SocketCreateError
      case BroadcastOptionFailed => BroadcastOptionError
      case SendToFailed => SendToError
      case Delivered => SentPrefix + wire;
    assert !status.Delivered? ==> line[0] != (SentPrefix + wire)[0];
    line
  }

  /** The control command (URI 100/11): the parameter name is checked first, and
      only when it is non-empty is the value's parse examined. `valor` is None
      when `std::stod` throws. */
  function ControlRequest(parametro: string, valor: Option<Double>): (v: Verdict)
    ensures v.Accept? <==> parametro != "" && valor.Some?
    ensures v.Accept? ==> v.cmd == Control(parametro, valor.value)
    ensures parametro == "" ==> v == Reject(ParametroInvalid)
    ensures parametro != "" && valor.None? ==> v == Reject(ValorNotANumber)
  {
    if parametro == "" then Reject(ParametroInvalid)
    else if valor.None? then Reject(ValorNotANumber)
    else Accept(Control(parametro, valor.value))
  }

  /** Why starting the periodic sender is refused when no session is running,
      None when it may start. `interval` is None when `std::stoi` throws. */
  function PeriodicStartRejection(message: string, interval: Option<int>): (r: Option<string>)
    ensures r.None? <==> message != "" && interval.Some? && interval.value > 0
    ensures message == "" ==> r == Some(EmptyPeriodicMessage)
    ensures message != "" && interval.None? ==> r == Some(IntervalNotANumber)
    ensures message != "" && interval.Some? && interval.value <= 0 ==> r == Some(IntervalNotPositive)
  {
    if message == "" then Some(EmptyPeriodicMessage)
    else if interval.None? then Some(IntervalNotANumber)
    else if interval.value <= 0 then Some(IntervalNotPositive)
    else None
  }

  /** The arguments a periodic worker thread was started with. */
  datatype PeriodicJob = PeriodicJob(message: string, interval: int)

  class UdpBroadcastApp {
    /** `m_port`. */
    const port: int
    /** jsoncpp's `Json::writeString`, a foreign library taken as given. */
    const serialize: JsonObject -> string

    /** `m_running`: the receiver session is on. */
    var running: bool
    /** `m_periodic_sending`: the periodic session is on. */
    var periodicSending: bool
    /** `m_log_queue`, front first. */
    var logQueue: seq<string>
    /** The text of the log view's buffer. */
    var logText: string
    /** `m_periodic_thread`: the job of the worker while the handle is joinable. */
    var periodicThread: Option<PeriodicJob>
    /** `m_receiver_thread` is joinable. */
    var receiverThread: bool
    /** Every datagram `sendto` accepted, oldest first. */
    ghost var sent: seq<Payload>

    /** A worker handle is joinable exactly while its session flag is set, so a new
        worker is never moved into a handle that is still joinable. */
    ghost predicate Valid()
      reads this
    {
      port == Port
      && (periodicThread.Some? <==> periodicSending)
      && (receiverThread <==> running)
    }

    /** The text a payload goes on the wire as. */
    function Wire(p: Payload): string {
      match p
      case Text(t) => t
      case Json(obj) => serialize(obj)
    }

    /** In this call, `line` was queued and nothing was sent. */
    twostate predicate LoggedOnly(line: string)
      reads this
    {
      logQueue == old(logQueue) + [line] && sent == old(sent)
    }

    /** In this call, `p` went through `send_udp_message`, which ended as `status`. */
    twostate predicate Dispatched(p: Payload, status: SendStatus)
      reads this
    {
      logQueue == old(logQueue) + [SendLog(Wire(p), status)]
      && sent == (if status.Delivered? then old(sent) + [p] else old(sent))
    }

    constructor (serialize: JsonObject -> string)
      ensures Valid() && this.serialize == serialize
      ensures !running && !periodicSending
      ensures logQueue == [] && logText == "" && sent == []
    {
      this.serialize := serialize;
      port := Port;
      running, periodicSending := false, false;
      logQueue, logText := [], "";
      periodicThread, receiverThread := None, false;
      sent := [];
    }

    /** The destructor: both flags cleared, both workers joined. */
    method Destroy()
      requires Valid()
      modifies this`running, this`periodicSending, this`periodicThread, this`receiverThread
      ensures Valid()
      ensures !running && !periodicSending && periodicThread.None? && !receiverThread
    {
      running := false;
      periodicSending := false;
      if receiverThread {
        receiverThread := false;
      }
      if periodicThread.Some? {
        periodicThread := None;
      }
    }

    /** `log_message`: one line at the back of the queue. */
    method LogMessage(message: string)
      modifies this`logQueue
      ensures logQueue == old(logQueue) + [message]
    {
      logQueue := logQueue + [message];
    }

    /** `process_log_queue`: every queued line, in order and followed by a newline,
        moves to the display; the result keeps the timer alive. */
    method ProcessLogQueue() returns (keepTimer: bool)
      modifies this`logQueue, this`logText
      ensures logQueue == []
      ensures logText == old(logText) + Rendered(old(logQueue))
      ensures keepTimer
    {
      while logQueue != []
        invariant logText + Rendered(logQueue) == old(logText) + Rendered(old(logQueue))
        decreases |logQueue|
      {
        var message := logQueue[0];
        logQueue := logQueue[1..];
        logText := logText + (message + "\n");
      }
      keepTimer := true;
    }

    /** `send_udp_message`: exactly one line is logged, and the payload counts as
        sent only when `sendto` succeeded. */
    method SendUdpMessage(p: Payload, status: SendStatus)
      modifies this`logQueue, this`sent
      ensures Dispatched(p, status)
    {
      if status == SocketCreateFailed {
        LogMessage(SocketCreateError);
        return;
      }
      if status == BroadcastOptionFailed {
        LogMessage(BroadcastOptionError);
        return;
      }
      if status == SendToFailed {
        LogMessage(SendToError);
      } else {
        sent := sent + [p];
        LogMessage(SentPrefix + Wire(p));
      }
    }

    /** `on_send_button_clicked`: an empty message is refused, any other is sent as typed. */
    method OnSendButtonClicked(message: string, status: SendStatus)
      modifies this`logQueue, this`sent
      ensures message == "" ==> LoggedOnly(EmptyMessage)
      ensures message != "" ==> Dispatched(Text(message), status)
    {
      if message == "" {
        LogMessage(EmptyMessage);
        return;
      }
      SendUdpMessage(Text(message), status);
    }

    /** `on_start_periodic_clicked`: refused while a session runs or when the input is
        invalid; otherwise the flag is set and one worker is started. */
    method OnStartPeriodicClicked(message: string, interval: Option<int>)
      requires Valid()
      modifies this`logQueue, this`periodicSending, this`periodicThread
      ensures Valid()
      ensures old(periodicSending) ==>
        LoggedOnly(PeriodicAlreadyRunning) && periodicSending && periodicThread == old(periodicThread)
      ensures !old(periodicSending) && PeriodicStartRejection(message, interval).Some? ==>
        LoggedOnly(PeriodicStartRejection(message, interval).value) && !periodicSending
      ensures !old(periodicSending) && PeriodicStartRejection(message, interval).None? ==>
        LoggedOnly(PeriodicStarted) && periodicSending
        && periodicThread == Some(PeriodicJob(message, interval.value))
    {
      if periodicSending {
        LogMessage(PeriodicAlreadyRunning);
        return;
      }
      if message == "" {
        LogMessage(EmptyPeriodicMessage);
        return;
      }
      if interval.None? {
        LogMessage(IntervalNotANumber);
        return;
      }
      if interval.value <= 0 {
        LogMessage(IntervalNotPositive);
        return;
      }
      periodicSending := true;
      periodicThread := Some(PeriodicJob(message, interval.value));
      LogMessage(PeriodicStarted);
    }

    /** `on_stop_periodic_clicked`: unconditionally clears the flag, joins the worker
        if there is one, then logs that sending stopped. */
    method OnStopPeriodicClicked()
      requires Valid()
      modifies this`logQueue, this`periodicSending, this`periodicThread
      ensures Valid()
      ensures LoggedOnly(PeriodicStopped) && !periodicSending && periodicThread.None?
    {
      periodicSending := false;
      if periodicThread.Some? {
        periodicThread := None;
      }
      LogMessage(PeriodicStopped);
    }

    /** `on_start_receiving_clicked`: refused while receiving; otherwise the flag is
        set and the receiver worker started. */
    method OnStartReceivingClicked()
      requires Valid()
      modifies this`logQueue, this`running, this`receiverThread
      ensures Valid()
      ensures old(running) ==> LoggedOnly(ReceiverAlreadyRunning) && running && receiverThread
      ensures !old(running) ==> LoggedOnly(ReceiverStarted) && running && receiverThread
    {
      if running {
        LogMessage(ReceiverAlreadyRunning);
        return;
      }
      running := true;
      receiverThread := true;
      LogMessage(ReceiverStarted);
    }

    /** `on_stop_receiving_clicked`: unconditionally clears the flag, joins the
        receiver if there is one, then logs that receiving stopped. */
    method OnStopReceivingClicked()
      requires Valid()
      modifies this`logQueue, this`running, this`receiverThread
      ensures Valid()
      ensures LoggedOnly(ReceiverStopped) && !running && !receiverThread
    {
      running := false;
      if receiverThread {
        receiverThread := false;
      }
      LogMessage(ReceiverStopped);
    }

    /** `on_json_button_clicked`: the toggle command, sent only for 0 or 1. */
    method OnJsonButtonClicked(comando: Option<int>, status: SendStatus)
      modifies this`logQueue, this`sent
      ensures ToggleRequest(comando).Reject? ==> LoggedOnly(ToggleRequest(comando).reason)
      ensures ToggleRequest(comando).Accept? ==>
        Dispatched(Json(Encode(ToggleRequest(comando).cmd)), status)
    {
      if comando.None? {
        LogMessage(ComandoNotANumber);
        return;
      }
      if comando.value != 0 && comando.value != 1 {
        LogMessage(ComandoOutOfRange);
        return;
      }
      var obj := map["URI" := JString(ToggleUri), "idAtuador" := JInt(ActuatorId),
                     "comando" := JInt(comando.value)];
      SendUdpMessage(Json(obj), status);
    }

    /** `on_json_control_button_clicked`: the control command with ACK set. */
    method OnJsonControlButtonClicked(parametro: string, valor: Option<Double>, status: SendStatus)
      modifies this`logQueue, this`sent
      ensures ControlRequest(parametro, valor).Reject? ==>
        LoggedOnly(ControlRequest(parametro, valor).reason)
      ensures ControlRequest(parametro, valor).Accept? ==>
        Dispatched(Json(Encode(ControlRequest(parametro, valor).cmd)), status)
    {
      if parametro == "" {
        LogMessage(ParametroInvalid);
        return;
      }
      if valor.None? {
        LogMessage(ValorNotANumber);
        return;
      }
      var obj := map["URI" := JString(ControlUri), "idAtuador" := JInt(ActuatorId),
                     "parametro" := JString(parametro), "valor" := JDouble(valor.value),
                     "ACK" := JBool(true)];
      SendUdpMessage(Json(obj), status);
    }
  }
}
