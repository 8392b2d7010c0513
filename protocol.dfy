/**
 The vocabulary shared by both versions of the UDP broadcast controller (the
 GTK program in C++ and the Tk program in Python): the numbers read from the
 text fields, the two actuator commands and the JSON objects that carry them,
 the log lines both versions write, and the way the log display grows as the
 log queue is drained.
 */
module Protocol {

  datatype Option<T> = None | Some(value: T)

  /** A double-precision number as `std::stod` or Python's `float` returns it.
      Neither version rejects the non-finite values, so they are kept. */
  datatype Double = Finite(value: real) | PosInfinity | NegInfinity | NaN

  /** The IEEE-754 comparison `x <= 0`, which is false for NaN. */
  predicate AtMostZero(x: Double): (b: bool)
    ensures x.Finite? ==> (b <==> x.value <= 0.0)
    ensures x.NaN? || x.PosInfinity? ==> !b
  {
    match x
    case Finite(r) => r <= 0.0
    case NegInfinity => true
    case PosInfinity => false
    case NaN => false
  }

  /** The values a command object holds. */
  datatype JsonValue = JString(str: string) | JInt(n: int) | JDouble(d: Double) | JBool(b: bool)

  /** A JSON object as a field map: key order is not significant. */
  type JsonObject = map<string, JsonValue>

  /** What one datagram carries: the free text typed by the operator, or a command object. */
  datatype Payload = Text(text: string) | Json(obj: JsonObject)

  /** The UDP port both versions send to and listen on. */
  const Port := 12345
  /** The actuator every command addresses; callers cannot choose another. */
  const ActuatorId := 5
  const ToggleUri := "100/10"
  const ControlUri := "100/11"

  /** The two commands: switch the actuator off (0) or on (1), and set a named parameter. */
  datatype Command = Toggle(comando: int) | Control(parametro: string, valor: Double)

  /** The object a command is sent as. */
  function Encode(c: Command): (obj: JsonObject)
    ensures "idAtuador" in obj && obj["idAtuador"] == JInt(ActuatorId)
    ensures c.Toggle? ==>
              obj.Keys == {"URI", "idAtuador", "comando"}
              && obj["URI"] == JString(ToggleUri) && obj["comando"] == JInt(c.comando)
    ensures c.Control? ==>
              obj.Keys == {"URI", "idAtuador", "parametro", "valor", "ACK"}
              && obj["URI"] == JString(ControlUri) && obj["parametro"] == JString(c.parametro)
              && obj["valor"] == JDouble(c.valor) && obj["ACK"] == JBool(true)
  {
    match c
    case Toggle(k) =>
      map["URI" := JString(ToggleUri), "idAtuador" := JInt(ActuatorId), "comando" := JInt(k)]
    case Control(p, v) =>
      map["URI" := JString(ControlUri), "idAtuador" := JInt(ActuatorId),
          "parametro" := JString(p), "valor" := JDouble(v), "ACK" := JBool(true)]
  }

  /** How the actuator reads a command object: exactly the keys of one of the two
      shapes, with the fixed URI, actuator id and acknowledgement flag. */
  function Decode(obj: JsonObject): Option<Command> {
    if obj.Keys == {"URI", "idAtuador", "comando"}
       && obj["URI"] == JString(ToggleUri) && obj["idAtuador"] == JInt(ActuatorId)
       && obj["comando"].JInt?
    then Some(Toggle(obj["comando"].n))
    else if obj.Keys == {"URI", "idAtuador", "parametro", "valor", "ACK"}
       && obj["URI"] == JString(ControlUri) && obj["idAtuador"] == JInt(ActuatorId)
       && obj["parametro"].JString? && obj["valor"].JDouble? && obj["ACK"] == JBool(true)
    then Some(Control(obj["parametro"].str, obj["valor"].d))
    else None
  }

  /** Every command object the programs build is read back as the command it encodes. */
  lemma DecodeEncode(c: Command)
    ensures Decode(Encode(c)) == Some(c)
  {
    var obj := Encode(c);
    match c
    case Toggle(k) =>
      assert obj.Keys == {"URI", "idAtuador", "comando"};
    case Control(p, v) =>
      assert obj.Keys == {"URI", "idAtuador", "parametro", "valor", "ACK"};
      assert obj.Keys != {"URI", "idAtuador", "comando"} by {
        assert "ACK" in obj.Keys;
      }
  }

  /** Conversely, an object the actuator accepts is exactly the encoding of what it reads:
      no extra field, no other URI or actuator id. */
  lemma EncodeDecode(obj: JsonObject, c: Command)
    requires Decode(obj) == Some(c)
    ensures Encode(c) == obj
  {
    var e := Encode(c);
    assert e.Keys == obj.Keys;
    forall k | k in obj.Keys ensures e[k] == obj[k] {
    }
  }

  // Log lines written by both versions, word for word.
  const EmptyMessage := "Mensagem vazia. Nada foi enviado."
  const PeriodicAlreadyRunning := "Envio periódico já está em execução."
  const EmptyPeriodicMessage := "Mensagem periódica vazia. Nada será enviado."
  const IntervalNotPositive := "Intervalo inválido. Deve ser maior que 0."
  const IntervalNotANumber := "Intervalo inválido. Insira um número."
  const PeriodicStarted := "Envio periódico iniciado."
  const PeriodicStopped := "Envio periódico parado."
  const ReceiverAlreadyRunning := "Recepção já está em execução."
  const ReceiverStarted := "Recepção iniciada."
  const ReceiverStopped := "Recepção parada."
  const ComandoOutOfRange := "Comando inválido. Use 0 para desligar ou 1 para ligar."
  const ComandoNotANumber := "Comando inválido. Insira um número (0 ou 1)."
  const ParametroInvalid := "Parâmetro inválido. Insira um valor válido."
  const ValorNotANumber := "Valor inválido. Insira um número válido para o campo 'valor'."

  /** Outcome of checking the operator's input for a command: send it, or log why not. */
  datatype Verdict = Accept(cmd: Command) | Reject(reason: string)

  /** The toggle command (URI 100/10), the same in both versions: `comando` is the
      parsed text field, None when it is not an integer. */
  function ToggleRequest(comando: Option<int>): (v: Verdict)
    ensures v.Accept? <==> comando == Some(0) || comando == Some(1)
    ensures v.Accept? ==> v.cmd == Toggle(comando.value)
    ensures comando.None? ==> v == Reject(ComandoNotANumber)
    ensures comando.Some? && !v.Accept? ==> v == Reject(ComandoOutOfRange)
  {
    match comando
    case None => Reject(ComandoNotANumber)
    case Some(k) =>
      if k != 0 && k != 1 then Reject(ComandoOutOfRange) else Accept(Toggle(k))
  }

  /** The text a display shows after the given lines were drained into it, in order:
      each line followed by a newline. */
  function Rendered(lines: seq<string>): (text: string)
    ensures |text| >= |lines|
    ensures text == "" <==> lines == []
    ensures lines != [] ==> text[|text| - 1] == '\n'
  {
    if lines == [] then "" else lines[0] + "\n" + Rendered(lines[1..])
  }

  /** Draining in two ticks shows the same text as draining once. */
  lemma {:induction false} RenderedAppend(a: seq<string>, b: seq<string>)
    ensures Rendered(a + b) == Rendered(a) + Rendered(b)
  {
    if a == [] {
      assert a + b == b;
    } else {
      assert (a + b)[1..] == a[1..] + b;
      RenderedAppend(a[1..], b);
    }
  }

  /** Each drained line stands, with its newline, at a known place in the display. */
  lemma {:induction false} RenderedLine(lines: seq<string>, i: nat)
    requires i < |lines|
    ensures Rendered(lines) == Rendered(lines[..i]) + lines[i] + "\n" + Rendered(lines[i + 1..])
  {
    assert lines == lines[..i] + lines[i..];
    RenderedAppend(lines[..i], lines[i..]);
    assert lines[i..][1..] == lines[i + 1..];
  }
}
