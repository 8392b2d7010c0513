/**
 Where the C++ and the Python versions of the controller agree on the same
 operator input, and where they part.
 */
module Comparison {
  import opened Protocol
  import Cpp = UdpBroadcast
  import Py = CentralMockup

  /** For the same parsed value, whatever control command the Python version sends,
      the C++ version sends too. */
  lemma ControlPythonAcceptsLess(parametro: string, valor: Option<Double>)
    requires Py.ControlRequest(parametro, valor).Accept?
    ensures Cpp.ControlRequest(parametro, valor) == Py.ControlRequest(parametro, valor)
  {
  }

  /** A parameter name made only of white space is sent by the C++ version and
      refused by the Python one. */
  lemma ControlBlankParametro(parametro: string, valor: Double)
    requires parametro != "" && Py.Blank(parametro)
    ensures Cpp.ControlRequest(parametro, Some(valor)) == Accept(Control(parametro, valor))
    ensures Py.ControlRequest(parametro, Some(valor)) == Reject(ParametroInvalid)
  {
  }

  /** With both fields wrong, each version reports the field it checks first. */
  lemma ControlCheckOrder()
    ensures Cpp.ControlRequest("", None) == Reject(ParametroInvalid)
    ensures Py.ControlRequest("", None) == Reject(ValorNotANumber)
  {
  }

  /** For the same parsed value, a whole number of seconds on both sides, the two
      versions decide the start of the periodic sender alike, with the same log
      line; so they do when the interval does not parse at all. */
  lemma PeriodicStartAgrees(message: string, seconds: int)
    ensures Cpp.PeriodicStartRejection(message, Some(seconds))
         == Py.PeriodicStartRejection(message, Some(Finite(seconds as real)))
    ensures Cpp.PeriodicStartRejection(message, None)
         == Py.PeriodicStartRejection(message, None)
  {
  }
}
