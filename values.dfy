/**
 * Dynamic values of the automation package: the parameter maps loaded from
 * the workflow configuration, the keyword arguments passed between
 * functions, and the inputs of the nodes of a render graph. Python raises
 * exceptions where this model returns `Err`.
 */
module Values {

  datatype Option<+T> = None | Some(value: T)

  /** The exceptions the modelled code can raise. */
  datatype Error =
    | KeyError(key: string)        // a missing dictionary key
    | IndexError                   // a list index past the end
    | AttributeError(what: string) // `.get` or `.strip` on a value of the wrong kind
    | TypeError(what: string)      // an unhashable dictionary key

  datatype Result<+T> = Ok(value: T) | Err(error: Error)

  /**
   * A value as it appears in a parameter map. Numbers with a fractional
   * part (`7.0`, `0.45`) are only ever copied or tested for truth, so they
   * are kept as their decimal literal.
   */
  datatype Value =
    | Null
    | Bool(b: bool)
    | Int(i: int)
    | Num(literal: string)
    | Str(s: string)
    | List(items: seq<Value>)
    | Dict(entries: map<string, Value>)

  /** The part of a float literal before its exponent (`e` or `E`). */
  function Mantissa(t: string): (m: string)
    ensures |m| <= |t| && m == t[..|m|]
    ensures forall j :: 0 <= j < |m| ==> m[j] != 'e' && m[j] != 'E'
  {
    if t == [] || t[0] == 'e' || t[0] == 'E' then [] else [t[0]] + Mantissa(t[1..])
  }

  /**
   * The truth of a YAML float literal: the infinities and not-a-number
   * (`.inf`, `-.Inf`, `.nan`, `.NaN`, ...: the only forms with an `n`) are
   * true, and any other literal is true when its mantissa has a non-zero
   * digit, whatever its exponent.
   */
  predicate NumTruthy(t: string)
  {
    (exists j :: 0 <= j < |t| && (t[j] == 'n' || t[j] == 'N'))
    || exists j :: 0 <= j < |Mantissa(t)| && '1' <= Mantissa(t)[j] <= '9'
  }

  /** Python truthiness. */
  predicate Truthy(v: Value)
  {
    match v
    case Null => false
    case Bool(b) => b
    case Int(i) => i != 0
    case Num(t) => NumTruthy(t)
    case Str(s) => s != ""
    case List(items) => items != []
    case Dict(entries) => entries != map[]
  }

  /** `d.get(key, default)` */
  function Get(d: map<string, Value>, key: string, default: Value): Value
  {
    if key in d then d[key] else default
  }

  /** The infinities and not-a-number are true. */
  lemma NonFiniteTruthy()
    ensures Truthy(Num(".inf")) && Truthy(Num("-.Inf")) && Truthy(Num(".NaN"))
  {
    assert ".inf"[2] == 'n';
    assert "-.Inf"[3] == 'n';
    assert ".NaN"[1] == 'N';
  }

  /** A fraction with a non-zero digit is true. */
  lemma FractionTruthy()
    ensures Truthy(Num("0.45"))
  {
    var t := "0.45";
    assert t[1..][1..][1..][1..] == [];
    assert Mantissa(t) == t;
    assert Mantissa(t)[2] == '4';
  }

  /** A zero mantissa is false, whatever the exponent. */
  lemma ZeroFalsy()
    ensures !Truthy(Num("0.0e+5"))
  {
    var t := "0.0e+5";
    assert t[3..] == "e+5" && Mantissa(t[3..]) == [];
    assert t[2..] == ['0'] + t[3..] && Mantissa(t[2..]) == "0";
    assert t[1..] == ['.'] + t[2..] && Mantissa(t[1..]) == ".0";
    assert Mantissa(t) == "0.0";
    assert forall j :: 0 <= j < |t| ==> t[j] != 'n' && t[j] != 'N';
  }
}
