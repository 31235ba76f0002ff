/** The comparison operators of a constraint and the JSON deserializer that reads
    one from its symbol. */
module Operators {
  import opened Wrappers

  /** The comparison a constraint applies between a metric value and its threshold. */
  datatype QualityMetricOperator = LT | LTE | GT | GTE | EQ | NEQ
  {
    /** The symbol that stands for the operator in a request body: one or two
        characters, none of them a space. */
    function Symbol(): (s: string)
      ensures 1 <= |s| <= 2
      ensures ' ' !in s
    {
      match this
      case LT => "<"
      case LTE => "<="
      case GT => ">"
      case GTE => ">="
      case EQ => "=="
      case NEQ => "!="
    }
  }

  /** QualityMetricOperator.values(), in declaration order: every operator exactly
      once. */
  function Values(): (vs: seq<QualityMetricOperator>)
    ensures |vs| == 6
    ensures forall op :: op in vs
    ensures forall i, j :: 0 <= i < j < |vs| ==> vs[i] != vs[j]
  {
    var vs := [LT, LTE, GT, GTE, EQ, NEQ];
    assert forall op :: op in vs by {
      forall op ensures op in vs {
        assert op.LT? || op.LTE? || op.GT? || op.GTE? || op.EQ? || op.NEQ?;
      }
    }
    vs
  }

  /** The text the error message shows for the parsed value; Java prints a null
      string as "null". */
  function Shown(symbol: Option<string>): string
  {
    if symbol.Some? then symbol.value else "null"
  }

  /** Some operator in Values has exactly this symbol. */
  predicate IsKnownSymbol(symbol: string)
  {
    exists i :: 0 <= i < |Values()| && Values()[i].Symbol() == symbol
  }

  /** Index i holds the first operator in Values whose symbol is the given one. */
  predicate IsFirstMatch(symbol: string, i: int)
  {
    0 <= i < |Values()| && Values()[i].Symbol() == symbol
    && forall j :: 0 <= j < i ==> Values()[j].Symbol() != symbol
  }

  /** No two operators share a symbol. */
  lemma SymbolsDistinct(a: QualityMetricOperator, b: QualityMetricOperator)
    requires a.Symbol() == b.Symbol()
    ensures a == b
  {
    assert |a.Symbol()| == |b.Symbol()|;
    assert a.Symbol()[0] == b.Symbol()[0];
  }

  /** A symbol is known exactly when it is the symbol of some operator. */
  lemma KnownSymbolIffSomeOperator(symbol: string)
    ensures IsKnownSymbol(symbol) <==> exists op: QualityMetricOperator :: op.Symbol() == symbol
  {
    if op: QualityMetricOperator :| op.Symbol() == symbol {
      assert op in Values();
      var i :| 0 <= i < |Values()| && Values()[i] == op;
      assert Values()[i].Symbol() == symbol;
    }
  }

  /** Symbols are matched without trimming: a symbol with a space around it, or an
      empty one, names no operator. */
  lemma NoTrimming(symbol: string)
    requires symbol == [] || ' ' in symbol
    ensures !IsKnownSymbol(symbol)
  {
  }

  /** deserialize: scans Values in order and returns the first operator whose symbol
      equals the parsed string; a null or unknown string fails with the message
      "Invalid operator symbol: " followed by the string. */
  method Deserialize(symbol: Option<string>) returns (r: Result<QualityMetricOperator, string>)
    ensures r.Success? <==> symbol.Some? && IsKnownSymbol(symbol.value)
    ensures r.Success? ==> exists i :: IsFirstMatch(symbol.value, i) && r.value == Values()[i]
    ensures r.Success? ==> r.value.Symbol() == symbol.value
    ensures forall op: QualityMetricOperator :: symbol == Some(op.Symbol()) ==> r == Success(op)
    ensures r.Failure? ==> r.error == "Invalid operator symbol: " + Shown(symbol)
  {
    for i := 0 to |Values()|
      invariant forall j :: 0 <= j < i ==> symbol != Some(Values()[j].Symbol())
    {
      if symbol == Some(Values()[i].Symbol()) {
        assert IsFirstMatch(symbol.value, i);
        forall op: QualityMetricOperator | symbol == Some(op.Symbol()) ensures Values()[i] == op {
          SymbolsDistinct(Values()[i], op);
        }
        return Success(Values()[i]);
      }
    }
    if symbol.Some? {
      KnownSymbolIffSomeOperator(symbol.value);
    }
    return Failure("Invalid operator symbol: " + Shown(symbol));
  }
}
