/**
 * What the three typed setters and the validation aggregator do, stated on
 * values: the value a setter stores or the error it returns, the store after a
 * list of setters has run, and the errors that list collects.
 */
module Setters {
  import opened Wrappers
  import opened Strconv

  /** A value of MinikubeConfig (a map from names to dynamically typed values). */
  datatype Value = Str(s: string) | Int(i: int) | Bool(b: bool)

  /** The setter a setFn stands for: SetString, SetInt or SetBool. */
  datatype SetterKind = SString | SInt | SBool

  /** What setter k makes of the raw text val: the value it stores, or the error it returns. */
  function Coerce(k: SetterKind, val: string): Result<Value, NumError>
  {
    match k
    case SString => Ok(Str(val))
    case SInt =>
      (match Atoi(val)
       case Ok(i) => Ok(Int(i))
       case Err(e) => Err(e))
    case SBool =>
      (match ParseBool(val)
       case Ok(b) => Ok(Bool(b))
       case Err(e) => Err(e))
  }

  /** The error setter k returns for val (None for nil). */
  function SetterError(k: SetterKind, val: string): Option<NumError>
  {
    match Coerce(k, val)
    case Ok(_) => None
    case Err(e) => Some(e)
  }

  /** The store after setter k has run on (name, val): one key written, or nothing on failure. */
  function SetterStore(k: SetterKind, name: string, val: string, m: map<string, Value>): map<string, Value>
  {
    match Coerce(k, val)
    case Ok(v) => m[name := v]
    case Err(_) => m
  }

  /** The store after every setter of fns has run on (name, val), in order. */
  function RunStore(fns: seq<SetterKind>, name: string, val: string, m: map<string, Value>): map<string, Value>
  {
    if fns == [] then m
    else SetterStore(fns[|fns| - 1], name, val, RunStore(fns[..|fns| - 1], name, val, m))
  }

  /** The non-nil errors of fns on val, in setter order. */
  function RunErrors(fns: seq<SetterKind>, val: string): seq<NumError>
  {
    if fns == [] then []
    else
      RunErrors(fns[..|fns| - 1], val) +
        match SetterError(fns[|fns| - 1], val)
        case Some(e) => [e]
        case None => []
  }

  /** The positions in fns of the setters that reject val, in increasing order. */
  function FailingIndices(fns: seq<SetterKind>, val: string): seq<nat>
  {
    if fns == [] then []
    else
      FailingIndices(fns[..|fns| - 1], val) +
        if SetterError(fns[|fns| - 1], val).Some? then [|fns| - 1] else []
  }

  // ---------------------------------------------------------------------------
  // The individual setters

  /** SetString never fails; SetInt and SetBool fail exactly off their grammars. */
  lemma SetterErrorSpec(k: SetterKind, val: string)
    ensures k == SString ==> SetterError(k, val) == None
    ensures k == SInt ==>
      (SetterError(k, val).None? <==> IsDecimalLiteral(val) && InInt64(LiteralValue(val)))
    ensures k == SBool ==>
      (SetterError(k, val).None? <==> val in TrueTokens || val in FalseTokens)
    ensures SetterError(k, val).Some? ==> SetterError(k, val).value.num == val
  {
    AtoiSpec(val);
  }

  // ---------------------------------------------------------------------------
  // The aggregator's result

  /** The aggregator collects nothing exactly when every setter accepts the value. */
  lemma {:induction false} RunErrorsEmptyIff(fns: seq<SetterKind>, val: string)
    ensures RunErrors(fns, val) == [] <==> forall i :: 0 <= i < |fns| ==> SetterError(fns[i], val).None?
  {
    if fns != [] {
      var pre := fns[..|fns| - 1];
      RunErrorsEmptyIff(pre, val);
      assert forall i :: 0 <= i < |pre| ==> pre[i] == fns[i];
    }
  }

  /**
   * The collected errors are one per rejecting setter, in setter order: the
   * i-th error is the error of the setter at the i-th failing position, those
   * positions increase, and a position is failing exactly when its setter
   * rejects the value.
   */
  lemma {:induction false} RunErrorsOnePerFailure(fns: seq<SetterKind>, val: string)
    ensures var idx := FailingIndices(fns, val);
      && |RunErrors(fns, val)| == |idx|
      && (forall j :: 0 <= j < |idx| ==>
            idx[j] < |fns| && SetterError(fns[idx[j]], val) == Some(RunErrors(fns, val)[j]))
      && (forall j, l :: 0 <= j < l < |idx| ==> idx[j] < idx[l])
      && (forall i :: 0 <= i < |fns| ==> (SetterError(fns[i], val).Some? <==> i in idx))
  {
    if fns != [] {
      var n := |fns| - 1;
      var pre := fns[..n];
      RunErrorsOnePerFailure(pre, val);
      var idx0, errs0 := FailingIndices(pre, val), RunErrors(pre, val);
      var idx, errs := FailingIndices(fns, val), RunErrors(fns, val);
      assert forall i :: 0 <= i < n ==> pre[i] == fns[i];
      match SetterError(fns[n], val)
      case None =>
        assert idx == idx0 && errs == errs0;
      case Some(e) =>
        assert idx == idx0 + [n] && errs == errs0 + [e];
        forall j | 0 <= j < |idx|
          ensures idx[j] < |fns| && SetterError(fns[idx[j]], val) == Some(errs[j])
        {
          if j < |idx0| { assert idx[j] == idx0[j] && errs[j] == errs0[j]; }
        }
    }
  }

  // ---------------------------------------------------------------------------
  // The store after the aggregator

  /** Running a list of setters never touches a key other than the setting's own name. */
  lemma {:induction false} RunStoreOtherKeys(fns: seq<SetterKind>, name: string, val: string, m: map<string, Value>)
    ensures var r := RunStore(fns, name, val, m);
      forall k :: k != name ==> (k in r <==> k in m) && (k in m ==> r[k] == m[k])
  {
    if fns != [] {
      RunStoreOtherKeys(fns[..|fns| - 1], name, val, m);
    }
  }

  /** When every setter rejects the value, the store is left exactly as it was. */
  lemma {:induction false} RunStoreAllFail(fns: seq<SetterKind>, name: string, val: string, m: map<string, Value>)
    requires forall i :: 0 <= i < |fns| ==> SetterError(fns[i], val).Some?
    ensures RunStore(fns, name, val, m) == m
  {
    if fns != [] {
      var pre := fns[..|fns| - 1];
      assert forall i :: 0 <= i < |pre| ==> pre[i] == fns[i];
      RunStoreAllFail(pre, name, val, m);
    }
  }

  /**
   * A later failure does not undo an earlier write: when setter i accepts the
   * value and every later one rejects it, the store holds setter i's value at
   * the name, whatever the setters before i did.
   */
  lemma {:induction false} RunStoreLastSuccess(fns: seq<SetterKind>, i: nat, name: string, val: string, m: map<string, Value>)
    requires i < |fns| && Coerce(fns[i], val).Ok?
    requires forall j :: i < j < |fns| ==> SetterError(fns[j], val).Some?
    ensures RunStore(fns, name, val, m) == RunStore(fns[..i], name, val, m)[name := Coerce(fns[i], val).value]
  {
    var n := |fns| - 1;
    var pre := fns[..n];
    if i < n {
      assert pre[..i] == fns[..i];
      assert forall j :: i < j < |pre| ==> pre[j] == fns[j];
      RunStoreLastSuccess(pre, i, name, val, m);
    } else {
      assert pre == fns[..i];
    }
  }

  /** Running a ++ b is running a, then running b on the store a left behind. */
  lemma {:induction false} RunStoreAppend(a: seq<SetterKind>, b: seq<SetterKind>, name: string, val: string, m: map<string, Value>)
    ensures RunStore(a + b, name, val, m) == RunStore(b, name, val, RunStore(a, name, val, m))
    decreases |b|
  {
    if b == [] {
      assert a + b == a;
    } else {
      var b' := b[..|b| - 1];
      assert (a + b)[..|a + b| - 1] == a + b';
      RunStoreAppend(a, b', name, val, m);
    }
  }
}
