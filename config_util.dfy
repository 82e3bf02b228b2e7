/**
 * The settings pipeline of the `minikube config` command: looking a setting up
 * in the catalog, the typed setters that write one key of the configuration
 * map, and `run`, which applies every setter of a setting and collects errors.
 */
module ConfigUtil {
  import opened Wrappers
  import opened Strconv
  import opened Setters

  /** A known setting: its name and the setters to run when it is written. */
  datatype Setting = Setting(name: string, setters: seq<SetterKind>)

  /** findSetting's error: "Property name %s not found". */
  datatype LookupError = PropertyNotFound(name: string)

  /** run's error: fmt.Errorf("%v", errors) over the collected setter errors. */
  datatype RunError = Aggregated(errors: seq<NumError>)

  /** One invocation fn(name, value) that run makes. */
  datatype Call = Call(setter: SetterKind, name: string, value: string)

  /** The invocations run makes for fns: each setter once, in list order, on the same arguments. */
  function CallsOf(fns: seq<SetterKind>, name: string, value: string): seq<Call>
  {
    seq(|fns|, i requires 0 <= i < |fns| => Call(fns[i], name, value))
  }

  /**
   * findSetting: scans the catalog in order and returns the first setting
   * whose name is exactly the given one, or an error when none has it.
   */
  method FindSetting(settings: seq<Setting>, name: string) returns (r: Result<Setting, LookupError>)
    ensures r.Ok? <==> exists i :: 0 <= i < |settings| && settings[i].name == name
    ensures r.Ok? ==> exists i :: 0 <= i < |settings| && settings[i] == r.value && r.value.name == name &&
                        forall j :: 0 <= j < i ==> settings[j].name != name
    ensures r.Err? ==> r.error == PropertyNotFound(name)
  {
    var i := 0;
    while i < |settings|
      invariant 0 <= i <= |settings|
      invariant forall j :: 0 <= j < i ==> settings[j].name != name
    {
      if name == settings[i].name {
        return Ok(settings[i]);
      }
      i := i + 1;
    }
    return Err(PropertyNotFound(name));
  }

  /** The configuration map (config.MinikubeConfig) that the setters write into. */
  class ConfigStore {
    var m: map<string, Value>
    /** Every setter invocation made through Apply, oldest first. */
    ghost var calls: seq<Call>

    constructor (init: map<string, Value>)
      ensures m == init && calls == []
    {
      m := init;
      calls := [];
    }

    /** SetString: always succeeds and stores the text verbatim under name. */
    method SetString(name: string, val: string) returns (err: Option<NumError>)
      modifies this`m
      ensures err == None
      ensures m == old(m)[name := Str(val)]
    {
      m := m[name := Str(val)];
      return None;
    }

    /**
     * SetInt: succeeds exactly when val is an optional sign and one or more
     * digits within the 64-bit range, and then stores that integer under name;
     * otherwise returns Atoi's error and leaves the map as it was.
     */
    method SetInt(name: string, val: string) returns (err: Option<NumError>)
      modifies this`m
      ensures err.None? <==> IsDecimalLiteral(val) && InInt64(LiteralValue(val))
      ensures err.None? ==> m == old(m)[name := Int(LiteralValue(val))]
      ensures err.Some? ==> m == old(m) && Atoi(val) == Err(err.value)
      ensures err.Some? ==> err.value.fn == FnAtoi && err.value.num == val
    {
      AtoiSpec(val);
      var r := Atoi(val);
      if r.Err? {
        return Some(r.error);
      }
      m := m[name := Int(r.value)];
      return None;
    }

    /**
     * SetBool: succeeds exactly on one of ParseBool's twelve tokens and stores
     * the matching boolean under name; otherwise returns a syntax error and
     * leaves the map as it was.
     */
    method SetBool(name: string, val: string) returns (err: Option<NumError>)
      modifies this`m
      ensures err.None? <==> val in TrueTokens || val in FalseTokens
      ensures err.None? ==> m == old(m)[name := Bool(val in TrueTokens)]
      ensures err.Some? ==> m == old(m) && err.value == NumError(FnParseBool, val, ErrSyntax)
    {
      var r := ParseBool(val);
      if r.Err? {
        return Some(r.error);
      }
      m := m[name := Bool(r.value)];
      return None;
    }

    /** fn(name, value) for the setter k: dispatches to it and records the call. */
    method Apply(k: SetterKind, name: string, val: string) returns (err: Option<NumError>)
      modifies this
      ensures err == SetterError(k, val)
      ensures m == SetterStore(k, name, val, old(m))
      ensures calls == old(calls) + [Call(k, name, val)]
    {
      AtoiSpec(val);
      match k {
        case SString => err := SetString(name, val);
        case SInt => err := SetInt(name, val);
        case SBool => err := SetBool(name, val);
      }
      calls := calls + [Call(k, name, val)];
    }

    /**
     * run: calls every setter of fns on (name, value), in order, without
     * stopping at a failure; collects each non-nil error and fails exactly
     * when at least one was collected.
     */
    method Run(name: string, value: string, fns: seq<SetterKind>) returns (r: Option<RunError>)
      modifies this
      ensures r.None? <==> forall i :: 0 <= i < |fns| ==> SetterError(fns[i], value).None?
      ensures r.Some? ==> r.value.errors == RunErrors(fns, value) && r.value.errors != []
      ensures m == RunStore(fns, name, value, old(m))
      ensures calls == old(calls) + CallsOf(fns, name, value)
    {
      var errors: seq<NumError> := [];
      var i := 0;
      while i < |fns|
        invariant 0 <= i <= |fns|
        invariant errors == RunErrors(fns[..i], value)
        invariant m == RunStore(fns[..i], name, value, old(m))
        invariant calls == old(calls) + CallsOf(fns[..i], name, value)
      {
        var err := Apply(fns[i], name, value);
        if err.Some? {
          errors := errors + [err.value];
        }
        assert fns[..i + 1][..i] == fns[..i];
        i := i + 1;
      }
      assert fns[..|fns|] == fns;
      RunErrorsEmptyIff(fns, value);
      if |errors| > 0 {
        return Some(Aggregated(errors));
      }
      return None;
    }
  }
}
