/**
 * Parameter resolution: which value a query runs with for one of its stored
 * columns, given the request body. Precedence, highest first: the request's
 * `globalReplacementMap`, the request's map under the query's own name, the
 * stored column, and `undefined` when that column is null.
 */
module ParameterResolution {
  import opened Wrappers
  import opened ObjectEntries
  import opened JsValues

  /** `defaultValue !== null ? defaultValue : undefined`. */
  function StoredDefault(defaultValue: Json): (r: Value)
    ensures r.None? <==> defaultValue == JNull
    ensures r.Some? ==> r == Some(defaultValue)
  {
    if defaultValue != JNull then Some(defaultValue) else None
  }

  /** `body.globalReplacementMap?.[parameter]`. */
  function GlobalOverride(body: Value, parameter: string): Value
  {
    Prop(Prop(body, "globalReplacementMap"), parameter)
  }

  /** `body[queryName]?.[parameter]`. */
  function LocalOverride(body: Value, queryName: string, parameter: string): Value
  {
    Prop(Prop(body, queryName), parameter)
  }

  /**
   * `extractParameter` of the live batch service. The result is always one of
   * the three candidates, and it is `undefined` exactly when the request
   * overrides nothing and the stored column is null.
   */
  function ExtractParameter(body: Value, defaultValue: Json, parameter: string, queryName: string): (r: Value)
    ensures !IsObjectType(body) ==> r == StoredDefault(defaultValue)
    ensures r == GlobalOverride(body, parameter)
         || r == LocalOverride(body, queryName, parameter)
         || r == StoredDefault(defaultValue)
    ensures r.None? <==>
              GlobalOverride(body, parameter).None?
              && LocalOverride(body, queryName, parameter).None?
              && defaultValue == JNull
  {
    if !IsObjectType(body) then StoredDefault(defaultValue)
    else
      var global := GlobalOverride(body, parameter);
      if global.Some? then global
      else
        var local := LocalOverride(body, queryName, parameter);
        if local.Some? then local else StoredDefault(defaultValue)
  }

  /** The first defined value of a list of candidates, `undefined` if none. */
  function FirstDefined(candidates: seq<Value>): (r: Value)
    ensures r.Some? <==> exists i :: 0 <= i < |candidates| && candidates[i].Some?
    ensures r.Some? ==> r in candidates
  {
    if candidates == [] then None
    else if candidates[0].Some? then candidates[0]
    else
      var r := FirstDefined(candidates[1..]);
      assert forall i :: 0 < i < |candidates| ==> candidates[i] == candidates[1..][i - 1];
      r
  }

  /**
   * The precedence, stated independently of the code: the resolved value is
   * the first defined one of global override, per-query override and stored
   * default.
   */
  lemma ExtractParameterIsFirstDefined(body: Value, defaultValue: Json, parameter: string, queryName: string)
    ensures ExtractParameter(body, defaultValue, parameter, queryName)
         == FirstDefined([GlobalOverride(body, parameter),
                          LocalOverride(body, queryName, parameter),
                          StoredDefault(defaultValue)])
  {
    var cs := [GlobalOverride(body, parameter),
               LocalOverride(body, queryName, parameter),
               StoredDefault(defaultValue)];
    assert cs[1..] == [cs[1], cs[2]];
    assert cs[1..][1..] == [cs[2]];
    assert cs[1..][1..][1..] == [];
  }

  /**
   * A JSON `null` in the request is a defined value (`null !== undefined`):
   * it beats the per-query map and the stored default.
   */
  lemma NullOverrideWins(body: Value, defaultValue: Json, parameter: string, queryName: string)
    requires GlobalOverride(body, parameter) == Some(JNull)
    ensures ExtractParameter(body, defaultValue, parameter, queryName) == Some(JNull)
  {
  }

  /** `extractParameter` of the older batch service, with its explicit `Object.isObject` guards. */
  function ExtractParameterLegacy(body: Value, queryName: string, parameter: string, defaultValue: Json): (r: Value)
    ensures !IsPlainObject(body) ==> r == StoredDefault(defaultValue)
  {
    var global := Prop(body, "globalReplacementMap");
    var local := Prop(body, queryName);
    if IsPlainObject(body) && IsPlainObject(global) && Prop(global, parameter).Some? then
      Prop(global, parameter)
    else if IsPlainObject(body) && IsPlainObject(local) && Prop(local, parameter).Some? then
      Prop(local, parameter)
    else
      StoredDefault(defaultValue)
  }

  /**
   * The two versions resolve every parameter identically: the older one's
   * explicit object guards are what optional chaining does in the newer one.
   */
  lemma ExtractParameterVersionsAgree(body: Value, defaultValue: Json, parameter: string, queryName: string)
    ensures ExtractParameterLegacy(body, queryName, parameter, defaultValue)
         == ExtractParameter(body, defaultValue, parameter, queryName)
  {
  }
}
