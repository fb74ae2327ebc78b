/**
  `obtain`: the value of a key from the merged view, from the key's default,
  or else from asking the user; optionally stored afterwards. The prior
  knowledge about keys is a map handed in, the user interface a value that
  says whether it can ask, which dialogs it knows and what the user answers.
*/
module ConfigObtain {
  import opened Results
  import opened ConfigLayers
  import opened ConfigQueries

  /** The types a value can be asked in. */
  datatype ValType = IntType | BoolType

  /** What is known beforehand about a key. */
  datatype Definition = Definition(
    valtype: Option<ValType>,
    default: Option<string>,
    dialog: Option<string>,
    destination: Option<string>)

  const NoDefinition: Definition := Definition(None, None, None, None)

  /** The user interface: whether it is interactive, the dialogs it offers, and the answer it will get. */
  datatype Ui = Ui(interactive: bool, dialogs: set<string>, response: Option<string>)

  /** An obtained value: as it was (`Flag` standing for nothing at all), or converted. */
  datatype Typed = AsIs(v: Value) | IntValue(i: int) | BoolValue(b: bool)

  /** What `obtain` does: fail, return a value, or return it after storing its text at `where`. */
  datatype Plan = Fail(error: ConfigError) | Done(value: Typed) | StoreThen(value: Typed, where: string, text: string)

  /** The conversion by the requested type; every failure of it is reported as `ValueError`. */
  function Convert(vt: Option<ValType>, v: Value): (r: Result<Typed, ConfigError>)
    ensures vt.None? ==> r == Ok(AsIs(v))
    ensures vt == Some(IntType) ==> (r.Ok? <==> v.Scalar? && ParseInt(v.text).Ok?)
    ensures vt == Some(IntType) && r.Ok? ==> r.value == IntValue(ParseInt(v.text).value)
    ensures vt == Some(BoolType) && v == Flag ==> r == Ok(BoolValue(true))
    ensures vt == Some(BoolType) && v.Scalar? && AnythingToBool(v.text).Ok? ==> r == Ok(BoolValue(AnythingToBool(v.text).value))
    ensures r.Err? ==> r.error.ValueError?
  {
    match vt
    case None => Ok(AsIs(v))
    case Some(IntType) =>
      if v.Scalar? && ParseInt(v.text).Ok? then Ok(IntValue(ParseInt(v.text).value))
      else Err(ValueError("cannot convert to int"))
    case Some(BoolType) =>
      match v
      case Flag => Ok(BoolValue(true))
      case Scalar(t) => if AnythingToBool(t).Ok? then Ok(BoolValue(AnythingToBool(t).value)) else Err(ValueError("cannot convert to bool"))
      case Multi(_) => Err(ValueError("cannot convert to bool"))
  }

  function ConvertPlan(r: Result<Typed, ConfigError>): Plan {
    match r
    case Ok(t) => Done(t)
    case Err(e) => Fail(e)
  }

  function Pick<T>(given: Option<T>, known: Option<T>): Option<T> {
    if given.Some? then given else known
  }

  /** The value read from the merged view, where a bare flag counts as no value. */
  function Present(store: Layer, key: string): Option<Value> {
    if key in store && View(store[key]) != Flag then Some(View(store[key])) else None
  }

  /** What is known beforehand about `key`: its definition, or nothing. */
  function DefOf(defs: map<string, Definition>, key: string): Definition {
    if key in defs then defs[key] else NoDefinition
  }

  /**
    The decision `obtain` takes. A present value is converted and returned
    (never stored again); a default is used when nothing is to be stored;
    otherwise the user is asked, which needs a dialog, an interface that
    offers it and, when storing, a destination (checked before asking).
    Each argument left out is taken from the key's definition.
  */
  function Decide(store: Layer, defs: map<string, Definition>, key: string,
                  default: Option<string>, dialog: Option<string>, valtype: Option<ValType>,
                  storeIt: bool, where: Option<string>, ui: Ui): (p: Plan)
    // a value already present is converted and returned
    ensures Present(store, key).Some? ==>
      p == ConvertPlan(Convert(Pick(valtype, DefOf(defs, key).valtype), Present(store, key).value))
    ensures Present(store, key).Some? && Pick(valtype, DefOf(defs, key).valtype).None? ==> p == Done(AsIs(Present(store, key).value))
    // a default is used when nothing is to be stored
    ensures Present(store, key).None? && !storeIt && Pick(default, DefOf(defs, key).default).Some? ==>
      p == ConvertPlan(Convert(Pick(valtype, DefOf(defs, key).valtype), Scalar(Pick(default, DefOf(defs, key).default).value)))
    // nothing known, no default and no way to ask
    ensures (Present(store, key).None? && Pick(default, DefOf(defs, key).default).None? &&
             (!ui.interactive || Pick(dialog, DefOf(defs, key).dialog).None?)) ==> p.Fail? && p.error.RuntimeError?
    // a dialog the interface does not offer
    ensures Present(store, key).None? && (storeIt || Pick(default, DefOf(defs, key).default).None?) && ui.interactive &&
            Pick(dialog, DefOf(defs, key).dialog).Some? && Pick(dialog, DefOf(defs, key).dialog).value !in ui.dialogs ==>
            p.Fail? && p.error.ValueError?
    // storing with no destination never succeeds; asked for, it is a `ValueError`
    ensures Present(store, key).None? && storeIt && Pick(where, DefOf(defs, key).destination).None? ==> p.Fail?
    ensures Present(store, key).None? && storeIt && Pick(where, DefOf(defs, key).destination).None? && ui.interactive &&
            Pick(dialog, DefOf(defs, key).dialog).Some? && Pick(dialog, DefOf(defs, key).dialog).value in ui.dialogs ==>
            p.Fail? && p.error.ValueError?
    // the user's answer is converted: a malformed one is a `ValueError`, a good one is returned, and stored when asked
    ensures Present(store, key).None? && (storeIt || Pick(default, DefOf(defs, key).default).None?) && ui.interactive &&
            Pick(dialog, DefOf(defs, key).dialog).Some? && Pick(dialog, DefOf(defs, key).dialog).value in ui.dialogs &&
            (storeIt ==> Pick(where, DefOf(defs, key).destination).Some?) && ui.response.Some? ==>
            var c := Convert(Pick(valtype, DefOf(defs, key).valtype), Scalar(ui.response.value));
            && (c.Err? ==> p.Fail? && p.error.ValueError?)
            && (c.Ok? && !storeIt ==> p == Done(c.value))
            && (c.Ok? && storeIt ==> p == StoreThen(c.value, Pick(where, DefOf(defs, key).destination).value, ui.response.value))
    ensures p.StoreThen? ==> storeIt && Present(store, key).None?
  {
    var d := DefOf(defs, key);
    var vt := Pick(valtype, d.valtype);
    var dflt := Pick(default, d.default);
    if Present(store, key).Some? then
      ConvertPlan(Convert(vt, Present(store, key).value))
    else if !storeIt && dflt.Some? then
      ConvertPlan(Convert(vt, Scalar(dflt.value)))
    else
      var dlg := Pick(dialog, d.dialog);
      if (!ui.interactive || dlg.None?) && dflt.None? then
        Fail(RuntimeError("cannot obtain value for " + key + ": not preconfigured, no default, no UI"))
      else if dlg.None? then
        Fail(TypeError("no dialog type"))
      else if dlg.value !in ui.dialogs then
        Fail(ValueError("unsupported dialog type " + dlg.value))
      else
        var dest := Pick(where, d.destination);
        if storeIt && dest.None? then
          Fail(ValueError("no storage destination for " + key))
        else if ui.response.None? && dflt.None? then
          Fail(RuntimeError("could not obtain value for " + key))
        else
          // accepting the prompt without typing anything gives the default
          var answer := if ui.response.Some? then ui.response.value else dflt.value;
          match Convert(vt, Scalar(answer))
          case Err(e) => Fail(e)
          case Ok(t) =>
            if storeIt then StoreThen(t, dest.value, answer)
            else Done(t)
  }

  /**
    A request to store with no destination fails without asking: the outcome
    is the same whatever the user would answer.
  */
  lemma StoreWithoutDestinationNeverAsks(store: Layer, defs: map<string, Definition>, key: string,
                                         default: Option<string>, dialog: Option<string>, valtype: Option<ValType>,
                                         ui: Ui, answer: Option<string>)
    requires key !in store && (key !in defs || defs[key].destination.None?)
    ensures Decide(store, defs, key, default, dialog, valtype, true, None, ui).Fail?
    ensures ui.interactive && Pick(dialog, DefOf(defs, key).dialog).Some? && Pick(dialog, DefOf(defs, key).dialog).value in ui.dialogs ==>
            Decide(store, defs, key, default, dialog, valtype, true, None, ui).error.ValueError?
    ensures Decide(store, defs, key, default, dialog, valtype, true, None, ui.(response := answer)) ==
            Decide(store, defs, key, default, dialog, valtype, true, None, ui)
  {
  }
}
