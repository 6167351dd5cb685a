/**
 * The dashboard's intersection picture (node-red/svg_gen.js): which of the six lamps are drawn
 * bright for a received `phase`, and the phase label. The SVG markup itself is not modelled.
 */
module SvgGen {
  import opened Wrappers
  import opened Json

  datatype Lamp = Dim | Bright

  /** The red, yellow and green lamp of one approach pair (`P.NS` or `P.EW`). */
  datatype Pole = Pole(r: Lamp, y: Lamp, g: Lamp)

  datatype Poles = Poles(ns: Pole, ew: Pole)

  const AllDim := Pole(Dim, Dim, Dim)

  const PhaseNames: seq<string> := ["NS GREEN", "NS YELLOW", "ALL RED", "EW GREEN", "EW YELLOW", "ALL RED"]

  /** The array index that the property key `String(phase)` denotes in `phaseNames[phase]`, if it
      is one of 0..5. JavaScript converts the key to a string first, so the string "3" and the
      one-element array [3] also select an entry; `null`, booleans, objects and an absent field
      do not. */
  function JsIndexKey(v: Option<JVal>): (r: Option<int>)
    ensures r.Some? ==> 0 <= r.value < 6
    decreases if v.Some? then v.value else JNull
  {
    match v
    case None => None
    case Some(JInt(i)) => if 0 <= i < 6 then Some(i) else None
    case Some(JFloat(x)) => if x.Floor as real == x && 0 <= x.Floor < 6 then Some(x.Floor) else None
    case Some(JStr(s)) =>
      if |s| == 1 && '0' <= s[0] <= '5' then Some((s[0] as int) - ('0' as int)) else None
    case Some(JArray(items)) =>
      if |items| == 1 && items[0] != JNull then JsIndexKey(Some(items[0])) else None
    case Some(_) => None
  }

  /** The lamp table written as a plain reference: which lamps the switch turns bright. The
      switch compares with `===`, so only JSON numbers select a case. */
  function LampTable(phase: Option<JVal>): (p: Poles) {
    var n := if phase.Some? then AsNumber(phase.value) else None;
    if n == Some(0.0) then Poles(Pole(Dim, Dim, Bright), Pole(Bright, Dim, Dim))
    else if n == Some(1.0) then Poles(Pole(Dim, Bright, Dim), Pole(Bright, Dim, Dim))
    else if n == Some(3.0) then Poles(Pole(Bright, Dim, Dim), Pole(Dim, Dim, Bright))
    else if n == Some(4.0) then Poles(Pole(Bright, Dim, Dim), Pole(Dim, Bright, Dim))
    else Poles(Pole(Bright, Dim, Dim), Pole(Bright, Dim, Dim))
  }

  /** The switch statement of svg_gen.js: start with every lamp dim, then brighten the lamps
      of the matching case in place. */
  method BuildPoles(phase: Option<JVal>) returns (p: Poles)
    ensures p == LampTable(phase)
  {
    p := Poles(AllDim, AllDim);
    var n := if phase.Some? then AsNumber(phase.value) else None;
    if n == Some(0.0) {
      p := p.(ns := p.ns.(g := Bright));
      p := p.(ew := p.ew.(r := Bright));
    } else if n == Some(1.0) {
      p := p.(ns := p.ns.(y := Bright));
      p := p.(ew := p.ew.(r := Bright));
    } else if n == Some(2.0) {
      p := p.(ns := p.ns.(r := Bright));
      p := p.(ew := p.ew.(r := Bright));
    } else if n == Some(3.0) {
      p := p.(ew := p.ew.(g := Bright));
      p := p.(ns := p.ns.(r := Bright));
    } else if n == Some(4.0) {
      p := p.(ew := p.ew.(y := Bright));
      p := p.(ns := p.ns.(r := Bright));
    } else if n == Some(5.0) {
      p := p.(ns := p.ns.(r := Bright));
      p := p.(ew := p.ew.(r := Bright));
    } else {
      p := p.(ns := p.ns.(r := Bright));
      p := p.(ew := p.ew.(r := Bright));
    }
  }

  /** The property key `String(phase)` when it can spell a name that is not an array index:
      a string is its own key, and a one-element array of a non-null item converts like that
      item. Numbers, booleans, `null`, objects (`"[object Object]"`), other arrays (`""`,
      `"a,b"`) and an absent field never spell one of the names below. */
  function JsNameKey(v: Option<JVal>): (r: Option<string>)
    ensures v.Some? && v.value.JStr? ==> r == Some(v.value.s)
    ensures r.Some? ==> v.Some? && (v.value.JStr? || v.value.JArray?)
    decreases if v.Some? then v.value else JNull
  {
    match v
    case Some(JStr(s)) => Some(s)
    case Some(JArray(items)) =>
      if |items| == 1 && items[0] != JNull then JsNameKey(Some(items[0])) else None
    case _ => None
  }

  /** The functions an array inherits under a string key (ECMAScript 2023, as in Node.js 20):
      Array.prototype's methods and the Object.prototype methods it does not shadow. Each is
      a native function whose `name` is its key. */
  predicate IsInheritedMethod(key: string) {
    key in {"at", "concat", "copyWithin", "entries", "every", "fill", "filter", "find"} ||
    key in {"findIndex", "findLast", "findLastIndex", "flat", "flatMap", "forEach", "includes", "indexOf"} ||
    key in {"join", "keys", "lastIndexOf", "map", "pop", "push", "reduce", "reduceRight"} ||
    key in {"reverse", "shift", "slice", "some", "sort", "splice", "toLocaleString", "toReversed"} ||
    key in {"toSorted", "toSpliced", "toString", "unshift", "values", "with", "hasOwnProperty", "isPrototypeOf"} ||
    key in {"propertyIsEnumerable", "valueOf", "__defineGetter__", "__defineSetter__", "__lookupGetter__", "__lookupSetter__"}
  }

  /** Every non-index string key under which `phaseNames` has a (truthy) value: its own
      `length`, the inherited `constructor` and `__proto__`, and the inherited methods. */
  predicate IsArrayProperty(key: string) {
    key in {"length", "constructor", "__proto__"} || IsInheritedMethod(key)
  }

  /** How a template literal renders a native function (V8's `Function.prototype.toString`). */
  function NativeFunctionText(fnName: string): string {
    "function " + fnName + "() { [native code] }"
  }

  /** `phaseNames[phase] || 'UNKNOWN'` as `${pName}` renders it: an index 0..5 gives its entry;
      `length` gives 6; `constructor` gives the `Array` function; `__proto__` gives
      Array.prototype, an empty array that renders as ""; an inherited method renders as its
      native source text; every other key reads `undefined`, which is falsy. */
  function PhaseName(phase: Option<JVal>): (name: string)
    ensures JsIndexKey(phase).Some? ==> name == PhaseNames[JsIndexKey(phase).value]
    ensures JsIndexKey(phase).None? && JsNameKey(phase).Some? && IsInheritedMethod(JsNameKey(phase).value) ==>
      name == NativeFunctionText(JsNameKey(phase).value)
  {
    match JsIndexKey(phase)
    case Some(k) => PhaseNames[k]
    case None =>
      match JsNameKey(phase)
      case Some(key) =>
        if IsInheritedMethod(key) then NativeFunctionText(key)
        else if key == "length" then "6"
        else if key == "constructor" then NativeFunctionText("Array")
        else if key == "__proto__" then ""
        else "UNKNOWN"
      case None => "UNKNOWN"
  }

  function BrightCount(p: Pole): nat {
    (if p.r == Bright then 1 else 0) + (if p.y == Bright then 1 else 0) + (if p.g == Bright then 1 else 0)
  }

  /** Every lamp starts dim and each case brightens exactly one lamp per pole. */
  lemma OneBrightLampPerPole(phase: Option<JVal>)
    ensures BrightCount(LampTable(phase).ns) == 1 && BrightCount(LampTable(phase).ew) == 1
  {
  }

  /** Phase 0 shows NS green with EW red; phase 1 shows NS yellow with EW red. */
  lemma NsPhases()
    ensures LampTable(Some(JInt(0))) == Poles(Pole(Dim, Dim, Bright), Pole(Bright, Dim, Dim))
    ensures LampTable(Some(JInt(1))) == Poles(Pole(Dim, Bright, Dim), Pole(Bright, Dim, Dim))
  {
  }

  /** Phase 3 shows EW green with NS red; phase 4 shows EW yellow with NS red. */
  lemma EwPhases()
    ensures LampTable(Some(JInt(3))) == Poles(Pole(Bright, Dim, Dim), Pole(Dim, Dim, Bright))
    ensures LampTable(Some(JInt(4))) == Poles(Pole(Bright, Dim, Dim), Pole(Dim, Bright, Dim))
  {
  }

  /** Phases 2 and 5, and every value that is not one of the numbers 0, 1, 3, 4 (a string
      "0", null, an absent field, 7, 2.5, ...), show both reds and nothing else. */
  lemma RedPhases(phase: Option<JVal>)
    requires AsNumber(phase.GetOr(JNull)) !in {Some(0.0), Some(1.0), Some(3.0), Some(4.0)}
    ensures LampTable(phase) == Poles(Pole(Bright, Dim, Dim), Pole(Bright, Dim, Dim))
  {
  }

  /** Safety: NS green and EW green are never both bright, whatever the payload. */
  lemma NoConflictingGreens(phase: Option<JVal>)
    ensures !(LampTable(phase).ns.g == Bright && LampTable(phase).ew.g == Bright)
  {
  }

  /** A green is bright only together with the crossing direction's red. */
  lemma GreenOnlyAgainstRed(phase: Option<JVal>)
    ensures LampTable(phase).ns.g == Bright ==> LampTable(phase).ew.r == Bright
    ensures LampTable(phase).ew.g == Bright ==> LampTable(phase).ns.r == Bright
  {
  }

  /** The label and the lamps can disagree: the string "1" names phase 1 but lights the
      fallback all-red table, because the switch compares with `===`. */
  lemma StringPhaseNamedButNotLit()
    ensures PhaseName(Some(JStr("1"))) == "NS YELLOW"
    ensures LampTable(Some(JStr("1"))) == Poles(Pole(Bright, Dim, Dim), Pole(Bright, Dim, Dim))
  {
  }

  /** Numeric phases 0..5 are named after `phaseNames`; any other number is "UNKNOWN". */
  lemma NumericPhaseName(k: int)
    ensures 0 <= k < 6 ==> PhaseName(Some(JInt(k))) == PhaseNames[k]
    ensures !(0 <= k < 6) ==> PhaseName(Some(JInt(k))) == "UNKNOWN"
  {
  }

  /** The label is "UNKNOWN" exactly when the key is neither an index 0..5 nor a property name
      an array has, and it is one of the six phase names exactly when the key is an index. */
  lemma UnknownExactlyWhenNoProperty(phase: Option<JVal>)
    ensures PhaseName(phase) == "UNKNOWN" <==>
      JsIndexKey(phase).None? && (JsNameKey(phase).None? || !IsArrayProperty(JsNameKey(phase).value))
    ensures PhaseName(phase) in PhaseNames <==> JsIndexKey(phase).Some?
  {
  }

  /** The array's own `length` labels the picture "6", also when it arrives as ["length"]. */
  lemma LengthLabel()
    ensures PhaseName(Some(JStr("length"))) == "6"
    ensures PhaseName(Some(JArray([JStr("length")]))) == "6"
  {
    assert !IsInheritedMethod("length");
    assert JsNameKey(Some(JArray([JStr("length")]))) == Some("length");
  }

  /** An inherited method labels the picture with its native source text. */
  lemma MethodLabel()
    ensures PhaseName(Some(JStr("map"))) == "function map() { [native code] }"
  {
  }

  /** `constructor` labels the picture with the source text of the `Array` function. */
  lemma ConstructorLabel()
    ensures PhaseName(Some(JStr("constructor"))) == "function Array() { [native code] }"
  {
    assert !IsInheritedMethod("constructor");
  }

  /** `__proto__` labels the picture with the empty text of Array.prototype. */
  lemma ProtoLabel()
    ensures PhaseName(Some(JStr("__proto__"))) == ""
  {
    assert !IsInheritedMethod("__proto__");
  }

  /** An index past the table and a boolean read `undefined` and fall back to "UNKNOWN". */
  lemma UnknownLabels()
    ensures PhaseName(Some(JStr("6"))) == "UNKNOWN"
    ensures PhaseName(Some(JBool(true))) == "UNKNOWN"
  {
    assert !IsArrayProperty("6");
  }
}
