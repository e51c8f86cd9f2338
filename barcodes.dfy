/** The barcode graphic element of geraldo (geraldo/barcodes.py).

    A `BarCode` is a mutable configuration object: a symbology name checked
    against the names the barcode library supports, a rule for finding the
    value to encode, and a dictionary of extra keyword arguments for the
    encoder. `Render` fills that dictionary in place, dispatches to the
    drawing factory or to an encoder class, and caches the result.

    The barcode library (its encoders, its drawing factory and its list of
    code names), the attribute lookup `get_attr_value` and the measured width
    of a rendered object are foreign code: they reach the model through a
    `Context` value, and rendered objects are opaque values that record the
    symbology and the keyword arguments they were built from. */
module Barcodes {
  import opened Wrappers

  // ---------------------------------------------------------------------
  // Python values
  // ---------------------------------------------------------------------

  /** The Python values the element stores and passes on. `Obj` stands for a
      data record (or any other object) identified by its id. */
  datatype Value =
    | Nil
    | Bool(b: bool)
    | Int(i: int)
    | Real(x: real)
    | Str(s: string)
    | Obj(id: nat)

  /** Python truthiness. A record is an object without `__bool__` or
      `__len__`, hence always true. */
  predicate Truthy(v: Value) {
    match v
    case Nil => false
    case Bool(b) => b
    case Int(i) => i != 0
    case Real(x) => x != 0.0
    case Str(s) => s != []
    case Obj(_) => true
  }

  /** The keyword arguments handed to an encoder. */
  type Params = map<string, Value>

  /** What the barcode library builds: a complete drawing from its drawing
      factory, or an encoder widget from one of its classes. Each records the
      symbology and the keyword arguments it received. */
  datatype Rendered =
    | Drawing(kind: string, args: Params)
    | Widget(kind: string, args: Params)

  /** The errors the element raises: the bare exception of `set_type`, and
      the `KeyError` of the class-table lookup in `render`. */
  datatype Error =
    | UnsupportedType(message: string)
    | MissingClass(key: Option<string>)

  /** The collaborators the element calls but does not define. */
  datatype Context = Context(
    /** `getCodeNames()`: the symbology names the library supports. */
    supportedTypes: seq<string>,
    /** `get_attr_value(instance, path)` of geraldo's utilities. */
    getAttrValue: (Value, Option<string>) -> Value,
    /** The `width` attribute of a rendered drawing or widget. */
    measuredWidth: Rendered -> real)

  // ---------------------------------------------------------------------
  // Constants
  // ---------------------------------------------------------------------

  /** One centimetre in points. */
  const Cm: real := 72.0 / 2.54

  /** Class-level defaults of the element. */
  const DefaultWidth: real := 0.03 * Cm
  const DefaultHeight: real := 1.5 * Cm
  const DefaultQrLevel: string := "L"
  const DefaultBorder: int := 4

  /** Symbologies built by the drawing factory rather than by a class. */
  const DrawingTypes: set<string> := {"EAN13", "EAN8", "QR"}

  /** The keys of `BARCODE_CLASSES`: the symbologies with an encoder class. */
  const BarcodeClasses: set<string> := {
    "Codabar", "Code11", "Code128", "EAN13", "EAN8", "Extended39",
    "Extended93", "FIM", "I2of5", "MSI", "POSTNET", "Standard39",
    "Standard93", "USPS_4State", "QR"
  }

  /** The only symbology that takes a routing code. */
  const RoutingType: string := "USPS_4State"

  /** The keys `render` fills in only when the caller has not. */
  const DefaultKeys: set<string> := {"barWidth", "barHeight", "barLevel", "barBorder"}

  const MessagePrefix: string := "Supported types are: "
  const Separator: string := ", "

  // ---------------------------------------------------------------------
  // The error message of set_type: ', '.join(names)
  // ---------------------------------------------------------------------

  /** The total length of `parts`. */
  function TotalLength(parts: seq<string>): nat {
    if |parts| == 0 then 0 else |parts[0]| + TotalLength(parts[1..])
  }

  /** The length of the separators between `n` parts: one fewer than `n`. */
  function SeparatorsLength(sep: string, n: nat): nat {
    if n <= 1 then 0 else |sep| + SeparatorsLength(sep, n - 1)
  }

  /** Python's `sep.join(parts)`: the parts in order, with one separator
      between neighbours and none at either end. */
  function Join(sep: string, parts: seq<string>): (r: string)
    ensures |parts| == 0 ==> r == ""
    ensures |r| == TotalLength(parts) + SeparatorsLength(sep, |parts|)
  {
    if |parts| == 0 then ""
    else if |parts| == 1 then parts[0]
    else parts[0] + sep + Join(sep, parts[1..])
  }

  /** Where `parts[i]` starts inside `Join(sep, parts)`. */
  function JoinOffset(sep: string, parts: seq<string>, i: nat): nat
    requires i < |parts|
  {
    if i == 0 then 0 else |parts[0]| + |sep| + JoinOffset(sep, parts[1..], i - 1)
  }

  /** Every part occurs, intact, at its offset in the joined string. */
  lemma {:induction false} JoinContainsPart(sep: string, parts: seq<string>, i: nat)
    requires i < |parts|
    ensures JoinOffset(sep, parts, i) + |parts[i]| <= |Join(sep, parts)|
    ensures Join(sep, parts)[JoinOffset(sep, parts, i)..JoinOffset(sep, parts, i) + |parts[i]|] == parts[i]
  {
    if |parts| == 1 {
    } else if i == 0 {
      SliceOfConcat(parts[0], sep + Join(sep, parts[1..]), 0, |parts[0]|);
    } else {
      var rest := parts[1..];
      JoinContainsPart(sep, rest, i - 1);
      var o := JoinOffset(sep, rest, i - 1);
      assert rest[i - 1] == parts[i];
      SliceOfConcat(parts[0] + sep, Join(sep, rest), |parts[0] + sep| + o, |parts[0] + sep| + o + |parts[i]|);
    }
  }

  /** A slice of `a + b` that lies inside `a`, or inside `b`, is that slice
      of `a`, or of `b`. */
  lemma SliceOfConcat(a: string, b: string, lo: nat, hi: nat)
    requires lo <= hi <= |a| + |b|
    ensures hi <= |a| ==> (a + b)[lo..hi] == a[lo..hi]
    ensures |a| <= lo ==> (a + b)[lo..hi] == b[lo - |a|..hi - |a|]
  {
  }

  /** The message raised for an unsupported symbology. */
  function SupportedMessage(names: seq<string>): string {
    MessagePrefix + Join(Separator, names)
  }

  /** `part` occurs in `s` starting at index `k`. */
  predicate OccursAt(s: string, part: string, k: nat) {
    k + |part| <= |s| && s[k..k + |part|] == part
  }

  /** The message names every supported symbology. */
  lemma {:induction false} SupportedMessageListsEveryName(names: seq<string>, i: nat)
    requires i < |names|
    ensures exists k: nat :: OccursAt(SupportedMessage(names), names[i], k)
  {
    JoinContainsPart(Separator, names, i);
    var o := JoinOffset(Separator, names, i);
    var m := SupportedMessage(names);
    var k := |MessagePrefix| + o;
    assert m[k..k + |names[i]|] == Join(Separator, names)[o..o + |names[i]|];
    assert OccursAt(m, names[i], k);
  }

  /** The check `set_type` makes before storing a symbology. */
  function CheckType(supported: seq<string>, t: Option<string>): (r: Outcome<Error>)
    ensures r.Pass? <==> t.Some? && t.value in supported
    ensures r.Fail? ==> r.error == UnsupportedType(SupportedMessage(supported))
  {
    if t.Some? && t.value in supported then Pass
    else Fail(UnsupportedType(SupportedMessage(supported)))
  }

  // ---------------------------------------------------------------------
  // Parameter assembly and dispatch, as functions of the dictionary
  // ---------------------------------------------------------------------

  /** `if k not in m: m[k] = v`, on a dictionary value. */
  function FillDefault(m: Params, k: string, v: Value): Params {
    if k in m then m else m[k := v]
  }

  /** The dictionary after the first part of a computing render: the
      resolved value is stored under `value`, then each of the four geometry
      and QR keys is filled in when it is missing. */
  function Prepare(m: Params, value: Value, width: real, height: real, level: string, border: int): (r: Params)
    ensures r.Keys == m.Keys + {"value"} + DefaultKeys
    ensures r["value"] == value
    ensures forall k :: k in m && k != "value" ==> r[k] == m[k]
    ensures "barWidth" !in m ==> r["barWidth"] == Real(width)
    ensures "barHeight" !in m ==> r["barHeight"] == Real(height)
    ensures "barLevel" !in m ==> r["barLevel"] == Str(level)
    ensures "barBorder" !in m ==> r["barBorder"] == Int(border)
  {
    var m1 := m["value" := value];
    var m2 := FillDefault(m1, "barWidth", Real(width));
    var m3 := FillDefault(m2, "barHeight", Real(height));
    var m4 := FillDefault(m3, "barLevel", Str(level));
    FillDefault(m4, "barBorder", Int(border))
  }

  /** The state a computing render leaves behind: the dictionary after it
      and what it returns or raises. */
  datatype Step = Step(bag: Params, result: Result<Rendered, Error>)

  /** The second part of a computing render, from the prepared dictionary:
      the drawing factory for EAN13, EAN8 and QR; otherwise the class table,
      which raises `KeyError` for a symbology it lacks (or for no symbology),
      and on success the `checksum` entry and, for USPS 4-State only, the
      `routing` entry. */
  function Dispatch(kind: Option<string>, prepared: Params, checksum: Value, routing: Value): (s: Step)
    ensures s.result.Ok? <==> kind.Some? && (kind.value in DrawingTypes || kind.value in BarcodeClasses)
    ensures s.result.Err? ==> s.bag == prepared && s.result.error == MissingClass(kind)
    ensures kind.Some? && kind.value in DrawingTypes ==>
      s.bag == prepared && s.result == Ok(Drawing(kind.value, prepared))
    ensures kind.Some? && kind.value !in DrawingTypes && kind.value in BarcodeClasses ==>
      && s.bag.Keys == prepared.Keys + {"checksum"} + (if kind.value == RoutingType then {"routing"} else {})
      && s.bag["checksum"] == checksum
      && (kind.value == RoutingType ==> s.bag["routing"] == routing)
      && (forall k :: k in prepared && k != "checksum" && (k == "routing" ==> kind.value != RoutingType) ==>
            s.bag[k] == prepared[k])
      && s.result == Ok(Widget(kind.value, s.bag))
  {
    if kind.Some? && kind.value in DrawingTypes then
      Step(prepared, Ok(Drawing(kind.value, prepared)))
    else if kind.None? || kind.value !in BarcodeClasses then
      Step(prepared, Err(MissingClass(kind)))
    else
      var withChecksum := prepared["checksum" := checksum];
      var args := if kind.value == RoutingType then withChecksum["routing" := routing] else withChecksum;
      Step(args, Ok(Widget(kind.value, args)))
  }

  /** A computing render whose dispatch raised leaves the dictionary
      prepared; computing again with the same inputs gives the same
      dictionary, so a retry changes nothing the first attempt did not. */
  lemma PrepareIdempotent(m: Params, value: Value, width: real, height: real, level: string, border: int)
    ensures Prepare(Prepare(m, value, width, height, level, border), value, width, height, level, border)
         == Prepare(m, value, width, height, level, border)
  {
  }

  /** Caller-supplied geometry and QR entries survive a computing render
      whichever family it dispatches to, and the encoder receives them. */
  lemma OverridesReachEncoder(kind: Option<string>, m: Params, value: Value, width: real, height: real,
                              level: string, border: int, checksum: Value, routing: Value, k: string)
    requires k in DefaultKeys && k in m
    requires Dispatch(kind, Prepare(m, value, width, height, level, border), checksum, routing).result.Ok?
    ensures Dispatch(kind, Prepare(m, value, width, height, level, border), checksum, routing).result.value.args[k] == m[k]
  {
  }

  /** A `routing` entry is added exactly for USPS 4-State, whatever routing
      attribute the element holds. */
  lemma RoutingOnlyForUsps(kind: Option<string>, prepared: Params, checksum: Value, routing: Value)
    requires "routing" !in prepared
    ensures "routing" in Dispatch(kind, prepared, checksum, routing).bag <==> kind == Some(RoutingType)
  {
  }

  /** The drawing family never receives a `checksum` the caller did not
      supply. */
  lemma DrawingFamilyHasNoChecksum(kind: string, prepared: Params, checksum: Value, routing: Value)
    requires kind in DrawingTypes && "checksum" !in prepared && "routing" !in prepared
    ensures var s := Dispatch(Some(kind), prepared, checksum, routing);
      "checksum" !in s.bag && "routing" !in s.bag && s.result == Ok(Drawing(kind, prepared))
  {
  }

  // ---------------------------------------------------------------------
  // The keyword-argument dictionary, shared by reference
  // ---------------------------------------------------------------------

  /** A Python dict of keyword arguments. It is an object so that two
      elements, or an element and its class default, can hold the same one. */
  class ParamBag {
    var entries: Params

    constructor(m: Params)
      ensures entries == m
    {
      entries := m;
    }

    /** `d[k] = v`. */
    method Put(k: string, v: Value)
      modifies this
      ensures entries == old(entries)[k := v]
    {
      entries := entries[k := v];
    }
  }

  // ---------------------------------------------------------------------
  // The element
  // ---------------------------------------------------------------------

  class BarCode {
    /** `_type`: the symbology, `None` until one is set. */
    var typ: Option<string>
    /** `_width`: the configured bar width. */
    var configuredWidth: real
    /** `height`, kept by the graphic base class. */
    var height: real
    var attributeName: Option<string>
    /** `get_value`: an optional function from the record to the value. */
    var getValue: Option<Value -> Value>
    var checksum: Value
    var routingAttribute: Option<string>
    /** `aditional_barcode_params`: held by reference, never copied. */
    var additionalParams: ParamBag
    var qrLevel: string
    var border: int
    /** `_rendered_drawing`: the cached result of the first render. */
    var rendered: Option<Rendered>
    /** `instance`: the record bound by the report engine. */
    var instance: Value

    /** An element with the class-level defaults, holding the dictionary
        object `params`. For a plain new element that is the dictionary held
        by the class itself, which every element that never sets its own
        shares; `Clone` passes the original's dictionary instead. */
    constructor(params: ParamBag)
      ensures typ == None && configuredWidth == DefaultWidth && height == DefaultHeight
      ensures attributeName == None && getValue == None && checksum == Int(0)
      ensures routingAttribute == None && additionalParams == params
      ensures qrLevel == DefaultQrLevel && border == DefaultBorder
      ensures rendered == None && instance == Nil
    {
      typ := None;
      configuredWidth := DefaultWidth;
      height := DefaultHeight;
      attributeName := None;
      getValue := None;
      checksum := Int(0);
      routingAttribute := None;
      additionalParams := params;
      qrLevel := DefaultQrLevel;
      border := DefaultBorder;
      rendered := None;
      instance := Nil;
    }

    /** The `type` property. */
    function Type(): (t: Option<string>)
      reads this
      ensures t == typ
    {
      typ
    }

    /** The `type` setter: an unsupported name raises and stores nothing; a
        supported one is stored and read back unchanged. */
    method SetType(ctx: Context, t: Option<string>) returns (r: Outcome<Error>)
      modifies this`typ
      ensures r == CheckType(ctx.supportedTypes, t)
      ensures r.Pass? ==> Type() == t
      ensures r.Fail? ==> typ == old(typ)
    {
      r := CheckType(ctx.supportedTypes, t);
      if r.Fail? {
        return;
      }
      typ := t;
    }

    /** `get_object_value(instance)`: the explicit record if it is truthy,
        else the bound one; a custom `get_value` wins only when that record
        is truthy, and attribute lookup answers otherwise. */
    function GetObjectValue(ctx: Context, explicit: Value): (v: Value)
      reads this
      ensures Truthy(explicit) && getValue.Some? ==> v == getValue.value(explicit)
      ensures !Truthy(explicit) && Truthy(instance) && getValue.Some? ==> v == getValue.value(instance)
      ensures getValue.None? && Truthy(explicit) ==> v == ctx.getAttrValue(explicit, attributeName)
      ensures !Truthy(explicit) && (getValue.None? || !Truthy(instance)) ==>
        v == ctx.getAttrValue(instance, attributeName)
    {
      var inst := if Truthy(explicit) then explicit else instance;
      if getValue.Some? && Truthy(inst) then getValue.value(inst)
      else ctx.getAttrValue(inst, attributeName)
    }

    /** The `width` getter: the measured width of the cached drawing when
        there is one and it is non-zero, the configured width otherwise. */
    function Width(ctx: Context): (w: real)
      reads this
      ensures rendered.Some? && ctx.measuredWidth(rendered.value) != 0.0 ==>
        w == ctx.measuredWidth(rendered.value)
      ensures rendered.None? || ctx.measuredWidth(rendered.value) == 0.0 ==> w == configuredWidth
    {
      if rendered.Some? && ctx.measuredWidth(rendered.value) != 0.0 then
        ctx.measuredWidth(rendered.value)
      else
        configuredWidth
    }

    /** The `width` setter: changes the configured width only; a cached
        drawing keeps its own measured width. */
    method SetWidth(w: real)
      modifies this`configuredWidth
      ensures configuredWidth == w
      ensures rendered.None? ==> forall ctx: Context :: Width(ctx) == w
    {
      configuredWidth := w;
    }

    /** The state a computing render of this element reaches from the
        current one. */
    function ComputeStep(ctx: Context): Step
      reads this, additionalParams
    {
      Dispatch(typ,
               Prepare(additionalParams.entries, GetObjectValue(ctx, Nil), configuredWidth, height, qrLevel, border),
               checksum,
               ctx.getAttrValue(instance, routingAttribute))
    }

    /** The first half of a computing `render`: the shared dictionary gets
        the resolved value, then each missing geometry and QR entry. */
    method FillParams(ctx: Context)
      requires rendered.None?
      modifies additionalParams
      ensures additionalParams.entries ==
        Prepare(old(additionalParams.entries), GetObjectValue(ctx, Nil), configuredWidth, height, qrLevel, border)
    {
      var kwargs := additionalParams;
      kwargs.Put("value", GetObjectValue(ctx, Nil));
      ghost var m1 := kwargs.entries;
      if "barWidth" !in kwargs.entries {
        kwargs.Put("barWidth", Real(Width(ctx)));
      }
      assert kwargs.entries == FillDefault(m1, "barWidth", Real(configuredWidth));
      ghost var m2 := kwargs.entries;
      if "barHeight" !in kwargs.entries {
        kwargs.Put("barHeight", Real(height));
      }
      assert kwargs.entries == FillDefault(m2, "barHeight", Real(height));
      ghost var m3 := kwargs.entries;
      if "barLevel" !in kwargs.entries {
        kwargs.Put("barLevel", Str(qrLevel));
      }
      assert kwargs.entries == FillDefault(m3, "barLevel", Str(qrLevel));
      ghost var m4 := kwargs.entries;
      if "barBorder" !in kwargs.entries {
        kwargs.Put("barBorder", Int(border));
      }
      assert kwargs.entries == FillDefault(m4, "barBorder", Int(border));
    }

    /** `render()`: memoised. With a cached result it returns it and touches
        nothing. Otherwise it fills the shared dictionary in place, dispatches,
        and caches what it built; a `KeyError` leaves the dictionary filled
        and the cache empty. */
    method Render(ctx: Context) returns (r: Result<Rendered, Error>)
      modifies this`rendered, additionalParams
      ensures old(rendered).Some? ==>
        r == Ok(old(rendered).value) && rendered == old(rendered) &&
        additionalParams.entries == old(additionalParams.entries)
      ensures old(rendered).None? ==>
        && r == old(ComputeStep(ctx)).result
        && additionalParams.entries == old(ComputeStep(ctx)).bag
        && rendered == (if r.Ok? then Some(r.value) else None)
    {
      if rendered.Some? {
        return Ok(rendered.value);
      }
      ghost var step := ComputeStep(ctx);
      FillParams(ctx);
      var kwargs := additionalParams;
      ghost var prepared := kwargs.entries;
      assert step == Dispatch(typ, prepared, checksum, ctx.getAttrValue(instance, routingAttribute));
      if typ.Some? && typ.value in DrawingTypes {
        rendered := Some(Drawing(typ.value, kwargs.entries));
        r := Ok(rendered.value);
      } else if typ.None? || typ.value !in BarcodeClasses {
        r := Err(MissingClass(typ));
      } else {
        kwargs.Put("checksum", checksum);
        if typ.value == RoutingType {
          kwargs.Put("routing", ctx.getAttrValue(instance, routingAttribute));
        }
        rendered := Some(Widget(typ.value, kwargs.entries));
        r := Ok(rendered.value);
      }
    }

    /** `clone()`: the symbology goes through the validating setter, so an
        element without one cannot be cloned; the other configuration fields
        are copied, the dictionary by reference. */
    method Clone(ctx: Context) returns (r: Result<BarCode, Error>)
      ensures r.Ok? <==> typ.Some? && typ.value in ctx.supportedTypes
      ensures r.Err? ==> r.error == UnsupportedType(SupportedMessage(ctx.supportedTypes))
      ensures r.Ok? ==>
        && fresh(r.value)
        && r.value.typ == typ
        && r.value.attributeName == attributeName
        && r.value.getValue == getValue
        && r.value.checksum == checksum
        && r.value.routingAttribute == routingAttribute
        && r.value.additionalParams == additionalParams
        && r.value.qrLevel == qrLevel
        && r.value.border == border
    {
      // The copy holds this element's dictionary object itself, not a copy of it.
      var n := new BarCode(additionalParams);
      var outcome := n.SetType(ctx, Type());
      if outcome.Fail? {
        return Err(outcome.error);
      }
      n.attributeName := attributeName;
      n.getValue := getValue;
      n.checksum := checksum;
      n.routingAttribute := routingAttribute;
      n.qrLevel := qrLevel;
      n.border := border;
      r := Ok(n);
    }
  }

  // ---------------------------------------------------------------------
  // What callers observe
  // ---------------------------------------------------------------------

  /** Two elements that hold the same dictionary (a clone and its original,
      or two elements on the class default): a computing render of one
      leaves the other's dictionary holding everything it added. */
  method RenderThroughSharedParams(a: BarCode, b: BarCode, ctx: Context) returns (r: Result<Rendered, Error>)
    requires a != b && a.additionalParams == b.additionalParams && a.rendered.None?
    modifies a`rendered, a.additionalParams
    ensures b.additionalParams.entries == old(a.ComputeStep(ctx)).bag
    ensures b.additionalParams.entries["value"] == old(a.GetObjectValue(ctx, Nil))
    ensures b.rendered == old(b.rendered)
  {
    r := a.Render(ctx);
  }

  /** A new element of symbology `t` and bar width `w`, with no record and
      no value rule, rendered once on the dictionary `classParams` it was
      created with. */
  method RenderNew(ctx: Context, classParams: ParamBag, t: string, w: real) returns (r: Result<Rendered, Error>)
    requires t in ctx.supportedTypes
    modifies classParams
    ensures var s := Dispatch(Some(t),
        Prepare(old(classParams.entries), ctx.getAttrValue(Nil, None), w, DefaultHeight, DefaultQrLevel, DefaultBorder),
        Int(0), ctx.getAttrValue(Nil, None));
      classParams.entries == s.bag && r == s.result
  {
    var e := NewElement(ctx, classParams, t, w);
    ghost var v := ctx.getAttrValue(Nil, None);
    ghost var prepared := Prepare(classParams.entries, v, w, DefaultHeight, DefaultQrLevel, DefaultBorder);
    assert e.GetObjectValue(ctx, Nil) == v;
    assert e.ComputeStep(ctx) == Dispatch(Some(t), prepared, Int(0), v);
    r := e.Render(ctx);
  }

  /** A new element on `classParams`, of symbology `t` and bar width `w`. */
  method NewElement(ctx: Context, classParams: ParamBag, t: string, w: real) returns (e: BarCode)
    requires t in ctx.supportedTypes
    ensures fresh(e) && e.rendered.None? && e.additionalParams == classParams
    ensures e.typ == Some(t) && e.configuredWidth == w && e.height == DefaultHeight
    ensures e.getValue.None? && e.instance == Nil && e.attributeName.None? && e.routingAttribute.None?
    ensures e.qrLevel == DefaultQrLevel && e.border == DefaultBorder && e.checksum == Int(0)
  {
    e := new BarCode(classParams);
    var _ := e.SetType(ctx, Some(t));
    e.SetWidth(w);
  }

  /** On one dictionary, a Code128 render of bar width `w1` followed by a QR
      render of any bar width draws the QR code with bar width `w1` and with
      the Code128 render's `checksum` entry. */
  lemma LeakedEntries(m: Params, v: Value, w1: real, w2: real, h: real, level: string, border: int,
                      checksum: Value, routing: Value)
    requires "barWidth" !in m
    ensures var first := Dispatch(Some("Code128"), Prepare(m, v, w1, h, level, border), checksum, routing).bag;
      var second := Dispatch(Some("QR"), Prepare(first, v, w2, h, level, border), checksum, routing).result;
      && second.Ok? && second.value.Drawing?
      && "barWidth" in second.value.args && second.value.args["barWidth"] == Real(w1)
      && "checksum" in second.value.args && second.value.args["checksum"] == checksum
  {
  }

  /** Two elements that never set their own dictionary share the class
      default: after the first (a Code128 of bar width `w1`) renders, the
      second (a QR code of bar width `w2`) is drawn with the first one's bar
      width and a `checksum` entry the drawing family never adds. */
  method LeakThroughClassDefault(ctx: Context, classParams: ParamBag, w1: real, w2: real)
    returns (second: Result<Rendered, Error>)
    requires classParams.entries == map[]
    requires "Code128" in ctx.supportedTypes && "QR" in ctx.supportedTypes
    modifies classParams
    ensures second.Ok? && second.value.Drawing?
    ensures "barWidth" in second.value.args && second.value.args["barWidth"] == Real(w1)
    ensures "checksum" in second.value.args && second.value.args["checksum"] == Int(0)
  {
    var v := ctx.getAttrValue(Nil, None);
    LeakedEntries(map[], v, w1, w2, DefaultHeight, DefaultQrLevel, DefaultBorder, Int(0), v);
    var first := RenderNew(ctx, classParams, "Code128", w1);
    second := RenderNew(ctx, classParams, "QR", w2);
  }

  /** A fresh element rendered twice: the second call returns the first
      result without recomputing. */
  method RenderTwice(ctx: Context, t: string, bag: ParamBag) returns (first: Result<Rendered, Error>, second: Result<Rendered, Error>)
    requires t in ctx.supportedTypes && t in BarcodeClasses
    modifies bag
    ensures first.Ok? && second == first
  {
    var e := new BarCode(bag);
    var _ := e.SetType(ctx, Some(t));
    first := e.Render(ctx);
    second := e.Render(ctx);
  }

  /** The worked example: Standard39 with the default configuration and
      its own empty dictionary encodes the value it is given, with the
      default geometry and QR entries and the checksum flag off. */
  lemma Standard39Example(routing: Value)
    ensures Dispatch(Some("Standard39"),
                     Prepare(map[], Str("123456"), DefaultWidth, DefaultHeight, DefaultQrLevel, DefaultBorder),
                     Int(0), routing).result
         == Ok(Widget("Standard39", map[
              "value" := Str("123456"),
              "barWidth" := Real(DefaultWidth),
              "barHeight" := Real(DefaultHeight),
              "barLevel" := Str(DefaultQrLevel),
              "barBorder" := Int(DefaultBorder),
              "checksum" := Int(0)]))
  {
  }

  /** The same example through the element: Standard39 on attribute `code`
      of a record whose `code` is "123456", with its own empty dictionary. */
  method RenderStandard39(ctx: Context, record: Value) returns (r: Result<Rendered, Error>)
    requires "Standard39" in ctx.supportedTypes
    requires ctx.getAttrValue(record, Some("code")) == Str("123456")
    ensures r == Ok(Widget("Standard39", map[
      "value" := Str("123456"),
      "barWidth" := Real(DefaultWidth),
      "barHeight" := Real(DefaultHeight),
      "barLevel" := Str(DefaultQrLevel),
      "barBorder" := Int(DefaultBorder),
      "checksum" := Int(0)]))
  {
    var e := ConfigureStandard39(ctx, record);
    ghost var routing := ctx.getAttrValue(e.instance, e.routingAttribute);
    ghost var prepared := Prepare(map[], Str("123456"), DefaultWidth, DefaultHeight, DefaultQrLevel, DefaultBorder);
    assert e.ComputeStep(ctx) == Dispatch(Some("Standard39"), prepared, Int(0), routing);
    Standard39Example(routing);
    r := e.Render(ctx);
  }

  /** A fresh element configured for the worked example, not yet rendered. */
  method ConfigureStandard39(ctx: Context, record: Value) returns (e: BarCode)
    requires "Standard39" in ctx.supportedTypes
    requires ctx.getAttrValue(record, Some("code")) == Str("123456")
    ensures fresh(e) && fresh(e.additionalParams) && e.rendered.None?
    ensures e.typ == Some("Standard39") && e.additionalParams.entries == map[]
    ensures e.GetObjectValue(ctx, Nil) == Str("123456")
    ensures e.configuredWidth == DefaultWidth && e.height == DefaultHeight
    ensures e.qrLevel == DefaultQrLevel && e.border == DefaultBorder && e.checksum == Int(0)
  {
    var bag := new ParamBag(map[]);
    e := new BarCode(bag);
    var _ := e.SetType(ctx, Some("Standard39"));
    e.attributeName := Some("code");
    e.instance := record;
  }
}
