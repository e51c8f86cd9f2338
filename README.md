# Barcode graphic element of geraldo

This project models `BarCode`, the barcode graphic element of the geraldo
report generator (`geraldo/barcodes.py`), and proves what it does. The
element does the following:

- It checks the symbology name it is given against the names the reportlab
  barcode library supports.
- It finds the value to encode. A custom `get_value` function is used when
  there is a record; otherwise an attribute lookup on the record is used.
- It fills its keyword-argument dictionary `aditional_barcode_params` in
  place with the value and with default geometry and QR entries.
- It sends EAN13, EAN8 and QR to the library's drawing factory. Every other
  symbology goes through the `BARCODE_CLASSES` table, gets a `checksum`
  entry, and USPS 4-State also gets a `routing` entry.
- It caches the first result of `render` and reports the rendered drawing's
  measured width through `width` once there is one.

The model has one module, `Barcodes`, plus a small `Wrappers` module for
`Option`, `Result` and `Outcome`:

- `BarCode` is a class. Its fields are the element's attributes.
- `ParamBag` is a class holding the dictionary, so that elements really
  share it: a clone and its original share one, and so do all elements left
  on the class-level default `{}`.
- `Render` is proved against two pure functions of the dictionary.
  `Prepare` fills in the value and the defaults. `Dispatch` chooses the
  family and adds `checksum` and `routing`.
- The lemmas are stated about `Prepare` and `Dispatch`.

Python values are the datatype `Value`. Python truthiness is the predicate
`Truthy`; a data record is an object and is always true.

The foreign collaborators are fields of a `Context` parameter:
- `getCodeNames()` becomes `supportedTypes`, an ordered list of names;
- `get_attr_value(instance, path)` becomes `getAttrValue`, an uninterpreted
  function;
- the `width` attribute of a reportlab object becomes `measuredWidth`.

The library's encoders and its drawing factory are not modelled. Their
results are opaque `Rendered` values, `Drawing(kind, args)` or
`Widget(kind, args)`, recording the symbology and a snapshot of the keyword
arguments. Python's `**kwargs` hands over a copy of the dictionary, which is
why a snapshot is right.

Behaviour of the code that the model keeps as it is:
- Clone shares the dictionary by reference rather than copying it.
- The cache is never invalidated once set, whatever changes afterwards.
- An element whose type was never set, or whose type is supported but has
  no entry in `BARCODE_CLASSES`, reaches `render`. It then raises `KeyError`
  after the dictionary has already been filled, so a failed render leaves
  partial state behind.
- `get_value` is used only when the record is truthy, not whenever it is
  set.
- `barLevel` and `barBorder` are added for every symbology, not only for QR.
- `height` is a plain attribute here; unlike `width`, it does not report a
  rendered size.

## Model

| member | source | states |
|---|---|---|
| `Barcodes.CheckType` | geraldo/barcodes.py:79-81 | a symbology passes exactly when it is present (not `None`) and in the supported list; otherwise the error carries the "Supported types are: " message built from that list |
| `Barcodes.Join` | geraldo/barcodes.py:81 | `sep.join(parts)` is empty for no parts, and otherwise as long as all parts together plus one separator between each pair of neighbours |
| `Barcodes.JoinContainsPart` | geraldo/barcodes.py:81 | in `sep.join(parts)` every part occurs intact at its computed offset |
| `Barcodes.SupportedMessageListsEveryName` | geraldo/barcodes.py:81 | the error message of `set_type` contains every supported symbology name |
| `Barcodes.BarCode.Type` | geraldo/barcodes.py:84 | the `type` getter never fails and returns the stored `_type`, `None` until a symbology is set |
| `Barcodes.BarCode.SetType` | geraldo/barcodes.py:79-84 | an unsupported name (or `None`) raises and leaves the stored type unchanged; a supported name is stored and the `type` getter returns exactly it |
| `Barcodes.Prepare` | geraldo/barcodes.py:88-102 | after the first half of a computing render the dictionary has `value` set to the resolved value even if the caller supplied one; every other existing entry is kept, including caller-supplied `barWidth`, `barHeight`, `barLevel` and `barBorder`; each of those four that was missing gets width, height, QR level or border; no other key is added |
| `Barcodes.Dispatch` | geraldo/barcodes.py:105-115 | EAN13, EAN8 and QR get a drawing built from the prepared dictionary, with no `checksum` or `routing` added. Any other symbology in the class table gets a widget whose arguments add `checksum`, plus `routing` exactly for USPS_4State, keeping all else. `None`, or a name missing from the table, raises `KeyError` with the dictionary as prepared. It succeeds iff the type is set and in either family |
| `Barcodes.PrepareIdempotent` | geraldo/barcodes.py:88-102 | preparing an already prepared dictionary again with the same inputs changes nothing, so a render retried after a `KeyError` receives the same arguments |
| `Barcodes.OverridesReachEncoder` | geraldo/barcodes.py:91-115 | a caller-supplied geometry or QR entry reaches the constructed encoder or drawing unchanged, whichever family is used |
| `Barcodes.RoutingOnlyForUsps` | geraldo/barcodes.py:112-113 | when the caller supplied no `routing`, the dictionary holds one after dispatch iff the symbology is USPS_4State |
| `Barcodes.DrawingFamilyHasNoChecksum` | geraldo/barcodes.py:105-106 | for EAN13, EAN8 and QR neither `checksum` nor `routing` is added, and the drawing receives the prepared dictionary |
| `Barcodes.BarCode.GetObjectValue` | geraldo/barcodes.py:119-129 | the explicit record is used if truthy, otherwise the bound one; `get_value` is applied only when it is set and that record is truthy; otherwise `get_attr_value(record, attribute_name)` answers |
| `Barcodes.BarCode.Width` | geraldo/barcodes.py:131-133 | the width is the rendered object's measured width when there is one and it is non-zero, the configured width otherwise |
| `Barcodes.BarCode.SetWidth` | geraldo/barcodes.py:135-138 | only the configured width changes, and the cached drawing does not; with nothing rendered the getter then reports the new width |
| `Barcodes.BarCode.FillParams` | geraldo/barcodes.py:88-102 | the key-by-key in-place updates of the shared dictionary produce exactly `Prepare` of its old contents |
| `Barcodes.BarCode.Render` | geraldo/barcodes.py:86-117 | with a cached result: returns it and changes neither the cache nor the dictionary. Otherwise the shared dictionary itself ends as `Dispatch(Prepare(...))` leaves it, the result is what `Dispatch` yields, and it is cached exactly on success |
| `Barcodes.BarCode.Clone` | geraldo/barcodes.py:64-77 | fails, with the `set_type` error, exactly when the type is unset or unsupported; otherwise returns a fresh element with the same type, attribute name, `get_value`, checksum, routing attribute, QR level and border, and the very same dictionary object |
| `Barcodes.BarCode.constructor` | geraldo/barcodes.py:51-62 | a new element has the class-level defaults and holds the dictionary object it is given: the class-level one for a plain new element, the original's for a clone |
| `Barcodes.ParamBag.Put` | geraldo/barcodes.py:89 | a dictionary store changes that key only |
| `Barcodes.RenderThroughSharedParams` | geraldo/barcodes.py:72 | when two elements hold one dictionary, as a clone and its original do, a computing render of one leaves every added entry in the other's dictionary, and the other's cache is untouched |
| `Barcodes.LeakedEntries` | geraldo/barcodes.py:57 | on one dictionary, a QR render after a Code128 render receives the Code128 bar width and its `checksum` entry, whatever its own width |
| `Barcodes.LeakThroughClassDefault` | geraldo/barcodes.py:57 | two new elements on the class-level default: the second, a QR code, is drawn with the first element's bar width and a `checksum` entry |
| `Barcodes.RenderNew` | geraldo/barcodes.py:86-117 | a new element with only type and width set, rendered once, leaves its dictionary and result as `Dispatch(Prepare(...))` gives them |
| `Barcodes.RenderTwice` | geraldo/barcodes.py:86-87 | a second render returns the first render's result |
| `Barcodes.Standard39Example` | geraldo/barcodes.py:88-115 | Standard39 on an empty dictionary yields a widget with exactly `value`, the default bar width and height, QR level `L`, border 4 and checksum 0 |
| `Barcodes.RenderStandard39` | geraldo/barcodes.py:86-129 | the same through the element, with the value found by attribute lookup of `code` on the bound record |

## Left out

- The reportlab encoders and `createBarcodeDrawing`: these are foreign code,
  so their results are opaque values. Symbology encoding, check digits, and
  errors the encoders raise for a bad value are not modelled.
- `getCodeNames()`: its contents belong to reportlab, so the supported list
  is a parameter. `BARCODE_CLASSES` keys are the fifteen names written in the
  source.
- `get_attr_value` and `memoize` from geraldo/utils.py are not part of this
  model. `get_attr_value` is an uninterpreted total function, so a lookup
  that raises is not modelled.
- The `Graphic` base class in geraldo/graphics.py is not part of this model.
  `height` and `instance` are plain fields, and position and visibility are
  absent.
- Barcodes.BarCode.Clone: its contract is silent on the fields the base
  class's `clone` copies (width, height, instance, cache). The model starts
  the copy from the defaults.
- Rendered objects are taken to be truthy. The cache guard in `render` and
  the width getter therefore test for presence only.
- `cm` is taken as 72/2.54 points, with exact real arithmetic instead of
  floating point.
- A `get_value` function is a total function from values to values. One that
  raises, or that has side effects, is not modelled.
