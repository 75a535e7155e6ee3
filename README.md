# MarkerSymbol, modelled in Dafny

This project models the `MarkerSymbol` overlay of PHPGoogleMaps
(`Overlay/MarkerSymbol.php`): a map-marker symbol with a vector path, an
anchor point, fill and stroke colours and opacities, a rotation and a scale.
A symbol is built by `new MarkerSymbol($path, $options)` or by the static
factory `MarkerSymbol::create`, and is then changed in place by eight fluent
setters, each of which overwrites a property only when its argument is not
null and returns the object itself.

Files:

- `wrappers.dfy` (module `Wrappers`): the `Option` type used for PHP null.
- `marker_symbol.dfy` (module `Overlay`):
  - `Options` holds the nine recognised keys of the options array. A key that is absent or holds null (PHP `isset` is false) is `None`, and a null array is `None` as a whole.
  - `Symbol` is a snapshot of every property of an object. `Construct`, `Apply` and `Run` give the constructor, one setter call and a chain of setter calls as functions on snapshots.
  - `Property`, `Changed` and `Writes` name the properties, the properties in which two snapshots differ and the properties a setter call assigns. Every frame statement ("nothing else changes") is phrased with them.
  - The class `MarkerSymbol` holds the same properties as mutable fields. Its constructor, `Create` and its eight setters are proved to move the fields exactly as `Construct` and `Apply` say, and every setter is proved to return `this`.

Behaviour of the code that the model reproduces on purpose:

- The defaults are those of the constructor's code (`Overlay/MarkerSymbol.php:121-129`), where four of them disagree with the doc comments of the properties. The model follows the code in each case:
  - fill_color defaults to "Red" (`:123`); its comment (`:51`) says it defaults to the stroke colour of the polyline.
  - fill_opacity defaults to 1 (`:124`); its comment (`:59`) says 0.
  - scale defaults to 3 (`:126`); its comment (`:75`) says 1.
  - stroke_weight defaults to 1 (`:129`); its comment (`:99`) says it defaults to the scale.
- `setStrokeColor`, `setStrokeOpacity` and `setStrokeWeight` assign the undeclared properties `strokeColor`, `strokeOpacity` and `strokeWeight`, never `stroke_color`, `stroke_opacity` or `stroke_weight`. The model carries the three undeclared properties as `undeclaredStrokeColor`, `undeclaredStrokeOpacity` and `undeclaredStrokeWeight`, which are `None` until first written. So the declared stroke properties keep their construction-time values forever (`FrozenAfterConstruction`).
- The constructor's doc comment says it throws on an invalid symbol (`Overlay/MarkerSymbol.php:111-114`). Nothing in the code checks the path, so `Construct` accepts every path and has no failure case.
- Keys of the options array other than the nine recognised ones are never read. They have no field in `Options`, so they cannot influence the result.

## Model

| member | source | states |
|---|---|---|
| Overlay.Construct | Overlay/MarkerSymbol.php:117-133 | the path is stored verbatim; every recognised key that is set (isset) is stored; every other property keeps its default, i.e. the result differs from `Defaults(path)` only in supplied keys; the undeclared stroke properties do not exist yet |
| Overlay.ConstructWithoutOptions | Overlay/MarkerSymbol.php:119-129 | without options, or with a null array, the symbol is (path, 0, 0, "Red", 1, 0, 3, "Black", 1, 1) with no undeclared properties |
| Overlay.Writes | Overlay/MarkerSymbol.php:154-260 | no setter call assigns path, stroke_color, stroke_opacity or stroke_weight; a call assigns nothing exactly when all its arguments are null |
| Overlay.Apply | Overlay/MarkerSymbol.php:154-260 | a setter call stores each non-null argument in its own property (the stroke setters in the undeclared camelCase ones) and changes no property outside what it writes |
| Overlay.NullSetterIsNoOp | Overlay/MarkerSymbol.php:154-260 | a setter called with only null arguments leaves the object exactly as it was |
| Overlay.LastWriteWins | Overlay/MarkerSymbol.php:154-260 | a later call that writes every property an earlier call wrote makes the earlier call invisible |
| Overlay.SetterIdempotent | Overlay/MarkerSymbol.php:154-260 | applying the same setter call twice gives the same state as applying it once |
| Overlay.SettersCommute | Overlay/MarkerSymbol.php:154-260 | setter calls that write disjoint properties give the same state in either order |
| Overlay.WritesAll | Overlay/MarkerSymbol.php:154-260 | no chain of setter calls writes path or a declared stroke property |
| Overlay.Run | Overlay/MarkerSymbol.php:154-260 | after a chain of setter calls the object differs from its start only in properties some call of the chain writes |
| Overlay.NullChainIsNoOp | Overlay/MarkerSymbol.php:154-260 | a chain of setter calls with only null arguments changes nothing |
| Overlay.FrozenAfterConstruction | Overlay/MarkerSymbol.php:117-260 | after construction and any chain of setters, path, stroke_color, stroke_opacity and stroke_weight still hold the values the constructor gave them |
| Overlay.StrokeColorOnlyFromOptions | Overlay/MarkerSymbol.php:227-232 | a stroke_color other than "Black" can only come from the options array: no chain of setters after an option-less constructor reaches that symbol |
| Overlay.ConstructAsSetters | Overlay/MarkerSymbol.php:117-218 | an options array without stroke keys gives the same symbol as constructing without options and then calling setAnchor, setFillColor, setFillOpacity, setRotation and setScale with the same values |
| Overlay.ChainExample | Overlay/MarkerSymbol.php:117-162 | built with scale 6 and fill colour "Blue", rotated by 45 and anchored at x = 10, the symbol is ("CIRCLE", 10, 0, "Blue", 1, 45, 6, "Black", 1, 1) |
| Overlay.MarkerSymbol.constructor | Overlay/MarkerSymbol.php:117-133 | the new object's properties are `Construct(path, options)` |
| Overlay.MarkerSymbol.Create | Overlay/MarkerSymbol.php:142-144 | returns a fresh object whose properties are `Construct(path, options)`, as the constructor gives |
| Overlay.CreateAgreesWithConstructor | Overlay/MarkerSymbol.php:142-144 | `create` and `new` with the same arguments give two distinct objects equal in every property |
| Overlay.MarkerSymbol.SetAnchor | Overlay/MarkerSymbol.php:154-162 | a non-null x overwrites anchor_x, a non-null y overwrites anchor_y, each axis independently; nothing else changes; returns this |
| Overlay.MarkerSymbol.SetFillColor | Overlay/MarkerSymbol.php:171-176 | a non-null argument overwrites fill_color; nothing else changes; returns this |
| Overlay.MarkerSymbol.SetFillOpacity | Overlay/MarkerSymbol.php:185-190 | a non-null argument overwrites fill_opacity; nothing else changes; returns this |
| Overlay.MarkerSymbol.SetRotation | Overlay/MarkerSymbol.php:199-204 | a non-null argument overwrites rotation; nothing else changes; returns this |
| Overlay.MarkerSymbol.SetScale | Overlay/MarkerSymbol.php:213-218 | a non-null argument overwrites scale; nothing else changes; returns this |
| Overlay.MarkerSymbol.SetStrokeColor | Overlay/MarkerSymbol.php:227-232 | a non-null argument sets the undeclared strokeColor; stroke_color and everything else are unchanged; returns this |
| Overlay.MarkerSymbol.SetStrokeOpacity | Overlay/MarkerSymbol.php:241-246 | a non-null argument sets the undeclared strokeOpacity; stroke_opacity and everything else are unchanged; returns this |
| Overlay.MarkerSymbol.SetStrokeWeight | Overlay/MarkerSymbol.php:255-260 | a non-null argument sets the undeclared strokeWeight; stroke_weight and everything else are unchanged; returns this |
| Overlay.FluentChainExample | Overlay/MarkerSymbol.php:142-204 | the chain create(...)->setRotation(45)->setAnchor(10, null) on a real object ends on the object `create` returned, holding the state `ChainExample` states |

## Left out

- `__toString` (`Overlay/MarkerSymbol.php:265-267`) returns the property `symbol`, which is never declared or assigned, so it has no behaviour to state.
- The base class `\PHPGoogleMaps\Core\MapObject` is not part of this model. The model assumes it defines no `__set` or `__get` and allows dynamic properties, so the stroke setters create ordinary properties (`undeclaredStrokeColor`, `undeclaredStrokeOpacity`, `undeclaredStrokeWeight`). The deprecation notice that PHP 8.2 and later emit when such a property is created is not modelled.
- PHP's `(int)` cast of strings and floats is not modelled. Numeric setter arguments are integers, for which the cast is the identity. Integers are unbounded, so the 64-bit width of PHP integers is not modelled.
- PHP's dynamic typing is not modelled. Numeric properties and option values are typed `int`, as the setters' `@param` comments say (`Overlay/MarkerSymbol.php:181`, `:195`, `:209`, `:237`, `:251`), although the property comments say `number` (`:61`, `:69`, `:77`, `:93`, `:101`). Colours and the path are `string`.
- Floats are not modelled. What is lost: a constructor option `fill_opacity => 0.5` is stored as 0.5, while `setFillOpacity(0.5)` truncates it and stores 0; the same holds for rotation, scale, stroke_opacity and stroke_weight.
- The constructor's `return $this` has no effect in PHP and is not modelled.
- Rendering the symbol and serialising it for the Google Maps API happen outside this class and are not modelled.
