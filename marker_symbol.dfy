/**
 * The MarkerSymbol overlay: a map-marker symbol made of a vector path, an
 * anchor point, fill and stroke colours and opacities, a rotation and a scale.
 * A symbol is built by the constructor (or the `create` factory) from a path
 * and an optional options array, and then updated in place by fluent setters
 * that each overwrite a property only when given a non-null argument.
 *
 * The first half of the module describes symbols as values (Symbol) and the
 * constructor and setters as functions on them; the class MarkerSymbol at the
 * end holds the same properties as mutable fields, and each of its methods is
 * proved to move its fields exactly as the corresponding function says.
 */
module Overlay {
  import opened Wrappers

  // ---------------------------------------------------------------------------
  // The options array of the constructor
  // ---------------------------------------------------------------------------

  /**
   * The nine keys the constructor looks up in its options array. An entry is
   * None when PHP's isset is false for the key: the key is absent or holds
   * null. Keys other than these nine are never read, so they have no place here.
   */
  datatype Options = Options(
    anchorX: Option<int>,         // 'anchor_x'
    anchorY: Option<int>,         // 'anchor_y'
    fillColor: Option<string>,    // 'fill_color'
    fillOpacity: Option<int>,     // 'fill_opacity'
    rotation: Option<int>,        // 'rotation'
    scale: Option<int>,           // 'scale'
    strokeColor: Option<string>,  // 'stroke_color'
    strokeOpacity: Option<int>,   // 'stroke_opacity'
    strokeWeight: Option<int>)    // 'stroke_weight'

  /** An options array in which none of the recognised keys is set. */
  const NoOptions := Options(None, None, None, None, None, None, None, None, None)

  /** The options the constructor consults: a null array sets no key. */
  function Given(options: Option<Options>): Options {
    options.GetOr(NoOptions)
  }

  // ---------------------------------------------------------------------------
  // Symbols as values
  // ---------------------------------------------------------------------------

  /**
   * The properties of one MarkerSymbol object. The first ten are the declared
   * properties path, anchor_x, anchor_y, fill_color, fill_opacity, rotation,
   * scale, stroke_color, stroke_opacity and stroke_weight. The last three are
   * the undeclared properties strokeColor, strokeOpacity and strokeWeight that
   * the stroke setters create on first use; None means not yet created.
   */
  datatype Symbol = Symbol(
    path: string,
    anchorX: int,
    anchorY: int,
    fillColor: string,
    fillOpacity: int,
    rotation: int,
    scale: int,
    strokeColor: string,
    strokeOpacity: int,
    strokeWeight: int,
    undeclaredStrokeColor: Option<string>,
    undeclaredStrokeOpacity: Option<int>,
    undeclaredStrokeWeight: Option<int>)

  /** The name of each property of a Symbol, in the order of its fields. */
  datatype Property =
    | Path | AnchorX | AnchorY | FillColor | FillOpacity | Rotation | Scale
    | StrokeColor | StrokeOpacity | StrokeWeight
    | UndeclaredStrokeColor | UndeclaredStrokeOpacity | UndeclaredStrokeWeight

  /** The properties that no setter assigns: they keep their construction-time values. */
  const Frozen: set<Property> := {Path, StrokeColor, StrokeOpacity, StrokeWeight}

  /** The properties in which two symbols differ. */
  function Changed(s: Symbol, t: Symbol): set<Property> {
    (if s.path != t.path then {Path} else {})
    + (if s.anchorX != t.anchorX then {AnchorX} else {})
    + (if s.anchorY != t.anchorY then {AnchorY} else {})
    + (if s.fillColor != t.fillColor then {FillColor} else {})
    + (if s.fillOpacity != t.fillOpacity then {FillOpacity} else {})
    + (if s.rotation != t.rotation then {Rotation} else {})
    + (if s.scale != t.scale then {Scale} else {})
    + (if s.strokeColor != t.strokeColor then {StrokeColor} else {})
    + (if s.strokeOpacity != t.strokeOpacity then {StrokeOpacity} else {})
    + (if s.strokeWeight != t.strokeWeight then {StrokeWeight} else {})
    + (if s.undeclaredStrokeColor != t.undeclaredStrokeColor then {UndeclaredStrokeColor} else {})
    + (if s.undeclaredStrokeOpacity != t.undeclaredStrokeOpacity then {UndeclaredStrokeOpacity} else {})
    + (if s.undeclaredStrokeWeight != t.undeclaredStrokeWeight then {UndeclaredStrokeWeight} else {})
  }

  /** Two symbols are equal exactly when they differ in no property. */
  lemma ChangedEmptyIffEqual(s: Symbol, t: Symbol)
    ensures Changed(s, t) == {} <==> s == t
  {
  }

  /** A property in which s and t differ differs between s and m or between m and t. */
  lemma ChangedTriangle(s: Symbol, m: Symbol, t: Symbol)
    ensures Changed(s, t) <= Changed(s, m) + Changed(m, t)
  {
  }

  // ---------------------------------------------------------------------------
  // The constructor
  // ---------------------------------------------------------------------------

  /** The values the constructor gives every property whose option key is not set. */
  function Defaults(path: string): Symbol {
    Symbol(path, 0, 0, "Red", 1, 0, 3, "Black", 1, 1, None, None, None)
  }

  /** The properties whose option key is set in the options array. */
  function Supplied(options: Option<Options>): set<Property> {
    var o := Given(options);
    (if o.anchorX.Some? then {AnchorX} else {})
    + (if o.anchorY.Some? then {AnchorY} else {})
    + (if o.fillColor.Some? then {FillColor} else {})
    + (if o.fillOpacity.Some? then {FillOpacity} else {})
    + (if o.rotation.Some? then {Rotation} else {})
    + (if o.scale.Some? then {Scale} else {})
    + (if o.strokeColor.Some? then {StrokeColor} else {})
    + (if o.strokeOpacity.Some? then {StrokeOpacity} else {})
    + (if o.strokeWeight.Some? then {StrokeWeight} else {})
  }

  /**
   * The object `new MarkerSymbol(path, options)` builds: the path verbatim,
   * each recognised option that is set, and the default for every other
   * property. Any path is accepted; construction never fails.
   */
  function Construct(path: string, options: Option<Options> := None): (s: Symbol)
    ensures s.path == path
    ensures Changed(Defaults(path), s) <= Supplied(options)
    ensures var o := Given(options);
      && (o.anchorX.Some? ==> s.anchorX == o.anchorX.value)
      && (o.anchorY.Some? ==> s.anchorY == o.anchorY.value)
      && (o.fillColor.Some? ==> s.fillColor == o.fillColor.value)
      && (o.fillOpacity.Some? ==> s.fillOpacity == o.fillOpacity.value)
      && (o.rotation.Some? ==> s.rotation == o.rotation.value)
      && (o.scale.Some? ==> s.scale == o.scale.value)
      && (o.strokeColor.Some? ==> s.strokeColor == o.strokeColor.value)
      && (o.strokeOpacity.Some? ==> s.strokeOpacity == o.strokeOpacity.value)
      && (o.strokeWeight.Some? ==> s.strokeWeight == o.strokeWeight.value)
  {
    var o := Given(options);
    Symbol(
      path,
      o.anchorX.GetOr(0),
      o.anchorY.GetOr(0),
      o.fillColor.GetOr("Red"),
      o.fillOpacity.GetOr(1),
      o.rotation.GetOr(0),
      o.scale.GetOr(3),
      o.strokeColor.GetOr("Black"),
      o.strokeOpacity.GetOr(1),
      o.strokeWeight.GetOr(1),
      None, None, None)
  }

  /** Without options every property but the path takes its default. */
  lemma ConstructWithoutOptions(path: string)
    ensures Construct(path) == Construct(path, Some(NoOptions))
    ensures Construct(path) == Symbol(path, 0, 0, "Red", 1, 0, 3, "Black", 1, 1, None, None, None)
  {
  }

  // ---------------------------------------------------------------------------
  // The setters
  // ---------------------------------------------------------------------------

  /** One call of a fluent setter, with its (possibly null) arguments. */
  datatype Setter =
    | SetAnchor(x: Option<int>, y: Option<int>)
    | SetFillColor(fillColor: Option<string>)
    | SetFillOpacity(fillOpacity: Option<int>)
    | SetRotation(rotation: Option<int>)
    | SetScale(scale: Option<int>)
    | SetStrokeColor(strokeColor: Option<string>)
    | SetStrokeOpacity(strokeOpacity: Option<int>)
    | SetStrokeWeight(strokeWeight: Option<int>)

  /** A setter call all of whose arguments are null. */
  predicate AllNull(call: Setter) {
    match call
    case SetAnchor(x, y) => x.None? && y.None?
    case SetFillColor(v) => v.None?
    case SetFillOpacity(v) => v.None?
    case SetRotation(v) => v.None?
    case SetScale(v) => v.None?
    case SetStrokeColor(v) => v.None?
    case SetStrokeOpacity(v) => v.None?
    case SetStrokeWeight(v) => v.None?
  }

  /** {p} when the argument is non-null, {} otherwise. */
  function WrittenIf<T>(arg: Option<T>, p: Property): set<Property> {
    if arg.Some? then {p} else {}
  }

  /**
   * The properties a setter call assigns. The stroke setters assign the
   * undeclared properties, so no call ever assigns a Frozen property, and a
   * call assigns nothing exactly when all its arguments are null.
   */
  function Writes(call: Setter): (w: set<Property>)
    ensures w !! Frozen
    ensures w == {} <==> AllNull(call)
  {
    match call
    case SetAnchor(x, y) => WrittenIf(x, AnchorX) + WrittenIf(y, AnchorY)
    case SetFillColor(v) => WrittenIf(v, FillColor)
    case SetFillOpacity(v) => WrittenIf(v, FillOpacity)
    case SetRotation(v) => WrittenIf(v, Rotation)
    case SetScale(v) => WrittenIf(v, Scale)
    case SetStrokeColor(v) => WrittenIf(v, UndeclaredStrokeColor)
    case SetStrokeOpacity(v) => WrittenIf(v, UndeclaredStrokeOpacity)
    case SetStrokeWeight(v) => WrittenIf(v, UndeclaredStrokeWeight)
  }

  /**
   * The effect of one setter call on a symbol: each non-null argument is
   * stored (integers as they are, since (int) of an int is the identity), and
   * no property outside Writes(call) changes.
   */
  function Apply(s: Symbol, call: Setter): (r: Symbol)
    ensures Changed(s, r) <= Writes(call)
    ensures match call
      case SetAnchor(x, y) => (x.Some? ==> r.anchorX == x.value) && (y.Some? ==> r.anchorY == y.value)
      case SetFillColor(v) => v.Some? ==> r.fillColor == v.value
      case SetFillOpacity(v) => v.Some? ==> r.fillOpacity == v.value
      case SetRotation(v) => v.Some? ==> r.rotation == v.value
      case SetScale(v) => v.Some? ==> r.scale == v.value
      case SetStrokeColor(v) => v.Some? ==> r.undeclaredStrokeColor == v
      case SetStrokeOpacity(v) => v.Some? ==> r.undeclaredStrokeOpacity == v
      case SetStrokeWeight(v) => v.Some? ==> r.undeclaredStrokeWeight == v
  {
    match call
    case SetAnchor(x, y) => s.(anchorX := x.GetOr(s.anchorX), anchorY := y.GetOr(s.anchorY))
    case SetFillColor(v) => s.(fillColor := v.GetOr(s.fillColor))
    case SetFillOpacity(v) => s.(fillOpacity := v.GetOr(s.fillOpacity))
    case SetRotation(v) => s.(rotation := v.GetOr(s.rotation))
    case SetScale(v) => s.(scale := v.GetOr(s.scale))
    case SetStrokeColor(v) => if v.Some? then s.(undeclaredStrokeColor := v) else s
    case SetStrokeOpacity(v) => if v.Some? then s.(undeclaredStrokeOpacity := v) else s
    case SetStrokeWeight(v) => if v.Some? then s.(undeclaredStrokeWeight := v) else s
  }

  /** A setter called with only null arguments leaves the symbol as it was. */
  lemma NullSetterIsNoOp(s: Symbol, call: Setter)
    requires AllNull(call)
    ensures Apply(s, call) == s
  {
  }

  /**
   * A later call that assigns every property an earlier one assigned hides
   * the earlier call completely.
   */
  lemma LastWriteWins(s: Symbol, first: Setter, second: Setter)
    requires Writes(first) <= Writes(second)
    ensures Apply(Apply(s, first), second) == Apply(s, second)
  {
  }

  /** Applying the same setter call twice gives the state of applying it once. */
  lemma SetterIdempotent(s: Symbol, call: Setter)
    ensures Apply(Apply(s, call), call) == Apply(s, call)
  {
    // the special case first == second of LastWriteWins
    LastWriteWins(s, call, call);
  }

  /** Setter calls that assign disjoint properties may be made in either order. */
  lemma SettersCommute(s: Symbol, first: Setter, second: Setter)
    requires Writes(first) !! Writes(second)
    ensures Apply(Apply(s, first), second) == Apply(Apply(s, second), first)
  {
  }

  // ---------------------------------------------------------------------------
  // Chains of setter calls
  // ---------------------------------------------------------------------------

  /** The properties assigned by some call of a chain. */
  function WritesAll(calls: seq<Setter>): (w: set<Property>)
    ensures w !! Frozen
  {
    if calls == [] then {} else Writes(calls[0]) + WritesAll(calls[1..])
  }

  /**
   * The symbol after the chain `calls` of setter calls, made left to right as
   * in `$symbol->setA(..)->setB(..)`: it differs from the starting symbol
   * only in properties that some call of the chain assigns.
   */
  function Run(s: Symbol, calls: seq<Setter>): (r: Symbol)
    ensures Changed(s, r) <= WritesAll(calls)
    decreases |calls|
  {
    if calls == [] then s
    else
      var m := Apply(s, calls[0]);
      ChangedTriangle(s, m, Run(m, calls[1..]));
      Run(m, calls[1..])
  }

  /** A chain whose every call has only null arguments changes nothing. */
  lemma {:induction false} NullChainIsNoOp(s: Symbol, calls: seq<Setter>)
    requires forall i :: 0 <= i < |calls| ==> AllNull(calls[i])
    ensures Run(s, calls) == s
  {
    if calls != [] {
      NullSetterIsNoOp(s, calls[0]);
      NullChainIsNoOp(s, calls[1..]);
    }
  }

  /**
   * Whatever chain of setters follows the constructor, the path and the
   * declared stroke_color, stroke_opacity and stroke_weight keep the values
   * the constructor gave them.
   */
  lemma FrozenAfterConstruction(path: string, options: Option<Options>, calls: seq<Setter>)
    ensures var r := Run(Construct(path, options), calls);
      && r.path == path
      && r.strokeColor == Given(options).strokeColor.GetOr("Black")
      && r.strokeOpacity == Given(options).strokeOpacity.GetOr(1)
      && r.strokeWeight == Given(options).strokeWeight.GetOr(1)
  {
  }

  /**
   * A stroke colour other than "Black" can only come from the options array:
   * no chain of setters after a constructor without options reaches the
   * symbol built with that 'stroke_color' option.
   */
  lemma StrokeColorOnlyFromOptions(path: string, color: string, calls: seq<Setter>)
    requires color != "Black"
    ensures Run(Construct(path), calls) != Construct(path, Some(NoOptions.(strokeColor := Some(color))))
  {
  }

  /**
   * For the keys whose setter assigns the declared property, an option is the
   * same as the corresponding setter called after constructing without options.
   */
  lemma ConstructAsSetters(path: string, o: Options)
    requires o.strokeColor.None? && o.strokeOpacity.None? && o.strokeWeight.None?
    ensures Construct(path, Some(o)) == Run(Construct(path), [
      SetAnchor(o.anchorX, o.anchorY), SetFillColor(o.fillColor), SetFillOpacity(o.fillOpacity),
      SetRotation(o.rotation), SetScale(o.scale)])
  {
    var calls := [
      SetAnchor(o.anchorX, o.anchorY), SetFillColor(o.fillColor), SetFillOpacity(o.fillOpacity),
      SetRotation(o.rotation), SetScale(o.scale)];
    var s0 := Construct(path);
    var s1 := Apply(s0, calls[0]);
    var s2 := Apply(s1, calls[1]);
    var s3 := Apply(s2, calls[2]);
    var s4 := Apply(s3, calls[3]);
    var s5 := Apply(s4, calls[4]);
    assert s5 == Construct(path, Some(o));
    assert Run(s4, calls[4..]) == s5 by { assert calls[4..][1..] == []; }
    assert Run(s3, calls[3..]) == Run(s4, calls[4..]) by { assert calls[3..][1..] == calls[4..]; }
    assert Run(s2, calls[2..]) == Run(s3, calls[3..]) by { assert calls[2..][1..] == calls[3..]; }
    assert Run(s1, calls[1..]) == Run(s2, calls[2..]) by { assert calls[1..][1..] == calls[2..]; }
  }

  /**
   * Example: built with scale 6 and fill colour "Blue", then rotated by 45
   * degrees and anchored at x = 10, the symbol keeps the other defaults.
   */
  lemma ChainExample()
    ensures var r := Run(
      Construct("CIRCLE", Some(NoOptions.(scale := Some(6), fillColor := Some("Blue")))),
      [SetRotation(Some(45)), SetAnchor(Some(10), None)]);
      r == Symbol("CIRCLE", 10, 0, "Blue", 1, 45, 6, "Black", 1, 1, None, None, None)
  {
    var calls := [SetRotation(Some(45)), SetAnchor(Some(10), None)];
    assert calls[1..][1..] == [];
  }

  // ---------------------------------------------------------------------------
  // The class
  // ---------------------------------------------------------------------------

  /**
   * A marker symbol object. Its fields are the properties of Symbol; State()
   * reads them off. Every setter updates the object in place and returns the
   * object itself, so calls can be chained.
   */
  class MarkerSymbol {
    var path: string
    var anchorX: int
    var anchorY: int
    var fillColor: string
    var fillOpacity: int
    var rotation: int
    var scale: int
    var strokeColor: string
    var strokeOpacity: int
    var strokeWeight: int
    /** The undeclared properties written by the stroke setters; None until first written. */
    var undeclaredStrokeColor: Option<string>
    var undeclaredStrokeOpacity: Option<int>
    var undeclaredStrokeWeight: Option<int>

    /** The current values of all properties. */
    function State(): Symbol
      reads this
    {
      Symbol(path, anchorX, anchorY, fillColor, fillOpacity, rotation, scale,
             strokeColor, strokeOpacity, strokeWeight,
             undeclaredStrokeColor, undeclaredStrokeOpacity, undeclaredStrokeWeight)
    }

    /** new MarkerSymbol(path, options) */
    constructor (path: string, options: Option<Options> := None)
      ensures State() == Construct(path, options)
    {
      var o := Given(options);
      this.path := path;
      anchorX := o.anchorX.GetOr(0);
      anchorY := o.anchorY.GetOr(0);
      fillColor := o.fillColor.GetOr("Red");
      fillOpacity := o.fillOpacity.GetOr(1);
      rotation := o.rotation.GetOr(0);
      scale := o.scale.GetOr(3);
      strokeColor := o.strokeColor.GetOr("Black");
      strokeOpacity := o.strokeOpacity.GetOr(1);
      strokeWeight := o.strokeWeight.GetOr(1);
      undeclaredStrokeColor := None;
      undeclaredStrokeOpacity := None;
      undeclaredStrokeWeight := None;
    }

    /** MarkerSymbol::create(path, options): a new object, as the constructor builds it. */
    static method Create(path: string, options: Option<Options> := None) returns (m: MarkerSymbol)
      ensures fresh(m)
      ensures m.State() == Construct(path, options)
    {
      m := new MarkerSymbol(path, options);
    }

    /** setAnchor(x, y): each non-null coordinate overwrites its own axis. */
    method SetAnchor(x: Option<int> := None, y: Option<int> := None) returns (self: MarkerSymbol)
      modifies this
      ensures self == this
      ensures anchorX == x.GetOr(old(anchorX)) && anchorY == y.GetOr(old(anchorY))
      ensures State() == Apply(old(State()), Setter.SetAnchor(x, y))
    {
      if x.Some? {
        anchorX := x.value;
      }
      if y.Some? {
        anchorY := y.value;
      }
      self := this;
    }

    /** setFillColor(fillColor) */
    method SetFillColor(fillColor: Option<string>) returns (self: MarkerSymbol)
      modifies this
      ensures self == this
      ensures this.fillColor == fillColor.GetOr(old(this.fillColor))
      ensures State() == Apply(old(State()), Setter.SetFillColor(fillColor))
    {
      if fillColor.Some? {
        this.fillColor := fillColor.value;
      }
      self := this;
    }

    /** setFillOpacity(fillOpacity) */
    method SetFillOpacity(fillOpacity: Option<int>) returns (self: MarkerSymbol)
      modifies this
      ensures self == this
      ensures this.fillOpacity == fillOpacity.GetOr(old(this.fillOpacity))
      ensures State() == Apply(old(State()), Setter.SetFillOpacity(fillOpacity))
    {
      if fillOpacity.Some? {
        this.fillOpacity := fillOpacity.value;
      }
      self := this;
    }

    /** setRotation(rotation) */
    method SetRotation(rotation: Option<int>) returns (self: MarkerSymbol)
      modifies this
      ensures self == this
      ensures this.rotation == rotation.GetOr(old(this.rotation))
      ensures State() == Apply(old(State()), Setter.SetRotation(rotation))
    {
      if rotation.Some? {
        this.rotation := rotation.value;
      }
      self := this;
    }

    /** setScale(scale) */
    method SetScale(scale: Option<int>) returns (self: MarkerSymbol)
      modifies this
      ensures self == this
      ensures this.scale == scale.GetOr(old(this.scale))
      ensures State() == Apply(old(State()), Setter.SetScale(scale))
    {
      if scale.Some? {
        this.scale := scale.value;
      }
      self := this;
    }

    /** setStrokeColor(strokeColor): writes the undeclared property, never stroke_color. */
    method SetStrokeColor(strokeColor: Option<string>) returns (self: MarkerSymbol)
      modifies this
      ensures self == this
      ensures this.strokeColor == old(this.strokeColor)
      ensures strokeColor.Some? ==> undeclaredStrokeColor == strokeColor
      ensures State() == Apply(old(State()), Setter.SetStrokeColor(strokeColor))
    {
      if strokeColor.Some? {
        undeclaredStrokeColor := strokeColor;
      }
      self := this;
    }

    /** setStrokeOpacity(strokeOpacity): writes the undeclared property, never stroke_opacity. */
    method SetStrokeOpacity(strokeOpacity: Option<int>) returns (self: MarkerSymbol)
      modifies this
      ensures self == this
      ensures this.strokeOpacity == old(this.strokeOpacity)
      ensures strokeOpacity.Some? ==> undeclaredStrokeOpacity == strokeOpacity
      ensures State() == Apply(old(State()), Setter.SetStrokeOpacity(strokeOpacity))
    {
      if strokeOpacity.Some? {
        undeclaredStrokeOpacity := strokeOpacity;
      }
      self := this;
    }

    /** setStrokeWeight(strokeWeight): writes the undeclared property, never stroke_weight. */
    method SetStrokeWeight(strokeWeight: Option<int>) returns (self: MarkerSymbol)
      modifies this
      ensures self == this
      ensures this.strokeWeight == old(this.strokeWeight)
      ensures strokeWeight.Some? ==> undeclaredStrokeWeight == strokeWeight
      ensures State() == Apply(old(State()), Setter.SetStrokeWeight(strokeWeight))
    {
      if strokeWeight.Some? {
        undeclaredStrokeWeight := strokeWeight;
      }
      self := this;
    }
  }

  /**
   * MarkerSymbol::create and new MarkerSymbol given the same arguments build
   * two distinct objects with the same value in every property.
   */
  method CreateAgreesWithConstructor(path: string, options: Option<Options>)
    returns (created: MarkerSymbol, constructed: MarkerSymbol)
    ensures created != constructed
    ensures created.State() == constructed.State()
  {
    created := MarkerSymbol.Create(path, options);
    constructed := new MarkerSymbol(path, options);
  }

  /**
   * The fluent chain `create('CIRCLE', [scale 6, fill_color 'Blue'])
   * ->setRotation(45)->setAnchor(10, null)` on real objects: the chain ends
   * on the object `create` returned, holding the state ChainExample states.
   */
  method FluentChainExample() returns (created: MarkerSymbol, m: MarkerSymbol)
    ensures m == created
    ensures m.State() == Symbol("CIRCLE", 10, 0, "Blue", 1, 45, 6, "Black", 1, 1, None, None, None)
  {
    created := MarkerSymbol.Create("CIRCLE", Some(NoOptions.(scale := Some(6), fillColor := Some("Blue"))));
    var rotated := created.SetRotation(Some(45));
    m := rotated.SetAnchor(Some(10), None);
  }
}
