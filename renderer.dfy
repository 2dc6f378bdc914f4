/** The Mode7 parameter store: three transform parameters behind validating
    setters, a dirty flag, and a derived image that is re-rendered on read
    while the flag is set.  Images are modelled by their sizes only; the
    library's rotate-and-zoom transform is a function value handed in at
    construction. */
module Renderer {

  /** Pixel dimensions of an image. */
  datatype Size = Size(width: nat, height: nat)

  /** The one exception kind the setters raise. */
  datatype Error = ValueError

  /** What a setter on values yields: the new state, or the exception. */
  datatype Result<T> = Ok(value: T) | Err(error: Error)

  /** What a setter method returns: it returned normally, or it raised.  The
      method's new state is its object's fields, so unlike `Result` this
      carries no value. */
  datatype Outcome = Pass | Raised(error: Error)

  datatype Option<T> = None | Some(value: T)

  /** The parameters of a Mode7 object together with its dirty flag. */
  datatype Params = Params(zoom: real, perspective: real, rotation: real, dirty: bool)

  /** The values a freshly constructed Mode7 holds. */
  const Initial := Params(1.0, 0.0, 0.0, true)

  /** The stored parameters are in the range the setters maintain.  The
      initial perspective 0 lies outside the setter's range, so it is
      admitted here on its own. */
  predicate InRange(s: Params) {
    s.zoom > 0.0 && 0.0 <= s.perspective < 1.0 && 0.0 <= s.rotation < 360.0
  }

  /** Python's `v % 360` on exact reals: the representative of `v` modulo
      360 that lies in [0, 360). */
  function Normalize(v: real): (r: real)
    ensures 0.0 <= r < 360.0
    ensures (v - r) / 360.0 == ((v - r) / 360.0).Floor as real
  {
    v - 360.0 * ((v / 360.0).Floor as real)
  }

  /** Python's `int(x)`: truncation toward zero. */
  function Trunc(x: real): (n: int)
    ensures 0.0 <= x ==> 0 <= n && n as real <= x < n as real + 1.0
    ensures x < 0.0 ==> n <= 0 && n as real - 1.0 < x <= n as real
  {
    if x >= 0.0 then x.Floor else -((-x).Floor)
  }

  /** The render step: rotate-and-zoom the original, keep its width and
      squash its height by the perspective factor. */
  function Render(original: Size, rotozoom: (Size, real, real) -> Size, p: Params): (img: Size)
    requires 0.0 <= p.perspective
    ensures img.width == rotozoom(original, p.rotation, p.zoom).width
    ensures img.height as real <= rotozoom(original, p.rotation, p.zoom).height as real * p.perspective
                                < img.height as real + 1.0
    ensures p.perspective < 1.0 ==> img.height <= rotozoom(original, p.rotation, p.zoom).height
  {
    var rotated := rotozoom(original, p.rotation, p.zoom);
    var scaled := rotated.height as real * p.perspective;
    ScaledHeight(rotated.height as real, p.perspective, scaled);
    Size(rotated.width, Trunc(scaled))
  }

  /** Truncating a non-negative length scaled by a non-negative factor gives
      a non-negative whole number, and no more than the length when the
      factor is below one. */
  lemma ScaledHeight(h: real, f: real, scaled: real)
    requires 0.0 <= h && 0.0 <= f && scaled == h * f
    ensures 0.0 <= scaled && 0 <= Trunc(scaled)
    ensures f < 1.0 ==> Trunc(scaled) as real <= h
  {
    if f < 1.0 {
      assert h * f <= h * 1.0;
    }
  }

  /** The zoom setter on the abstract state. */
  function WriteZoom(s: Params, v: real): (r: Result<Params>)
    ensures r.Ok? <==> v > 0.0
    ensures r.Err? ==> r.error == ValueError
    ensures r.Ok? ==> r.value == s.(zoom := v, dirty := s.dirty || v != s.zoom)
  {
    if v > 0.0 then
      if v != s.zoom then Ok(s.(dirty := true, zoom := v)) else Ok(s)
    else
      Err(ValueError)
  }

  /** The perspective setter on the abstract state. */
  function WritePerspective(s: Params, v: real): (r: Result<Params>)
    ensures r.Ok? <==> 0.0 < v < 1.0
    ensures r.Err? ==> r.error == ValueError
    ensures r.Ok? ==> r.value == s.(perspective := v, dirty := s.dirty || v != s.perspective)
  {
    if 1.0 > v > 0.0 then
      if v != s.perspective then Ok(s.(dirty := true, perspective := v)) else Ok(s)
    else
      Err(ValueError)
  }

  /** The rotation setter on the abstract state.  It compares the raw value
      with the stored normalised one, so writing 370 over a stored 10 marks
      the state dirty although the stored value stays 10. */
  function WriteRotation(s: Params, v: real): (r: Params)
    ensures r.zoom == s.zoom && r.perspective == s.perspective
    ensures r.dirty == (s.dirty || v != s.rotation)
    ensures v != s.rotation ==> r.rotation == Normalize(v)
    ensures v == s.rotation ==> r == s
  {
    if v != s.rotation then s.(dirty := true, rotation := Normalize(v)) else s
  }

  /** A value already in [0, 360) is its own normal form. */
  lemma NormalizeInRange(v: real)
    requires 0.0 <= v < 360.0
    ensures Normalize(v) == v
  {
  }

  /** Normalize depends only on the class of its argument modulo 360, and the
      normal form is the unique representative of that class in [0, 360). */
  lemma NormalizeUnique(v: real, r: real, k: int)
    requires 0.0 <= r < 360.0
    requires v == r + 360.0 * k as real
    ensures Normalize(v) == r
  {
    assert v / 360.0 == r / 360.0 + k as real;
    assert (v / 360.0).Floor == k;
  }

  /** The two rotation examples: 370 is stored as 10 and -10 as 350. */
  lemma NormalizeExamples()
    ensures Normalize(370.0) == 10.0
    ensures Normalize(-10.0) == 350.0
  {
  }

  /** Whenever the stored rotation is already normalised, the rotation setter
      leaves `v mod 360` stored, whichever branch it takes. */
  lemma WriteRotationStoresNormalized(s: Params, v: real)
    requires 0.0 <= s.rotation < 360.0
    ensures WriteRotation(s, v).rotation == Normalize(v)
    ensures 0.0 <= WriteRotation(s, v).rotation < 360.0
  {
  }

  /** The raw comparison: writing 370 over a stored 10 keeps 10 but sets the
      dirty flag. */
  lemma WriteRotationRawCompare(s: Params)
    requires s.rotation == 10.0 && !s.dirty
    ensures WriteRotation(s, 370.0).rotation == 10.0
    ensures WriteRotation(s, 370.0).dirty
  {
  }

  /** Writing the value already stored (raw equality for rotation) changes
      neither the parameter nor the dirty flag. */
  lemma WriteSameIsNoOp(s: Params)
    ensures s.zoom > 0.0 ==> WriteZoom(s, s.zoom) == Ok(s)
    ensures 0.0 < s.perspective < 1.0 ==> WritePerspective(s, s.perspective) == Ok(s)
    ensures WriteRotation(s, s.rotation) == s
  {
  }

  /** No setter ever clears the dirty flag, so a state that starts dirty stays
      dirty whatever is written to it. */
  lemma WritesKeepDirty(s: Params, v: real)
    requires s.dirty
    ensures WriteZoom(s, v).Ok? ==> WriteZoom(s, v).value.dirty
    ensures WritePerspective(s, v).Ok? ==> WritePerspective(s, v).value.dirty
    ensures WriteRotation(s, v).dirty
  {
  }

  /** Every setter keeps the stored parameters in range. */
  lemma WritesKeepInRange(s: Params, v: real)
    requires InRange(s)
    ensures WriteZoom(s, v).Ok? ==> InRange(WriteZoom(s, v).value)
    ensures WritePerspective(s, v).Ok? ==> InRange(WritePerspective(s, v).value)
    ensures InRange(WriteRotation(s, v))
  {
  }

  /** The parameter store.  `image` is Python's `_image` attribute, absent
      until the first render. */
  class Mode7 {
    const original: Size
    const rotozoom: (Size, real, real) -> Size
    var zoom: real
    var perspective: real
    var rotation: real
    var dirty: bool
    var image: Option<Size>

    /** The stored parameters are in range and the dirty flag is set: it
        starts set and nothing ever clears it. */
    ghost predicate Valid()
      reads this
    {
      InRange(State()) && dirty
    }

    /** The parameters and dirty flag as one value. */
    function State(): (s: Params)
      reads this
    {
      Params(zoom, perspective, rotation, dirty)
    }

    /** Loading the image file is replaced by its size. */
    constructor (original: Size, rotozoom: (Size, real, real) -> Size)
      ensures Valid()
      ensures this.original == original && this.rotozoom == rotozoom
      ensures State() == Initial && image == None
    {
      this.original := original;
      this.rotozoom := rotozoom;
      perspective := 0.0;
      rotation := 0.0;
      zoom := 1.0;
      dirty := true;
      image := None;
    }

    method SetZoom(v: real) returns (outcome: Outcome)
      requires Valid()
      modifies this`zoom, this`dirty
      ensures Valid()
      ensures WriteZoom(old(State()), v).Ok? ==> outcome == Pass && State() == WriteZoom(old(State()), v).value
      ensures WriteZoom(old(State()), v).Err? ==> outcome == Raised(ValueError) && State() == old(State())
    {
      if v > 0.0 {
        if v != zoom {
          dirty := true;
          zoom := v;
        }
        outcome := Pass;
      } else {
        outcome := Raised(ValueError);
      }
    }

    method SetPerspective(v: real) returns (outcome: Outcome)
      requires Valid()
      modifies this`perspective, this`dirty
      ensures Valid()
      ensures WritePerspective(old(State()), v).Ok? ==> outcome == Pass && State() == WritePerspective(old(State()), v).value
      ensures WritePerspective(old(State()), v).Err? ==> outcome == Raised(ValueError) && State() == old(State())
    {
      if 1.0 > v > 0.0 {
        if v != perspective {
          dirty := true;
          perspective := v;
        }
        outcome := Pass;
      } else {
        outcome := Raised(ValueError);
      }
    }

    method SetRotation(v: real)
      requires Valid()
      modifies this`rotation, this`dirty
      ensures Valid()
      ensures State() == WriteRotation(old(State()), v)
      ensures rotation == Normalize(v)
    {
      if v != rotation {
        dirty := true;
        rotation := Normalize(v);
      }
      WriteRotationStoresNormalized(old(State()), v);
    }

    /** The `image` getter: re-render into the cache while dirty, then return
        the cache.  The flag is set from construction on and never cleared,
        so every read renders afresh and the cache is never read stale. */
    method GetImage() returns (img: Size)
      requires Valid()
      modifies this`image
      ensures img == Render(original, rotozoom, State())
      ensures image == Some(img)
    {
      if dirty {
        image := Some(Render(original, rotozoom, State()));
      }
      img := image.value;
    }
  }
}
