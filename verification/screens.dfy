/**
 A display (Screen) and its cathode-ray-tube refinement (CrtScreen).
 The constructors store their arguments as given; the property setters
 check type, then range, then assign. The `dpi` and `frequency` setters
 assign to the width field, and the model keeps that behaviour.
 A graphics-mode flag is flipped by `toggle_graphics_mode`.
 */
module Screens {
  import opened PyValues
  import opened PyStrings

  /** A screen's state; `graphicsMode` is false in text mode. */
  datatype Screen = Screen(name: PyValue, width: PyValue, height: PyValue, dpi: PyValue, graphicsMode: bool)

  /** A CRT screen: a screen plus its refresh frequency. */
  datatype CrtScreen = CrtScreen(base: Screen, frequency: PyValue)

  /** A positive int (a bool counts as the int it stands for). */
  predicate PositiveInt(v: PyValue) {
    IsInt(v) && IntOf(v) > 0
  }

  /** A name the name setter can store: a string, not blank, without
      surrounding whitespace. */
  predicate NameOk(v: PyValue) {
    v.PyStr? && !IsBlank(v.s) && IsStripped(v.s)
  }

  /** What the setters guarantee for the fields they validate. */
  predicate ScreenValid(s: Screen) {
    NameOk(s.name) && PositiveInt(s.width) && PositiveInt(s.height) && PositiveInt(s.dpi)
  }

  // ---------------------------------------------------------------------
  // Screen

  /** `Screen(name, width, height, dpi)`: stores every argument unchecked,
      in text mode. */
  function NewScreen(name: PyValue, width: PyValue, height: PyValue, dpi: PyValue): (s: Screen)
    ensures !s.graphicsMode
    ensures s.name == name && s.width == width && s.height == height && s.dpi == dpi
  {
    Screen(name, width, height, dpi, false)
  }

  /** Construction establishes none of the setters' guarantees: any value
      of any type can end up in any field. */
  lemma NewScreenUnchecked()
    ensures !ScreenValid(NewScreen(PyStr("  "), PyInt(0), PyStr("768"), PyNone))
    ensures !NameOk(NewScreen(PyStr(" CRT "), PyInt(1), PyInt(1), PyInt(1)).name)
  {
    assert IsSpace(" CRT "[0]);
  }

  /** The `name` setter: stores the argument with surrounding whitespace
      removed, and refuses a non-string (TypeError) or a string that is
      empty or all whitespace (ValueError). */
  function SetName(s: Screen, v: PyValue): (r: Result<Screen>)
    ensures r.Ok? <==> v.PyStr? && !IsBlank(v.s)
    ensures !v.PyStr? ==> r == Err(TypeError)
    ensures v.PyStr? && IsBlank(v.s) ==> r == Err(ValueError)
    ensures r.Ok? ==> NameOk(r.value.name) && exists i :: StrippedAt(v.s, r.value.name.s, i)
    ensures r.Ok? ==> r.value == s.(name := r.value.name)
  {
    match IsInstance(v, [StrClass])
    case Err(e) => Err(e)
    case Ok(isStr) =>
      if !isStr then Err(TypeError)
      else
        var name := Strip(v.s);
        if name == "" then Err(ValueError)
        else Ok(s.(name := PyStr(name)))
  }

  /** Setting the name to the name the setter stored changes nothing. */
  lemma SetNameIdempotent(s: Screen, v: PyValue, s': Screen)
    requires SetName(s, v) == Ok(s')
    ensures SetName(s', s'.name) == Ok(s')
  {
    StripKeepsStripped(s'.name.s);
  }

  /** Validation shared by the integer setters: TypeError for a non-int,
      ValueError for an int not above zero. */
  function CheckPositiveInt(v: PyValue): (r: Result<PyValue>)
    ensures r.Ok? <==> PositiveInt(v)
    ensures r.Ok? ==> r.value == v
    ensures !IsInt(v) ==> r == Err(TypeError)
    ensures IsInt(v) && !PositiveInt(v) ==> r == Err(ValueError)
  {
    match IsInstance(v, [IntClass])
    case Err(e) => Err(e)
    case Ok(isInt) =>
      if !isInt then Err(TypeError)
      else if IntOf(v) <= 0 then Err(ValueError)
      else Ok(v)
  }

  /** The `width` setter. */
  function SetWidth(s: Screen, v: PyValue): (r: Result<Screen>)
    ensures r.Ok? <==> PositiveInt(v)
    ensures r.Ok? ==> r.value == s.(width := v)
    ensures !IsInt(v) ==> r == Err(TypeError)
    ensures IsInt(v) && !PositiveInt(v) ==> r == Err(ValueError)
  {
    match CheckPositiveInt(v)
    case Err(e) => Err(e)
    case Ok(w) => Ok(s.(width := w))
  }

  /** The `height` setter. */
  function SetHeight(s: Screen, v: PyValue): (r: Result<Screen>)
    ensures r.Ok? <==> PositiveInt(v)
    ensures r.Ok? ==> r.value == s.(height := v)
    ensures !IsInt(v) ==> r == Err(TypeError)
    ensures IsInt(v) && !PositiveInt(v) ==> r == Err(ValueError)
  {
    match CheckPositiveInt(v)
    case Err(e) => Err(e)
    case Ok(h) => Ok(s.(height := h))
  }

  /** The `dpi` setter as written: it validates like the others but
      assigns to the width, so the dpi itself never changes. */
  function SetDpi(s: Screen, v: PyValue): (r: Result<Screen>)
    ensures r.Ok? <==> PositiveInt(v)
    ensures r.Ok? ==> r.value == s.(width := v)
    ensures !IsInt(v) ==> r == Err(TypeError)
    ensures IsInt(v) && !PositiveInt(v) ==> r == Err(ValueError)
  {
    match CheckPositiveInt(v)
    case Err(e) => Err(e)
    case Ok(d) => Ok(s.(width := d))
  }

  /** The `dpi` setter as its name and messages describe it. */
  function SetDpiIntended(s: Screen, v: PyValue): (r: Result<Screen>)
    ensures r.Ok? <==> PositiveInt(v)
    ensures r.Ok? ==> r.value == s.(dpi := v)
    ensures !IsInt(v) ==> r == Err(TypeError)
    ensures IsInt(v) && !PositiveInt(v) ==> r == Err(ValueError)
  {
    match CheckPositiveInt(v)
    case Err(e) => Err(e)
    case Ok(d) => Ok(s.(dpi := d))
  }

  /** The `dpi` setter's defect on a concrete screen: asking for 96 dpi
      leaves the dpi at 72 and turns a 1024-pixel width into 96. */
  lemma DpiDefect()
    ensures SetDpi(Screen(PyStr("LCD"), PyInt(1024), PyInt(768), PyInt(72), false), PyInt(96))
         == Ok(Screen(PyStr("LCD"), PyInt(96), PyInt(768), PyInt(72), false))
    ensures SetDpiIntended(Screen(PyStr("LCD"), PyInt(1024), PyInt(768), PyInt(72), false), PyInt(96))
         == Ok(Screen(PyStr("LCD"), PyInt(1024), PyInt(768), PyInt(96), false))
  {
  }

  /** `toggle_graphics_mode`: flips the mode and returns the new mode. */
  function Toggle(s: Screen): (r: (Screen, bool))
    ensures r.1 == r.0.graphicsMode
    ensures r.1 != s.graphicsMode
    ensures r.0 == s.(graphicsMode := r.1)
  {
    var s' := s.(graphicsMode := !s.graphicsMode);
    (s', s'.graphicsMode)
  }

  /** Two toggles restore the screen. */
  lemma ToggleTwice(s: Screen)
    ensures Toggle(Toggle(s).0).0 == s
  {
  }

  /** A call a client makes on a screen. */
  datatype ScreenCall =
    | AssignName(v: PyValue)
    | AssignWidth(v: PyValue)
    | AssignHeight(v: PyValue)
    | AssignDpi(v: PyValue)
    | ToggleGraphicsMode

  /** The screen after one call whose exception, if any, is caught. */
  function ScreenStep(s: Screen, c: ScreenCall): Screen {
    match c
    case AssignName(v) => Settle(s, SetName(s, v))
    case AssignWidth(v) => Settle(s, SetWidth(s, v))
    case AssignHeight(v) => Settle(s, SetHeight(s, v))
    case AssignDpi(v) => Settle(s, SetDpi(s, v))
    case ToggleGraphicsMode => Toggle(s).0
  }

  /** The screen after a sequence of calls, exceptions caught. */
  function RunScreen(s: Screen, calls: seq<ScreenCall>): Screen
    decreases |calls|
  {
    if calls == [] then s else RunScreen(ScreenStep(s, calls[0]), calls[1..])
  }

  /** Whether an odd number of the calls toggle the graphics mode. */
  function OddToggles(calls: seq<ScreenCall>): bool
    decreases |calls|
  {
    if calls == [] then false
    else calls[0].ToggleGraphicsMode? != OddToggles(calls[1..])
  }

  /** One call leaves the dpi alone and keeps the checked fields valid. */
  lemma ScreenStepInvariant(s: Screen, c: ScreenCall)
    ensures ScreenStep(s, c).dpi == s.dpi
    ensures ScreenValid(s) ==> ScreenValid(ScreenStep(s, c))
    ensures ScreenStep(s, c).graphicsMode == (s.graphicsMode != c.ToggleGraphicsMode?)
  {
  }

  /** Over any sequence of calls: the dpi never changes; a screen whose
      fields satisfy the setters' checks keeps satisfying them; and the
      graphics mode has flipped exactly when an odd number of toggles ran. */
  lemma {:induction false} RunScreenInvariant(s: Screen, calls: seq<ScreenCall>)
    ensures RunScreen(s, calls).dpi == s.dpi
    ensures ScreenValid(s) ==> ScreenValid(RunScreen(s, calls))
    ensures RunScreen(s, calls).graphicsMode == (s.graphicsMode != OddToggles(calls))
    decreases |calls|
  {
    if calls != [] {
      ScreenStepInvariant(s, calls[0]);
      RunScreenInvariant(ScreenStep(s, calls[0]), calls[1..]);
    }
  }

  // ---------------------------------------------------------------------
  // CrtScreen

  /** `CrtScreen(name, width, height, dpi, frequency)`: the screen
      constructor's unchecked fields plus an unchecked frequency. */
  function NewCrtScreen(name: PyValue, width: PyValue, height: PyValue, dpi: PyValue, frequency: PyValue): (c: CrtScreen)
    ensures c.base == NewScreen(name, width, height, dpi)
    ensures c.frequency == frequency
    ensures !c.base.graphicsMode
  {
    CrtScreen(NewScreen(name, width, height, dpi), frequency)
  }

  /** The `frequency` setter as written: it validates a positive int but
      assigns to the width, so the frequency itself never changes. */
  function SetFrequency(c: CrtScreen, v: PyValue): (r: Result<CrtScreen>)
    ensures r.Ok? <==> PositiveInt(v)
    ensures r.Ok? ==> r.value == c.(base := c.base.(width := v))
    ensures !IsInt(v) ==> r == Err(TypeError)
    ensures IsInt(v) && !PositiveInt(v) ==> r == Err(ValueError)
  {
    match CheckPositiveInt(v)
    case Err(e) => Err(e)
    case Ok(f) => Ok(c.(base := c.base.(width := f)))
  }

  /** The `frequency` setter as its name and messages describe it. */
  function SetFrequencyIntended(c: CrtScreen, v: PyValue): (r: Result<CrtScreen>)
    ensures r.Ok? <==> PositiveInt(v)
    ensures r.Ok? ==> r.value == c.(frequency := v)
    ensures !IsInt(v) ==> r == Err(TypeError)
    ensures IsInt(v) && !PositiveInt(v) ==> r == Err(ValueError)
  {
    match CheckPositiveInt(v)
    case Err(e) => Err(e)
    case Ok(f) => Ok(c.(frequency := f))
  }

  /** The `frequency` setter's defect on a concrete screen: asking for
      85 Hz leaves 60 Hz and turns an 800-pixel width into 85. */
  lemma FrequencyDefect()
    ensures SetFrequency(NewCrtScreen(PyStr("CRT"), PyInt(800), PyInt(600), PyInt(72), PyInt(60)), PyInt(85))
         == Ok(NewCrtScreen(PyStr("CRT"), PyInt(85), PyInt(600), PyInt(72), PyInt(60)))
    ensures SetFrequencyIntended(NewCrtScreen(PyStr("CRT"), PyInt(800), PyInt(600), PyInt(72), PyInt(60)), PyInt(85))
         == Ok(NewCrtScreen(PyStr("CRT"), PyInt(800), PyInt(600), PyInt(72), PyInt(85)))
  {
  }

  /** `CrtScreen.toggle_graphics_mode`: defers to the screen's toggle. */
  function CrtToggle(c: CrtScreen): (r: (CrtScreen, bool))
    ensures r.1 == r.0.base.graphicsMode
    ensures r.1 != c.base.graphicsMode
    ensures r.0 == c.(base := c.base.(graphicsMode := r.1))
  {
    var (s', mode) := Toggle(c.base);
    (c.(base := s'), mode)
  }

  /** The CRT toggle is the screen's toggle applied to the base screen. */
  lemma CrtToggleIsBaseToggle(c: CrtScreen)
    ensures CrtToggle(c) == (c.(base := Toggle(c.base).0), Toggle(c.base).1)
  {
  }

  /** Two CRT toggles restore the CRT screen. */
  lemma CrtToggleTwice(c: CrtScreen)
    ensures CrtToggle(CrtToggle(c).0).0 == c
  {
  }

  /** A call a client makes on a CRT screen: one the screen offers (the
      toggle dispatching to the CRT override) or the frequency setter. */
  datatype CrtCall = Inherited(call: ScreenCall) | AssignFrequency(v: PyValue)

  function CrtStep(c: CrtScreen, call: CrtCall): CrtScreen {
    match call
    case Inherited(ToggleGraphicsMode) => CrtToggle(c).0
    case Inherited(sc) => c.(base := ScreenStep(c.base, sc))
    case AssignFrequency(v) => Settle(c, SetFrequency(c, v))
  }

  function RunCrt(c: CrtScreen, calls: seq<CrtCall>): CrtScreen
    decreases |calls|
  {
    if calls == [] then c else RunCrt(CrtStep(c, calls[0]), calls[1..])
  }

  /** Whether an odd number of the calls toggle the graphics mode. */
  function CrtOddToggles(calls: seq<CrtCall>): bool
    decreases |calls|
  {
    if calls == [] then false
    else (calls[0] == Inherited(ToggleGraphicsMode)) != CrtOddToggles(calls[1..])
  }

  /** Over any sequence of calls, neither the frequency nor the dpi of a
      CRT screen ever changes, the screen's checked fields stay valid, and
      the graphics mode has flipped exactly when an odd number of toggles ran. */
  lemma {:induction false} RunCrtInvariant(c: CrtScreen, calls: seq<CrtCall>)
    ensures RunCrt(c, calls).frequency == c.frequency
    ensures RunCrt(c, calls).base.dpi == c.base.dpi
    ensures ScreenValid(c.base) ==> ScreenValid(RunCrt(c, calls).base)
    ensures RunCrt(c, calls).base.graphicsMode == (c.base.graphicsMode != CrtOddToggles(calls))
    decreases |calls|
  {
    if calls != [] {
      RunCrtInvariant(CrtStep(c, calls[0]), calls[1..]);
    }
  }
}
