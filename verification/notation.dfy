/**
 The notation model: a Tone (a note or a rest with a duration and a
 velocity), a Pattern (one instrument's tones, placed from a start bar) and
 a MusicalWork (a named, authored container of patterns with a tempo).

 Every field is written only through its setter, which checks the argument's
 type, then its range, then assigns; a constructor sets every field to None
 and then runs the setters in field order. Fields hold the Python value
 they were given, as the Python code stores the argument object itself.
 */
module Notation {
  import opened PyValues

  /** A note, or a rest when `keyNo` is None. `duration` is the fraction of
      a whole note the tone lasts (`task_1.py` calls it `value`). */
  datatype Tone = Tone(keyNo: PyValue, duration: PyValue, velocity: PyValue)

  /** The tones one instrument plays, starting at bar `startBar`. */
  datatype Pattern = Pattern(startBar: PyValue, instrument: PyValue, tones: seq<Tone>)

  /** A piece of music: its name, author, tempo in beats per minute and patterns. */
  datatype MusicalWork = MusicalWork(name: PyValue, author: PyValue, tempo: PyValue, patterns: seq<Pattern>)

  // ---------------------------------------------------------------------
  // The documented domain of every field

  /** A key number from 0 to 127, or None for a rest. */
  predicate KeyNoOk(v: PyValue) {
    v.PyNone? || (IsInt(v) && 0 <= IntOf(v) <= 127)
  }

  /** A positive number. */
  predicate DurationOk(v: PyValue) {
    IsNumber(v) && RealOf(v) > 0.0
  }

  /** A number from 0.0 to 1.0, both ends included. */
  predicate VelocityOk(v: PyValue) {
    IsNumber(v) && 0.0 <= RealOf(v) <= 1.0
  }

  predicate ToneValid(t: Tone) {
    KeyNoOk(t.keyNo) && DurationOk(t.duration) && VelocityOk(t.velocity)
  }

  /** A bar number that is an int and not negative. */
  predicate StartBarOk(v: PyValue) {
    IsInt(v) && IntOf(v) >= 0
  }

  /** A non-empty string. */
  predicate NonEmptyStr(v: PyValue) {
    v.PyStr? && |v.s| > 0
  }

  predicate PatternValid(p: Pattern) {
    StartBarOk(p.startBar) && NonEmptyStr(p.instrument)
  }

  /** A string, or None when the author is unknown. */
  predicate AuthorOk(v: PyValue) {
    v.PyStr? || v.PyNone?
  }

  /** An int from 40 to 320 beats per minute. */
  predicate TempoOk(v: PyValue) {
    IsInt(v) && 40 <= IntOf(v) <= 320
  }

  predicate WorkValid(w: MusicalWork) {
    NonEmptyStr(w.name) && AuthorOk(w.author) && TempoOk(w.tempo)
  }

  // ---------------------------------------------------------------------
  // Tone

  /** `set_key_no`, with `noneEntry` standing where both isinstance checks
      name "None". `task_1.py` writes the None object there. */
  function KeyNoSetter(t: Tone, v: PyValue, noneEntry: ClassRef): Result<Tone> {
    match IsInstance(v, [IntClass, noneEntry])
    case Err(e) => Err(e)
    case Ok(intOrNone) =>
      if !intOrNone then Err(TypeError)
      else
        match IsInstance(v, [noneEntry])
        case Err(e) => Err(e)
        case Ok(isNone) =>
          if !(isNone || 0 <= IntOf(v) <= 127) then Err(ValueError)
          else Ok(t.(keyNo := v))
  }

  /** `set_key_no` as written: an int passes the first isinstance check
      (the tuple stops at `int`), but the second check names None alone and
      raises; any other argument reaches None in the first check and raises.
      So every call raises TypeError. */
  function SetKeyNo(t: Tone, v: PyValue): (r: Result<Tone>)
    ensures r == Err(TypeError)
  {
    KeyNoSetter(t, v, NoneObject)
  }

  /** `set_key_no` as documented: None or an int key number 0..127. */
  function SetKeyNoIntended(t: Tone, v: PyValue): (r: Result<Tone>)
    ensures r.Ok? <==> KeyNoOk(v)
    ensures r.Ok? ==> r.value == t.(keyNo := v)
    ensures !IsInt(v) && !v.PyNone? ==> r == Err(TypeError)
    ensures IsInt(v) && !KeyNoOk(v) ==> r == Err(ValueError)
  {
    KeyNoSetter(t, v, NoneTypeClass)
  }

  /** `set_value`: the tone's duration. */
  function SetDuration(t: Tone, v: PyValue): (r: Result<Tone>)
    ensures r.Ok? <==> DurationOk(v)
    ensures r.Ok? ==> r.value == t.(duration := v)
    ensures !IsNumber(v) ==> r == Err(TypeError)
    ensures IsNumber(v) && !DurationOk(v) ==> r == Err(ValueError)
  {
    match IsInstance(v, [IntClass, FloatClass])
    case Err(e) => Err(e)
    case Ok(isNumber) =>
      if !isNumber then Err(TypeError)
      else if RealOf(v) <= 0.0 then Err(ValueError)
      else Ok(t.(duration := v))
  }

  /** `set_velocity`. */
  function SetVelocity(t: Tone, v: PyValue): (r: Result<Tone>)
    ensures r.Ok? <==> VelocityOk(v)
    ensures r.Ok? ==> r.value == t.(velocity := v)
    ensures !IsNumber(v) ==> r == Err(TypeError)
    ensures IsNumber(v) && !VelocityOk(v) ==> r == Err(ValueError)
  {
    match IsInstance(v, [IntClass, FloatClass])
    case Err(e) => Err(e)
    case Ok(isNumber) =>
      if !isNumber then Err(TypeError)
      else if !(RealOf(v) >= 0.0 && RealOf(v) <= 1.0) then Err(ValueError)
      else Ok(t.(velocity := v))
  }

  /** A tone whose constructor has not yet run any setter. */
  const BlankTone := Tone(PyNone, PyNone, PyNone)

  /** `Tone(key_no, value, velocity)` as written: its first setter always
      raises, so no Tone is ever constructed. */
  function NewTone(keyNo: PyValue, duration: PyValue, velocity: PyValue): (r: Result<Tone>)
    ensures r == Err(TypeError)
  {
    match SetKeyNo(BlankTone, keyNo)
    case Err(e) => Err(e)
    case Ok(t) =>
      match SetDuration(t, duration)
      case Err(e) => Err(e)
      case Ok(t') =>
        SetVelocity(t', velocity)
  }

  /** `Tone(key_no, value, velocity)` with the documented key number check:
      it succeeds exactly on valid arguments, and otherwise raises the
      error of the first bad argument, TypeError for a wrong type and
      ValueError for a value out of range. */
  function NewToneIntended(keyNo: PyValue, duration: PyValue, velocity: PyValue): (r: Result<Tone>)
    ensures r.Ok? <==> ToneValid(Tone(keyNo, duration, velocity))
    ensures r.Ok? ==> r.value == Tone(keyNo, duration, velocity)
    ensures !KeyNoOk(keyNo) ==> r == Err(if IsInt(keyNo) then ValueError else TypeError)
    ensures KeyNoOk(keyNo) && !DurationOk(duration) ==>
              r == Err(if IsNumber(duration) then ValueError else TypeError)
    ensures KeyNoOk(keyNo) && DurationOk(duration) && !VelocityOk(velocity) ==>
              r == Err(if IsNumber(velocity) then ValueError else TypeError)
  {
    match SetKeyNoIntended(BlankTone, keyNo)
    case Err(e) => Err(e)
    case Ok(t) =>
      match SetDuration(t, duration)
      case Err(e) => Err(e)
      case Ok(t') =>
        SetVelocity(t', velocity)
  }

  /** A setter call on a tone. */
  datatype ToneCall = SetKeyNoCall(v: PyValue) | SetDurationCall(v: PyValue) | SetVelocityCall(v: PyValue)

  /** The tone after one setter call whose exception, if any, is caught. */
  function ToneStep(t: Tone, c: ToneCall): Tone {
    match c
    case SetKeyNoCall(v) => Settle(t, SetKeyNo(t, v))
    case SetDurationCall(v) => Settle(t, SetDuration(t, v))
    case SetVelocityCall(v) => Settle(t, SetVelocity(t, v))
  }

  /** The tone after a sequence of setter calls, exceptions caught. */
  function RunTone(t: Tone, calls: seq<ToneCall>): Tone
    decreases |calls|
  {
    if calls == [] then t else RunTone(ToneStep(t, calls[0]), calls[1..])
  }

  /** No sequence of setter calls changes a tone's key number, and a valid
      tone stays valid. */
  lemma {:induction false} RunToneInvariant(t: Tone, calls: seq<ToneCall>)
    ensures RunTone(t, calls).keyNo == t.keyNo
    ensures ToneValid(t) ==> ToneValid(RunTone(t, calls))
    decreases |calls|
  {
    if calls != [] {
      RunToneInvariant(ToneStep(t, calls[0]), calls[1..]);
    }
  }

  /** The tone after one setter call with the documented key number
      check, exceptions caught. */
  function ToneStepIntended(t: Tone, c: ToneCall): Tone {
    match c
    case SetKeyNoCall(v) => Settle(t, SetKeyNoIntended(t, v))
    case SetDurationCall(v) => Settle(t, SetDuration(t, v))
    case SetVelocityCall(v) => Settle(t, SetVelocity(t, v))
  }

  function RunToneIntended(t: Tone, calls: seq<ToneCall>): Tone
    decreases |calls|
  {
    if calls == [] then t else RunToneIntended(ToneStepIntended(t, calls[0]), calls[1..])
  }

  /** With the documented key number check, the key number can change,
      but a valid tone stays valid over any sequence of setter calls: its
      key number stays None or 0..127. */
  lemma {:induction false} RunToneIntendedInvariant(t: Tone, calls: seq<ToneCall>)
    ensures ToneValid(t) ==> ToneValid(RunToneIntended(t, calls))
    ensures KeyNoOk(t.keyNo) ==> KeyNoOk(RunToneIntended(t, calls).keyNo)
    decreases |calls|
  {
    if calls != [] {
      RunToneIntendedInvariant(ToneStepIntended(t, calls[0]), calls[1..]);
    }
  }

  /** The divergence of `set_key_no` from its documentation: every
      documented key number, a rest included, is refused with TypeError. */
  lemma KeyNoDefect(t: Tone, v: PyValue)
    requires KeyNoOk(v)
    ensures SetKeyNo(t, v) == Err(TypeError)
    ensures SetKeyNoIntended(t, v) == Ok(t.(keyNo := v))
  {
  }

  // ---------------------------------------------------------------------
  // Pattern

  /** `set_start_bar`. */
  function SetStartBar(p: Pattern, v: PyValue): (r: Result<Pattern>)
    ensures r.Ok? <==> StartBarOk(v)
    ensures r.Ok? ==> r.value == p.(startBar := v)
    ensures !IsInt(v) ==> r == Err(TypeError)
    ensures IsInt(v) && !StartBarOk(v) ==> r == Err(ValueError)
  {
    match IsInstance(v, [IntClass])
    case Err(e) => Err(e)
    case Ok(isInt) =>
      if !isInt then Err(TypeError)
      else if IntOf(v) < 0 then Err(ValueError)
      else Ok(p.(startBar := v))
  }

  /** `set_instrument`. */
  function SetInstrument(p: Pattern, v: PyValue): (r: Result<Pattern>)
    ensures r.Ok? <==> NonEmptyStr(v)
    ensures r.Ok? ==> r.value == p.(instrument := v)
    ensures !v.PyStr? ==> r == Err(TypeError)
    ensures v == PyStr("") ==> r == Err(ValueError)
  {
    match IsInstance(v, [StrClass])
    case Err(e) => Err(e)
    case Ok(isStr) =>
      if !isStr then Err(TypeError)
      else if v.s == "" then Err(ValueError)
      else Ok(p.(instrument := v))
  }

  /** `Pattern(start_bar, instrument)`: succeeds exactly on valid arguments,
      with no tones; otherwise raises the error of the first bad argument. */
  function NewPattern(startBar: PyValue, instrument: PyValue): (r: Result<Pattern>)
    ensures r.Ok? <==> StartBarOk(startBar) && NonEmptyStr(instrument)
    ensures r.Ok? ==> r.value.startBar == startBar && r.value.instrument == instrument
    ensures r.Ok? ==> r.value.tones == []
    ensures !StartBarOk(startBar) ==> r == Err(if IsInt(startBar) then ValueError else TypeError)
    ensures StartBarOk(startBar) && !NonEmptyStr(instrument) ==>
              r == Err(if instrument.PyStr? then ValueError else TypeError)
  {
    match SetStartBar(Pattern(PyNone, PyNone, []), startBar)
    case Err(e) => Err(e)
    case Ok(p) =>
      match SetInstrument(p, instrument)
      case Err(e) => Err(e)
      case Ok(p') =>
        Ok(p'.(tones := []))
  }

  /** A setter call on a pattern. */
  datatype PatternCall = SetStartBarCall(v: PyValue) | SetInstrumentCall(v: PyValue)

  function PatternStep(p: Pattern, c: PatternCall): Pattern {
    match c
    case SetStartBarCall(v) => Settle(p, SetStartBar(p, v))
    case SetInstrumentCall(v) => Settle(p, SetInstrument(p, v))
  }

  function RunPattern(p: Pattern, calls: seq<PatternCall>): Pattern
    decreases |calls|
  {
    if calls == [] then p else RunPattern(PatternStep(p, calls[0]), calls[1..])
  }

  /** Setter calls never touch a pattern's tones, and a valid pattern stays
      valid. */
  lemma {:induction false} RunPatternInvariant(p: Pattern, calls: seq<PatternCall>)
    ensures RunPattern(p, calls).tones == p.tones
    ensures PatternValid(p) ==> PatternValid(RunPattern(p, calls))
    decreases |calls|
  {
    if calls != [] {
      RunPatternInvariant(PatternStep(p, calls[0]), calls[1..]);
    }
  }

  // ---------------------------------------------------------------------
  // MusicalWork

  /** `set_name`. */
  function SetName(w: MusicalWork, v: PyValue): (r: Result<MusicalWork>)
    ensures r.Ok? <==> NonEmptyStr(v)
    ensures r.Ok? ==> r.value == w.(name := v)
    ensures !v.PyStr? ==> r == Err(TypeError)
    ensures v == PyStr("") ==> r == Err(ValueError)
  {
    match IsInstance(v, [StrClass])
    case Err(e) => Err(e)
    case Ok(isStr) =>
      if !isStr then Err(TypeError)
      else if !(|v.s| > 0) then Err(ValueError)
      else Ok(w.(name := v))
  }

  /** `set_author`, with `noneEntry` standing where its isinstance check
      names "None". `task_1.py` writes the None object there. */
  function AuthorSetter(w: MusicalWork, v: PyValue, noneEntry: ClassRef): Result<MusicalWork> {
    match IsInstance(v, [StrClass, noneEntry])
    case Err(e) => Err(e)
    case Ok(strOrNone) =>
      if !strOrNone then Err(TypeError)
      else Ok(w.(author := v))
  }

  /** `set_author` as written: a string passes (the tuple stops at `str`),
      any other argument, None included, reaches the None object and raises
      TypeError. */
  function SetAuthor(w: MusicalWork, v: PyValue): (r: Result<MusicalWork>)
    ensures r.Ok? <==> v.PyStr?
    ensures r.Ok? ==> r.value == w.(author := v)
    ensures r.Err? ==> r.error == TypeError
  {
    AuthorSetter(w, v, NoneObject)
  }

  /** `set_author` as documented: a string or None. */
  function SetAuthorIntended(w: MusicalWork, v: PyValue): (r: Result<MusicalWork>)
    ensures r.Ok? <==> AuthorOk(v)
    ensures r.Ok? ==> r.value == w.(author := v)
    ensures r.Err? ==> r.error == TypeError
  {
    AuthorSetter(w, v, NoneTypeClass)
  }

  /** `set_tempo`. */
  function SetTempo(w: MusicalWork, v: PyValue): (r: Result<MusicalWork>)
    ensures r.Ok? <==> TempoOk(v)
    ensures r.Ok? ==> r.value == w.(tempo := v)
    ensures !IsInt(v) ==> r == Err(TypeError)
    ensures IsInt(v) && !TempoOk(v) ==> r == Err(ValueError)
  {
    match IsInstance(v, [IntClass])
    case Err(e) => Err(e)
    case Ok(isInt) =>
      if !isInt then Err(TypeError)
      else if !(IntOf(v) >= 40 && IntOf(v) <= 320) then Err(ValueError)
      else Ok(w.(tempo := v))
  }

  /** A work whose constructor has not yet run any setter. */
  const BlankWork := MusicalWork(PyNone, PyNone, PyNone, [])

  /** `MusicalWork(name, author, tempo)` as written: an absent (None)
      author is refused, so only a string author constructs. */
  function NewWork(name: PyValue, author: PyValue, tempo: PyValue): (r: Result<MusicalWork>)
    ensures r.Ok? <==> NonEmptyStr(name) && author.PyStr? && TempoOk(tempo)
    ensures r.Ok? ==> r.value == MusicalWork(name, author, tempo, [])
    ensures !NonEmptyStr(name) ==> r == Err(if name.PyStr? then ValueError else TypeError)
    ensures NonEmptyStr(name) && !author.PyStr? ==> r == Err(TypeError)
    ensures NonEmptyStr(name) && author.PyStr? && !TempoOk(tempo) ==>
              r == Err(if IsInt(tempo) then ValueError else TypeError)
  {
    match SetName(BlankWork, name)
    case Err(e) => Err(e)
    case Ok(w) =>
      match SetAuthor(w, author)
      case Err(e) => Err(e)
      case Ok(w') =>
        match SetTempo(w', tempo)
        case Err(e) => Err(e)
        case Ok(w'') =>
          Ok(w''.(patterns := []))
  }

  /** `MusicalWork(name, author, tempo)` with the documented author check:
      succeeds exactly on valid arguments, with no patterns; otherwise
      raises the error of the first bad argument. */
  function NewWorkIntended(name: PyValue, author: PyValue, tempo: PyValue): (r: Result<MusicalWork>)
    ensures r.Ok? <==> WorkValid(MusicalWork(name, author, tempo, []))
    ensures r.Ok? ==> r.value == MusicalWork(name, author, tempo, [])
    ensures !NonEmptyStr(name) ==> r == Err(if name.PyStr? then ValueError else TypeError)
    ensures NonEmptyStr(name) && !AuthorOk(author) ==> r == Err(TypeError)
    ensures NonEmptyStr(name) && AuthorOk(author) && !TempoOk(tempo) ==>
              r == Err(if IsInt(tempo) then ValueError else TypeError)
  {
    match SetName(BlankWork, name)
    case Err(e) => Err(e)
    case Ok(w) =>
      match SetAuthorIntended(w, author)
      case Err(e) => Err(e)
      case Ok(w') =>
        match SetTempo(w', tempo)
        case Err(e) => Err(e)
        case Ok(w'') =>
          Ok(w''.(patterns := []))
  }

  /** The divergence of `set_author` from its documentation: None, the
      documented "no author", is refused. */
  lemma AuthorDefect(w: MusicalWork)
    ensures SetAuthor(w, PyNone) == Err(TypeError)
    ensures SetAuthorIntended(w, PyNone) == Ok(w.(author := PyNone))
  {
  }

  /** A setter call on a work. */
  datatype WorkCall = SetNameCall(v: PyValue) | SetAuthorCall(v: PyValue) | SetTempoCall(v: PyValue)

  function WorkStep(w: MusicalWork, c: WorkCall): MusicalWork {
    match c
    case SetNameCall(v) => Settle(w, SetName(w, v))
    case SetAuthorCall(v) => Settle(w, SetAuthor(w, v))
    case SetTempoCall(v) => Settle(w, SetTempo(w, v))
  }

  function RunWork(w: MusicalWork, calls: seq<WorkCall>): MusicalWork
    decreases |calls|
  {
    if calls == [] then w else RunWork(WorkStep(w, calls[0]), calls[1..])
  }

  /** Setter calls never touch a work's patterns, and a valid work stays
      valid: name non-empty, tempo within 40..320. */
  lemma {:induction false} RunWorkInvariant(w: MusicalWork, calls: seq<WorkCall>)
    ensures RunWork(w, calls).patterns == w.patterns
    ensures WorkValid(w) ==> WorkValid(RunWork(w, calls))
    decreases |calls|
  {
    if calls != [] {
      RunWorkInvariant(WorkStep(w, calls[0]), calls[1..]);
    }
  }
}
