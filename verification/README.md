# Validating setters of a music-notation model and a screen model

This project is a Dafny model of two small Python class hierarchies. Each field of each class is written by a setter. The setter checks the argument's type, then its range, and only then assigns.

- **Notation** (`task_1.py`) has three classes:
  - `Tone`: a note, or a rest when the key number is None. It also has a duration, which `task_1.py` calls `value`, and a velocity.
  - `Pattern`: one instrument's tones, starting at a bar.
  - `MusicalWork`: a name, an author, a tempo and a list of patterns.

  A constructor sets every field to None and then calls the setters in field order. A Pattern starts with no tones, and a work starts with no patterns.
- **Screens** (`task_4.py`) has two classes:
  - `Screen`: name, width, height, dpi and a graphics-mode flag. Its property setters validate their arguments, but its constructor stores the arguments unchecked.
  - `CrtScreen`: a `Screen` that adds a refresh frequency.

  `toggle_graphics_mode` flips the graphics-mode flag and returns the new value.

How Python is modelled:

- **Values.** Python's dynamic arguments are the datatype `PyValue`: None, bool, int, float (as `real`) and str. A field holds the Python value it was given, because the Python code stores the argument object itself.
- **Exceptions.** A setter returns `Ok(new state)` or `Err(TypeError | ValueError)`. A setter raises before it assigns, so a caught exception leaves the object as it was. `Settle` models this. The `Run…` functions apply a whole sequence of calls, catching every exception.
- **`isinstance`.** This is modelled as CPython evaluates it. A tuple's entries are tried from left to right. The answer is True at the first class that matches. TypeError is raised when an entry that is not a class is reached, for example the `None` object. `bool` counts as `int`.
- **`str.strip()`.** This removes CPython's fixed set of 29 whitespace characters, the ones `str.isspace` accepts.

Where the code and its documentation disagree, the model follows the code. The documented intent is modelled beside it (see Findings). In particular:

- The key number is documented as "None or 0..127", but every call to `set_key_no` raises TypeError.
- The author is documented as optional, but `set_author(None)` raises TypeError.
- The `dpi` and `frequency` setters store into the width.

## Model

| member | source | states |
|---|---|---|
| PyValues.IsInstance | task_1.py:33-35 | `isinstance` with a tuple of classes is True exactly when some entry matches. A match in the first entry answers True before any later entry is looked at. It raises TypeError exactly when the walk reaches an entry that is not a class with no matching entry before it. True implies that some entry matches. |
| PyStrings.Strip | task_4.py:25 | `strip()` returns a string with no whitespace at either end. The string is empty exactly when the input is empty or all whitespace. The result is a substring of the input, and everything cut from either side is whitespace. |
| PyStrings.StripKeepsStripped | task_4.py:25 | A string with no whitespace at either end is returned unchanged by `strip()`. |
| PyStrings.StripIdempotent | task_4.py:25 | Stripping twice gives the same result as stripping once. |
| PyStrings.StripUnique | task_4.py:25 | Suppose a cut removes only whitespace from both ends and leaves a non-blank string with no whitespace at either end. Then that string is exactly what `strip()` returns. |
| Notation.SetKeyNo | task_1.py:33-37 | As written, `set_key_no` raises TypeError for every argument: ints, None, out-of-range numbers and strings alike. |
| Notation.SetKeyNoIntended | task_1.py:26-36 | The documented key-number setter accepts exactly None or an int in 0..127, and writes only the key number. Any other type raises TypeError. An int out of range raises ValueError. |
| Notation.KeyNoDefect | task_1.py:31-35 | Every documented key number, a rest (None) included, is refused with TypeError by the code as written. The documented check accepts all of them. |
| Notation.SetDuration | task_1.py:49-53 | `set_value` succeeds exactly for an int, bool or float greater than 0, and writes only the duration. A non-number raises TypeError, never ValueError. A number at or below 0 raises ValueError. |
| Notation.SetVelocity | task_1.py:65-69 | `set_velocity` succeeds exactly for a number in the closed interval [0, 1], both ends included, and writes only the velocity. A non-number raises TypeError. A number outside the interval raises ValueError. |
| Notation.NewTone | task_1.py:15-20 | As written, `Tone(...)` raises TypeError for every argument triple, so no Tone is ever constructed. |
| Notation.NewToneIntended | task_1.py:4-20 | With the documented key-number check, `Tone(k, d, v)` constructs exactly when all three arguments are valid, and it stores them unchanged. Otherwise it raises the error of the first invalid argument, in key number, duration, velocity order: TypeError for a wrong type, ValueError for a value out of range. |
| Notation.RunToneIntendedInvariant | task_1.py:26-69 | With the documented key-number check, any sequence of tone setter calls, with exceptions caught, keeps a valid tone valid. The key number may change but stays None or 0..127. |
| Notation.RunToneInvariant | task_1.py:33-69 | No sequence of tone setter calls, with exceptions caught, changes the key number. A tone whose three fields are in their documented domains stays so. |
| Notation.SetStartBar | task_1.py:100-104 | `set_start_bar` succeeds exactly for an int (bools included) ≥ 0, and writes only the start bar. A non-int raises TypeError. A negative int raises ValueError. |
| Notation.SetInstrument | task_1.py:117-121 | `set_instrument` succeeds exactly for a non-empty string, and writes only the instrument. A non-string raises TypeError. The empty string raises ValueError. |
| Notation.NewPattern | task_1.py:83-87 | `Pattern(b, i)` constructs exactly when `b` is an int ≥ 0 and `i` is a non-empty string. It stores both and starts with no tones. Otherwise it raises the start bar's error first, then the instrument's. |
| Notation.RunPatternInvariant | task_1.py:100-121 | Pattern setter calls never change the tones. A pattern with a valid start bar and instrument stays valid. |
| Notation.SetName | task_1.py:251-255 | `set_name` succeeds exactly for a non-empty string, and writes only the name. A non-string raises TypeError. The empty string raises ValueError. |
| Notation.SetAuthor | task_1.py:267-269 | As written, `set_author` accepts exactly the strings, the empty string included, and writes only the author. Every other argument, None included, raises TypeError. |
| Notation.SetAuthorIntended | task_1.py:257-269 | The documented author setter accepts exactly a string or None. Anything else raises TypeError. |
| Notation.AuthorDefect | task_1.py:267-269 | `set_author(None)` raises TypeError as written. The documented check accepts it. |
| Notation.SetTempo | task_1.py:281-285 | `set_tempo` succeeds exactly for an int in [40, 320], both ends included, and writes only the tempo. A non-int raises TypeError. An int out of range raises ValueError. |
| Notation.NewWork | task_1.py:233-239 | As written, `MusicalWork(n, a, t)` constructs exactly when `n` is a non-empty string, `a` is a string and `t` is an int in [40, 320]. It starts with no patterns. A bad name raises first: TypeError for a non-string, ValueError for the empty string. A valid name with a non-string author, None included, raises TypeError. A bad tempo raises last: TypeError for a non-int, ValueError for an int out of range. |
| Notation.NewWorkIntended | task_1.py:222-239 | With the documented author check, a work constructs exactly on a non-empty name, a string or None author and a tempo in range, with no patterns. Otherwise it raises the first bad argument's error kind. |
| Notation.RunWorkInvariant | task_1.py:251-285 | Work setter calls never change the patterns. A work with a non-empty name, a string or None author and a tempo in range stays so. |
| Screens.NewScreen | task_4.py:11-15 | `Screen(...)` stores its four arguments unchecked and starts in text mode. |
| Screens.NewScreenUnchecked | task_4.py:11-14 | A constructed screen can hold a blank name, a zero width or a non-int height, and a name with whitespace around it. None of the setters' guarantees hold after construction. |
| Screens.SetName | task_4.py:22-28 | The name setter succeeds exactly for a string that is not empty or all whitespace. It stores that string with the whitespace at both ends removed, and changes nothing else. A non-string raises TypeError. An empty or whitespace-only string raises ValueError. |
| Screens.SetNameIdempotent | task_4.py:25-28 | Setting the name to the name the setter stored leaves the screen unchanged. |
| Screens.SetWidth | task_4.py:35-40 | The width setter succeeds exactly for an int > 0 and changes only the width. A non-int raises TypeError. An int ≤ 0 raises ValueError. |
| Screens.SetHeight | task_4.py:47-52 | The height setter succeeds exactly for an int > 0 and changes only the height. A non-int raises TypeError. An int ≤ 0 raises ValueError. |
| Screens.SetDpi | task_4.py:59-64 | The dpi setter validates like the width setter, but on success it writes the width and leaves the dpi unchanged. |
| Screens.SetDpiIntended | task_4.py:58-63 | The dpi setter as named: an int > 0 becomes the dpi, and nothing else changes. |
| Screens.DpiDefect | task_4.py:64 | Setting dpi 96 on a 1024-wide, 72-dpi screen leaves dpi 72 and width 96. The intended setter gives width 1024 and dpi 96. |
| Screens.Toggle | task_4.py:70-73 | `toggle_graphics_mode` returns the negation of the old mode. The screen then holds that mode, and nothing else changes. |
| Screens.ToggleTwice | task_4.py:72 | Two toggles restore the screen. |
| Screens.ScreenStepInvariant | task_4.py:21-73 | One call on a screen never changes the dpi. It keeps valid checked fields valid, and it flips the mode exactly when the call is a toggle. |
| Screens.RunScreenInvariant | task_4.py:21-73 | Over any sequence of calls, with exceptions caught, the dpi never changes. A screen with a stripped non-blank name and positive int width, height and dpi stays so. The mode has flipped exactly when an odd number of toggles ran. |
| Screens.NewCrtScreen | task_4.py:95-96 | `CrtScreen(...)` is the unchecked screen plus an unchecked frequency, starting in text mode. |
| Screens.SetFrequency | task_4.py:103-108 | The frequency setter validates an int > 0, but on success it writes the width and leaves the frequency unchanged. A non-int raises TypeError. An int ≤ 0 raises ValueError. |
| Screens.SetFrequencyIntended | task_4.py:102-107 | The frequency setter as named: an int > 0 becomes the frequency, and nothing else changes. |
| Screens.FrequencyDefect | task_4.py:108 | Setting 85 Hz on an 800-wide, 60 Hz CRT leaves 60 Hz and width 85. The intended setter gives width 800 and 85 Hz. |
| Screens.CrtToggle | task_4.py:126-128 | The CRT toggle flips the base screen's mode and returns the new mode, exactly as the screen's toggle does. The frequency is untouched. |
| Screens.CrtToggleIsBaseToggle | task_4.py:126-128 | The CRT toggle returns exactly what the screen's toggle returns on the base screen, and the CRT screen holds that toggled base. |
| Screens.CrtToggleTwice | task_4.py:126-128 | Two CRT toggles restore the CRT screen. |
| Screens.RunCrtInvariant | task_4.py:98-128 | Over any sequence of calls on a CRT screen, neither the frequency nor the dpi ever changes, and valid checked fields stay valid. The mode has flipped exactly when an odd number of toggles ran. |

## Left out

- `Pattern.transpose`, `scale`, `quantize`, `append_tone`, `insert_tone` and `delete_tone` are not modelled. Their bodies are `...` (task_1.py:123-218), so there is no behaviour to model.
- `MusicalWork.add_pattern`, `delete_pattern` and `get_pattern` are not modelled. Their bodies are also `...` (task_1.py:287-326).
- `Screen.update_frame` and `CrtScreen.__scan_line` are not modelled because they do nothing. `CrtScreen.update_frame` only loops over them. Its loop `range(self.height)` (task_4.py:123) raises TypeError when the unchecked constructor stored a non-int height; that failure is not modelled either.
- `__str__` and `__repr__` are not modelled. They are display formatting only.
- The `__main__` blocks and the doctest examples in docstrings are not modelled.
- Floats are modelled as `real`. NaN and infinity are not represented. For example, `set_value(float('nan'))` would be accepted by Python, because `nan <= 0.0` is false.
- Only the five argument kinds the setters distinguish are represented: None, bool, int, float and str. Other objects, such as lists, are left out. Every type check in these setters would refuse them with TypeError, as it refuses a value of a kind the setter does not accept.
- The exception message texts are not modelled, only their kinds. As written, the TypeError from `set_key_no` and `set_author` comes from `isinstance` itself, not from the `raise` statement.
- Property getters are plain field reads and are not modelled as separate functions.

## Findings

| source | as written | input that shows it | evidently intended | confidence | as-written member | corrected member |
|---|---|---|---|---|---|---|
| task_1.py:33-35 | `isinstance(key_no, (int, None))` and `isinstance(key_no, None)` name the None object as a class. An int gets past the first check but the second one raises TypeError. Anything else raises TypeError in the first. | `Tone(40, 0.5, 0.77)`, or `set_key_no(41)`, or `set_key_no(None)` | None or an int in 0..127 is accepted, as the docstrings say | high (not executed) | Notation.KeyNoDefect | Notation.SetKeyNoIntended |
| task_1.py:267 | `isinstance(author, (str, None))` raises TypeError for every non-string, None included | `MusicalWork("Sonatina", None, 140)` | a string or None (an absent author) is accepted | high (not executed) | Notation.AuthorDefect | Notation.SetAuthorIntended |
| task_4.py:64 | The dpi setter assigns `self._width` | `dpi = 96` on a screen with width 1024 and dpi 72 gives width 96, dpi 72 | assign `self._dpi` | high (not executed) | Screens.DpiDefect | Screens.SetDpiIntended |
| task_4.py:108 | The frequency setter assigns `self._width` | `frequency = 85` on a CRT with width 800 and 60 Hz gives width 85, 60 Hz | assign `self._frequency` | high (not executed) | Screens.FrequencyDefect | Screens.SetFrequencyIntended |

`Notation.NewToneIntended` and `Notation.NewWorkIntended` are the constructors rebuilt on the corrected setters. `Notation.NewTone` and `Notation.NewWork` keep the constructors as written. The call-sequence invariants (`Run…Invariant`) use the setters as written, except `RunToneIntendedInvariant`, which uses the corrected key-number setter.
