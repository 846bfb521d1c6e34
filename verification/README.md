# Infiniium session string logic, in Dafny

The Python repository drives a Keysight Infiniium oscilloscope over VISA with SCPI text commands.
Its `Infiniium` class and the module function `get_period` contain the only logic that does not
pass straight through to the VISA library:

- the identity accessors `model`, `hostname`, `serialnumber` and `firmware`. These split the
  `*IDN?` reply stored in `_instID` on commas and pick one field. `firmware` also strips newlines
  from both ends;
- `check_firmware`. It sorts `[candidate, own firmware]` as strings and answers `"newer"` or `"older"`;
- the exact SCPI text that `default_setup`, `setVerticalscale`, `setTimescale` and `get_period`
  hand to the transport.

The two source files `Basic_Period_Measurement_Inf_Example.py` and `Basic_Null.py` hold the same
class. Every line of it sits 15 lines earlier in `Basic_Null.py`. Only the file header, the licence
text, docstring wording (a "USe" typo in `Basic_Null.py`) and the module constants differ: the VISA
timeout value, and the name of the unused firmware constant. The code is the same, so one model
serves both files.
In the table below, the operations cite `Basic_Period_Measurement_Inf_Example.py` and the lemmas
about them cite `Basic_Null.py`; each cited line has its twin 15 lines later or earlier in the
other file. The finding below (`Basic_Period_Measurement_Inf_Example.py:203`) is the same defect
as `Basic_Null.py:188`.

Layout:

- `pyresult.dfy` (`PyResult`): Python's outcome of an expression, a value or an exception
  (`IndexError`, `ValueError`, or `UnsupportedField` for format fields outside the model), plus `Option`.
- `str_split.dfy` (`StrSplit`): `str.split(sep)` for a one-character separator, and `sep.join`.
- `str_strip.dfy` (`StrStrip`): `str.strip(c)` for one character.
- `str_order.dfy` (`StrOrder`): Python's `<` on `str` (code-point lexicographic order) and the
  stable sort of a two-element list.
- `str_format.dfy` (`StrFormat`): `str.format` with `{}` fields and `{{`/`}}` escapes.
- `infiniium.dfy` (`Infiniium`): the session (`Instrument`, holding `_instID`), its accessors,
  `check_firmware`, and the command builders. A builder returns the `Command` handed to
  `write` or `query`.

The model follows what the code does, where that differs from what names and docstrings suggest:

- `firmware` strips `'\n'` from both ends of field 3 (`strip`, not `rstrip`).
- `get_period` returns `None`, not the instrument's reply: the docstrings of `read` and `query`
  promise the reply, but both discard it. The model gives the query text only.
- `check_firmware` on equal versions answers `"newer"`.

## Model

| member | source | states |
|---|---|---|
| `StrSplit.Split` | Basic_Period_Measurement_Inf_Example.py:162 | `split(",")` yields one more field than the string has commas (so `''` gives one empty field), and no field contains a comma |
| `StrSplit.JoinSplit` | Basic_Null.py:147 | joining the fields of a split with the separator gives back the original string |
| `StrSplit.SplitJoin` | Basic_Null.py:147 | splitting a join of separator-free fields gives back exactly those fields |
| `StrStrip.StripLeft` | Basic_Period_Measurement_Inf_Example.py:195 | the left half of `strip`: a suffix of the input, everything dropped is the stripped character, and it does not start with it |
| `StrStrip.StripRight` | Basic_Period_Measurement_Inf_Example.py:195 | the right half of `strip`: a prefix of the input, everything dropped is the stripped character, and it does not end with it |
| `StrStrip.Strip` | Basic_Period_Measurement_Inf_Example.py:195 | `strip("\n")` returns a slice of the input that neither starts nor ends with the character, and everything outside the slice is that character |
| `StrStrip.StripRemovesPadding` | Basic_Null.py:180 | reference characterisation: a run of the character, a slice not starting or ending with it, then a run of it; `Strip` returns exactly that slice |
| `StrStrip.StripOfClean` | Basic_Null.py:180 | a string that neither starts nor ends with the character is unchanged by `strip` |
| `StrStrip.StripIdempotent` | Basic_Null.py:180 | stripping twice gives the same as stripping once |
| `StrOrder.Less` | Basic_Period_Measurement_Inf_Example.py:222 | Python's `<` on `str`, which `sort()` uses: code-point lexicographic order, in which a proper prefix comes first |
| `StrOrder.LessAtFirstDifference` | Basic_Null.py:207 | past a common prefix, the first differing code point decides `<`, in both directions |
| `StrOrder.LessTotal` | Basic_Null.py:206-207 | any two strings are equal or ordered one way or the other by Python's `<` |
| `StrOrder.LessAsymmetric` | Basic_Null.py:206-207 | no two strings are each below the other (so no string is below itself) |
| `StrOrder.LessTransitive` | Basic_Null.py:206-207 | Python's `<` on strings is transitive |
| `StrOrder.Sorted2` | Basic_Period_Measurement_Inf_Example.py:221-222 | `_x.sort()` on `[a, b]` leaves a permutation of `a` and `b` whose first element is `<=` the second |
| `StrOrder.SortedPairUnique` | Basic_Null.py:206-207 | any ordered arrangement of the two strings is the one `Sorted2` returns |
| `StrFormat.Format` | Basic_Period_Measurement_Inf_Example.py:203 | `format` returns a template without braces unchanged, whatever the arguments |
| `StrFormat.FormatField` | Basic_Null.py:229 | a `{}` field after brace-free text takes the first argument, and formatting continues with the rest of the template and the remaining arguments |
| `StrFormat.FormatOneField` | Basic_Null.py:183 | one `{}` between brace-free texts, with one argument, gives the texts with the argument in between |
| `StrFormat.FormatMissingArgument` | Basic_Null.py:229 | a `{}` field with no argument left raises IndexError |
| `Infiniium.Connect` | Basic_Period_Measurement_Inf_Example.py:81-94 | after a successful handshake `_instID` is the `*IDN?` reply; after a failed one it is `''`, and then `model`, `hostname`, `serialnumber` and `firmware` all raise IndexError |
| `Infiniium.IdnField` | Basic_Period_Measurement_Inf_Example.py:162 | `_instID.split(",")[i]` succeeds exactly when there are at least `i` commas, returns a comma-free field, and otherwise raises IndexError; `Infiniium.IdnFieldOfJoin` states which field it is |
| `Infiniium.Model` | Basic_Period_Measurement_Inf_Example.py:162 | `model` succeeds exactly when the identity has at least 2 fields, and otherwise raises IndexError; `Infiniium.IdentityFields` states the value, for every field count |
| `Infiniium.Hostname` | Basic_Period_Measurement_Inf_Example.py:173 | `hostname` succeeds exactly when the identity has at least 3 fields, and otherwise raises IndexError; `Infiniium.IdentityFields` states the value, for every field count |
| `Infiniium.SerialNumber` | Basic_Period_Measurement_Inf_Example.py:184 | `serialnumber` succeeds exactly when the identity has at least 3 fields, and otherwise raises IndexError; `Infiniium.IdentityFields` states the value, for every field count |
| `Infiniium.Firmware` | Basic_Period_Measurement_Inf_Example.py:195 | `firmware` succeeds exactly when the identity has at least 4 fields, and its value neither starts nor ends with `'\n'` and holds no comma; otherwise it raises IndexError |
| `Infiniium.HostnameIsSerialNumber` | Basic_Null.py:158-169 | `hostname` and `serialnumber` read the same field, so they always agree, failures included |
| `Infiniium.IdnFieldOfJoin` | Basic_Null.py:147 | on an identity joined from any non-empty list of comma-free fields, `split(",")[i]` is exactly field `i` when `i` is below the field count, and IndexError otherwise |
| `Infiniium.IdentityFields` | Basic_Null.py:147-180 | for an identity joined from any non-empty list of comma-free fields, `model` is field 1, `hostname` and `serialnumber` are field 2, and `firmware` is field 3 stripped of newlines, each raising IndexError when there are too few fields |
| `Infiniium.ShortIdentityExample` | Basic_Null.py:147 | the two-field reply `KEYSIGHT,UXR` has model `UXR` |
| `Infiniium.IdentityExample` | Basic_Null.py:147-169 | for `KEYSIGHT,UXR0104A,MY12345678,6.5.0.0\n`, the model is `UXR0104A`, and the hostname and serial number are both `MY12345678` |
| `Infiniium.FirmwareExample` | Basic_Null.py:180 | for the same reply, the firmware is `6.5.0.0`, without the newline |
| `Infiniium.CompareFirmware` | Basic_Period_Measurement_Inf_Example.py:221-226 | the answer is always `"newer"` or `"older"`, and it is `"newer"` exactly when the own firmware is `<=` the candidate in string order |
| `Infiniium.CheckFirmware` | Basic_Period_Measurement_Inf_Example.py:207-226 | `check_firmware` raises IndexError exactly when `firmware` does; otherwise it answers `"newer"` or `"older"`, `"newer"` exactly when `firmware <= candidate` |
| `Infiniium.CompareFirmwareSwap` | Basic_Null.py:206-211 | for two different versions, swapping which one is the instrument's flips the answer |
| `Infiniium.CompareFirmwareExamples` | Basic_Null.py:206-211 | on `6.5`, candidate `6.4` is older and `6.6` newer; equal versions give `"newer"`; on `2.0`, candidate `10.0` counts as older (string, not numeric, order) |
| `Infiniium.DefaultSetup` | Basic_Period_Measurement_Inf_Example.py:228-229 | `default_setup` writes `:SYSTem:PRESet DEFault` |
| `Infiniium.SetVerticalscale` | Basic_Period_Measurement_Inf_Example.py:197-198 | `setVerticalscale` writes `:SYSTem:CONTrol "Chan1Scale -1 ` then the rendering of `vscale / 1000`, then a closing quote |
| `Infiniium.SetTimescale` | Basic_Period_Measurement_Inf_Example.py:202-203 | as written, `setTimescale` writes the literal `:TIMebase:SCALe %s` |
| `Infiniium.SetTimescaleIgnoresScale` | Basic_Null.py:187-188 | as written, the text sent does not depend on `tscale` or on how it is rendered |
| `Infiniium.SetTimescaleMissesIntended` | Basic_Null.py:187-188 | the as-written text differs from the intended one for every rendered scale other than `%s` |
| `Infiniium.SetTimescaleIntended` | Basic_Period_Measurement_Inf_Example.py:202-203 | corrected: `:TIMebase:SCALe ` followed by the rendering of `tscale * 1e-9` (nanoseconds to seconds per division) |
| `Infiniium.GetPeriod` | Basic_Period_Measurement_Inf_Example.py:243-244 | `get_period` queries exactly `:MEASure:PERiod ` + channel + `, ` + direction |
| `Infiniium.ScaleDefaults` | Basic_Null.py:182-188 | with the defaults 50 mV/div and 100 ns/div, `setVerticalscale` embeds the rendering of 0.05, the intended `setTimescale` that of 1e-7, and the as-written one still sends `%s` |
| `Infiniium.GetPeriodDefaults` | Basic_Null.py:228-229 | with its default arguments, `get_period` queries `:MEASure:PERiod CHANnel1, RISing` |
| `Infiniium.CommandsAreOneMessage` | Basic_Null.py:73 | with `'\n'` as the write terminator, every command the session builds starts with a `:` header and holds no newline, so it is sent as one message, provided the channel, direction and rendered numbers hold none |

## Findings

| source | as written | input that shows it | evidently intended | confidence | as-written member | corrected member |
|---|---|---|---|---|---|---|
| Basic_Period_Measurement_Inf_Example.py:203 | `":TIMebase:SCALe %s".format(str(tscale*1e-9))` mixes `%` and `format` syntax. The template has no `{}` field, so the argument is dropped. | `setTimescale(100)` sends `:TIMebase:SCALe %s` instead of the 100 ns/div scale | send `:TIMebase:SCALe ` followed by the scale in seconds | high (follows from the format rules; not executed) | `Infiniium.SetTimescale` (with `Infiniium.SetTimescaleIgnoresScale`, `Infiniium.SetTimescaleMissesIntended`) | `Infiniium.SetTimescaleIntended` |

## Left out

- The VISA connection in `__init__`: resource manager, `open_resource`, timeout and terminator
  settings, and printed error messages. This is foreign-library I/O. `Infiniium.Connect` keeps only
  the end result: the `*IDN?` reply, or `''` on failure.
- `write`, `read` and `query`: pass-throughs to the VISA session. The builders return the
  `Command` they would hand over. The replies of `read` and `query` are discarded in the source,
  so nothing returns them.
- `opc`: an unbounded polling loop over instrument I/O. As written it also tests `'1' in None`.
- `s2num`: floating-point parsing.
- Number rendering: `str()` of a Python float is an abstract `render: real -> string` parameter.
  The division by 1000 and the multiplication by `1e-9` are done on exact reals, not binary floats.
- `StrFormat.Format`: numbered and named fields (`{0}`, `{name}`) and format specs are not
  interpreted. They yield `UnsupportedField`. The source uses none of them.
- The `__main__` script (sleep and print) and the module constants (VISA address, library path,
  timeout, the unused firmware number).
