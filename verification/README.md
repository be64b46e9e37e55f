# orya fragments — a verified model of the deterministic core

orya turns a snapshot of machine "entropy" into generative art. The snapshot
is hashed with SHA-256, and the hex digest is the seed of a fragment. The
seed drives two renderers:

- a static image made of five polar curves;
- a "living" animation whose 50 markers drift outwards frame by frame.

A small web application does three more things. It gives every fragment a
personality (chaotic, serene, intricate, …) from the snapshot's signals. It
merges two fragments into a new one. It keeps an append-only log of
fragments, whose gallery shows the 20 most recent.

This project models the deterministic logic of those pieces in Dafny and
proves what the code promises about it:

- **Hexadecimal parameters** (`hex.dfy`, `fragment_generator.dfy`,
  `living_fragment.dfy`).
  - A seed is cut into fixed-width chunks: 8 digits for the static renderer,
    6 for the living one.
  - Each chunk is read as an unsigned integer and divided by the largest
    value of that width.
  - Every parameter lies in [0, 1]. Parameter `k` comes from chunk `k`.
  - A non-hexadecimal chunk raises `ValueError`.
  - A 64-digit digest yields 8 static parameters. It yields 11 living
    parameters, the last from a 4-digit chunk.
- **The static renderer's arithmetic** (`fragment_generator.dfy`).
  - The integer that seeds the random generator is below 2^32.
  - Exactly five curves are drawn.
  - Line widths lie in [0.5, 1.5].
  - The colour slots are parameters 5–7.
  - The call fails exactly where the code fails.
- **The living renderer's arithmetic** (`living_fragment.dfy`).
  - The per-frame digest input is `seed + "_" + str(frame)`.
  - There are 50 markers, and marker `i` reads parameter `i % 11`.
  - Marker sizes lie in [5, 15]. Base radii grow with the frame.
  - Every marker of a frame is filled with one colour, taken from the sines
    of parameters 0–2 shifted by the frame. Each channel lies in [100, 255].
  - The frame file name is zero-padded to three digits, and distinct frames
    get distinct names.
  - `create_animation_frames` returns the frames in order.
- **Personality** (`fragment_generator.dfy`, `app.dfy`).
  - Five traits are computed from a snapshot, with a default for each missing
    signal.
  - The threshold rules turn the traits into an ordered list of one to four
    labels, at most one per category.
  - Exactly one of intricate and minimal is present.
  - No opposite pair appears together: chaotic and serene, ancient and
    newborn, energetic and dormant.
  - The rules written out again in `create_personality_data` give the same
    list as `describe_personality`.
- **Merge** (`app.dfy`).
  - Both hashes are stripped of whitespace.
  - For text fields, the merge is refused exactly when one of them is then
    empty.
  - Otherwise the new seed is the digest of `hash1 + hash2`, in that order.
  - The parents are recorded as the two 12-character prefixes, first hash
    first.
- **Fragment log** (`app.dfy`).
  - `FRAGMENTS_DB` is a class whose `entries` field the two generate
    operations extend by exactly one record. Earlier records do not change.
  - The gallery is the last `min(20, n)` entries, oldest first.
  - Appending shows the new entry last and, once the window is full, drops
    the oldest.

Python's string operations that the core relies on are modelled in
`pystr.dfy`: slicing a prefix, `str.strip()`, `str(int)`, the `{:03d}`
format and `os.path.basename`. The decimal and padded formats are proved
injective by round trips.

SHA-256 is not implemented. Every operation that digests takes the digest
function as a parameter `digest: Hasher`, whose results are 64 lower-case
hexadecimal characters. The current time ("now") and the timestamp string
are parameters too.

Floating-point values are modelled as exact reals, and Python's integers as
unbounded integers.

Two consequences of the code are easy to miss:

- **Short seeds in `generate_fragment`.** The curve loop
  `range(min(5, len(params)))` (fragment_generator.py:40) reads as if a
  shorter seed just drew fewer curves. But the first curve already reads the
  colour slots `params[5]`, `params[6]` and `params[7]`
  (fragment_generator.py:44). So a hexadecimal seed of 1 to 56 characters
  (1 to 7 parameters) raises `IndexError`, and an empty seed raises
  `ValueError` from `int('', 16)` (fragment_generator.py:34).
  `FragmentGenerator.GenerateFragment` states exactly these cases.
- **The age label.** The harvester stores the boot time modulo 65536 seconds
  (entropy_harvester.py:13), and app.py:141 subtracts it from the clock. So
  once the clock is past 1970-01-08, every
  snapshot's age is more than seven days, and its fragment is always
  described as "ancient" (`App.ReducedBootTimeIsAncient`).

## Model

| member | source | states |
|---|---|---|
| Hex.HexValue | fragment_generator.py:18 | `int(chunk, 16)` of an n-digit chunk is below 16^n |
| Hex.HexValueAtMost | fragment_generator.py:17-18 | a chunk of at most w digits is at most the largest w-digit value, the divisor used for it |
| Hex.ChunkCountUnique | fragment_generator.py:16 | the number of offsets in `range(0, n, w)` is the unique q with `n <= q*w < n + w`, i.e. ceil(n / w) |
| Hex.ChunkIndexBound | fragment_generator.py:16-17 | chunk k exists exactly when its start `k*w` lies inside the string |
| Hex.ChunkShape | fragment_generator.py:16-17 | every existing chunk is non-empty, at most w long, and is `s[k*w : min(k*w + w, n)]` |
| Hex.ParamInUnit | fragment_generator.py:17-18 | dividing a chunk by the largest value of its width puts the parameter in [0, 1] |
| Hex.DigestChunking | living_fragment.py:14-16 | a digest has 8 chunks of 8 digits, and 11 chunks of 6 digits whose last has 4 |
| Hex.ParseChunks | living_fragment.py:13-16 | the chunk loop succeeds exactly for hexadecimal input, otherwise raises ValueError; on success it yields ceil(n / w) values, value k being chunk k over the divisor |
| PyStr.Prefix | fragment_generator.py:60 | `s[:n]` has `min(n, len(s))` characters and is the start of s |
| PyStr.TrimStart | app.py:105 | `lstrip` removes only leading whitespace and stops at a non-space |
| PyStr.TrimEnd | app.py:105 | `rstrip` removes only trailing whitespace and stops at a non-space |
| PyStr.Strip | app.py:105-106 | the stripped hash is no longer than the input and neither starts nor ends with whitespace |
| PyStr.StripSlice | app.py:105-106 | the stripped hash is a contiguous piece of the input |
| PyStr.StripCutsOnlySpace | app.py:105-106 | everything strip cuts off, on either side, is whitespace |
| PyStr.StripEmptyIff | app.py:108 | a hash strips to empty exactly when it is all whitespace |
| PyStr.StripIdempotent | app.py:105-106 | stripping a stripped hash changes nothing |
| PyStr.NatToDecimal | living_fragment.py:10 | `str(n)` of a non-negative n is non-empty decimal digits without a leading zero |
| PyStr.IntToDecimalRoundTrip | living_fragment.py:10 | reading back `str(frame)` gives the frame, negative frames included |
| PyStr.IntToDecimalInjective | living_fragment.py:10 | different frames give different `str(frame)` |
| PyStr.Format03 | living_fragment.py:46 | `{frame:03d}` has at least three characters, each a digit or a minus sign |
| PyStr.LeadingZeros | living_fragment.py:46 | zero padding does not change the number read back |
| PyStr.Format03RoundTrip | living_fragment.py:46 | reading back `{frame:03d}` gives the frame |
| PyStr.Format03Injective | living_fragment.py:46 | different frames give different padded numbers |
| PyStr.Basename | app.py:33 | `os.path.basename` has no `/` and is a suffix of the path |
| PyStr.BasenameOfJoin | app.py:33 | the base name of `dir/ + name` is name when name has no `/` |
| FragmentGenerator.HashToParams | fragment_generator.py:11-20 | succeeds exactly for hexadecimal seeds, otherwise ValueError; returns min(10, ceil(n / 8)) values in chunk order, each `int(seed[8k:8k+8], 16) / 0xffffffff` in [0, 1] |
| FragmentGenerator.DigestHasEightParams | fragment_generator.py:14-20 | a 64-digit digest yields exactly 8 parameters, not 10 |
| FragmentGenerator.ShortSeedShortVector | fragment_generator.py:16-20 | fewer than 10 parameters exactly when the seed has at most 72 characters |
| FragmentGenerator.GenerateFragment | fragment_generator.py:22-62 | succeeds exactly for hexadecimal seeds of at least 57 characters. Otherwise it raises IndexError (hex, 1–56 characters) or ValueError (non-hex or empty). On success: the file is `fragments/{user}_{seed[:12]}.png`; the RNG seed is `int(seed[:8], 16) < 2^32`; there are 5 curves; curve i has parameter i and line width `0.5 + params[i]` in [0.5, 1.5], and colour `(params[5], params[6], params[7], 0.7)` |
| FragmentGenerator.NamesDistinct | fragment_generator.py:96-114 | the eight label words are pairwise distinct |
| FragmentGenerator.ChaosLabel | fragment_generator.py:96-99 | chaotic exactly when chaos > 0.7, serene exactly when not and calm > 0.7, at most one of them |
| FragmentGenerator.ComplexityLabel | fragment_generator.py:101-104 | exactly one label: intricate when complexity > 0.5, minimal otherwise |
| FragmentGenerator.AgeLabel | fragment_generator.py:106-109 | ancient exactly when age > 7, newborn exactly when age < 1, at most one |
| FragmentGenerator.EnergyLabel | fragment_generator.py:111-114 | energetic exactly when energy > 0.7, dormant exactly when energy < 0.3, at most one |
| FragmentGenerator.Labels | fragment_generator.py:94-116 | one to four labels, in strictly increasing category order (so no category twice) |
| FragmentGenerator.LabelRules | fragment_generator.py:96-114 | each of the eight labels is in the list exactly when its threshold rule fires, `elif` rules only when the rule before did not |
| FragmentGenerator.LabelExclusive | fragment_generator.py:96-114 | exactly one of intricate/minimal; never chaotic with serene, ancient with newborn, or energetic with dormant |
| FragmentGenerator.LabelNamesByRule | fragment_generator.py:94-116 | the label words are the four rules' outputs concatenated in category order |
| FragmentGenerator.DescribePersonality | fragment_generator.py:92-116 | the appended words are exactly the names of the labels the rules select, in order |
| LivingFragment.FrameDigestInputsDistinct | living_fragment.py:10 | different frames of one seed digest different strings |
| LivingFragment.FramePathsDistinct | living_fragment.py:46 | different frames of one seed and user are saved under different file names |
| LivingFragment.MarkerSize | living_fragment.py:42 | `5 + p*10` lies in [5, 15] for a parameter in [0, 1] |
| LivingFragment.BaseRadius | living_fragment.py:28 | `p*300 + frame*2` lies in [2·frame, 300 + 2·frame] and is non-negative for frame ≥ 0 |
| LivingFragment.BaseRadiusIncreasesWithFrame | living_fragment.py:28 | for a fixed parameter the base radius strictly grows with the frame |
| LivingFragment.ColorChannel | living_fragment.py:38-40 | `int(100 + 155 * abs(sine))` lies in [100, 255]: 100 at sine 0 and 255 at ±1 |
| LivingFragment.FrameColor | living_fragment.py:38-40 | the fill `(r, g, b)` takes the sines of parameters 0, 1, 2 plus `frame*0.05`, `frame*0.03`, `frame*0.07`; every channel lies in [100, 255] |
| LivingFragment.GenerateLivingFragment | living_fragment.py:6-48 | the digest is of `seed_frame`; the file is `fragments/{user}_{seed[:12]}_frame{frame:03d}.png`; the fill is the frame colour of that digest; 50 markers, marker i reading parameter i % 11 (in [0, 1]) with size in [5, 15] and base radius ≥ 0 for frame ≥ 0 |
| LivingFragment.CreateAnimationFrames | living_fragment.py:50-56 | max(n, 0) file names, entry k being frame k's file, in increasing frame order |
| App.ComputeTraits | app.py:137-143 | for a snapshot whose four read signals are numbers: calm = 1 − chaos; energy = free bytes / 2^34; a missing jitter gives chaos 0.1 and calm 0.9, a missing process count complexity 0.1, a missing boot time age 0 |
| App.MissingBootTimeIsNewborn | app.py:141 | a snapshot without boot time is always labelled newborn |
| App.ReducedBootTimeIsAncient | app.py:141 | with the boot time reduced modulo 65536 and a present-day clock, the label is always ancient, never newborn |
| App.ScenarioLabels | app.py:137-165 | jitter 80, 600 processes, boot time now and 16 GiB free give traits (0.8, 0.2, 0.6, 0, 1) and exactly chaotic, intricate, newborn, energetic |
| App.CreatePersonalityData | app.py:134-177 | the file is `fragments/{user}_{seed[:12]}_personality.json`; it holds the seed, the traits, the timestamp, and a label list equal to what `describe_personality` gives for the same traits |
| App.StaticBasename | app.py:33 | the base name of a saved static fragment is `{user}_{seed[:12]}.png` |
| App.MergeFragments | app.py:102-132 | the answer is the merge outcome of the two stripped request fields (see MergeRules) |
| App.MergeRules | app.py:105-130 | refused with "Missing fragment hashes" exactly when a stripped hash is empty. Otherwise: the hash is the digest of `hash1 + hash2` in request order; the file is `merged_{hash[:12]}.png`; the parents are `[hash1[:12], hash2[:12]]` |
| App.MergeRefusedIff | app.py:105-109 | a merge is refused exactly when a hash is missing or all whitespace |
| App.Window | app.py:80 | `entries[-20:]` has min(20, n) entries and is the log's tail, oldest first |
| App.WindowAfterAppend | app.py:80 | after an append the gallery shows the new entry last, and drops the oldest shown one once 20 were shown |
| App.FrameBasename | app.py:58 | the base name of a living frame's path is its frame file name |
| App.FragmentLog.constructor | app.py:15 | the log starts empty |
| App.FragmentLog.RecordStatic | app.py:22-45 | appends exactly one static record (file `web_user_{seed[:12]}.png`, the seed, the timestamp, the whole snapshot) to the unchanged old log, and writes the personality of user web_user: its path, the seed, the traits, the timestamp and the labels |
| App.FragmentLog.RecordLiving | app.py:47-70 | appends exactly one living record listing frames 0–4's file names in order, with the whole snapshot, to the unchanged old log, and writes the personality of user living_user: its path, the seed, the traits, the timestamp and the labels |

## Left out

- Drawing and image files. matplotlib, PIL, the saved PNGs and the
  `io.BytesIO` buffers are not modelled (fragment_generator.py:27-61,
  living_fragment.py:18-47). The model keeps what the drawing reads: the
  parameters, curves, markers and file names.
- The numpy `RandomState` stream, `cumsum` and `linspace`
  (fragment_generator.py:35-38). They come from a library with no visible
  algorithm. Only the integer that seeds the generator is modelled.
- Trigonometry. The pulse `sin(frame*0.1 + i*0.5) * 20`, the cosine and sine
  placement (living_fragment.py:29-35) and the curve coordinates
  (fragment_generator.py:41-43) are left out. Angles are kept in turns.
  `numpy.sin` in the colour formula (living_fragment.py:38-40) is a parameter
  `sin: Sine`, any function with values in [-1, 1].
- Floating point. Trait values, parameters and radii are exact reals, not
  IEEE doubles. Rounding at the thresholds and in `1.0 - x` is not modelled.
- Python's `int(s, 16)` extras. It also accepts surrounding whitespace, a
  sign, a `0x` prefix, underscores between digits, and non-ASCII Unicode
  decimal digits such as `'١'`; the model accepts ASCII hexadecimal digits
  only. Digests never contain these.
- Snapshot values. A snapshot maps names to numbers or text, and is stored
  whole in the log record, its `timestamp` text included
  (entropy_harvester.py:9, app.py:36, 61). The traits divide four signals, so
  the model requires those to be numbers when present
  (`App.TraitSignalsNumeric`). A text value there would raise TypeError;
  that crash is not modelled. Python integers and floats are both
  numbers here.
- The two clock readings. `time.time()` is read twice at app.py:141; the
  model uses one reading, `now`.
- Timestamps. `datetime.now()` (app.py:35, 60, 123, 172) is a parameter, and
  one value serves the record and the personality file of a call.
- SHA-256. It is a parameter and nothing about its internals is modelled. So
  the model does not prove that swapping the two merge hashes changes the
  result.
- `entropy_harvester.py`: psutil sampling and its own digest of the snapshot
  are not modelled. The captured seed and snapshot are inputs of
  `RecordStatic` and `RecordLiving`.
- `main.py` is not part of this model. It is print-only glue.
- `generate_fragment_with_personality` (fragment_generator.py:64-90). It
  captures a live snapshot. Its trait formulas are the same as app.py:137-143
  and its labels are those of `describe_personality`.
- Flask plumbing: routes, `render_template`, `send_file`, the JSON responses'
  messages, and the `fragment_info` lookup with `glob` (app.py:17-20, 72-99,
  179-182).
- The merge's metadata file, `merged_{seed[:12]}_info.json`, and its message
  (app.py:118-125).
- A merge request without a JSON body. With no body, `request.json` is None
  and the route fails before validation. The request is modelled as a
  mapping of fields.
- App.MergeFragments: request fields are modelled as text only. Three crash
  paths of the source are not modelled. A field that is not a string (`null`,
  a number) makes `.strip()` raise AttributeError (app.py:105-106). A JSON
  body that is not an object makes `data.get` raise (app.py:105). A lone
  surrogate such as `"\ud800"`, which Python's JSON parser accepts, survives
  the strip and makes `.encode()` raise UnicodeEncodeError (app.py:112);
  Dafny characters exclude surrogates. `App.MergeRefusedIff` holds for text
  fields only.
- Default argument values (`user_id="user"`, `frame=0`, `num_frames=10`).
  Every call site in the model passes its arguments explicitly.
