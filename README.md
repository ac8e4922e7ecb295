# Cube face-turn algebra in Dafny

A model of `main.py` from CubeTimer. The file defines two things:

- `Move`, an immutable wrapper around the text of one face turn in "LRUDFB" notation. `""` is the neutral move, `X` is a quarter turn of face `X`, `X2` is a half turn and `X'` is an inverse quarter turn. It has negation, doubling, scaling by an integer, `base`, `is_neutral`, `affected_by`, and an addition that merges two adjacent moves into one or returns both.
- `MoveList`, a list of moves whose `+` pops the last move, adds the new move to it, and pushes back the merged move or the unmerged pair.

The files:

- `moves.dfy` (module `Moves`) holds the datatype `Move`, the result type `Sum` (`One(move)` or `Pair(first, second)`), and one function per operation of `Move`. Each function keeps the source's string tests exactly (`endswith("2")`, `endswith("'")`, `value[0]`), so it is total on every string, like the source.
  The module also gives a reference semantics for well-formed moves:
  - `FromTurn(f, k)` is the text for `k` quarter turns of face `f`.
  - `Face` and `Quarters` decode a move back into a face and a turn count.
  - `Axis` gives the axis of a face.
  The function contracts state each operation in these terms.
- `move_laws.dfy` (module `MoveLaws`) holds the algebraic laws: involution, periodicity, the doubling table and its quirk, cancellation, left identity, the full merge table, order sensitivity, idempotence of `base`, and symmetry of `affected_by`.
- `move_list.dfy` (module `MoveLists`) holds the class `MoveList` and the class `MoveStore`. `MoveStore` stands for the Python list object that a `MoveList` refers to. `MoveList.__add__` works on a shallow copy (`copy(self)`), so the copy and the receiver share one list object. `Add` mutates that shared `MoveStore` and returns a fresh `MoveList` that refers to the same store. The function `Appended` specifies the new contents. The client method `SharedAfterAdd` is a worked scenario: after `MoveList([L]) + L'`, both the receiver and the returned copy hold `[""]`, and adding to an empty list fails with the list unchanged.

The model keeps these behaviours of the source as written, though a reader might expect otherwise:
- Adding to an empty list raises (`pop` from an empty list). It does not store the move. `Add` returns `None` and changes nothing.
- `+` on a list mutates the receiver's list through the shallow copy. It is not copy-on-write.
- `-Move("")` is `Move("'")`, not the neutral move. `Move("") * 2` is `Move("2")`.
- `base` of the neutral move is the neutral move itself, not an error.
- `Move` accepts any string. No face label is checked.

## Model

| member | source | states |
|---|---|---|
| `Moves.IsNeutral` | main.py:57-59 | A move is neutral exactly when its text is empty; a neutral move is never a well-formed turn |
| `Moves.Neg` | main.py:43-48 | Negating a well-formed move keeps its face and gives the group inverse: the two quarter-turn counts add up to 0 modulo 4 |
| `Moves.Double` | main.py:50-55 | Doubling a quarter or half turn gives twice the turns modulo 4 (`X` to `X2`, `X2` to neutral); doubling `X'` gives `X`, one quarter turn |
| `Moves.Scale` | main.py:29-39 | `m * i` is neutral when `i` is 0 modulo 4 and `m` itself when `i` is 1 modulo 4; on a well-formed move it is the `i`-th power in the group, except `X' * i` for `i` equal to 2 modulo 4; the fallback return cannot be reached |
| `Moves.Combine` | main.py:16-25 | An unmerged result is exactly the two operands in their order; merging neutral or well-formed moves gives a neutral or well-formed move |
| `Moves.Base` | main.py:61-65 | The base of a well-formed move is the quarter turn of its face; the neutral move is its own base |
| `Moves.AffectedBy` | main.py:67-71 | False when either move is neutral; for well-formed moves, true exactly when the two faces are not opposite (same face or a different axis) |
| `Moves.OppositeBases` | main.py:70-71 | For well-formed moves, the set of the two bases is one of `{L,R}`, `{U,D}`, `{F,B}` exactly when the faces are opposite |
| `MoveLaws.NegInvolutive` | main.py:43-48 | Negation fixes half turns, swaps `X` and `X'`, and undoes itself on every well-formed move |
| `MoveLaws.NeutralNotClosed` | main.py:43-55 | `-Move("")` is `Move("'")` and `Move("") * 2` is `Move("2")`, and neither is neutral or well-formed |
| `MoveLaws.ScalePeriodic` | main.py:29-39 | `m * i` depends only on `i` modulo 4, and is `m.double()` for residue 2 and `-m` for residue 3, for every string |
| `MoveLaws.DoubleTable` | main.py:50-55 | `X2.double()` is neutral, `X.double()` is `X2`, `X'.double()` is `X` |
| `MoveLaws.DoublingQuirk` | main.py:21-22 | `X'.double()` differs from turning `X'` twice (`X2`), and so `X' + X'` gives `X` |
| `MoveLaws.CancelRight` | main.py:17-18 | `m + (-m)` is the neutral move for every string, `X2 + X2` and `Move("") + Move("'")` included |
| `MoveLaws.LeftIdentity` | main.py:17-20 | `Move("") + m` is `m` for every `m` except `Move("'")`, which cancels to neutral; so it holds for every neutral or well-formed `m` |
| `MoveLaws.CombineSameFace` | main.py:16-25 | Two turns of one face merge into the turn by the summed count modulo 4, except that `X' + X'` gives `X`, and `X + ""`, `X2 + X`, `X2 + X'`, `X' + ""`, `X' + X2` stay unmerged pairs |
| `MoveLaws.CombineOtherFaces` | main.py:16-25 | Two turns of different faces are always returned as the unmerged pair |
| `MoveLaws.CombineOrderSensitive` | main.py:16-25 | `X + X2` merges to `X'` while `X2 + X` stays a pair |
| `MoveLaws.BaseIdempotent` | main.py:61-65 | `base` is idempotent on every string and the neutral move is its own base |
| `MoveLaws.AffectedBySymmetric` | main.py:67-71 | `a.affected_by(b) == b.affected_by(a)` for all moves |
| `MoveLaws.AffectedBySameOrCrossAxis` | main.py:67-71 | Two turns of the same face, or of faces on different axes, affect each other |
| `MoveLists.Appended` | main.py:84-91 | Adding to an empty list fails; otherwise every move before the last is kept, the length stays the same exactly when `last + m` merges, and then the merged move is stored in the last place (a neutral result is stored too), and grows by one with `last, m` in that order when it does not; lists of neutral or well-formed moves stay so |
| `MoveLists.MoveStore.Pop` | main.py:88 | `list.pop()` removes and returns the last move; on an empty list it fails and changes nothing |
| `MoveLists.MoveStore.Extend` | main.py:90 | `list += more` appends `more` in order |
| `MoveLists.MoveList.constructor` | main.py:75-76 | The list refers to the list object it is given, or to a new empty one |
| `MoveLists.MoveList.Copy` | main.py:85 | A shallow copy refers to the same list object |
| `MoveLists.MoveList.Add` | main.py:84-91 | Fails with nothing changed exactly on an empty list; otherwise returns a fresh MoveList sharing the receiver's list object, whose contents become `Appended(old contents, other)`; keeps all moves neutral or well-formed |
| `MoveLists.MoveList.ToString` | main.py:78-79 | The moves' texts joined by single spaces, in iteration order; for a non-empty list of neutral or well-formed moves, splitting it on spaces gives the texts back, a neutral move as an empty piece |
| `MoveLists.SplitJoin` | main.py:78-79 | For a non-empty list of texts without spaces, joining by single spaces and then splitting on spaces gives the list back |
| `MoveLists.JoinedTextsSplit` | main.py:78-79 | For a non-empty list of neutral or well-formed moves, splitting the joined texts on spaces gives the texts back, a neutral move as an empty piece |
| `MoveLists.AppendScenarios` | main.py:84-91 | `[L] + L'` is `[""]`, `[U] + U` is `[U2]`, `[U] + U2` is `[U']`, `[L] + R` is `[L, R]` |
| `MoveLists.AppendKeepsAdjacentSameFace` | main.py:84-91 | Only the last move is looked at: `[L2] + L` leaves `L2 L` side by side, and a cancelled pair leaves a neutral move in the list |

## Left out

- `main()` and its `print` (main.py:97-103): display glue.
- `MoveList.__repr__` (main.py:81-82): presentation only.
- `Move.__str__` (main.py:13-14) is the move's own text; `ToString` uses it directly.
- `MoveList.__iter__` (main.py:93-94) yields the stored moves in order; it is folded into `ToString`.
- `__radd__` and `__rmul__` (main.py:27, 41) are the same functions as `__add__` and `__mul__`, so each is modelled once.
- The `NotImplementedError` branch of `MoveList.__add__` (main.py:86-87) is excluded by typing: the operand of `Add` is always a `Move`.
- `PAIRS` is built with `itertools.batched` (main.py:70). It is written out here as the three sets `{L,R}`, `{U,D}`, `{F,B}`.
- Exceptions are not modelled as exceptions. The `IndexError` of popping an empty list is the `None` result of `Pop`, `Add` and `Appended`.
