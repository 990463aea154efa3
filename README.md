# HeroVS round resolution in Dafny

HeroVS is a two-player "hero vs. villain" desktop game. Each side types a
name and picks a weapon (sword, bow or book o' spells). The Fight button
resolves a round:

1. It strips and checks the names.
2. It reads the radio buttons.
3. It rolls each side's damage as the product of two random integers.
4. It declares the side with strictly more damage the winner, or a tie.
5. It updates four win/loss counters.
6. It appends one row to a CSV history file.

This project models that logic: the `Logic` class of `logic.py`, without its
Qt widgets.

- `pystrings.dfy`, module `PyStrings`: Python's `str.strip()` and
  `str.isspace`. The model scans forward, then backward, as CPython does.
  It proves what the stripped text is: the input minus a whitespace prefix
  and suffix, with non-whitespace ends. It is empty exactly when the input
  is all whitespace.
- `logic.dfy`, module `Logic`:
  - the three exceptions, as the `Failure` datatype;
  - the four checks (`NameCheck`, `WeaponCheck`, `DamCalc`, `WinningCheck`);
  - the counter update (`Tally`);
  - the round pipeline (`Resolve`, `Settle`);
  - the class `ScoreBoard`, holding the window's four counter fields. Its
    methods `WinLossCount` and `FinalStatement` update them in place.

The widgets become plain values:

- a name field is the string as typed;
- each side's three radio buttons are a `Radios` value of three booleans, so
  the code's sword-then-bow-then-book priority is visible;
- the four `random.randint` draws are a `Draws` value. Its ranges are
  required only for the weapon actually chosen;
- the CSV file is a `seq<Row>` that `FinalStatement` returns extended.

The winner stays a plain string, with `"tie"` as the tie marker, as in the
code. This has two consequences, both proved:

- If both stripped names are equal, the hero is credited even when the
  villain dealt more damage.
- A winner named `tie` is treated as a tie, so no counter changes.

So the winner string does not always identify a side. It fails to when the
two stripped names are equal, or when a name is `tie`. The model follows
the code here.

## Model

| member | source | states |
|---|---|---|
| PyStrings.SkipForward | logic.py:93-94 | the forward scan of `strip` stops at the first non-whitespace index at or after its start, having passed only whitespace |
| PyStrings.SkipBackward | logic.py:93-94 | the backward scan of `strip` stops after the last non-whitespace character, having passed only whitespace, and never crosses the forward scan's stop |
| PyStrings.Strip | logic.py:93-94 | the stripped name is a slice of the typed text with only whitespace around it and non-whitespace at both ends; it is empty exactly when the text is all whitespace |
| PyStrings.StripIdempotent | logic.py:93-94 | `strip` is idempotent: stripping its result again changes nothing |
| Logic.NameCheck | logic.py:87-100 | NameShortError exactly when either text is all whitespace (so it wins over an over-long other name); NameLongError exactly when both are non-blank and a stripped name exceeds 10; otherwise the two stripped names, each 1..10 long |
| Logic.Choice | logic.py:50-57 | one side's weapon is absent exactly when no button is checked; otherwise it is a checked button's label, the first of sword, bow, book that is checked |
| Logic.WeaponCheck | logic.py:43-68 | WeaponError exactly when either side has no button checked; otherwise two labels from {sword, bow, book o' spells}, each the priority choice of its side |
| Logic.DamCalc | logic.py:70-85 | with draws in their ranges, sword damage is in 4..30, bow in 1..45, book in 0..60, and book damage is 0 exactly when its second draw is 0; any other label is a WeaponError |
| Logic.DamageBoundsReached | logic.py:76-81 | each weapon's lowest and highest damage is reached by some draws, including 0 for the book |
| Logic.WinningCheck | logic.py:102-111 | strictly more hero damage gives the hero name, strictly more villain damage the villain name, equal damage "tie"; when the two names differ and neither is "tie", each outcome holds exactly in its damage case |
| Logic.Tally | logic.py:113-126 | a winner equal to the hero name adds exactly 1 to hero wins and villain losses; otherwise, one equal to the villain name adds exactly 1 to villain wins and hero losses; any other string changes nothing; paired counters stay paired |
| Logic.Resolve | logic.py:135-140 | name errors are reported before weapon errors; WeaponError exactly when the names pass and a side has no weapon; the round succeeds exactly when both checks pass, and then the row holds the stripped names, the priority choices, each side's `dam_calc` of its own choice on its own draws (within 0..60) and the winning_check result |
| Logic.Settle | logic.py:142-144 | a round whose winner is "tie" changes no counter; otherwise a winner equal to the hero name adds 1 to hero wins and villain losses, else one equal to the villain name adds 1 to villain wins and hero losses, and any other string changes nothing; any round keeps hero wins equal to villain losses and villain wins equal to hero losses; total wins grow by one exactly when the winner is a name other than "tie" |
| Logic.ReplayBalanced | logic.py:26-31 | from paired counters (such as the all-zero start), any series of rounds keeps wins and losses paired, and total wins equal the number of rounds that credit someone |
| Logic.StrongerSideCredited | logic.py:140-144 | with distinct stripped names other than "tie", the side that deals more damage gets exactly one more win and the other side exactly one more loss |
| Logic.EqualDamageChangesNothing | logic.py:140-163 | a resolved round with equal damage changes no counter |
| Logic.SameNamesCreditHero | logic.py:117-122 | with equal stripped names (other than "tie"), a round the villain won on damage credits the hero |
| Logic.TieNamedWinnerUncredited | logic.py:140-144 | a hero named "tie" who deals more damage is treated as a tie and no counter changes |
| Logic.ZedBeatsRoc | logic.py:135-166 | " Zed" with a sword against "Roc " with a bow, with draws 10*2 and 5*2, gives the row Zed,sword,20,Roc,bow,10 and the winner "Zed", and the round adds 1 to hero wins and villain losses |
| Logic.BlankNameReportedFirst | logic.py:96-97 | any whitespace-only hero name is a NameShortError whatever the villain name and the weapons |
| Logic.ScoreBoard.constructor | logic.py:28-31 | a new window has all four counters at zero, which are paired |
| Logic.ScoreBoard.WinLossCount | logic.py:113-126 | the new counters are the `Tally` of the old ones against the stripped hero and villain fields; paired counters stay paired |
| Logic.ScoreBoard.FinalStatement | logic.py:128-172 | on a failed check returns its kind, leaves the counters unchanged and appends nothing; on success returns the log with exactly one row appended (ties too) and settles the counters; the pairing invariant is kept |

## Left out

- The Qt window setup, the `QButtonGroup` wiring, the `setExclusive` and `setChecked` resets, and the label `setText` calls (logic.py:16-41, 120-126, 146-163) are UI plumbing. The text fields and radio buttons are plain inputs.
- The `random.randint` calls are nondeterministic. Their results are parameters, constrained to their inclusive ranges.
- The CSV file open and write is I/O. It is modelled as appending a `Row` to a sequence. CSV quoting and the text form of the damage numbers are not modelled.
- The user-facing messages are cosmetic. Only the error kind is reported.
- `hvs` (the generated `Ui_HeroVS` layout module) is not part of this model.
- Logic.ScoreBoard.FinalStatement: requires the pairing invariant on entry. The constructor establishes it, and every method keeps it.
