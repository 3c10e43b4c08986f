# GigaPet pet registry in Dafny

A model of the state behind the GigaPet virtual-pet widget (`script.js`, one jQuery
ready handler). The widget keeps a growable list of pets (name, type, image, weight,
happiness), the index of the selected pet (`-1` for none) and an append-only
notification log. Its event handlers create a pet, select one, give the selected pet a
treat, play with it, exercise it or put it to sleep, and rename it. Every care action
adds fixed integer deltas to the two stats and then floors each stat at 0.

- `pets.dfy`, module `Pets`: the `Pet` record (the program's `type` is the field `kind`,
  since `type` is a Dafny keyword), the image path, the four actions and their deltas,
  the floor-at-zero check, the log and selector texts, and lemmas about sequences of
  actions.
- `registry.dfy`, module `GigaPet`: class `Registry` with fields `pets: seq<Pet>`,
  `currentPetIndex: int` and `log: seq<string>`. There is one method per handler, each
  with `modifies` and postconditions that give the whole new state in terms of the old
  one. `Valid()` is the invariant every handler keeps: the selection is `-1` or in
  range, and no pet has a negative stat. Two client methods, `CareSession` and
  `RenameSession`, replay sample sessions against these contracts.
- `wrappers.dfy`, module `Wrappers`: `Option`, standing for `null` from `getCurrentPet`
  and for `NaN` from `parseInt` on the selector.

The model follows `script.js`. `createNewPet` returns nothing, so `CreateNewPet` returns
nothing either. The new pet's index is stated in its postcondition. After one treat and
five exercises, the default pet has weight 7 and happiness 6 (`CareSession`).

## Model

| member | source | states |
|---|---|---|
| Pets.ImagePath | script.js:91 | the path is the prefix `assets/images/`, then the type, then `.png`, so the type can be read back at a fixed position |
| Pets.ImagePathInjective | script.js:91 | two different types never get the same image path |
| Pets.NewPet | script.js:19-25 | the `Pet` constructor takes name, type and image from its arguments and sets weight to 10 and happiness to 10, which satisfy the non-negative invariant |
| Pets.Clamp | script.js:219-226 | a clamped stat is non-negative, is at least the unclamped value, and is either that value or 0 |
| Pets.CheckWeightAndHappiness | script.js:219-226 | both stats end non-negative; a stat changes only if it was negative, and then becomes 0; name, type and image are untouched; a pet that is already non-negative is unchanged |
| Pets.Act | script.js:138-187 | after an action, each stat is `old + delta` when that is non-negative and 0 otherwise, with no upper bound; the identity fields are kept |
| Pets.AfterActionsKeepsInvariant | script.js:211-226 | after any non-empty sequence of actions, both stats are non-negative and the pet keeps its name, type and image |
| Pets.RepeatedAction | script.js:138-187 | clicking one button `n` times on a valid pet moves each stat by `n` times its delta, floored at 0: a falling stat stops at 0 and a rising one never stops |
| GigaPet.Registry.constructor | script.js:27-43 | startup leaves exactly the default pet "Fluffy" the cat, selected at index 0, with its creation logged |
| GigaPet.Registry.GetCurrentPet | script.js:131-136 | returns `pets[currentPetIndex]` exactly when `0 <= currentPetIndex < len(pets)`, else none; under the invariant the pet has non-negative stats |
| GigaPet.Registry.LogAction | script.js:204-205 | the message is appended at the end and earlier entries are unchanged |
| GigaPet.Registry.UpdatePetSelector | script.js:104-112 | one label `name + " (" + type + ")"` per pet, in list order |
| GigaPet.Registry.SwitchPet | script.js:121-129 | an index in range becomes the selection; any other index leaves the selection unchanged; nothing else is changed, and the selection stays -1 or in range |
| GigaPet.Registry.ChangedPetSelector | script.js:116-119 | a numeric value behaves as SwitchPet; a non-numeric value (`NaN`) changes nothing; the selection stays -1 or in range |
| GigaPet.Registry.CreateNewPet | script.js:90-102 | appends exactly one pet with weight 10, happiness 10 and image derived from the type; earlier pets are unchanged; selects the new pet; appends one "Created new pet" entry |
| GigaPet.Registry.ClickedCreatePet | script.js:77-88 | an empty name aborts with no change to pets, selection or log; otherwise behaves as CreateNewPet |
| GigaPet.Registry.CheckAndUpdatePetInfo | script.js:211-217 | only the selected pet, if any, is clamped; with no selection nothing changes |
| GigaPet.Registry.ClickedTreatButton | script.js:138-149 | with no pet selected, nothing changes; otherwise only the selected pet changes (weight +2, happiness +1, then the clamp), one entry is logged, and the invariant holds |
| GigaPet.Registry.ClickedPlayButton | script.js:151-162 | as for treat, with weight -1 and happiness +2 |
| GigaPet.Registry.ClickedExerciseButton | script.js:164-175 | as for treat, with weight -1 and happiness -1 |
| GigaPet.Registry.ClickedSleepButton | script.js:177-187 | as for treat, with weight unchanged and happiness +1 |
| GigaPet.Registry.ClickedRenameButton | script.js:189-202 | with a pet selected and a non-empty name, only that pet's name changes and one "Renamed old to new." entry is logged; otherwise pets and log are unchanged |

## Left out

- Display updates: `updatePetInfoInHtml` with its `.text()` and `.attr()` calls (script.js:228-243), the `.val()` writes that clear the input fields or set the selector (script.js:87, 113, 127, 200), and scrolling the log (script.js:206-208). Nothing in the registry reads them back. The `.val()` reads of the inputs (script.js:78, 79, 117, 193) are modelled: they become the `name`, `kind`, `value` and `newName` parameters.
- Event wiring with `.click` and `.change` (script.js:46-53). Each handler is a method, and its input value is a parameter.
- Sound playback through `playSound` and the `Audio` objects (script.js:34-39, 56-63). It is a browser API, runs asynchronously, and its failures are swallowed.
- `triggerAnimation` and the removal of animation classes in `switchPet` (script.js:66-75, 125). These are CSS concerns.
- The `alert` shown for an empty name (script.js:82). Only the abort is modelled.
- `parseInt` on the selector value (script.js:117). The method takes an `Option<int>`, with None for `NaN`.
- HTML building of log entries (script.js:205). Entries are plain strings, so markup in a name is not interpreted.
- The calls to `updatePetSelector` from create and rename (script.js:96, 198), and the selected value it writes back (script.js:113). They only redraw the selector. Its label text is modelled by `UpdatePetSelector`.
- Pet objects as shared references. Each `Pet` is a value in the registry's sequence, and a handler replaces the value at the selected index. The program reaches a pet only through `pets[currentPetIndex]`, so no aliasing can be seen.
- The truthiness tests `if (!name)` (script.js:81) and `if (newName)` (script.js:194) also treat `null` and `undefined` as empty. The inputs always produce strings, so only the empty string is modelled.
- JavaScript numbers. Stats are unbounded integers, so double-precision rounding above 2^53 is not modelled.
