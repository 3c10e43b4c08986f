/** The pet registry that the ready handler of script.js keeps: the growable list of
    pets, the selected index (-1 for none) and the append-only notification log, with
    one method per event handler. Display, sound and animation calls are not modelled. */
module GigaPet {
  import opened Wrappers
  import opened Pets

  class Registry {
    var pets: seq<Pet>
    var currentPetIndex: int
    var log: seq<string>

    /** The registry's invariant: the selection is -1 or a valid index, and no pet has a
        negative stat once a handler has returned. */
    ghost predicate Valid()
      reads this
    {
      -1 <= currentPetIndex < |pets| &&
      forall i :: 0 <= i < |pets| ==> NonNegative(pets[i])
    }

    predicate HasCurrent()
      reads this
    {
      0 <= currentPetIndex < |pets|
    }

    /** Startup: an empty registry with nothing selected, into which the default pet
        "Fluffy" the cat is created (and therefore selected). */
    constructor ()
      ensures Valid()
      ensures pets == [NewPet("Fluffy", "cat", ImagePath("cat"))]
      ensures currentPetIndex == 0
      ensures log == [CreatedMessage("Fluffy", "cat")]
    {
      pets := [];
      currentPetIndex := -1;
      log := [];
      new;
      CreateNewPet("Fluffy", "cat");
    }

    /** `getCurrentPet`: the selected pet exactly when the index is in range, else none
        (`null`); the pet returned satisfies the invariant. */
    function GetCurrentPet(): (r: Option<Pet>)
      reads this
      ensures r.Some? <==> HasCurrent()
      ensures r.Some? ==> r.value == pets[currentPetIndex]
      ensures r.Some? && Valid() ==> NonNegative(r.value)
    {
      if HasCurrent() then Some(pets[currentPetIndex]) else None
    }

    /** `logAction`: the message goes at the end; earlier entries stay as they were. */
    method LogAction(message: string)
      modifies this`log
      ensures log == old(log) + [message]
    {
      log := log + [message];
    }

    /** `updatePetSelector`, text only: one label per pet, in list order. */
    method UpdatePetSelector() returns (labels: seq<string>)
      ensures |labels| == |pets|
      ensures forall i :: 0 <= i < |pets| ==> labels[i] == Label(pets[i])
    {
      labels := [];
      var i := 0;
      while i < |pets|
        invariant 0 <= i <= |pets|
        invariant |labels| == i
        invariant forall j :: 0 <= j < i ==> labels[j] == Label(pets[j])
      {
        labels := labels + [Label(pets[i])];
        i := i + 1;
      }
    }

    /** `switchPet`: an index in range becomes the selection; any other index changes
        nothing. */
    method SwitchPet(index: int)
      requires Valid()
      modifies this`currentPetIndex
      ensures Valid()
      ensures 0 <= index < |pets| ==> currentPetIndex == index
      ensures !(0 <= index < |pets|) ==> currentPetIndex == old(currentPetIndex)
    {
      if index >= 0 && index < |pets| {
        currentPetIndex := index;
      }
    }

    /** `changedPetSelector`: the selector's value after `parseInt`, with None for `NaN`
        (which fails both comparisons of `switchPet`, so it is a no-op). */
    method ChangedPetSelector(value: Option<int>)
      requires Valid()
      modifies this`currentPetIndex
      ensures Valid()
      ensures value.Some? && 0 <= value.value < |pets| ==> currentPetIndex == value.value
      ensures !(value.Some? && 0 <= value.value < |pets|) ==> currentPetIndex == old(currentPetIndex)
    {
      if value.Some? {
        SwitchPet(value.value);
      }
    }

    /** `createNewPet`: exactly one new pet with the initial stats and the derived image is
        appended, earlier pets are untouched, the new pet is selected, and one log entry
        is appended. */
    method CreateNewPet(name: string, kind: string)
      requires Valid()
      modifies this
      ensures Valid()
      ensures pets == old(pets) + [NewPet(name, kind, ImagePath(kind))]
      ensures currentPetIndex == |pets| - 1
      ensures log == old(log) + [CreatedMessage(name, kind)]
    {
      var image := ImagePath(kind);
      var newPet := NewPet(name, kind, image);
      pets := pets + [newPet];
      SwitchPet(|pets| - 1);
      LogAction(CreatedMessage(name, kind));
    }

    /** `clickedCreatePet`: an empty name aborts with no state change; otherwise the pet is
        created as by CreateNewPet. The type is not validated. */
    method ClickedCreatePet(name: string, kind: string)
      requires Valid()
      modifies this
      ensures Valid()
      ensures name == "" ==> pets == old(pets) && currentPetIndex == old(currentPetIndex) && log == old(log)
      ensures name != "" ==>
                pets == old(pets) + [NewPet(name, kind, ImagePath(kind))]
                && currentPetIndex == |pets| - 1
                && log == old(log) + [CreatedMessage(name, kind)]
    {
      if name == "" {
        return;
      }
      CreateNewPet(name, kind);
    }

    /** `checkAndUpdatePetInfoInHtml` without the display update: the selected pet, if
        any, goes through the floor-at-zero check; nothing else changes. It runs in the
        middle of a handler, when the invariant may be broken. */
    method CheckAndUpdatePetInfo()
      modifies this`pets
      ensures old(HasCurrent()) ==> pets == old(pets)[currentPetIndex := CheckWeightAndHappiness(old(pets)[currentPetIndex])]
      ensures !old(HasCurrent()) ==> pets == old(pets)
    {
      var pet := GetCurrentPet();
      if pet.None? {
        return;
      }
      pets := pets[currentPetIndex := CheckWeightAndHappiness(pet.value)];
    }

    /** `clickedTreatButton`: happiness +1, weight +2, then the clamp. */
    method ClickedTreatButton()
      requires Valid()
      modifies this
      ensures Valid() && currentPetIndex == old(currentPetIndex)
      ensures old(HasCurrent()) ==>
                pets == old(pets)[currentPetIndex := Act(old(pets)[currentPetIndex], Treat)]
                && log == old(log) + [ActionMessage(Treat, old(pets)[currentPetIndex].name)]
      ensures !old(HasCurrent()) ==> pets == old(pets) && log == old(log)
    {
      var pet := GetCurrentPet();
      if pet.None? {
        return;
      }
      var i := currentPetIndex;
      pets := pets[i := pets[i].(happiness := pets[i].happiness + 1)];
      pets := pets[i := pets[i].(weight := pets[i].weight + 2)];
      LogAction(ActionMessage(Treat, pets[i].name));
      CheckAndUpdatePetInfo();
    }

    /** `clickedPlayButton`: happiness +2, weight -1, then the clamp. */
    method ClickedPlayButton()
      requires Valid()
      modifies this
      ensures Valid() && currentPetIndex == old(currentPetIndex)
      ensures old(HasCurrent()) ==>
                pets == old(pets)[currentPetIndex := Act(old(pets)[currentPetIndex], Play)]
                && log == old(log) + [ActionMessage(Play, old(pets)[currentPetIndex].name)]
      ensures !old(HasCurrent()) ==> pets == old(pets) && log == old(log)
    {
      var pet := GetCurrentPet();
      if pet.None? {
        return;
      }
      var i := currentPetIndex;
      pets := pets[i := pets[i].(happiness := pets[i].happiness + 2)];
      pets := pets[i := pets[i].(weight := pets[i].weight - 1)];
      LogAction(ActionMessage(Play, pets[i].name));
      CheckAndUpdatePetInfo();
    }

    /** `clickedExerciseButton`: happiness -1, weight -1, then the clamp. */
    method ClickedExerciseButton()
      requires Valid()
      modifies this
      ensures Valid() && currentPetIndex == old(currentPetIndex)
      ensures old(HasCurrent()) ==>
                pets == old(pets)[currentPetIndex := Act(old(pets)[currentPetIndex], Exercise)]
                && log == old(log) + [ActionMessage(Exercise, old(pets)[currentPetIndex].name)]
      ensures !old(HasCurrent()) ==> pets == old(pets) && log == old(log)
    {
      var pet := GetCurrentPet();
      if pet.None? {
        return;
      }
      var i := currentPetIndex;
      pets := pets[i := pets[i].(happiness := pets[i].happiness - 1)];
      pets := pets[i := pets[i].(weight := pets[i].weight - 1)];
      LogAction(ActionMessage(Exercise, pets[i].name));
      CheckAndUpdatePetInfo();
    }

    /** `clickedSleepButton`: happiness +1, weight unchanged, then the clamp. */
    method ClickedSleepButton()
      requires Valid()
      modifies this
      ensures Valid() && currentPetIndex == old(currentPetIndex)
      ensures old(HasCurrent()) ==>
                pets == old(pets)[currentPetIndex := Act(old(pets)[currentPetIndex], Sleep)]
                && log == old(log) + [ActionMessage(Sleep, old(pets)[currentPetIndex].name)]
      ensures !old(HasCurrent()) ==> pets == old(pets) && log == old(log)
    {
      var pet := GetCurrentPet();
      if pet.None? {
        return;
      }
      var i := currentPetIndex;
      pets := pets[i := pets[i].(happiness := pets[i].happiness + 1)];
      LogAction(ActionMessage(Sleep, pets[i].name));
      CheckAndUpdatePetInfo();
    }

    /** `clickedRenameButton`: with a pet selected and a non-empty new name, only that
        pet's name changes and one entry naming the old and new names is logged;
        otherwise nothing changes. */
    method ClickedRenameButton(newName: string)
      requires Valid()
      modifies this
      ensures Valid() && currentPetIndex == old(currentPetIndex)
      ensures old(HasCurrent()) && newName != "" ==>
                pets == old(pets)[currentPetIndex := old(pets)[currentPetIndex].(name := newName)]
                && log == old(log) + [RenamedMessage(old(pets)[currentPetIndex].name, newName)]
      ensures !(old(HasCurrent()) && newName != "") ==> pets == old(pets) && log == old(log)
    {
      var pet := GetCurrentPet();
      if pet.None? {
        return;
      }
      if newName != "" {
        var oldName := pet.value.name;
        pets := pets[currentPetIndex := pet.value.(name := newName)];
        LogAction(RenamedMessage(oldName, newName));
        CheckAndUpdatePetInfo();
      }
    }
  }

  /** Startup, one treat and five exercises: the stats move by the fixed deltas and
      every click logs one entry. */
  method CareSession() {
    var r := new Registry();
    assert r.pets[0].weight == 10 && r.pets[0].happiness == 10;
    r.ClickedTreatButton();
    assert r.pets[0].weight == 12 && r.pets[0].happiness == 11;
    r.ClickedExerciseButton();
    r.ClickedExerciseButton();
    r.ClickedExerciseButton();
    r.ClickedExerciseButton();
    r.ClickedExerciseButton();
    assert r.pets[0].weight == 7 && r.pets[0].happiness == 6;
    assert |r.log| == 7;
  }

  /** Startup, a rename, a selection past the end of the list and a create with an
      empty name: only the rename changes anything. */
  method RenameSession() {
    var r := new Registry();
    assert r.pets[0].name == "Fluffy";
    r.ClickedRenameButton("Max");
    assert r.pets[0].name == "Max";
    assert r.log == [CreatedMessage("Fluffy", "cat"), RenamedMessage("Fluffy", "Max")];
    r.SwitchPet(999);
    assert r.currentPetIndex == 0;
    r.ClickedCreatePet("", "dog");
    assert |r.pets| == 1 && |r.log| == 2;
  }
}
