/** The value side of the GigaPet widget (script.js): a pet's record, the four care
    actions with their fixed stat changes, the floor-at-zero clamp applied after every
    action, and the texts the widget writes to its log and to its pet selector. */
module Pets {

  /** One pet. `kind` is the program's `type` (a reserved word in Dafny): the category
      chosen at creation, from which `image` is derived once. Weight and happiness are
      unbounded integers. */
  datatype Pet = Pet(name: string, kind: string, image: string, weight: int, happiness: int)

  const InitialWeight: int := 10
  const InitialHappiness: int := 10
  const ImagePrefix: string := "assets/images/"
  const ImageSuffix: string := ".png"

  /** The invariant the registry keeps for every pet it holds. */
  predicate NonNegative(p: Pet) {
    p.weight >= 0 && p.happiness >= 0
  }

  /** `q` is the same pet as `p`: only the two stats may differ. */
  predicate SameIdentity(p: Pet, q: Pet) {
    q.name == p.name && q.kind == p.kind && q.image == p.image
  }

  /** The image resource of a pet of the given kind: the kind sits between a fixed
      directory prefix and a fixed extension, so it can be read back from the path. */
  function ImagePath(kind: string): (path: string)
    ensures |path| == |ImagePrefix| + |kind| + |ImageSuffix|
    ensures path[..|ImagePrefix|] == ImagePrefix
    ensures path[|ImagePrefix|..|ImagePrefix| + |kind|] == kind
    ensures path[|ImagePrefix| + |kind|..] == ImageSuffix
  {
    ImagePrefix + kind + ImageSuffix
  }

  /** Different kinds never share an image path. */
  lemma ImagePathInjective(k1: string, k2: string)
    requires ImagePath(k1) == ImagePath(k2)
    ensures k1 == k2
  {
    // The kind is read back from its fixed position in the path (ImagePath's contract).
  }

  /** The `Pet` constructor: name, kind and image come from the caller, and both stats
      start at 10, which satisfies the registry's invariant. */
  function NewPet(name: string, kind: string, image: string): (p: Pet)
    ensures p.name == name && p.kind == kind && p.image == image
    ensures p.weight == InitialWeight == 10 && p.happiness == InitialHappiness == 10
    ensures NonNegative(p)
  {
    Pet(name, kind, image, InitialWeight, InitialHappiness)
  }

  /** The four care buttons. */
  datatype Action = Treat | Play | Exercise | Sleep

  function WeightDelta(a: Action): int {
    match a
    case Treat => 2
    case Play => -1
    case Exercise => -1
    case Sleep => 0
  }

  function HappinessDelta(a: Action): int {
    match a
    case Treat => 1
    case Play => 2
    case Exercise => -1
    case Sleep => 1
  }

  /** A stat after the floor-at-zero check: the least value that is neither negative
      nor below `x`. There is no upper bound. */
  function Clamp(x: int): (r: int)
    ensures r >= 0 && r >= x
    ensures r == x || r == 0
  {
    if x < 0 then 0 else x
  }

  /** `checkWeightAndHappinessBeforeUpdating`: both stats end non-negative, the pet keeps
      its identity, and a pet that already satisfies the invariant is left as it is. */
  function CheckWeightAndHappiness(p: Pet): (q: Pet)
    ensures SameIdentity(p, q) && NonNegative(q)
    ensures q.weight == p.weight || (p.weight < 0 && q.weight == 0)
    ensures q.happiness == p.happiness || (p.happiness < 0 && q.happiness == 0)
    ensures NonNegative(p) ==> q == p
  {
    p.(weight := Clamp(p.weight), happiness := Clamp(p.happiness))
  }

  /** The effect of one care action on the current pet: the deltas are added, then the
      clamp runs. Each stat becomes `old + delta` when that is not negative, else 0. */
  function Act(p: Pet, a: Action): (q: Pet)
    ensures SameIdentity(p, q) && NonNegative(q)
    ensures p.weight + WeightDelta(a) >= 0 ==> q.weight == p.weight + WeightDelta(a)
    ensures p.weight + WeightDelta(a) < 0 ==> q.weight == 0
    ensures p.happiness + HappinessDelta(a) >= 0 ==> q.happiness == p.happiness + HappinessDelta(a)
    ensures p.happiness + HappinessDelta(a) < 0 ==> q.happiness == 0
  {
    CheckWeightAndHappiness(p.(weight := p.weight + WeightDelta(a),
                               happiness := p.happiness + HappinessDelta(a)))
  }

  /** The pet after the given actions, applied in order. */
  function AfterActions(p: Pet, acts: seq<Action>): Pet
    decreases |acts|
  {
    if acts == [] then p else AfterActions(Act(p, acts[0]), acts[1..])
  }

  /** `n` clicks of the same button. */
  function Repeat(a: Action, n: nat): (acts: seq<Action>)
    ensures |acts| == n
    ensures forall i :: 0 <= i < n ==> acts[i] == a
  {
    if n == 0 then [] else [a] + Repeat(a, n - 1)
  }

  /** Whatever actions are taken, the pet keeps its name, kind and image, and after at
      least one action (or from a pet that already satisfies it) both stats are
      non-negative. */
  lemma {:induction false} AfterActionsKeepsInvariant(p: Pet, acts: seq<Action>)
    requires acts != [] || NonNegative(p)
    ensures SameIdentity(p, AfterActions(p, acts))
    ensures NonNegative(AfterActions(p, acts))
    decreases |acts|
  {
    if acts != [] {
      AfterActionsKeepsInvariant(Act(p, acts[0]), acts[1..]);
    }
  }

  /** One step of repeating a stat change from a non-negative start: clamping after
      every step is the same as clamping once at the end. */
  lemma ClampStep(s: int, d: int, n: nat)
    requires s >= 0 && n >= 1
    ensures Clamp(Clamp(s + d) + (n - 1) * d) == Clamp(s + n * d)
  {
  }

  /** Clicking the same button `n` times on a pet satisfying the invariant moves each
      stat by `n` times its delta, floored at 0: a falling stat stops at 0 and a rising
      one has no ceiling. */
  lemma {:induction false} RepeatedAction(p: Pet, a: Action, n: nat)
    requires NonNegative(p)
    ensures AfterActions(p, Repeat(a, n))
         == p.(weight := Clamp(p.weight + n * WeightDelta(a)),
               happiness := Clamp(p.happiness + n * HappinessDelta(a)))
    decreases n
  {
    if n > 0 {
      var q := Act(p, a);
      assert Repeat(a, n)[1..] == Repeat(a, n - 1);
      RepeatedAction(q, a, n - 1);
      ClampStep(p.weight, WeightDelta(a), n);
      ClampStep(p.happiness, HappinessDelta(a), n);
    }
  }

  /** Log text of `createNewPet`. */
  function CreatedMessage(name: string, kind: string): string {
    "Created new pet: " + name + " the " + kind + "!"
  }

  /** Log text of each care button, naming the pet. */
  function ActionMessage(a: Action, name: string): string {
    match a
    case Treat => "You gave " + name + " a treat! Yummy!"
    case Play => "You played with " + name + "! So fun!"
    case Exercise => name + " exercised. Phew!"
    case Sleep => name + " took a nap. Zzz..."
  }

  /** Log text of a rename. */
  function RenamedMessage(oldName: string, newName: string): string {
    "Renamed " + oldName + " to " + newName + "."
  }

  /** Text of the selector option for one pet. */
  function Label(p: Pet): string {
    p.name + " (" + p.kind + ")"
  }
}
