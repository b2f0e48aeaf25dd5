/** The selectable pets and the lookup by id that falls back to the first pet. */
module Pets {
  import opened Common

  datatype Pet = Pet(id: string, emoji: string, defaultName: string)

  const PETS: seq<Pet> := [
    Pet("hamster", "\U{1F439}", "Fjutten"),
    Pet("mouse", "\U{1F42D}", "Bengt"),
    Pet("rabbit", "\U{1F430}", "Hoppl\U{F6}s"),
    Pet("cat", "\U{1F431}", "V\U{E4}rlds\U{E9}r\U{F6}vraren Smulan"),
    Pet("dog", "\U{1F436}", "Get"),
    Pet("frog", "\U{1F438}", "Boll"),
    Pet("pig", "\U{1F437}", "Fl\U{E4}sk"),
    Pet("chick", "\U{1F425}", "Nugget")
  ]

  /** `getDefaultPet`: the first pet. */
  function GetDefaultPet(): (p: Pet)
    ensures p in PETS && p.id == "hamster"
  {
    PETS[0]
  }

  /** `find`: the first pet with the id, if any. */
  function Find(pets: seq<Pet>, id: string): (r: Option<nat>)
    ensures r.Some? ==> r.value < |pets| && pets[r.value].id == id
    ensures r.Some? ==> forall j :: 0 <= j < r.value ==> pets[j].id != id
    ensures r.None? ==> forall j :: 0 <= j < |pets| ==> pets[j].id != id
  {
    if pets == [] then None
    else if pets[0].id == id then Some(0)
    else
      match Find(pets[1..], id)
      case None => None
      case Some(k) => Some(k + 1)
  }

  /**
   * `getPetById`: the first pet with the id, or the default pet when none
   * has it. The result is always one of the pets.
   */
  function GetPetById(id: string): (p: Pet)
    ensures p in PETS
    ensures (exists i :: 0 <= i < |PETS| && PETS[i].id == id) ==> p.id == id
    ensures (forall i :: 0 <= i < |PETS| ==> PETS[i].id != id) ==> p == GetDefaultPet()
  {
    match Find(PETS, id)
    case Some(k) => PETS[k]
    case None => GetDefaultPet()
  }

  /** No two pets share an id. */
  predicate DistinctIds(pets: seq<Pet>)
  {
    forall j, k :: 0 <= j < k < |pets| ==> pets[j].id != pets[k].id
  }

  /** With distinct ids, each pet is found at its own index. */
  lemma {:induction false} FindOwnId(pets: seq<Pet>, i: int)
    requires DistinctIds(pets) && 0 <= i < |pets|
    ensures Find(pets, pets[i].id) == Some(i)
  {
    if i > 0 {
      assert pets[0].id != pets[i].id;
      assert DistinctIds(pets[1..]) by {
        forall j, k | 0 <= j < k < |pets[1..]| ensures pets[1..][j].id != pets[1..][k].id {
          assert pets[1..][j] == pets[j + 1] && pets[1..][k] == pets[k + 1];
        }
      }
      FindOwnId(pets[1..], i - 1);
      assert pets[1..][i - 1] == pets[i];
    }
  }

  /** Every pet is found by its own id: the ids are distinct. */
  lemma PetByIdRoundTrip(i: int)
    requires 0 <= i < |PETS|
    ensures GetPetById(PETS[i].id) == PETS[i]
  {
    assert DistinctIds(PETS);
    FindOwnId(PETS, i);
  }
}
