/** `SwedishEntity::detect`: the older entry point, which makes the same
    decision as `Entity::detect`. It is written here the way its source
    reads, step by step, and proved equal to the `Entity` model. */
module SwedishEntity {
  import opened Wrappers
  import opened Strings
  import Cleaning
  import OrganizationNumber
  import PersonNumber
  import Entity

  /** `SwedishEntity::detect($number)`: clean, remove `-`, pick the class by
      the length and the second pair, then throw unless the object is valid.
      For every input and every library it answers exactly what
      `Entity::detect` answers. */
  function Detect(input: string, lib: PersonNumber.Library): (r: Result<Entity.EntityValue, Entity.DetectError>)
    ensures r == Entity.Detect(input, lib)
  {
    var number := Strip(Cleaning.Clean(input), '-');
    assert number == Entity.Prepare(input);
    var length := |number|;
    if length > 10 then
      var person := PersonNumber.Make(number, true, lib);
      if person.valid then Success(Entity.PersonEntity(person))
      else Failure(Entity.DetectException)
    else if length == 10 && Entity.PairAtLeast20(number[2..4]) then
      Entity.PreparedIsCheckable(number);
      var company := OrganizationNumber.Make(number);
      if company.valid then Success(Entity.OrganizationEntity(company))
      else Failure(Entity.DetectException)
    else
      var person := PersonNumber.Make(number, true, lib);
      if person.valid then Success(Entity.PersonEntity(person))
      else Failure(Entity.DetectException)
  }
}
