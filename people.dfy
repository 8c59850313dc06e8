/** Package titanic's record type and its validation rules (people.go). */
module Titanic {
  import opened Wrappers
  import opened Uuids

  /** A fare (*float32 in the record). It is only ever copied, so it is kept as its 32-bit pattern. */
  type Fare = bv32

  /**
   * One passenger. The five pointer fields may be nil (None). ID, Name, Sex and Age always carry
   * a value. Age is a plain int, as people.go declares it; the merge rule treats 0, Age's zero
   * value, as "not specified", the same way it treats the empty Name and Sex.
   */
  datatype People = People(
    id: Uuid,
    survived: Option<bool>,
    pclass: Option<int>,
    name: string,
    sex: string,
    age: int,
    siblingsSpousesAbroad: Option<bool>,
    parentsChildrenAboard: Option<bool>,
    fare: Option<Fare>)

  /** `titanic.People{}`: the zero UUID and every field unset. */
  const Zero: People := People(Nil, None, None, "", "", 0, None, None, None)

  const AgeMessage := "Age need to be 18+"
  const NameMessage := "Name can't be blank"

  /**
   * The errors Validate adds to the database handle, in order. Validate has a value receiver,
   * so it cannot change the record; as a function it changes nothing.
   */
  function Validate(people: People): (errors: seq<string>)
    ensures AgeMessage in errors <==> people.age >= 18
    ensures NameMessage in errors <==> people.name == ""
    ensures |errors| == (if people.age >= 18 then 1 else 0) + (if people.name == "" then 1 else 0)
    ensures people.age >= 18 ==> errors[0] == AgeMessage
    ensures forall i :: 0 <= i < |errors| ==> errors[i] in {AgeMessage, NameMessage}
  {
    var afterAge := if people.age >= 18 then [AgeMessage] else [];
    if people.name == "" then afterAge + [NameMessage] else afterAge
  }
}
