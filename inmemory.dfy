/** The volatile person store (inmemory/respository.go). */
module Inmemory {
  import opened Wrappers
  import opened Uuids
  import opened Errors
  import opened Titanic

  /** The mergeable attributes of a record. */
  datatype Field =
    | SurvivedField | PclassField | NameField | SexField | AgeField
    | SiblingsSpousesAbroadField | ParentsChildrenAboardField | FareField

  const AllFields: set<Field> := {
    SurvivedField, PclassField, NameField, SexField, AgeField,
    SiblingsSpousesAbroadField, ParentsChildrenAboardField, FareField
  }

  /** The attribute carries a value: a non-nil pointer, a non-empty string, a non-zero Age. */
  predicate Carries(p: People, f: Field) {
    match f
    case SurvivedField => p.survived.Some?
    case PclassField => p.pclass.Some?
    case NameField => p.name != ""
    case SexField => p.sex != ""
    case AgeField => p.age != 0
    case SiblingsSpousesAbroadField => p.siblingsSpousesAbroad.Some?
    case ParentsChildrenAboardField => p.parentsChildrenAboard.Some?
    case FareField => p.fare.Some?
  }

  /** The attributes of `p` that carry a value. */
  function Assigned(p: People): (fs: set<Field>)
    ensures forall f :: f in fs <==> Carries(p, f)
  {
    set f | f in AllFields && Carries(p, f)
  }

  /** `result` is `incoming` when that is non-nil, and `kept` otherwise. */
  predicate TakesIfSet<T(==)>(incoming: Option<T>, kept: Option<T>, result: Option<T>) {
    (incoming.Some? ==> result == incoming) && (incoming.None? ==> result == kept)
  }

  /** `result` is `incoming` when that is non-empty, and `kept` otherwise. */
  predicate TakesIfNonEmpty(incoming: string, kept: string, result: string) {
    (incoming != "" ==> result == incoming) && (incoming == "" ==> result == kept)
  }

  /**
   * setPeople: every attribute of `p` that carries a value replaces the one of `existing`;
   * the others, and always the ID, are kept from `existing`.
   */
  function SetPeople(p: People, existing: People): (r: People)
    ensures r.id == existing.id
    ensures TakesIfSet(p.survived, existing.survived, r.survived)
    ensures TakesIfSet(p.pclass, existing.pclass, r.pclass)
    ensures TakesIfNonEmpty(p.name, existing.name, r.name)
    ensures TakesIfNonEmpty(p.sex, existing.sex, r.sex)
    ensures (p.age != 0 ==> r.age == p.age) && (p.age == 0 ==> r.age == existing.age)
    ensures TakesIfSet(p.siblingsSpousesAbroad, existing.siblingsSpousesAbroad, r.siblingsSpousesAbroad)
    ensures TakesIfSet(p.parentsChildrenAboard, existing.parentsChildrenAboard, r.parentsChildrenAboard)
    ensures TakesIfSet(p.fare, existing.fare, r.fare)
  {
    // The source applies eight independent conditional assignments to a copy of `existing`;
    // since each touches its own field, they are written here as one record.
    People(
      existing.id,
      if p.survived.Some? then p.survived else existing.survived,
      if p.pclass.Some? then p.pclass else existing.pclass,
      if p.name != "" then p.name else existing.name,
      if p.sex != "" then p.sex else existing.sex,
      if p.age != 0 then p.age else existing.age,
      if p.siblingsSpousesAbroad.Some? then p.siblingsSpousesAbroad else existing.siblingsSpousesAbroad,
      if p.parentsChildrenAboard.Some? then p.parentsChildrenAboard else existing.parentsChildrenAboard,
      if p.fare.Some? then p.fare else existing.fare)
  }

  /** Applying the same update twice is the same as applying it once. */
  lemma SetPeopleIdempotent(p: People, e: People)
    ensures SetPeople(p, SetPeople(p, e)) == SetPeople(p, e)
  {
  }

  /** Two successive updates amount to one update with the second laid over the first. */
  lemma SetPeopleComposes(q: People, p: People, e: People)
    ensures SetPeople(q, SetPeople(p, e)) == SetPeople(SetPeople(q, p), e)
  {
  }

  /** Updates of disjoint attributes can be applied in either order: neither loses the other. */
  lemma SetPeopleCommutesOnDisjoint(p: People, q: People, e: People)
    requires Assigned(p) !! Assigned(q)
    ensures SetPeople(q, SetPeople(p, e)) == SetPeople(p, SetPeople(q, e))
  {
    var fp, fq := Assigned(p), Assigned(q);
    var left, right := SetPeople(q, SetPeople(p, e)), SetPeople(p, SetPeople(q, e));
    assert left.survived == right.survived by { assert SurvivedField !in fp * fq; }
    assert left.pclass == right.pclass by { assert PclassField !in fp * fq; }
    assert left.name == right.name by { assert NameField !in fp * fq; }
    assert left.sex == right.sex by { assert SexField !in fp * fq; }
    assert left.age == right.age by { assert AgeField !in fp * fq; }
    assert left.siblingsSpousesAbroad == right.siblingsSpousesAbroad by {
      assert SiblingsSpousesAbroadField !in fp * fq;
    }
    assert left.parentsChildrenAboard == right.parentsChildrenAboard by {
      assert ParentsChildrenAboardField !in fp * fq;
    }
    assert left.fare == right.fare by { assert FareField !in fp * fq; }
  }

  /** No update can clear an attribute: its result carries every value either side carried. */
  lemma SetPeopleNeverClears(p: People, e: People)
    ensures Assigned(SetPeople(p, e)) == Assigned(p) + Assigned(e)
  {
  }

  /** An update that carries no attribute leaves the record as it was. */
  lemma SetPeopleEmptyUpdate(p: People, e: People)
    requires Assigned(p) == {}
    ensures SetPeople(p, e) == e
  {
    assert forall f :: f !in Assigned(p);
    assert !Carries(p, SurvivedField) && !Carries(p, PclassField) && !Carries(p, NameField);
    assert !Carries(p, SexField) && !Carries(p, AgeField) && !Carries(p, SiblingsSpousesAbroadField);
    assert !Carries(p, ParentsChildrenAboardField) && !Carries(p, FareField);
  }

  /** The incoming record's ID never reaches the result. */
  lemma SetPeopleIgnoresIncomingId(p: People, e: People, u: Uuid)
    ensures SetPeople(p.(id := u), e) == SetPeople(p, e)
  {
  }

  /** Merging onto the zero record yields the incoming record with the zero UUID as its ID. */
  lemma SetPeopleOntoZero(p: People)
    ensures SetPeople(p, Zero) == p.(id := Nil)
  {
  }

  /** The store: a map from a UUID's text form to the record stored under it. */
  class Repository {
    var m: map<string, People>

    /** NewInmemService: an empty store. */
    constructor ()
      ensures m == map[]
    {
      m := map[];
    }

    /**
     * PostPeople: stores `p` with its ID set to the freshly generated `id` under that id's text,
     * unless something is stored there already.
     */
    method PostPeople(p: People, id: Uuid) returns (key: string, err: Option<Error>)
      modifies this
      ensures ToString(id) in old(m) ==> key == "" && err == Some(InmemErrAlreadyExists) && m == old(m)
      ensures ToString(id) !in old(m) ==>
        key == ToString(id) && err == None && m == old(m)[ToString(id) := p.(id := id)]
    {
      var p' := p.(id := id);
      if ToString(p'.id) in m {
        return "", Some(InmemErrAlreadyExists);
      }
      m := m[ToString(p'.id) := p'];
      return ToString(id), None;
    }

    /** GetPeopleByID: the stored record, or the zero record and ErrNotFound. */
    method GetPeopleByID(uuid: Uuid) returns (p: People, err: Option<Error>)
      ensures ToString(uuid) in m ==> p == m[ToString(uuid)] && err == None
      ensures ToString(uuid) !in m ==> p == Zero && err == Some(InmemErrNotFound)
    {
      if ToString(uuid) !in m {
        return Zero, Some(InmemErrNotFound);
      }
      return m[ToString(uuid)], None;
    }

    /**
     * PutPeople: replace-or-create. On a stored key it merges `p` onto the stored record.
     * On a missing key it merges `p` onto the zero record: the `p.ID = uuid` assignment is
     * discarded by setPeople, so the created record's ID is the zero UUID. It never fails;
     * the ErrInconsistentID guard cannot fire, because a UUID's text is never empty.
     */
    method PutPeople(uuid: Uuid, p: People) returns (err: Option<Error>)
      modifies this
      ensures err == None
      ensures ToString(uuid) in old(m) ==>
        m == old(m)[ToString(uuid) := SetPeople(p, old(m)[ToString(uuid)])]
      ensures ToString(uuid) !in old(m) ==> m == old(m)[ToString(uuid) := p.(id := Nil)]
    {
      if ToString(p.id) == "" {
        return Some(InmemErrInconsistentID);
      }
      var existing, p' := Zero, p;
      if ToString(uuid) in m {
        existing := m[ToString(uuid)];
      } else {
        p' := p.(id := uuid);
      }
      SetPeopleIgnoresIncomingId(p, existing, uuid);
      SetPeopleOntoZero(p);
      m := m[ToString(uuid) := SetPeople(p', existing)];
      return None;
    }

    /**
     * PatchPeople: update-only. A missing key fails with ErrNotFound and changes nothing;
     * a stored record is merged with `p` and keeps its ID.
     */
    method PatchPeople(uuid: Uuid, p: People) returns (err: Option<Error>)
      modifies this
      ensures ToString(uuid) !in old(m) ==> err == Some(InmemErrNotFound) && m == old(m)
      ensures ToString(uuid) in old(m) ==>
        err == None && m == old(m)[ToString(uuid) := SetPeople(p, old(m)[ToString(uuid)])]
      ensures ToString(uuid) in old(m) ==> m[ToString(uuid)].id == old(m)[ToString(uuid)].id
    {
      if ToString(p.id) == "" {
        return Some(InmemErrInconsistentID);
      }
      if ToString(uuid) !in m {
        return Some(InmemErrNotFound);
      }
      var existing := m[ToString(uuid)];
      m := m[ToString(uuid) := SetPeople(p, existing)];
      return None;
    }

    /** DeletePeople: removes exactly the requested key; a missing key fails with ErrNotFound. */
    method DeletePeople(uuid: Uuid) returns (key: string, err: Option<Error>)
      modifies this
      ensures key == ToString(uuid)
      ensures ToString(uuid) !in old(m) ==> err == Some(InmemErrNotFound) && m == old(m)
      ensures ToString(uuid) in old(m) ==> err == None && m == old(m) - {ToString(uuid)}
    {
      if ToString(uuid) !in m {
        return ToString(uuid), Some(InmemErrNotFound);
      }
      m := m - {ToString(uuid)};
      return ToString(uuid), None;
    }

    /**
     * GetPeople: one element per stored record, in the map's (unspecified) iteration order,
     * which `order` records. It never fails: the slice starts non-nil, so the `p == nil`
     * branch in the source is dead.
     */
    method GetPeople() returns (people: seq<People>, err: Option<Error>, ghost order: seq<string>)
      ensures err == None
      ensures |people| == |order| == |m|
      ensures forall i :: 0 <= i < |order| ==> order[i] in m && people[i] == m[order[i]]
      ensures forall k :: k in m ==> k in order
      ensures forall i, j :: 0 <= i < j < |order| ==> order[i] != order[j]
    {
      people, order := [], [];
      var rest := m.Keys;
      while rest != {}
        invariant rest <= m.Keys
        invariant |people| == |order| && |order| + |rest| == |m|
        invariant forall i :: 0 <= i < |order| ==> order[i] in m && order[i] !in rest && people[i] == m[order[i]]
        invariant forall k :: k in m ==> k in rest || k in order
        invariant forall i, j :: 0 <= i < j < |order| ==> order[i] != order[j]
        decreases rest
      {
        var k :| k in rest;
        people, order := people + [m[k]], order + [k];
        rest := rest - {k};
      }
      return people, None, order;
    }
  }

  /** Deletion is terminal: after a successful delete, a lookup and a second delete both fail. */
  method DeletionIsTerminal(r: Repository, uuid: Uuid)
    returns (first: Option<Error>, lookup: Option<Error>, second: Option<Error>)
    requires ToString(uuid) in r.m
    modifies r
    ensures first == None && lookup == Some(InmemErrNotFound) && second == Some(InmemErrNotFound)
    ensures r.m == old(r.m) - {ToString(uuid)}
  {
    var _, e1 := r.DeletePeople(uuid);
    var _, e2 := r.GetPeopleByID(uuid);
    var _, e3 := r.DeletePeople(uuid);
    first, lookup, second := e1, e2, e3;
  }

  /** PUT then GET by the same UUID finds the merged record; repeating the PUT changes nothing. */
  method PutIsIdempotent(r: Repository, uuid: Uuid, p: People) returns (found: People, err: Option<Error>)
    modifies r
    ensures err == None && ToString(uuid) in r.m && found == r.m[ToString(uuid)]
    ensures var once := old(r.m)[ToString(uuid) := if ToString(uuid) in old(r.m)
                          then SetPeople(p, old(r.m)[ToString(uuid)]) else p.(id := Nil)];
            r.m == once
  {
    var _ := r.PutPeople(uuid, p);
    ghost var once := r.m;
    var _ := r.PutPeople(uuid, p);
    SetPeopleIdempotent(p, once[ToString(uuid)]);
    SetPeopleOntoZero(p);
    found, err := r.GetPeopleByID(uuid);
  }

  /** Records under distinct UUIDs do not interfere: a PATCH of one leaves every other lookup as it was. */
  method PatchIsLocal(r: Repository, u: Uuid, v: Uuid, p: People)
    returns (before: People, beforeErr: Option<Error>, after: People, afterErr: Option<Error>)
    requires u != v
    modifies r
    ensures before == after && beforeErr == afterErr
    ensures ToString(v) in r.m <==> ToString(v) in old(r.m)
  {
    before, beforeErr := r.GetPeopleByID(v);
    var _ := r.PatchPeople(u, p);
    assert ToString(u) != ToString(v) by {
      if ToString(u) == ToString(v) {
        ToStringInjective(u, v);
      }
    }
    after, afterErr := r.GetPeopleByID(v);
  }
}
