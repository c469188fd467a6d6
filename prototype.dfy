/** The person prototype: cloning copies a person's fields into a new
    person and marks the copy as cloned. */
module Prototype {
  import opened Common

  /** A person's four fields. Cloning builds a new object from them and
      never changes the original, so a person is a value here. */
  datatype Person = Person(id: int, name: string, surname: string, isCloned: bool)

  /** new Person(id, name, surname): not a clone. */
  function NewPerson(id: int, name: string, surname: string): (p: Person)
    ensures p.id == id && p.name == name && p.surname == surname
    ensures !p.isCloned
  {
    Person(id, name, surname, false)
  }

  /** clone: the same id, name and surname, flagged as cloned. As values,
      the copy has the same fields as the original exactly when the original
      was itself a clone (in Java the two are distinct objects either way,
      and Person does not override equals). */
  function Clone(p: Person): (c: Person)
    ensures c.id == p.id && c.name == p.name && c.surname == p.surname
    ensures c.isCloned
    ensures c == p <==> p.isCloned
  {
    Person(p.id, p.name, p.surname, true)
  }

  /** Person.toString. */
  function Describe(p: Person): string
  {
    "Person [id=" + IntToString(p.id) + ", name=" + p.name + ", surname=" + p.surname
      + ", isCloned=" + BoolToString(p.isCloned) + "]"
  }

  /** Cloning a clone gives the same fields again. */
  lemma CloneIdempotent(p: Person)
    ensures Clone(Clone(p)) == Clone(p)
  {
  }

  /** Every clone of a person built by the constructor prints differently
      from it: the lines agree up to the flag, which reads "true" in the
      clone's and "false" in the original's. */
  lemma CloneDescribedApart(id: int, name: string, surname: string)
    ensures var p := NewPerson(id, name, surname);
      var common := "Person [id=" + IntToString(id) + ", name=" + name + ", surname=" + surname + ", isCloned=";
      Describe(p) == common + "false]" && Describe(Clone(p)) == common + "true]"
      && Describe(Clone(p)) != Describe(p)
  {
    var p := NewPerson(id, name, surname);
    assert |Describe(Clone(p))| + 1 == |Describe(p)|;
  }
}

module PrototypeScenarios {
  import opened Prototype

  /** The demo: John Doe, id 1, and his clone. */
  lemma Application()
    ensures Clone(NewPerson(1, "John", "Doe")) == Person(1, "John", "Doe", true)
    ensures NewPerson(1, "John", "Doe") == Person(1, "John", "Doe", false)
  {
  }
}
