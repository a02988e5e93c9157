/**
 * The subject catalog shared by both bots and the meaning of a subscription
 * mask. Each catalog entry is one bit; a mask stands for the set of catalog
 * names whose bit it has set.
 */
module Subjects {
  import opened Wrappers
  import opened Host

  /**
   * A subscription bitmask. The source keeps a Python int, but it starts at 0
   * and only ever XORs catalog flags into it, so eight bits hold every value
   * it can take.
   */
  type Mask = bv8

  /** The fixed catalog of seven subjects, each a distinct single bit. */
  const Catalog: map<string, Mask> :=
    map["math" := 0x01, "hist" := 0x02, "geo" := 0x04, "bio" := 0x08,
        "chem" := 0x10, "physics" := 0x20, "comp sci" := 0x40]

  /** The masks the bots can reach: no bit outside the catalog's seven. */
  predicate InRange(m: Mask) {
    m & 0x80 == 0
  }

  predicate IsSingleBit(f: Mask) {
    f != 0 && f & (f - 1) == 0
  }

  /** `subjects[subject]`: the flag of a catalog name, or the KeyError Python raises. */
  function Lookup(subject: string): (r: Result<Mask, PyError>)
    ensures r.Success? <==> subject in Catalog
    ensures r.Failure? ==> r.error == KeyError
    ensures r.Success? ==> IsSingleBit(r.value) && InRange(r.value) && r.value == Catalog[subject]
  {
    if subject in Catalog then Success(Catalog[subject]) else Failure(KeyError)
  }

  /** The set of subjects a mask stands for. */
  function SubjectsOf(m: Mask): set<string> {
    set s | s in Catalog && m & Catalog[s] != 0
  }

  /** Catalog flags are single bits within range, and distinct names have disjoint flags. */
  lemma CatalogFlagsDisjoint()
    ensures forall s | s in Catalog :: IsSingleBit(Catalog[s]) && InRange(Catalog[s])
    ensures forall s, t | s in Catalog && t in Catalog && s != t :: Catalog[s] & Catalog[t] == 0
  {
  }

  /** Setting a subject's flag adds exactly that subject. */
  lemma AddSubject(m: Mask, s: string)
    requires s in Catalog
    ensures SubjectsOf(m | Catalog[s]) == SubjectsOf(m) + {s}
  {
  }

  /** Clearing a subject's flag removes exactly that subject. */
  lemma RemoveSubject(m: Mask, s: string)
    requires s in Catalog
    ensures SubjectsOf(m & !Catalog[s]) == SubjectsOf(m) - {s}
  {
  }

  /** Subscribing to a subject that is already set changes nothing: `old | flag` is idempotent. */
  lemma SubscribeIdempotent(m: Mask, s: string)
    requires s in Catalog
    ensures (m | Catalog[s]) | Catalog[s] == m | Catalog[s]
  {
  }

  /** Unsubscribing from a subject that is already clear changes nothing: `old & !flag` is idempotent. */
  lemma UnsubscribeIdempotent(m: Mask, s: string)
    requires s in Catalog
    ensures (m & !Catalog[s]) & !Catalog[s] == m & !Catalog[s]
  {
  }

  /** Subscribing to a subject that was clear and then unsubscribing restores the mask. */
  lemma SubscribeThenUnsubscribe(m: Mask, s: string)
    requires s in Catalog && s !in SubjectsOf(m)
    ensures (m | Catalog[s]) & !Catalog[s] == m
  {
  }

  /** Within range, a mask is determined by the set of subjects it stands for. */
  lemma SubjectsDetermineMask(m1: Mask, m2: Mask)
    requires InRange(m1) && InRange(m2)
    requires SubjectsOf(m1) == SubjectsOf(m2)
    ensures m1 == m2
  {
    forall s | s in Catalog
      ensures m1 & Catalog[s] == m2 & Catalog[s]
    {
      CatalogFlagsDisjoint();
      assert s in SubjectsOf(m1) <==> s in SubjectsOf(m2);
    }
    assert m1 & 0x01 == m2 & 0x01 by { assert Catalog["math"] == 0x01; }
    assert m1 & 0x02 == m2 & 0x02 by { assert Catalog["hist"] == 0x02; }
    assert m1 & 0x04 == m2 & 0x04 by { assert Catalog["geo"] == 0x04; }
    assert m1 & 0x08 == m2 & 0x08 by { assert Catalog["bio"] == 0x08; }
    assert m1 & 0x10 == m2 & 0x10 by { assert Catalog["chem"] == 0x10; }
    assert m1 & 0x20 == m2 & 0x20 by { assert Catalog["physics"] == 0x20; }
    assert m1 & 0x40 == m2 & 0x40 by { assert Catalog["comp sci"] == 0x40; }
  }

  /** The empty mask stands for no subject. */
  lemma EmptyMask()
    ensures SubjectsOf(0) == {}
  {
  }
}
