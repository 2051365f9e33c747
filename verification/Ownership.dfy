/** Which request owns which lease: disjoint sets, one per request, and their union. */
module Ownership {

  type Id = nat

  ghost predicate Owns(owner: map<Id, Id>, held: map<Id, set<Id>>)
  {
    forall id, l :: id in held && l in held[id] ==> l in owner && owner[l] == id
  }

  ghost function Union(owner: map<Id, Id>, held: map<Id, set<Id>>): set<Id>
  {
    set l | l in owner && owner[l] in held && l in held[owner[l]]
  }

  function Named(owner: map<Id, Id>, fresh': set<Id>, id: Id): map<Id, Id>
  {
    owner + (map l | l in fresh' :: id)
  }

  lemma NamedKeeps(owner: map<Id, Id>, fresh': set<Id>, id: Id)
    requires fresh' !! owner.Keys
    ensures forall l :: l in owner ==> l in Named(owner, fresh', id) && Named(owner, fresh', id)[l] == owner[l]
    ensures forall l :: l in fresh' ==> l in Named(owner, fresh', id) && Named(owner, fresh', id)[l] == id
    ensures forall l :: l in Named(owner, fresh', id) ==> l in owner || l in fresh'
  {
  }

  /** One request takes some leases and gives some back: the union changes by exactly that. */
  lemma UnionStep(owner: map<Id, Id>, fresh': set<Id>, held: map<Id, set<Id>>, id: Id, add: set<Id>, drop: set<Id>)
    requires Owns(owner, held) && id in held && fresh' !! owner.Keys && drop <= held[id] + add
    requires forall l :: l in add ==> l in fresh' || (l in owner && owner[l] == id)
    ensures
      var owner', held' := Named(owner, fresh', id), held[id := held[id] + add - drop];
      Owns(owner', held') && Union(owner', held') == Union(owner, held) + add - drop
  {
    NamedKeeps(owner, fresh', id);
    var owner', held' := Named(owner, fresh', id), held[id := held[id] + add - drop];
    hide Named;
    forall l ensures l in Union(owner', held') <==> l in Union(owner, held) + add - drop {
      if l in owner' && owner'[l] == id {
        assert l in Union(owner, held) <==> l in held[id];
      }
    }
  }

  /** A new request owns nothing yet. */
  lemma UnionArrives(owner: map<Id, Id>, held: map<Id, set<Id>>, id: Id)
    requires Owns(owner, held) && id !in held
    ensures Owns(owner, held[id := {}]) && Union(owner, held[id := {}]) == Union(owner, held)
  {
  }

  lemma InUnion(owner: map<Id, Id>, held: map<Id, set<Id>>, id: Id, l: Id)
    requires Owns(owner, held) && id in held && l in held[id]
    ensures l in Union(owner, held)
  {
  }
}
