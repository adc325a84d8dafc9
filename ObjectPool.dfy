/** The pool of reusable card objects: an active list (on loan) and an
    inactive list (idle), reused first-in first-out. Dafny cannot allocate an
    object of a type parameter, so the pool is stated for the one type the
    engine pools, `Card`, instantiated from the prefab's back sprite. */
module Pool {
  import opened Seqs
  import opened Enums
  import opened Cards

  class ObjectPool {
    /** The prefab new objects are instantiated from (its back sprite). */
    const prefab: Sprite
    var active: seq<Card>
    var inactive: seq<Card>

    /** Both lists are free of repeats and share no object. */
    ghost predicate Valid()
      reads this
    {
      NoDup(active) && NoDup(inactive) &&
      forall c :: c in active ==> c !in inactive
    }

    constructor (prefab: Sprite)
      ensures Valid() && this.prefab == prefab
      ensures active == [] && inactive == []
    {
      this.prefab := prefab;
      active := [];
      inactive := [];
    }

    function ActiveObjectCount(): (n: nat)
      reads this
      ensures n == |active|
    {
      |active|
    }

    function InactiveObjectCount(): (n: nat)
      reads this
      ensures n == |inactive|
    {
      |inactive|
    }

    /** The first active object satisfying `condition`, or none. */
    function FindActiveObject(condition: Card -> bool): (r: Option<Card>)
      reads this
      ensures r.None? <==> forall i :: 0 <= i < |active| ==> !condition(active[i])
      ensures r.Some? ==>
        exists k :: (0 <= k < |active| && active[k] == r.value && condition(active[k]) &&
                     forall j :: 0 <= j < k ==> !condition(active[j]))
    {
      FindFirstSpec(active, condition);
      FindFirst(active, condition)
    }

    /** The first inactive object satisfying `condition`, or none. */
    function FindInactiveObject(condition: Card -> bool): (r: Option<Card>)
      reads this
      ensures r.None? <==> forall i :: 0 <= i < |inactive| ==> !condition(inactive[i])
      ensures r.Some? ==>
        exists k :: (0 <= k < |inactive| && inactive[k] == r.value && condition(inactive[k]) &&
                     forall j :: 0 <= j < k ==> !condition(inactive[j]))
    {
      FindFirstSpec(inactive, condition);
      FindFirst(inactive, condition)
    }

    /** Reuses the oldest idle object, or instantiates a new one when none is
        idle; either way the object goes to the end of the active list. */
    method GetObject() returns (obj: Card)
      requires Valid()
      modifies this
      ensures Valid()
      ensures active == old(active) + [obj]
      ensures old(inactive) != [] ==> obj == old(inactive)[0] && inactive == old(inactive)[1..]
      ensures old(inactive) == [] ==>
        (inactive == [] && fresh(obj) && fresh(obj.events) &&
         obj.events.observers == [] && obj.state == Hidden && obj.tweens == [] &&
         obj.backSprite == prefab)
      ensures |active| + |inactive| == |old(active)| + |old(inactive)| + (if old(inactive) == [] then 1 else 0)
    {
      NoDupConcat(inactive, active);
      if |inactive| > 0 {
        obj := inactive[0];
        assert inactive == [obj] + inactive[1..];
        NoDupConcat([obj], inactive[1..]);
        inactive := inactive[1..];
      } else {
        obj := new Card(prefab);
      }
      NoDupConcat(active, [obj]);
      active := active + [obj];
    }

    /** Moves `obj` to the end of the idle list and out of the active list,
        unless it is idle already. */
    method ReleaseObject(obj: Card)
      requires Valid()
      modifies this
      ensures Valid()
      ensures obj in old(inactive) ==> active == old(active) && inactive == old(inactive)
      ensures obj !in old(inactive) ==>
        inactive == old(inactive) + [obj] && active == RemoveFirst(old(active), obj)
      ensures obj in old(active) ==> |active| + |inactive| == |old(active)| + |old(inactive)|
    {
      if obj !in inactive {
        NoDupRemoveFirst(active, obj);
        if obj in active {
          RemoveFirstCounts(active, obj);
        }
        NoDupConcat(inactive, [obj]);
        inactive := inactive + [obj];
        active := RemoveFirst(active, obj);
      }
    }

    /** Moves every active object, in order, to the end of the idle list. The
        index loop removes at `i` and steps `i` back, so it always works on
        the head of the active list. */
    method ReleaseAllObjects()
      requires Valid()
      modifies this
      ensures Valid()
      ensures active == [] && inactive == old(inactive) + old(active)
    {
      NoDupConcat(inactive, active);
      var i := 0;
      while i < |active|
        invariant i == 0
        invariant inactive + active == old(inactive) + old(active)
        invariant |inactive| >= |old(inactive)|
        invariant inactive[..|old(inactive)|] == old(inactive)
        decreases |active|
      {
        assert inactive + active == (inactive + [active[i]]) + active[i + 1..];
        inactive := inactive + [active[i]];
        active := active[..i] + active[i + 1..];
        i := i - 1;
        i := i + 1;
      }
      NoDupConcat(inactive, active);
    }
  }
}
