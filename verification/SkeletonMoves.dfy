/**
 Moving a skeleton. The base part keeps references to the skeleton's events,
 fields and methods, and each of these keeps a reference to the base; all of
 these are re-targeted when the objects move, the base first, then the members
 in the order of their declaration.
 */
module SkeletonMoves {

  datatype Kind = Event | Field | Method

  /** The maps of events, fields and methods are one map here, keyed by kind and name. */
  datatype Key = Key(kind: Kind, name: string)

  class SkeletonBase {
    var elements: map<Key, Element>

    constructor ()
      ensures elements == map[]
    {
      elements := map[];
    }

    /** The loops over the elements that name this object as their parent. */
    method Adopt()
      modifies elements.Values
      ensures forall k :: k in elements ==> elements[k].parent == this && elements[k].key == old(elements[k].key)
    {
      var keys := elements.Keys;
      while keys != {}
        invariant keys <= elements.Keys
        invariant forall k :: k in elements && k !in keys ==> elements[k].parent == this
        invariant forall k :: k in elements ==> elements[k].key == old(elements[k].key)
        decreases |keys|
      {
        var k :| k in keys;
        assert elements[k] in elements.Values;
        elements[k].parent := this;
        keys := keys - {k};
      }
    }

    constructor Move(other: SkeletonBase)
      modifies other, other.elements.Values
      ensures elements == old(other.elements) && other.elements == map[]
      ensures forall k :: k in old(other.elements) ==>
                old(other.elements)[k].parent == this && old(other.elements)[k].key == old(other.elements[k].key)
    {
      elements := other.elements;
      new;
      other.elements := map[];
      Adopt();
    }

    method Assign(other: SkeletonBase)
      requires this != other
      modifies this, other, other.elements.Values
      ensures elements == old(other.elements) && other.elements == map[]
      ensures forall k :: k in old(other.elements) ==>
                old(other.elements)[k].parent == this && old(other.elements)[k].key == old(other.elements[k].key)
    {
      elements := other.elements;
      other.elements := map[];
      Adopt();
    }

    /** UpdateEvent, UpdateField, UpdateMethod; without the entry they would end the process. */
    method Update(key: Key, element: Element)
      requires key in elements
      modifies this
      ensures elements == old(elements)[key := element]
    {
      elements := elements[key := element];
    }
  }

  class Element {
    var key: Key
    var parent: SkeletonBase

    /** Registers itself with its parent, under a key that must be new. */
    constructor (key: Key, parent: SkeletonBase)
      requires key !in parent.elements
      modifies parent
      ensures this.key == key && this.parent == parent && parent.elements == old(parent.elements)[key := this]
    {
      this.key, this.parent := key, parent;
      new;
      parent.elements := parent.elements[key := this];
    }

    constructor Move(other: Element)
      requires other.key in other.parent.elements
      modifies other.parent
      ensures key == other.key && parent == old(other.parent)
      ensures parent.elements == old(other.parent.elements)[key := this]
    {
      key, parent := other.key, other.parent;
      new;
      parent.Update(key, this);
    }

    method Assign(other: Element)
      requires this != other && other.key in other.parent.elements
      modifies this, other.parent
      ensures key == old(other.key) && parent == old(other.parent)
      ensures parent.elements == old(other.parent.elements)[key := this]
    {
      key, parent := other.key, other.parent;
      parent.Update(key, this);
    }
  }

  predicate Distinct(members: seq<Element>) {
    forall i, j :: 0 <= i < j < |members| ==> members[i] != members[j]
  }

  /** Every entry of the base names the member with that key, and every member names the base. */
  ghost predicate Linked(base: SkeletonBase, members: seq<Element>)
    reads base, members
  {
    && Distinct(members)
    && (forall i :: 0 <= i < |members| ==>
          && members[i].parent == base
          && members[i].key in base.elements && base.elements[members[i].key] == members[i])
    && (forall k :: k in base.elements ==> base.elements[k] in members && base.elements[k].key == k)
  }

  ghost function Keys(members: seq<Element>): seq<Key>
    reads members
  {
    seq(|members|, i requires 0 <= i < |members| reads members => members[i].key)
  }

  predicate Unique(keys: seq<Key>) {
    forall i, j :: 0 <= i < j < |keys| ==> keys[i] != keys[j]
  }

  /** Part of the way through the members: the entries before i name the new ones, the others still the old ones. */
  ghost predicate Entered(elements: map<Key, Element>, before: seq<Element>, after: seq<Element>, keys: seq<Key>,
                          i: nat)
    requires i <= |before| == |keys| && i <= |after|
  {
    && (forall j :: 0 <= j < |keys| ==>
          keys[j] in elements && elements[keys[j]] == if j < i then after[j] else before[j])
    && (forall k :: k in elements ==> k in keys)
  }

  ghost predicate Placed(base: SkeletonBase, members: seq<Element>, keys: seq<Key>, lo: nat, hi: nat)
    requires lo <= hi <= |members| && hi <= |keys|
    reads members
  {
    forall j :: lo <= j < hi ==> members[j].parent == base && members[j].key == keys[j]
  }

  lemma EnteredAtFirst(base: SkeletonBase, members: seq<Element>)
    requires Linked(base, members)
    ensures var keys := Keys(members);
            Unique(keys) && Entered(base.elements, members, [], keys, 0) && Placed(base, members, keys, 0, |members|)
  {
    var keys := Keys(members);
    forall k | k in base.elements
      ensures k in keys
    {
      var j :| 0 <= j < |members| && members[j] == base.elements[k];
      assert keys[j] == k;
    }
  }

  lemma EnterOne(elements: map<Key, Element>, before: seq<Element>, after: seq<Element>, keys: seq<Key>, i: nat,
                 e: Element)
    requires i < |before| == |keys| && i < |after| && after[i] == e
    requires Unique(keys) && Entered(elements, before, after, keys, i)
    ensures Entered(elements[keys[i] := e], before, after, keys, i + 1)
  {
  }

  lemma EnteredTakes(elements: map<Key, Element>, before: seq<Element>, after: seq<Element>, keys: seq<Key>, i: nat,
                     e: Element)
    requires i <= |before| == |keys| && i == |after| && Entered(elements, before, after, keys, i)
    ensures Entered(elements, before, after + [e], keys, i)
  {
  }

  lemma LinkedAtLast(base: SkeletonBase, before: seq<Element>, after: seq<Element>, keys: seq<Key>)
    requires |before| == |after| && Moved(base, before, after, keys, |before|)
    ensures Linked(base, after) && Keys(after) == keys
  {
  }

  /** The base moves, with everything it refers to. */
  method MoveBase(base: SkeletonBase, members: seq<Element>) returns (base': SkeletonBase)
    requires Linked(base, members)
    modifies base, members
    ensures Linked(base', members) && Keys(members) == old(Keys(members))
    ensures fresh(base') && base.elements == map[]
  {
    assert forall k :: k in base.elements ==> base.elements[k] in members;
    base' := new SkeletonBase.Move(base);
  }

  /** The first i members have moved. */
  ghost predicate Moved(base: SkeletonBase, before: seq<Element>, after: seq<Element>, keys: seq<Key>, i: nat)
    reads base, before, after
  {
    && i <= |before| == |keys| && i <= |after|
    && Unique(keys) && Distinct(after)
    && Entered(base.elements, before, after, keys, i)
    && Placed(base, before, keys, i, |before|) && Placed(base, after, keys, 0, i)
  }

  lemma MovedAtFirst(base: SkeletonBase, members: seq<Element>, targets: seq<Element>)
    requires Linked(base, members) && Distinct(targets)
    ensures Moved(base, members, targets, Keys(members), 0)
  {
    EnteredAtFirst(base, members);
  }

  method MoveMember(base: SkeletonBase, members: seq<Element>, moved: seq<Element>, ghost keys: seq<Key>)
    returns (e: Element)
    requires |moved| < |members| && Moved(base, members, moved, keys, |moved|)
    modifies base
    ensures fresh(e) && Moved(base, members, moved + [e], keys, |moved| + 1)
  {
    var i := |moved|;
    ghost var elements := base.elements;
    e := new Element.Move(members[i]);
    EnteredTakes(elements, members, moved, keys, i, e);
    EnterOne(elements, members, moved + [e], keys, i, e);
  }

  /** Then the members, one after the other. */
  method MoveMembers(base: SkeletonBase, members: seq<Element>) returns (members': seq<Element>)
    requires Linked(base, members)
    modifies base
    ensures Linked(base, members') && Keys(members') == old(Keys(members))
    ensures forall j :: 0 <= j < |members'| ==> fresh(members'[j])
  {
    ghost var keys := Keys(members);
    members' := [];
    MovedAtFirst(base, members, members');
    while |members'| < |members|
      invariant |members'| <= |members|
      invariant forall j :: 0 <= j < |members'| ==> fresh(members'[j])
      invariant Moved(base, members, members', keys, |members'|)
    {
      var e := MoveMember(base, members, members', keys);
      members' := members' + [e];
    }
    LinkedAtLast(base, members, members', keys);
  }

  /** A whole skeleton, moved to a new one. */
  method MoveConstruct(base: SkeletonBase, members: seq<Element>) returns (base': SkeletonBase, members': seq<Element>)
    requires Linked(base, members)
    modifies base, members
    ensures Linked(base', members') && Keys(members') == old(Keys(members))
    ensures fresh(base') && (forall j :: 0 <= j < |members'| ==> fresh(members'[j])) && base.elements == map[]
  {
    base' := MoveBase(base, members);
    members' := MoveMembers(base', members);
  }

  predicate Disjoint(a: seq<Element>, b: seq<Element>) {
    forall i, j :: 0 <= i < |a| && 0 <= j < |b| ==> a[i] != b[j]
  }

  method AssignBase(target: SkeletonBase, base: SkeletonBase, members: seq<Element>)
    requires Linked(base, members) && target != base
    modifies target, base, members
    ensures Linked(target, members) && Keys(members) == old(Keys(members))
    ensures base.elements == map[]
  {
    assert forall k :: k in base.elements ==> base.elements[k] in members;
    target.Assign(base);
  }

  method AssignMember(base: SkeletonBase, members: seq<Element>, targets: seq<Element>, ghost keys: seq<Key>, i: nat)
    requires i < |members| == |targets| && Moved(base, members, targets, keys, i) && Disjoint(members, targets)
    modifies base, targets[i]
    ensures Moved(base, members, targets, keys, i + 1)
  {
    ghost var elements := base.elements;
    targets[i].Assign(members[i]);
    EnterOne(elements, members, targets, keys, i, targets[i]);
  }

  method AssignMembers(base: SkeletonBase, members: seq<Element>, targets: seq<Element>)
    requires Linked(base, members) && |members| == |targets| && Distinct(targets) && Disjoint(members, targets)
    modifies base, targets
    ensures Linked(base, targets) && Keys(targets) == old(Keys(members))
  {
    ghost var keys := Keys(members);
    MovedAtFirst(base, members, targets);
    var i := 0;
    while i < |members|
      invariant i <= |members| && Moved(base, members, targets, keys, i)
    {
      AssignMember(base, members, targets, keys, i);
      i := i + 1;
    }
    LinkedAtLast(base, members, targets, keys);
  }

  /** A whole skeleton, moved onto another one, whatever the other one referred to. */
  method MoveAssign(target: SkeletonBase, targets: seq<Element>, base: SkeletonBase, members: seq<Element>)
    requires Linked(base, members) && target != base
    requires |members| == |targets| && Distinct(targets) && Disjoint(members, targets)
    modifies target, targets, base, members
    ensures Linked(target, targets) && Keys(targets) == old(Keys(members))
    ensures base.elements == map[]
  {
    AssignBase(target, base, members);
    AssignMembers(target, members, targets);
  }

  /**
   Any number of moves, each to a new skeleton or back onto the one last moved from, which may at first be any other:
   the skeleton they end in is linked, with the keys of the first.
   */
  method MoveRepeatedly(base: SkeletonBase, members: seq<Element>, other: SkeletonBase, others: seq<Element>,
                        construct: seq<bool>)
    returns (base': SkeletonBase, members': seq<Element>)
    requires Linked(base, members) && base != other
    requires |members| == |others| && Distinct(others) && Disjoint(members, others)
    modifies base, members, other, others
    ensures Linked(base', members') && Keys(members') == old(Keys(members))
  {
    base', members' := base, members;
    var spare, spares := other, others;
    var n := 0;
    while n < |construct|
      invariant Linked(base', members') && Keys(members') == old(Keys(members))
      invariant base' != spare && |members'| == |spares| && Distinct(spares) && Disjoint(members', spares)
      invariant fresh(base') || base' == base || base' == other
      invariant fresh(spare) || spare == base || spare == other
      invariant forall j :: 0 <= j < |members'| ==>
                  fresh(members'[j]) || members'[j] in members || members'[j] in others
      invariant forall j :: 0 <= j < |spares| ==> fresh(spares[j]) || spares[j] in members || spares[j] in others
    {
      if construct[n] {
        var b, m := MoveConstruct(base', members');
        spare, spares := base', members';
        base', members' := b, m;
      } else {
        MoveAssign(spare, spares, base', members');
        spare, spares, base', members' := base', members', spare, spares;
      }
      n := n + 1;
    }
  }
}
