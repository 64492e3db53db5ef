/** The work lists the generator drains and refills. All five keep
    first-in-first-out order; they differ in what a `Put` of a value (or key)
    that is already queued does. */
module Queues {

  function Elems<T>(s: seq<T>): set<T>
  {
    set x | x in s
  }

  predicate Distinct<T(==)>(s: seq<T>)
  {
    forall i, j :: 0 <= i < j < |s| ==> s[i] != s[j]
  }

  /** Plain FIFO list: every put is appended, duplicates included. */
  class Queue<T> {
    var list: seq<T>

    constructor()
      ensures list == []
    {
      list := [];
    }

    method Put(value: T)
      modifies this
      ensures list == old(list) + [value]
    {
      list := list + [value];
    }

    /** Removing from an empty list raises in the original, so the caller
        must know the queue is not empty. */
    method Take() returns (value: T)
      requires list != []
      modifies this
      ensures value == old(list)[0]
      ensures list == old(list)[1..]
    {
      value := list[0];
      list := list[1..];
    }

    method Empty() returns (b: bool)
      ensures b <==> list == []
    {
      b := |list| == 0;
    }
  }

  /** FIFO list with a companion membership set: a value is appended only if
      it is not in the set. Taking a value removes it from the set again, so
      it may be queued anew later. */
  class SetQueue<T(==)> {
    var list: seq<T>
    var members: set<T>

    ghost predicate Valid()
      reads this
    {
      Distinct(list) && Elems(list) <= members
    }

    constructor(setInstance: set<T>)
      ensures Valid()
      ensures list == [] && members == setInstance
    {
      list := [];
      members := setInstance;
    }

    method Put(value: T)
      requires Valid()
      modifies this
      ensures Valid()
      ensures value in old(members) ==> list == old(list) && members == old(members)
      ensures value !in old(members) ==> list == old(list) + [value] && members == old(members) + {value}
    {
      if value !in members {
        list := list + [value];
        members := members + {value};
      }
    }

    method Take() returns (value: T)
      requires Valid() && list != []
      modifies this
      ensures Valid()
      ensures value == old(list)[0]
      ensures list == old(list)[1..]
      ensures members == old(members) - {value}
    {
      value := list[0];
      list := list[1..];
      members := members - {value};
    }

    method Empty() returns (b: bool)
      ensures b <==> list == []
    {
      b := |list| == 0;
    }
  }

  /** Insertion-ordered keys with a payload list per key: a put of a queued
      key extends that key's payload and leaves the order alone. */
  class AdditiveDictQueue<K(==), V> {
    var list: seq<K>
    var dict: map<K, seq<V>>

    ghost predicate Valid()
      reads this
    {
      Distinct(list) && Elems(list) == dict.Keys
    }

    constructor()
      ensures Valid() && list == [] && dict == map[]
    {
      list := [];
      dict := map[];
    }

    method Put(value: (K, seq<V>))
      requires Valid()
      modifies this
      ensures Valid()
      ensures value.0 in old(dict) ==>
        list == old(list) && dict == old(dict)[value.0 := old(dict)[value.0] + value.1]
      ensures value.0 !in old(dict) ==>
        list == old(list) + [value.0] && dict == old(dict)[value.0 := value.1]
    {
      if value.0 in dict {
        dict := dict[value.0 := dict[value.0] + value.1];
      } else {
        list := list + [value.0];
        dict := dict[value.0 := value.1];
      }
    }

    /** Returns the front key with everything accumulated for it. */
    method Take() returns (value: (K, seq<V>))
      requires Valid() && list != []
      modifies this
      ensures Valid()
      ensures value.0 == old(list)[0] && value.1 == old(dict)[value.0]
      ensures list == old(list)[1..] && dict == old(dict) - {value.0}
    {
      var key := list[0];
      assert key in Elems(list);
      list := list[1..];
      value := (key, dict[key]);
      dict := dict - {key};
      assert Elems(list) == old(Elems(list)) - {key} by {
        forall x | x in old(Elems(list)) && x != key ensures x in Elems(list) {
          var i :| 0 <= i < |old(list)| && old(list)[i] == x;
          assert i != 0;
          assert list[i - 1] == x;
        }
      }
    }

    method Empty() returns (b: bool)
      ensures b <==> list == []
    {
      b := |list| == 0;
    }
  }

  /** Insertion-ordered keys with one payload per key: a put of a queued key
      is ignored, so the first payload is the one kept. */
  class ConservativeDictQueue<K(==), V> {
    var list: seq<K>
    var dict: map<K, V>

    ghost predicate Valid()
      reads this
    {
      Distinct(list) && Elems(list) == dict.Keys
    }

    constructor()
      ensures Valid() && list == [] && dict == map[]
    {
      list := [];
      dict := map[];
    }

    method Put(value: (K, V))
      requires Valid()
      modifies this
      ensures Valid()
      ensures value.0 in old(dict) ==> list == old(list) && dict == old(dict)
      ensures value.0 !in old(dict) ==>
        list == old(list) + [value.0] && dict == old(dict)[value.0 := value.1]
    {
      if value.0 !in dict {
        list := list + [value.0];
        dict := dict[value.0 := value.1];
      }
    }

    method Take() returns (value: (K, V))
      requires Valid() && list != []
      modifies this
      ensures Valid()
      ensures value.0 == old(list)[0] && value.1 == old(dict)[value.0]
      ensures list == old(list)[1..] && dict == old(dict) - {value.0}
    {
      var key := list[0];
      assert key in Elems(list);
      list := list[1..];
      value := (key, dict[key]);
      dict := dict - {key};
      assert Elems(list) == old(Elems(list)) - {key} by {
        forall x | x in old(Elems(list)) && x != key ensures x in Elems(list) {
          var i :| 0 <= i < |old(list)| && old(list)[i] == x;
          assert i != 0;
          assert list[i - 1] == x;
        }
      }
    }

    method Empty() returns (b: bool)
      ensures b <==> list == []
    {
      b := |list| == 0;
    }
  }

  /** The multiplicity carried from the value a counting set last removed to
      the values added after it. One generation run owns one; it starts at 1. */
  class Carry {
    var count: nat

    constructor()
      ensures count == 1
    {
      count := 1;
    }
  }

  /** A membership set that counts how many derivations reached each value.
      Adding a value credits it with the carry; removing a value makes its
      count the new carry; testing membership of a present value adds it. */
  class CountSet<T(==)> {
    var dict: map<T, nat>
    const carry: Carry

    constructor(carry: Carry)
      ensures dict == map[] && this.carry == carry
    {
      dict := map[];
      this.carry := carry;
    }

    method Add(value: T)
      modifies this
      ensures value in old(dict) ==> dict == old(dict)[value := old(dict)[value] + carry.count]
      ensures value !in old(dict) ==> dict == old(dict)[value := carry.count]
    {
      if value in dict {
        dict := dict[value := dict[value] + carry.count];
      } else {
        dict := dict[value := carry.count];
      }
    }

    /** Popping a missing value raises in the original; the queue only
        removes values it holds. */
    method Remove(value: T)
      requires value in dict
      modifies this, carry
      ensures carry.count == old(dict)[value]
      ensures dict == old(dict) - {value}
    {
      carry.count := dict[value];
      dict := dict - {value};
    }

    /** Overwrites the value's count with the carry (used for emitted strings). */
    method Insert(value: T)
      modifies this
      ensures dict == old(dict)[value := carry.count]
    {
      dict := dict[value := carry.count];
    }

    /** Membership test that tallies a repeated value forward: true exactly when
        the value is present, and then its count grows by the carry. */
    method Contains(value: T) returns (present: bool)
      modifies this
      ensures present <==> value in old(dict)
      ensures present ==> dict == old(dict)[value := old(dict)[value] + carry.count]
      ensures !present ==> dict == old(dict)
    {
      if value in dict {
        Add(value);
        return true;
      }
      return false;
    }
  }

  /** The deduplicating queue over a counting set: the same put/take as
      `SetQueue`, but the membership test and the removal go through the
      counting set and so move multiplicities along. */
  class CountingSetQueue<T(==)> {
    var list: seq<T>
    const members: CountSet<T>

    ghost predicate Valid()
      reads this, members
    {
      Distinct(list) && Elems(list) <= members.dict.Keys
    }

    constructor(setInstance: CountSet<T>)
      ensures Valid()
      ensures list == [] && members == setInstance
    {
      list := [];
      members := setInstance;
    }

    method Put(value: T)
      requires Valid()
      modifies this, members
      ensures Valid()
      ensures value in old(members.dict) ==>
        list == old(list) &&
        members.dict == old(members.dict)[value := old(members.dict)[value] + members.carry.count]
      ensures value !in old(members.dict) ==>
        list == old(list) + [value] && members.dict == old(members.dict)[value := members.carry.count]
    {
      var present := members.Contains(value);
      if !present {
        list := list + [value];
        members.Add(value);
      }
    }

    method Take() returns (value: T)
      requires Valid() && list != []
      modifies this, members, members.carry
      ensures Valid()
      ensures value == old(list)[0]
      ensures list == old(list)[1..]
      ensures members.dict == old(members.dict) - {value}
      ensures members.carry.count == old(members.dict)[value]
    {
      value := list[0];
      assert value in Elems(list);
      list := list[1..];
      members.Remove(value);
    }

    method Empty() returns (b: bool)
      ensures b <==> list == []
    {
      b := |list| == 0;
    }
  }
}
