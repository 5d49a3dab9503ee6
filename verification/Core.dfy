/** Vocabulary shared by every component of the model. */
module Core {

  datatype Option<+T> = None | Some(value: T)

  /** The source's `Ok | Rejected` pair. */
  datatype Result<+T> = Ok(value: T) | Rejected(reason: string)

  datatype Seat = A | B | C | D

  const SEATS: set<Seat> := {A, B, C, D}

  lemma EverySeat(s: Seat)
    ensures s in SEATS && |SEATS| == 4
  {
    match s { case A => case B => case C => case D => }
  }

  lemma AllSeats(s: set<Seat>)
    ensures s <= SEATS
    ensures |s| <= 4
    ensures |s| == 4 <==> s == SEATS
  {
    forall x | x in s ensures x in SEATS { EverySeat(x); }
    EverySeat(A);
    SubsetSize(s, SEATS);
  }

  lemma {:induction false} SubsetSize<T>(a: set<T>, b: set<T>)
    requires a <= b
    ensures |a| <= |b|
    ensures |a| == |b| ==> a == b
  {
    if a != {} {
      var x :| x in a;
      SubsetSize(a - {x}, b - {x});
      assert a == (a - {x}) + {x} && b == (b - {x}) + {x};
    }
  }

  predicate IsLeast(k: nat, keys: set<nat>) {
    k in keys && forall j :: j in keys ==> k <= j
  }

  lemma LeastOfMore(k: nat, some: nat, keys: set<nat>)
    requires some in keys && (keys == {some} || IsLeast(k, keys - {some}))
    ensures IsLeast(if keys == {some} || some <= k then some else k, keys)
  {
    forall j | j in keys && j != some ensures j in keys - {some} {}
  }

  lemma {:induction false} LeastExists(keys: set<nat>)
    requires keys != {}
    ensures exists k :: IsLeast(k, keys)
  {
    hide IsLeast;
    var some :| some in keys;
    var rest := keys - {some};
    var k := some;
    if rest != {} {
      LeastExists(rest);
      k :| IsLeast(k, rest);
    } else {
      assert keys == {some};
    }
    LeastOfMore(k, some, keys);
  }

  function Least(keys: set<nat>): (k: nat)
    requires keys != {}
    ensures IsLeast(k, keys)
  {
    LeastExists(keys);
    var k :| IsLeast(k, keys);
    k
  }

  /** sorted(keys) */
  function Sorted(keys: set<nat>): seq<nat> {
    if keys == {} then []
    else
      var k := Least(keys);
      [k] + Sorted(keys - {k})
  }

  predicate Increasing(s: seq<nat>) { forall i, j :: 0 <= i < j < |s| ==> s[i] < s[j] }

  lemma {:induction false} SortedListsTheSet(keys: set<nat>)
    ensures Increasing(Sorted(keys))
    ensures forall k :: k in Sorted(keys) <==> k in keys
  {
    if keys != {} {
      var k := Least(keys);
      var rest := Sorted(keys - {k});
      SortedListsTheSet(keys - {k});
      forall i | 0 <= i < |rest| ensures k < rest[i] { assert rest[i] in rest; }
      forall j ensures j in Sorted(keys) <==> j in keys {
        assert j in Sorted(keys) <==> j == k || j in rest;
      }
    }
  }
}
