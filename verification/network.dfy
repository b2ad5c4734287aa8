/**
 * The simulated cube network: cubes with an 8-bit address and the side that
 * faces up, and a network of bounded size that cubes join and leave.
 *
 * The random draws of the simulation are parameters: `side` is a draw of
 * random.randint(1, 6), `draws` the successive draws of random.randint(0x00, 0xFF)
 * the id allocator makes, and `choice` the index random.choice picks.
 */
module CubeNetwork {
  import opened Wrappers

  /** The assertion a network operation fails with. */
  datatype NetError =
    | AddressInUse(id: int)       // the requested id is already taken
    | AddressOutOfRange(id: int)  // the requested id is not strictly between 0x00 and 0xFF
    | NetworkEmpty                // there is no cube to remove
    | AddressNotInUse(id: int)    // no cube has the id to remove
    | NetworkFull                 // no id can be allocated

  /** The smallest and largest value the id allocator draws. */
  const MIN_ID := 0x00
  const MAX_ID := 0xFF

  /** No id occurs twice. */
  predicate Distinct(ids: seq<int>)
  {
    forall i, j :: 0 <= i < j < |ids| ==> ids[i] != ids[j]
  }

  /** The position of the first occurrence of `x`. */
  function FirstIndex(ids: seq<int>, x: int): (i: nat)
    requires x in ids
    ensures i < |ids| && ids[i] == x
    ensures forall j :: 0 <= j < i ==> ids[j] != x
  {
    if ids[0] == x then 0 else 1 + FirstIndex(ids[1..], x)
  }

  /** `list.remove`: the sequence without the first occurrence of `x`. */
  function RemoveFirst(ids: seq<int>, x: int): (r: seq<int>)
    requires x in ids
  {
    var i := FirstIndex(ids, x);
    ids[..i] + ids[i + 1..]
  }

  /** Removing one occurrence keeps the others distinct, and with distinct ids `x` is gone. */
  lemma RemoveFirstDistinct(ids: seq<int>, x: int)
    requires x in ids && Distinct(ids)
    ensures |RemoveFirst(ids, x)| == |ids| - 1
    ensures Distinct(RemoveFirst(ids, x)) && x !in RemoveFirst(ids, x)
    ensures forall y :: y in RemoveFirst(ids, x) <==> y in ids && y != x
  {
    var i := FirstIndex(ids, x);
    var r := RemoveFirst(ids, x);
    assert forall k :: 0 <= k < |r| ==> r[k] == if k < i then ids[k] else ids[k + 1];
  }

  /** The ids in 0..n-1. */
  function Range(n: nat): (s: set<int>)
    ensures |s| == n
    ensures forall v :: v in s <==> 0 <= v < n
  {
    if n == 0 then {} else Range(n - 1) + {n - 1}
  }

  /** Fewer ids than candidates leave a candidate in [MIN_ID, MAX_ID] unused. */
  lemma {:induction false} FreeIdExists(ids: seq<int>)
    requires |ids| < MAX_ID - MIN_ID + 1
    ensures exists v :: MIN_ID <= v <= MAX_ID && v !in ids
  {
    var used := set v | v in ids;
    var candidates := Range(MAX_ID + 1);
    assert |used| <= |ids| by { SetOfSeqSize(ids); }
    if forall v :: MIN_ID <= v <= MAX_ID ==> v in ids {
      assert candidates <= used;
      assert |candidates| <= |used| by { SubsetSize(candidates, used); }
      assert false;
    }
  }

  lemma {:induction false} SetOfSeqSize(ids: seq<int>)
    ensures |set v | v in ids| <= |ids|
  {
    if ids != [] {
      SetOfSeqSize(ids[1..]);
      assert (set v | v in ids) == (set v | v in ids[1..]) + {ids[0]};
    }
  }

  lemma SubsetSize(a: set<int>, b: set<int>)
    requires a <= b
    ensures |a| <= |b|
  {
    assert b == a + (b - a);
    assert a * (b - a) == {};
  }

  /** A cube: its address and the side that faces up. */
  class Cube {
    var id: int
    var side: int

    /** A cube's side is one of the six faces. */
    predicate Valid()
      reads this
    {
      1 <= side <= 6
    }

    /** A new cube with the given id; `side` is the draw of random.randint(1, 6). */
    constructor (id: int, side: int)
      requires 1 <= side <= 6
      ensures Valid() && this.id == id && this.side == side
    {
      this.id := id;
      this.side := side;
    }

    /** Give the cube the id `id` and the new side `side`, a draw of random.randint(1, 6). */
    method Flip(id: int, side: int)
      requires 1 <= side <= 6
      modifies this
      ensures Valid() && this.id == id && this.side == side
    {
      this.id := id;
      this.side := side;
    }
  }

  /** The ids of a list of cubes, in list order. */
  function Ids(cubes: seq<Cube>): (ids: seq<int>)
    reads cubes
    ensures |ids| == |cubes|
    ensures forall i :: 0 <= i < |cubes| ==> ids[i] == cubes[i].id
  {
    if cubes == [] then [] else [cubes[0].id] + Ids(cubes[1..])
  }

  /** The ids of two lists of cubes, one after the other. */
  lemma {:induction false} IdsAppend(a: seq<Cube>, b: seq<Cube>)
    ensures Ids(a + b) == Ids(a) + Ids(b)
  {
    if a == [] {
      assert a + b == b;
    } else {
      assert (a + b)[1..] == a[1..] + b;
      IdsAppend(a[1..], b);
    }
  }

  /** The ids of a prefix are the prefix of the ids. */
  lemma {:induction false} IdsTake(cubes: seq<Cube>, i: nat)
    requires i <= |cubes|
    ensures Ids(cubes[..i]) == Ids(cubes)[..i]
  {
    if i > 0 {
      assert cubes[..i][1..] == cubes[1..][..i - 1];
      IdsTake(cubes[1..], i - 1);
    }
  }

  /** The ids of a suffix are the suffix of the ids. */
  lemma {:induction false} IdsDrop(cubes: seq<Cube>, i: nat)
    requires i <= |cubes|
    ensures Ids(cubes[i..]) == Ids(cubes)[i..]
  {
    if i == 0 {
      assert cubes[i..] == cubes;
    } else {
      assert cubes[i..] == cubes[1..][i - 1..];
      IdsDrop(cubes[1..], i - 1);
    }
  }

  /** Taking one cube out of the list takes its id out of the ids. */
  lemma IdsRemoveAt(cubes: seq<Cube>, i: nat)
    requires i < |cubes|
    ensures Ids(cubes[..i] + cubes[i + 1..]) == Ids(cubes)[..i] + Ids(cubes)[i + 1..]
  {
    IdsAppend(cubes[..i], cubes[i + 1..]);
    IdsTake(cubes, i);
    IdsDrop(cubes, i + 1);
  }

  /** Taking out the first cube with id `x` takes the first `x` out of the ids. */
  lemma RemoveCubeWithId(cubes: seq<Cube>, x: int)
    requires x in Ids(cubes)
    ensures var ids := Ids(cubes);
            var i := FirstIndex(ids, x);
            && Ids(cubes[..i] + cubes[i + 1..]) == RemoveFirst(ids, x)
            && (Distinct(ids) ==>
                  Distinct(RemoveFirst(ids, x)) && x !in RemoveFirst(ids, x) && |RemoveFirst(ids, x)| == |cubes| - 1)
  {
    var ids := Ids(cubes);
    IdsRemoveAt(cubes, FirstIndex(ids, x));
    if Distinct(ids) {
      RemoveFirstDistinct(ids, x);
    }
  }

  /** The first cube of `cubes` whose id is `target`, scanning from the front. */
  function FirstWithId(cubes: seq<Cube>, target: int): (r: Option<Cube>)
    reads cubes
    ensures r.None? <==> target !in Ids(cubes)
    ensures r.Some? ==> r.value == cubes[FirstIndex(Ids(cubes), target)] && r.value.id == target
  {
    if cubes == [] then None
    else if cubes[0].id == target then Some(cubes[0])
    else
      assert Ids(cubes)[1..] == Ids(cubes[1..]);
      FirstWithId(cubes[1..], target)
  }

  /** A network of cubes with a capacity `size`. */
  class Network {
    var network: seq<Cube>
    var size: int

    /** An empty network of capacity `size`. */
    constructor (size: int)
      ensures network == [] && this.size == size
    {
      network := [];
      this.size := size;
    }

    /** The ids of the cubes, in the order they joined. */
    function Addresses(): (ids: seq<int>)
      reads this, network
      ensures |ids| == |network|
      ensures forall i :: 0 <= i < |network| ==> ids[i] == network[i].id
    {
      Ids(network)
    }

    /** Whether the network holds exactly `size` cubes. */
    function Full(): (b: bool)
      reads this, network
      ensures b <==> |Addresses()| == size
    {
      |network| == size
    }

    /** Whether the network holds no cube. */
    function Empty(): (b: bool)
      reads this, network
      ensures b <==> Addresses() == []
    {
      |network| == 0
    }

    /** The allocator loop draws until it finds a free id, so the draws must hold one. */
    predicate DrawsHitFreeId(draws: seq<int>)
      reads this, network
    {
      exists k :: 0 <= k < |draws| && draws[k] !in Addresses()
    }

    /** The first cube with id `target`, or None when no cube has it. */
    function GetCubeById(target: int): (r: Option<Cube>)
      reads this, network
      ensures r.None? <==> target !in Addresses()
      ensures r.Some? ==> r.value == network[FirstIndex(Addresses(), target)]
    {
      FirstWithId(network, target)
    }

    /**
     * Allocate an id that no cube has. Fails when the network is full or holds
     * 255 cubes or more; otherwise returns the first draw that is not in use.
     * Draws come from [MIN_ID, MAX_ID], both ends included, so the id may be one
     * that an explicit `Join` would reject.
     */
    method GetUniqueCubeId(draws: seq<int>) returns (r: Result<int, NetError>)
      requires forall k :: 0 <= k < |draws| ==> MIN_ID <= draws[k] <= MAX_ID
      requires !Full() && |network| < MAX_ID ==> DrawsHitFreeId(draws)
      ensures r.Failure? <==> Full() || |network| >= MAX_ID
      ensures r.Failure? ==> r.error == NetworkFull
      ensures r.Success? ==> MIN_ID <= r.value <= MAX_ID && r.value !in Addresses()
      ensures r.Success? ==> exists k :: 0 <= k < |draws| && draws[k] == r.value &&
                                         forall j :: 0 <= j < k ==> draws[j] in Addresses()
    {
      if Full() || |network| >= MAX_ID {
        return Failure(NetworkFull);
      }
      var ids := Addresses();
      var k := 0;
      var candidate := draws[0];
      // The source tests the candidate against the list of cubes (testing/utils.py:73);
      // the test is against their ids here.
      while candidate in ids
        invariant 0 <= k < |draws| && candidate == draws[k]
        invariant forall j :: 0 <= j < k ==> draws[j] in ids
        invariant exists j :: k <= j < |draws| && draws[j] !in ids
        decreases |draws| - k
      {
        k := k + 1;
        candidate := draws[k];
      }
      return Success(candidate);
    }

    /**
     * Add a cube. With an explicit id, the id must be unused and strictly
     * between 0x00 and 0xFF, and the capacity is not checked; without one, an id
     * is allocated. The new cube's side is `side`.
     */
    method Join(cubeId: Option<int>, draws: seq<int>, side: int) returns (r: Result<int, NetError>)
      requires 1 <= side <= 6
      requires forall k :: 0 <= k < |draws| ==> MIN_ID <= draws[k] <= MAX_ID
      requires cubeId.None? && !Full() && |network| < MAX_ID ==> DrawsHitFreeId(draws)
      modifies this
      ensures size == old(size)
      ensures cubeId.Some? && cubeId.value in old(Addresses()) ==>
                r == Failure(AddressInUse(cubeId.value))
      ensures cubeId.Some? && cubeId.value !in old(Addresses()) && !(0x00 < cubeId.value < 0xFF) ==>
                r == Failure(AddressOutOfRange(cubeId.value))
      ensures cubeId.None? && (old(Full()) || old(|network|) >= MAX_ID) ==> r == Failure(NetworkFull)
      ensures r.Success? <==>
                if cubeId.Some? then cubeId.value !in old(Addresses()) && 0x00 < cubeId.value < 0xFF
                else !old(Full()) && old(|network|) < MAX_ID
      ensures r.Failure? ==> network == old(network)
      ensures r.Success? && cubeId.Some? ==> r.value == cubeId.value
      ensures r.Success? && cubeId.None? ==>
                exists k :: 0 <= k < |draws| && draws[k] == r.value &&
                            forall j :: 0 <= j < k ==> draws[j] in old(Addresses())
      ensures r.Success? ==> r.value !in old(Addresses())
      ensures r.Success? ==>
                && |network| == old(|network|) + 1
                && network[..old(|network|)] == old(network)
                && fresh(network[old(|network|)])
                && network[old(|network|)].id == r.value
                && network[old(|network|)].side == side
                && Addresses() == old(Addresses()) + [r.value]
      ensures old(Distinct(Addresses())) ==> Distinct(Addresses())
      ensures cubeId.None? && old(|network|) <= size ==> |network| <= size
    {
      var id: int;
      match cubeId {
        case Some(requested) =>
          if requested in Addresses() {
            return Failure(AddressInUse(requested));
          }
          if !(0x00 < requested < 0xFF) {
            return Failure(AddressOutOfRange(requested));
          }
          id := requested;
        case None =>
          // The source checks the range before it knows whether an id was given
          // (testing/utils.py:49, 51); the range is checked for a given id only here.
          var drawn := GetUniqueCubeId(draws);
          if drawn.Failure? {
            return Failure(drawn.error);
          }
          id := drawn.value;
      }
      var cube := new Cube(id, side);
      network := network + [cube];
      return Success(id);
    }

    /**
     * Remove a cube and return its id. Without an id, the cube at index `choice`
     * (the pick of random.choice) is removed. The first cube with the id goes;
     * the others keep their order.
     */
    method Exit(cubeId: Option<int>, choice: nat) returns (r: Result<int, NetError>)
      requires cubeId.None? && |network| > 0 ==> choice < |network|
      modifies this
      ensures size == old(size)
      ensures old(|network|) == 0 ==> r == Failure(NetworkEmpty)
      ensures old(|network|) > 0 && cubeId.Some? && cubeId.value !in old(Addresses()) ==>
                r == Failure(AddressNotInUse(cubeId.value))
      ensures r.Success? <==> old(|network|) > 0 && (cubeId.None? || cubeId.value in old(Addresses()))
      ensures r.Failure? ==> network == old(network)
      ensures r.Success? && cubeId.Some? ==> r.value == cubeId.value
      ensures r.Success? && cubeId.None? ==> old(|network|) > 0 && r.value == old(network[choice].id)
      ensures r.Success? ==>
                (r.value in old(Addresses()) &&
                 var i := FirstIndex(old(Addresses()), r.value);
                 network == old(network[..i] + network[i + 1..]))
      ensures r.Success? ==> Addresses() == RemoveFirst(old(Addresses()), r.value)
      ensures r.Success? && old(Distinct(Addresses())) ==>
                Distinct(Addresses()) && r.value !in Addresses() && |network| == old(|network|) - 1
    {
      if |network| == 0 {
        return Failure(NetworkEmpty);
      }
      var id: int;
      match cubeId {
        case Some(requested) =>
          id := requested;
        case None =>
          // The source picks a cube rather than its id (testing/utils.py:62); the id
          // of the picked cube is used here.
          id := network[choice].id;
      }
      if id !in Addresses() {
        return Failure(AddressNotInUse(id));
      }
      Remove(id);
      return Success(id);
    }

    /**
     * `list.remove` on the cubes: the first cube with id `id` goes and the
     * others keep their order. The source removes the id itself from the list of
     * cubes (testing/utils.py:65); the first cube carrying the id is removed here.
     */
    method Remove(id: int)
      requires id in Addresses()
      modifies this
      ensures size == old(size)
      ensures var i := FirstIndex(old(Addresses()), id);
              network == old(network[..i] + network[i + 1..])
      ensures Addresses() == RemoveFirst(old(Addresses()), id)
      ensures old(Distinct(Addresses())) ==>
                Distinct(Addresses()) && id !in Addresses() && |network| == old(|network|) - 1
    {
      var ids := Addresses();
      var i := FirstIndex(ids, id);
      var rest := network[..i] + network[i + 1..];
      RemoveCubeWithId(network, id);
      assert Ids(rest) == RemoveFirst(ids, id);
      network := rest;
    }
  }

  /** Two cubes join an empty network of capacity 2; a third finds it full; both leave, and a third exit finds it empty. */
  method CapacityScenario()
  {
    var net := new Network(2);
    assert net.Addresses() == [];
    assert [7][0] !in net.Addresses();
    var a := net.Join(None, [7], 3);
    assert a == Success(7);
    assert net.Addresses() == [7];
    assert [7, 9][1] !in net.Addresses();
    var b := net.Join(None, [7, 9], 5);
    assert b == Success(9);
    var c := net.Join(None, [], 1);
    assert c == Failure(NetworkFull);
    var d := net.Exit(None, 0);
    assert d == Success(7);
    var e := net.Exit(Some(9), 0);
    assert e == Success(9);
    var f := net.Exit(None, 0);
    assert f == Failure(NetworkEmpty);
  }
}
