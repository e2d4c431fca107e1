/**
 * The debug terrain classifier of src/terrain/mod.rs: the block type of a
 * column is looked up by the rounded-up height in a fixed list of bands,
 * first match wins, 0 when no band holds the height.
 *
 * A band `(id, lo, hi)` is Rust's `(id, lo..hi)`: it holds h when
 * lo <= h < hi.
 */
module Terrain {

  type Band = (int, int, int)

  /** The bands of `DebugTerrainGenerator`, in the order they are tried. */
  const BANDS: seq<Band> := [(1, 7, 40), (2, 5, 7), (3, 4, 5), (4, 2, 4), (3, 0, 2)]

  predicate Holds(b: Band, h: int) {
    b.1 <= h < b.2
  }

  /** The id of the first band of `bands` holding h, or 0 when none does. */
  function FirstMatch(bands: seq<Band>, h: int): (id: int)
    ensures id == 0 || exists i :: 0 <= i < |bands| && Holds(bands[i], h) && bands[i].0 == id
  {
    if bands == [] then 0
    else if Holds(bands[0], h) then bands[0].0
    else
      var id := FirstMatch(bands[1..], h);
      assert id != 0 ==> exists i :: 1 <= i < |bands| && Holds(bands[i], h) && bands[i].0 == id by {
        if id != 0 {
          var i :| 0 <= i < |bands[1..]| && Holds(bands[1..][i], h) && bands[1..][i].0 == id;
          assert bands[i + 1] == bands[1..][i];
        }
      }
      id
  }

  /** The first-match result on `BANDS`, one band at a time. */
  lemma BandsLookup(h: int)
    ensures FirstMatch(BANDS, h) ==
      if 7 <= h < 40 then 1 else if 5 <= h < 7 then 2 else if 4 <= h < 5 then 3
      else if 2 <= h < 4 then 4 else if 0 <= h < 2 then 3 else 0
  {
    var b := BANDS;
    assert b[1..] == [(2, 5, 7), (3, 4, 5), (4, 2, 4), (3, 0, 2)];
    assert b[1..][1..] == [(3, 4, 5), (4, 2, 4), (3, 0, 2)];
    assert b[1..][1..][1..] == [(4, 2, 4), (3, 0, 2)];
    assert b[1..][1..][1..][1..] == [(3, 0, 2)];
    assert b[1..][1..][1..][1..][1..] == [];
  }

  /**
   * `get_block_type` on the height rounded up, `h`: each band's id on its
   * range, 0 below 0 and from 40 on.
   */
  function GetBlockType(h: int): (id: int)
    ensures id == 1 <==> 7 <= h < 40
    ensures id == 2 <==> 5 <= h < 7
    ensures id == 3 <==> 4 <= h < 5 || 0 <= h < 2
    ensures id == 4 <==> 2 <= h < 4
    ensures id == 0 <==> h < 0 || 40 <= h
  {
    BandsLookup(h);
    FirstMatch(BANDS, h)
  }

  /** The least integer not below r: `f64::ceil`. */
  function Ceil(r: real): (c: int)
    ensures r <= c as real < r + 1.0
  {
    -((-r).Floor)
  }

  /**
   * `DebugTerrainGenerator::get_block_type(height)`. The float-to-`i32`
   * cast saturates, which changes no result: every saturated value lies
   * outside [0, 40) like the height it came from.
   */
  function DebugBlockType(height: real): (id: int)
    ensures 0 <= id <= 4
    ensures id != 0 <==> -1.0 < height <= 39.0
  {
    GetBlockType(Ceil(height))
  }

  /** No two different bands of the list share a height. */
  ghost predicate Disjoint(bands: seq<Band>) {
    forall a, b, h :: a in bands && b in bands && Holds(a, h) && Holds(b, h) ==> a == b
  }

  /** Some band of the list holds h. */
  ghost predicate Covered(bands: seq<Band>, h: int) {
    exists b :: b in bands && Holds(b, h)
  }

  /** Band ends are excluded: 7 is in the first band, 40 in none. */
  lemma BandEdges()
    ensures GetBlockType(6) == 2 && GetBlockType(7) == 1
    ensures GetBlockType(39) == 1 && GetBlockType(40) == 0
    ensures GetBlockType(-1) == 0 && GetBlockType(0) == 3 && GetBlockType(2) == 4
  {
  }

  /** The bands are pairwise disjoint and together cover exactly [0, 40). */
  lemma BandsPartition()
    ensures Disjoint(BANDS)
    ensures forall h :: 0 <= h < 40 <==> Covered(BANDS, h)
  {
    forall h | 0 <= h < 40
      ensures Covered(BANDS, h)
    {
      if h >= 7 { assert Holds(BANDS[0], h); }
      else if h >= 5 { assert Holds(BANDS[1], h); }
      else if h >= 4 { assert Holds(BANDS[2], h); }
      else if h >= 2 { assert Holds(BANDS[3], h); }
      else { assert Holds(BANDS[4], h); }
    }
  }

  /** In a disjoint list, any band holding h gives the first-match result. */
  lemma {:induction false} FirstMatchAt(bands: seq<Band>, h: int, b: Band)
    requires Disjoint(bands) && b in bands && Holds(b, h)
    ensures FirstMatch(bands, h) == b.0
    decreases |bands|
  {
    if !Holds(bands[0], h) {
      assert forall c :: c in bands[1..] ==> c in bands;
      assert b in bands[1..] by {
        var k :| 0 <= k < |bands| && bands[k] == b;
        assert bands[1..][k - 1] == b;
      }
      FirstMatchAt(bands[1..], h, b);
    }
  }

  /** When no band holds h, the result is 0. */
  lemma {:induction false} FirstMatchMiss(bands: seq<Band>, h: int)
    requires !Covered(bands, h)
    ensures FirstMatch(bands, h) == 0
    decreases |bands|
  {
    if bands != [] {
      assert bands[0] in bands;
      assert forall c :: c in bands[1..] ==> c in bands;
      FirstMatchMiss(bands[1..], h);
    }
  }

  /** Trying the same bands in any other order gives the same block type. */
  lemma OrderIrrelevant(bands: seq<Band>, h: int)
    requires multiset(bands) == multiset(BANDS)
    ensures FirstMatch(bands, h) == GetBlockType(h)
  {
    BandsPartition();
    forall b
      ensures b in bands <==> b in BANDS
    {
      assert b in bands <==> b in multiset(bands);
      assert b in BANDS <==> b in multiset(BANDS);
    }
    if Covered(BANDS, h) {
      var b :| b in BANDS && Holds(b, h);
      FirstMatchAt(bands, h, b);
      FirstMatchAt(BANDS, h, b);
    } else {
      FirstMatchMiss(bands, h);
    }
  }
}
