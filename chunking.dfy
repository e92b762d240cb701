/**
 * Cutting content into pieces the way the simulator's loop does:
 * `for i in range(0, len(content), size): content[i:i+size]`.
 */
module Chunking {
  import opened Text

  /** The slices `s[i:i+size]` for i = start, start+size, ... while i < len(s); a slice clips at the end. */
  function PiecesFrom<T>(s: seq<T>, size: nat, start: nat): seq<seq<T>>
    requires size > 0
    decreases |s| - start
  {
    if start >= |s| then [] else [s[start..Min(start + size, |s|)]] + PiecesFrom(s, size, start + size)
  }

  function Pieces<T>(s: seq<T>, size: nat): seq<seq<T>>
    requires size > 0
  {
    PiecesFrom(s, size, 0)
  }

  lemma {:induction false} PiecesFromFlatten<T>(s: seq<T>, size: nat, start: nat)
    requires size > 0 && start <= |s|
    ensures Flatten(PiecesFrom(s, size, start)) == s[start..]
    decreases |s| - start
  {
    if start < |s| {
      var stop := Min(start + size, |s|);
      var rest := PiecesFrom(s, size, start + size);
      assert PiecesFrom(s, size, start) == [s[start..stop]] + rest;
      if start + size <= |s| {
        PiecesFromFlatten(s, size, start + size);
      } else {
        assert rest == [];
      }
      assert ([s[start..stop]] + rest)[1..] == rest;
      assert s[start..] == s[start..stop] + s[stop..];
    }
  }

  lemma {:induction false} PiecesFromSizes<T>(s: seq<T>, size: nat, start: nat)
    requires size > 0
    ensures forall p :: p in PiecesFrom(s, size, start) ==> 0 < |p| <= size
    decreases |s| - start
  {
    if start < |s| {
      PiecesFromSizes(s, size, start + size);
    }
  }

  /** The piece count n is ceil(len/size): n pieces of at most `size` cover the rest, n - 1 do not. */
  lemma {:induction false} PiecesFromCount<T>(s: seq<T>, size: nat, start: nat)
    requires size > 0 && start <= |s|
    ensures |s| - start <= |PiecesFrom(s, size, start)| * size < |s| - start + size
    decreases |s| - start
  {
    var n := |PiecesFrom(s, size, start)|;
    if start < |s| {
      var m := |PiecesFrom(s, size, start + size)|;
      assert n == m + 1;
      assert n * size == m * size + size;
      if start + size <= |s| {
        PiecesFromCount(s, size, start + size);
      }
    }
  }

  lemma {:induction false} PiecesFromAt<T>(s: seq<T>, size: nat, start: nat, k: nat)
    requires size > 0
    requires k < |PiecesFrom(s, size, start)|
    ensures start + k * size < |s|
    ensures PiecesFrom(s, size, start)[k] == s[start + k * size .. Min(start + k * size + size, |s|)]
    decreases |s| - start
  {
    if k > 0 {
      PiecesFromAt(s, size, start + size, k - 1);
      assert start + size + (k - 1) * size == start + k * size;
    }
  }

  /**
   * The pieces of non-empty `s` are `s[i:i+size]` for i = 0, size, 2*size, ...:
   * there are ceil(len/size) of them (the least n with n * size >= len), none is empty or longer than `size`,
   * and joined in order they give back `s`.
   */
  lemma PiecesSpec<T>(s: seq<T>, size: nat)
    requires size > 0
    ensures |s| <= |Pieces(s, size)| * size < |s| + size
    ensures forall p :: p in Pieces(s, size) ==> 0 < |p| <= size
    ensures Flatten(Pieces(s, size)) == s
    ensures forall k :: 0 <= k < |Pieces(s, size)| ==>
      k * size < |s| && Pieces(s, size)[k] == s[k * size .. Min(k * size + size, |s|)]
  {
    PiecesFromCount(s, size, 0);
    PiecesFromSizes(s, size, 0);
    PiecesFromFlatten(s, size, 0);
    forall k | 0 <= k < |Pieces(s, size)|
      ensures k * size < |s| && Pieces(s, size)[k] == s[k * size .. Min(k * size + size, |s|)]
    {
      PiecesFromAt(s, size, 0, k);
    }
  }

  /** Example: "Hello, world!" in pieces of five. */
  lemma HelloWorldPieces()
    ensures Pieces("Hello, world!", 5) == ["Hello", ", wor", "ld!"]
  {
    var s := "Hello, world!";
    assert PiecesFrom(s, 5, 15) == [];
    assert s[10..13] == "ld!";
    assert PiecesFrom(s, 5, 10) == [s[10..13]] + PiecesFrom(s, 5, 15);
    assert s[5..10] == ", wor";
    assert PiecesFrom(s, 5, 5) == [s[5..10]] + PiecesFrom(s, 5, 10);
    assert s[0..5] == "Hello";
    assert PiecesFrom(s, 5, 0) == [s[0..5]] + PiecesFrom(s, 5, 5);
  }
}
