/**
  The canonical audit leaf of shared/src/at_shared/audit_events.py: keccak256 of
  "v1|part|part|...". A part is its UTF-8 encoding.
 */
module AuditEvents {
  import opened Hashing
  import opened Merkle

  const PIPE: byte := 124
  const LEAF_VERSION: Bytes := [118, 49]

  function Join(parts: seq<Bytes>): Bytes {
    if |parts| == 0 then []
    else if |parts| == 1 then parts[0]
    else parts[0] + [PIPE] + Join(parts[1..])
  }

  function Canonical(parts: seq<Bytes>): Bytes { LEAF_VERSION + [PIPE] + Join(parts) }

  function AuditLeaf(k: Keccak, parts: seq<Bytes>): Digest { k(Canonical(parts)) }

  /** The encoding in full: "v1|" and then the fields in their order, with a "|" between any two. */
  lemma {:induction false} EncodingInFull(parts: seq<Bytes>, more: seq<Bytes>)
    ensures Canonical(parts) == [118, 49, 124] + Join(parts)
    ensures Join([]) == [] && forall part: Bytes :: Join([part]) == part
    ensures parts != [] && more != [] ==> Join(parts + more) == Join(parts) + [124] + Join(more)
    decreases |parts|
  {
    if |parts| > 1 && more != [] {
      EncodingInFull(parts[1..], more);
      assert (parts + more)[1..] == parts[1..] + more;
      assert Join(parts + more) == parts[0] + [PIPE] + (Join(parts[1..]) + [124] + Join(more));
    } else if |parts| == 1 {
      assert (parts + more)[1..] == more;
    }
  }

  predicate PipeFree(parts: seq<Bytes>) {
    forall i | 0 <= i < |parts| :: PIPE !in parts[i]
  }

  lemma FirstPipeSplits(x: Bytes, u: Bytes, y: Bytes, v: Bytes)
    requires PIPE !in x && PIPE !in y
    requires x + [PIPE] + u == y + [PIPE] + v
    ensures x == y && u == v
  {
    var s := x + [PIPE] + u;
    assert s[|x|] == PIPE && s[|y|] == PIPE;
    assert forall i | 0 <= i < |x| :: s[i] == x[i];
    assert forall i | 0 <= i < |y| :: s[i] == y[i];
    assert |x| == |y|;
    assert x == s[..|x|] == y;
    assert u == s[|x| + 1..] == v;
  }

  lemma {:induction false} JoinIsInjective(a: seq<Bytes>, b: seq<Bytes>)
    requires |a| == |b| && PipeFree(a) && PipeFree(b)
    requires Join(a) == Join(b)
    ensures a == b
    decreases |a|
  {
    if |a| > 1 {
      FirstPipeSplits(a[0], Join(a[1..]), b[0], Join(b[1..]));
      JoinIsInjective(a[1..], b[1..]);
      assert a == [a[0]] + a[1..] && b == [b[0]] + b[1..];
    }
  }

  function Pipes(s: Bytes): nat { multiset(s)[PIPE] }

  /** An encoding holds a "|" between any two fields, and no other exactly if its fields hold none. */
  lemma {:induction false} PipesOfJoin(parts: seq<Bytes>)
    requires parts != []
    ensures Pipes(Join(parts)) >= |parts| - 1
    ensures Pipes(Join(parts)) == |parts| - 1 <==> PipeFree(parts)
    decreases |parts|
  {
    if |parts| > 1 {
      PipesOfJoin(parts[1..]);
      assert Pipes(Join(parts)) == Pipes(parts[0]) + 1 + Pipes(Join(parts[1..]));
      assert parts == [parts[0]] + parts[1..];
    }
  }

  lemma SameCanonicalSameJoin(a: seq<Bytes>, b: seq<Bytes>)
    ensures Canonical(a) == Canonical(b) <==> Join(a) == Join(b)
  {
    assert Join(a) == Canonical(a)[|LEAF_VERSION| + 1..];
    assert Join(b) == Canonical(b)[|LEAF_VERSION| + 1..];
  }

  /**
    An event with "|"-free fields encodes apart from every other event of as many fields or more,
    whatever their fields hold.
   */
  lemma EncodingIsInjective(recorded: seq<Bytes>, claimed: seq<Bytes>)
    requires |recorded| == |claimed| || 0 < |recorded| < |claimed|
    requires PipeFree(recorded)
    ensures Canonical(recorded) == Canonical(claimed) <==> recorded == claimed
  {
    SameCanonicalSameJoin(recorded, claimed);
    if Join(recorded) == Join(claimed) && recorded != [] {
      PipesOfJoin(recorded);
      PipesOfJoin(claimed);
      JoinIsInjective(recorded, claimed);
    }
  }

  // -------------------------------------------------- a "|" inside a field

  /** Text may move across the boundary of two neighbouring fields, wherever they stand. */
  lemma {:induction false} BoundaryMoves(before: seq<Bytes>, x: Bytes, y: Bytes, z: Bytes, rest: seq<Bytes>)
    ensures Join(before + [x + [PIPE] + y, z] + rest) == Join(before + [x, y + [PIPE] + z] + rest)
    decreases |before|
  {
    var a, b := before + [x + [PIPE] + y, z] + rest, before + [x, y + [PIPE] + z] + rest;
    if before == [] {
      assert a[1..] == [z] + rest && b[1..] == [y + [PIPE] + z] + rest;
      JoinOfMore(z, rest);
      JoinOfMore(y + [PIPE] + z, rest);
      var tail := if rest == [] then [] else [PIPE] + Join(rest);
      assert x + [PIPE] + y + [PIPE] + (z + tail) == x + [PIPE] + (y + [PIPE] + z + tail);
    } else {
      assert a[1..] == before[1..] + [x + [PIPE] + y, z] + rest;
      assert b[1..] == before[1..] + [x, y + [PIPE] + z] + rest;
      BoundaryMoves(before[1..], x, y, z, rest);
    }
  }

  lemma JoinOfMore(first: Bytes, rest: seq<Bytes>)
    ensures Join([first] + rest) == first + if rest == [] then [] else [PIPE] + Join(rest)
  {
    assert ([first] + rest)[1..] == rest;
    if rest == [] {
      assert first + [] == first;
    }
  }

  function IndexOf(s: Bytes): (n: nat)
    requires PIPE in s
    ensures n < |s| && s[n] == PIPE
  {
    if s[0] == PIPE then 0 else 1 + IndexOf(s[1..])
  }

  /** The text of field i up to its first "|", and from there on. */
  function BeforePipe(field: Bytes): Bytes
    requires PIPE in field
  {
    field[..IndexOf(field)]
  }

  function AfterPipe(field: Bytes): Bytes
    requires PIPE in field
  {
    field[IndexOf(field) + 1..]
  }

  lemma FieldSplits(field: Bytes)
    requires PIPE in field
    ensures field == BeforePipe(field) + [PIPE] + AfterPipe(field)
  {
  }

  /** The event whose field i ends, or for the last field begins, at the first "|" it held. */
  function Shifted(event: seq<Bytes>, i: nat): (other: seq<Bytes>)
    requires i < |event| && |event| >= 2 && PIPE in event[i]
    ensures |other| == |event| && |other[i]| < |event[i]|
  {
    var (x, y) := (BeforePipe(event[i]), AfterPipe(event[i]));
    if i + 1 < |event| then event[..i] + [x, y + [PIPE] + event[i + 1]] + event[i + 2..]
    else event[..i - 1] + [event[i - 1] + [PIPE] + x, y] + []
  }

  lemma PairInEvent(event: seq<Bytes>, i: nat)
    requires i + 1 < |event|
    ensures event == event[..i] + [event[i], event[i + 1]] + event[i + 2..]
  {
  }

  lemma ShiftedForward(event: seq<Bytes>, i: nat)
    requires i + 1 < |event| && PIPE in event[i]
    ensures Join(Shifted(event, i)) == Join(event)
  {
    hide Join, BeforePipe, AfterPipe;
    FieldSplits(event[i]);
    PairInEvent(event, i);
    BoundaryMoves(event[..i], BeforePipe(event[i]), AfterPipe(event[i]), event[i + 1], event[i + 2..]);
  }

  lemma ShiftedBackward(event: seq<Bytes>, i: nat)
    requires |event| >= 2 && i + 1 == |event| && PIPE in event[i]
    ensures Join(Shifted(event, i)) == Join(event)
  {
    hide Join, BeforePipe, AfterPipe;
    FieldSplits(event[i]);
    PairInEvent(event, i - 1);
    assert event[i + 1..] == [];
    BoundaryMoves(event[..i - 1], event[i - 1], BeforePipe(event[i]), AfterPipe(event[i]), []);
  }

  /** A "|" in a field, of whatever event with two fields or more, gives another event the same leaf. */
  lemma PipeInsideFieldIsAmbiguous(k: Keccak, event: seq<Bytes>, i: nat)
    requires i < |event| && |event| >= 2 && PIPE in event[i]
    ensures Shifted(event, i) != event && Canonical(Shifted(event, i)) == Canonical(event)
    ensures AuditLeaf(k, Shifted(event, i)) == AuditLeaf(k, event)
  {
    if i + 1 < |event| {
      ShiftedForward(event, i);
    } else {
      ShiftedBackward(event, i);
    }
  }

  /** The proof of the recorded event then verifies for the shifted one as well. */
  lemma ShiftedEventVerifies(k: Keccak, leaves: seq<Digest>, index: nat, recorded: seq<Bytes>, i: nat)
    requires index < |leaves| && leaves[index] == AuditLeaf(k, recorded)
    requires i < |recorded| && |recorded| >= 2 && PIPE in recorded[i]
    ensures Shifted(recorded, i) != recorded
    ensures Accepts(k, AuditLeaf(k, Shifted(recorded, i)), Proof(k, leaves, index), Root(k, leaves))
  {
    PipeInsideFieldIsAmbiguous(k, recorded, i);
    GeneratedProofVerifies(k, leaves, index);
  }

  /**
    The leaf encoding tells an event from every other one of its arity, whoever makes it up,
    exactly if none of its own fields holds a "|".
   */
  lemma EncodingIdentifiesEvent(event: seq<Bytes>)
    requires |event| >= 2
    ensures (forall other | |other| == |event| && Canonical(other) == Canonical(event) :: other == event)
            <==> PipeFree(event)
  {
    if PipeFree(event) {
      forall other | |other| == |event| && Canonical(other) == Canonical(event)
        ensures other == event
      {
        EncodingIsInjective(event, other);
      }
    } else {
      var i :| 0 <= i < |event| && PIPE in event[i];
      PipeInsideFieldIsAmbiguous(_ => ZERO_DIGEST, event, i);
    }
  }

  /** The number of fields must be known: two neighbours can always be read as one. */
  lemma FewerFieldsAreAmbiguous(event: seq<Bytes>)
    requires |event| >= 2
    ensures var other := [event[0] + [PIPE] + event[1]] + event[2..];
            |other| == |event| - 1 && Canonical(other) == Canonical(event)
  {
    var rest := event[2..];
    JoinOfMore(event[0] + [PIPE] + event[1], rest);
    JoinOfMore(event[1], rest);
    assert event[1..] == [event[1]] + rest;
  }

  /**
    Tamper detection: if the recorded event of leaf `index` is changed in any field, to whatever
    bytes, a proof that leads to that leaf no longer verifies, or the two encodings or the proof
    itself yield a collision.
   */
  lemma TamperedEventIsDetected(
      k: Keccak, leaves: seq<Digest>, index: nat, recorded: seq<Bytes>, claimed: seq<Bytes>, proof: seq<Step>)
    requires index < |leaves| && leaves[index] == AuditLeaf(k, recorded)
    requires |recorded| == |claimed| && PipeFree(recorded)
    requires claimed != recorded
    requires |proof| == Height(|leaves|) && Spelled(proof) == index
    requires Accepts(k, AuditLeaf(k, claimed), proof, Root(k, leaves))
    ensures IsCollision(k, (Canonical(recorded), Canonical(claimed)))
         || IsCollision(k, Forgery(k, leaves, AuditLeaf(k, claimed), proof))
  {
    EncodingIsInjective(recorded, claimed);
    PositionIsSpelled(|leaves|, proof);
    AcceptedLeafIsInBatch(k, leaves, AuditLeaf(k, claimed), proof);
  }
}
