/**
  contracts/src/AuditAnchor.sol: the append-only anchor contract.

  Ledger is the contract's storage and Exec the effect of one call on it; the class keeps
  the Solidity methods, which write the storage in place, and is proved equal to Exec.
 */
module AuditAnchor {
  import opened Wrappers
  import opened Hashing

  type Address = nat
  const ZERO_ADDRESS: Address := 0
  const UINT256_MAX: nat := 0xFFFF_FFFF_FFFF_FFFF_FFFF_FFFF_FFFF_FFFF_FFFF_FFFF_FFFF_FFFF_FFFF_FFFF_FFFF_FFFF

  datatype Ledger = Ledger(
    owner: Address,
    authorized: set<Address>,
    roots: map<nat, Digest>,
    timestamps: map<nat, nat>,
    last: nat)

  datatype Revert =
    | NotAuthorizedAnchor
    | ZeroMerkleRoot
    | BatchAlreadyAnchored(batchId: nat)
    | BatchIdNotStrictlyIncreasing(expectedNext: nat, given: nat)
    | ZeroAddress
    | NotOwner
    | ArithmeticOverflow

  datatype Call =
    | AnchorBatch(sender: Address, batchId: nat, root: Digest, now: nat)
    | AddAnchor(sender: Address, anchor: Address)
    | RemoveAnchor(sender: Address, anchor: Address)
    | OwnerChanged(owner: Address)   // what the inherited Ownable2Step may do, whatever it checks

  function GetBatchRoot(l: Ledger, batchId: nat): Digest {
    if batchId in l.roots then l.roots[batchId] else ZERO_DIGEST
  }

  /** The error a call reverts with, checked in the order of the Solidity code. */
  function Reverts(l: Ledger, c: Call): Option<Revert> {
    match c
    case AnchorBatch(sender, batchId, root, _) =>
      if sender !in l.authorized then Some(NotAuthorizedAnchor)
      else if root == ZERO_DIGEST then Some(ZeroMerkleRoot)
      else if l.last >= UINT256_MAX then Some(ArithmeticOverflow)
      else if batchId != l.last + 1 then
        if GetBatchRoot(l, batchId) != ZERO_DIGEST then Some(BatchAlreadyAnchored(batchId))
        else Some(BatchIdNotStrictlyIncreasing(l.last + 1, batchId))
      else None
    case AddAnchor(sender, anchor) =>
      if sender != l.owner then Some(NotOwner)
      else if anchor == ZERO_ADDRESS then Some(ZeroAddress)
      else None
    case RemoveAnchor(sender, _) =>
      if sender != l.owner then Some(NotOwner) else None
    case OwnerChanged(_) => None
  }

  function Exec(l: Ledger, c: Call): Ledger {
    if Reverts(l, c).Some? then l
    else
      match c
      case AnchorBatch(_, batchId, root, now) =>
        l.(roots := l.roots[batchId := root], timestamps := l.timestamps[batchId := now], last := batchId)
      case AddAnchor(_, anchor) => l.(authorized := l.authorized + {anchor})
      case RemoveAnchor(_, anchor) => l.(authorized := l.authorized - {anchor})
      case OwnerChanged(owner) => l.(owner := owner)
  }

  function ExecAll(l: Ledger, calls: seq<Call>): Ledger
    decreases |calls|
  {
    if calls == [] then l else ExecAll(Exec(l, calls[0]), calls[1..])
  }

  function Deployed(owner: Address, anchor: Address): Ledger {
    Ledger(owner, {anchor}, map[], map[], 0)
  }

  /** Ids 1..last, and only those, carry a non-zero root and a timestamp. */
  ghost predicate WellFormed(l: Ledger) {
    && l.last <= UINT256_MAX
    && (forall id: nat :: id in l.roots <==> 1 <= id <= l.last)
    && (forall id <- l.roots :: l.roots[id] != ZERO_DIGEST)
    && l.timestamps.Keys == l.roots.Keys
  }

  /** l' keeps every batch of l, with its root and its timestamp. */
  ghost predicate Extends(l: Ledger, l': Ledger) {
    && l.last <= l'.last
    && (forall id <- l.roots :: id in l'.roots && l'.roots[id] == l.roots[id])
    && (forall id <- l.timestamps :: id in l'.timestamps && l'.timestamps[id] == l.timestamps[id])
  }

  lemma CallKeepsHistory(l: Ledger, c: Call)
    requires WellFormed(l)
    ensures WellFormed(Exec(l, c)) && Extends(l, Exec(l, c))
  {
  }

  /** Append-only over every history of calls and changes of owner, by anyone, successful or reverted. */
  lemma {:induction false} HistoryIsAppendOnly(l: Ledger, calls: seq<Call>)
    requires WellFormed(l)
    ensures WellFormed(ExecAll(l, calls)) && Extends(l, ExecAll(l, calls))
    decreases |calls|
  {
    if calls != [] {
      CallKeepsHistory(l, calls[0]);
      HistoryIsAppendOnly(Exec(l, calls[0]), calls[1..]);
    }
  }

  /** How many calls of a history write batch id. */
  function Writes(l: Ledger, calls: seq<Call>, id: nat): nat
    decreases |calls|
  {
    if calls == [] then 0
    else
      (if calls[0].AnchorBatch? && calls[0].batchId == id && Reverts(l, calls[0]).None? then 1 else 0)
      + Writes(Exec(l, calls[0]), calls[1..], id)
  }

  /** A batch id is written exactly once if it is anchored in the end, and never twice. */
  lemma {:induction false} BatchIsWrittenOnce(l: Ledger, calls: seq<Call>, id: nat)
    requires WellFormed(l)
    ensures Writes(l, calls, id) == if id in ExecAll(l, calls).roots && id !in l.roots then 1 else 0
    decreases |calls|
  {
    if calls != [] {
      var next := Exec(l, calls[0]);
      CallKeepsHistory(l, calls[0]);
      HistoryIsAppendOnly(next, calls[1..]);
      BatchIsWrittenOnce(next, calls[1..], id);
    }
  }

  // ------------------------------------------------------------ who may do what

  lemma {:induction false} ExecOneMore(l: Ledger, calls: seq<Call>, c: Call)
    ensures ExecAll(l, calls + [c]) == Exec(ExecAll(l, calls), c)
    decreases |calls|
  {
    hide Exec;
    if calls == [] {
      assert [c][1..] == [];
    } else {
      assert (calls + [c])[1..] == calls[1..] + [c];
      ExecOneMore(Exec(l, calls[0]), calls[1..], c);
    }
  }

  lemma CallKeepsBatch(l: Ledger, c: Call, id: nat)
    requires WellFormed(l) && id in l.roots && id in l.timestamps
    ensures var l' := Exec(l, c);
            && id in l'.roots && l'.roots[id] == l.roots[id]
            && id in l'.timestamps && l'.timestamps[id] == l.timestamps[id]
  {
    CallKeepsHistory(l, c);
  }

  lemma CallAddsBatch(l: Ledger, c: Call, id: nat)
    requires id !in l.roots && id in Exec(l, c).roots
    ensures c.AnchorBatch? && c.sender in l.authorized && c.batchId == id == l.last + 1
    ensures c.root == Exec(l, c).roots[id] != ZERO_DIGEST
    ensures id in Exec(l, c).timestamps && c.now == Exec(l, c).timestamps[id]
  {
  }

  /**
    Every batch that a history adds was written by a call of the history, from a sender that was
    authorized at that moment, under the next id, with the root and the time it ends up with.
   */
  lemma {:induction false} OnlyAuthorizedSendersAnchor(l: Ledger, calls: seq<Call>, id: nat)
    requires WellFormed(l) && id in ExecAll(l, calls).roots && id !in l.roots
    ensures exists i | 0 <= i < |calls| ::
              var before, after := ExecAll(l, calls[..i]), ExecAll(l, calls);
              && calls[i].AnchorBatch? && calls[i].sender in before.authorized
              && calls[i].batchId == id == before.last + 1
              && calls[i].root == after.roots[id] != ZERO_DIGEST
              && id in after.timestamps && calls[i].now == after.timestamps[id]
    decreases |calls|
  {
    hide Exec, Extends;
    var n := |calls| - 1;
    var earlier, c := calls[..n], calls[n];
    var before := ExecAll(l, earlier);
    assert calls == earlier + [c];
    ExecOneMore(l, earlier, c);
    HistoryIsAppendOnly(l, earlier);
    if id in before.roots {
      CallKeepsBatch(before, c, id);
      OnlyAuthorizedSendersAnchor(l, earlier, id);
      var i :| 0 <= i < n && earlier[i].AnchorBatch? && earlier[i].sender in ExecAll(l, earlier[..i]).authorized
        && earlier[i].batchId == id == ExecAll(l, earlier[..i]).last + 1
        && earlier[i].root == before.roots[id] != ZERO_DIGEST
        && id in before.timestamps && earlier[i].now == before.timestamps[id];
      assert earlier[..i] == calls[..i] && earlier[i] == calls[i];
    } else {
      CallAddsBatch(before, c, id);
      assert calls[n] == c && calls[..n] == earlier;
    }
  }

  /** Only a call of whoever is the owner at that moment authorizes a sender, or takes the right away. */
  lemma {:induction false} OnlyTheOwnerAuthorizes(l: Ledger, calls: seq<Call>, who: Address)
    ensures who in ExecAll(l, calls).authorized && who !in l.authorized ==>
              who != 0
              && exists i | 0 <= i < |calls| :: calls[i] == AddAnchor(ExecAll(l, calls[..i]).owner, who)
    ensures who in l.authorized && who !in ExecAll(l, calls).authorized ==>
              exists i | 0 <= i < |calls| :: calls[i] == RemoveAnchor(ExecAll(l, calls[..i]).owner, who)
    decreases |calls|
  {
    if calls != [] {
      var n := |calls| - 1;
      var earlier, c := calls[..n], calls[n];
      assert calls == earlier + [c];
      ExecOneMore(l, earlier, c);
      OnlyTheOwnerAuthorizes(l, earlier, who);
      assert calls[n] == c;
      assert forall i | 0 <= i < n :: earlier[i] == calls[i] && earlier[..i] == calls[..i];
    }
  }

  class Contract {
    var owner: Address
    var isAuthorizedAnchor: set<Address>
    var batchRoots: map<nat, Digest>
    var batchTimestamps: map<nat, nat>
    var lastBatchId: nat

    function Storage(): Ledger
      reads this
    {
      Ledger(owner, isAuthorizedAnchor, batchRoots, batchTimestamps, lastBatchId)
    }

    constructor (owner_: Address, authorizedAnchor_: Address)
      requires authorizedAnchor_ != ZERO_ADDRESS
      ensures Storage() == Deployed(owner_, authorizedAnchor_)
      ensures owner == owner_ && isAuthorizedAnchor == {authorizedAnchor_}
      ensures batchRoots == map[] && batchTimestamps == map[] && lastBatchId == 0
      ensures WellFormed(Storage())
    {
      owner, isAuthorizedAnchor := owner_, {authorizedAnchor_};
      batchRoots, batchTimestamps, lastBatchId := map[], map[], 0;
    }

    method Anchor(sender: Address, batchId: nat, merkleRoot: Digest, blockTime: nat) returns (revert: Option<Revert>)
      modifies this
      ensures revert == Reverts(old(Storage()), AnchorBatch(sender, batchId, merkleRoot, blockTime))
      ensures Storage() == Exec(old(Storage()), AnchorBatch(sender, batchId, merkleRoot, blockTime))
      ensures sender !in old(isAuthorizedAnchor) ==> revert == Some(NotAuthorizedAnchor)
      ensures sender in old(isAuthorizedAnchor) && merkleRoot == ZERO_DIGEST ==> revert == Some(ZeroMerkleRoot)
      ensures sender in old(isAuthorizedAnchor) && merkleRoot != ZERO_DIGEST && old(lastBatchId) < UINT256_MAX ==>
                batchId == old(lastBatchId) + 1 || revert == Some(
                  if batchId in old(batchRoots) && old(batchRoots)[batchId] != ZERO_DIGEST
                  then BatchAlreadyAnchored(batchId) else BatchIdNotStrictlyIncreasing(old(lastBatchId) + 1, batchId))
      ensures revert.None? <==>
                && sender in old(isAuthorizedAnchor) && merkleRoot != ZERO_DIGEST
                && batchId == old(lastBatchId) + 1 <= UINT256_MAX
      ensures revert.None? ==>
                && batchRoots == old(batchRoots)[batchId := merkleRoot]
                && batchTimestamps == old(batchTimestamps)[batchId := blockTime]
                && lastBatchId == batchId
                && owner == old(owner) && isAuthorizedAnchor == old(isAuthorizedAnchor)
      ensures revert.Some? ==> unchanged(this)
    {
      if sender !in isAuthorizedAnchor { return Some(NotAuthorizedAnchor); }
      if merkleRoot == ZERO_DIGEST { return Some(ZeroMerkleRoot); }
      if lastBatchId >= UINT256_MAX { return Some(ArithmeticOverflow); }
      if batchId != lastBatchId + 1 {
        if batchId in batchRoots && batchRoots[batchId] != ZERO_DIGEST {
          return Some(BatchAlreadyAnchored(batchId));
        }
        return Some(BatchIdNotStrictlyIncreasing(lastBatchId + 1, batchId));
      }
      batchRoots := batchRoots[batchId := merkleRoot];
      batchTimestamps := batchTimestamps[batchId := blockTime];
      lastBatchId := batchId;
      return None;
    }

    method AddAuthorizedAnchor(sender: Address, anchor: Address) returns (revert: Option<Revert>)
      modifies this
      ensures revert == Reverts(old(Storage()), AddAnchor(sender, anchor))
      ensures Storage() == Exec(old(Storage()), AddAnchor(sender, anchor))
      ensures sender != old(owner) ==> revert == Some(NotOwner)
      ensures revert.None? <==> sender == old(owner) && anchor != 0
      ensures revert.None? ==>
                isAuthorizedAnchor == old(isAuthorizedAnchor) + {anchor}
                && unchanged(`owner, `batchRoots, `batchTimestamps, `lastBatchId)
      ensures revert.Some? ==> unchanged(this)
    {
      if sender != owner { return Some(NotOwner); }
      if anchor == ZERO_ADDRESS { return Some(ZeroAddress); }
      isAuthorizedAnchor := isAuthorizedAnchor + {anchor};
      return None;
    }

    method RemoveAuthorizedAnchor(sender: Address, anchor: Address) returns (revert: Option<Revert>)
      modifies this
      ensures revert == Reverts(old(Storage()), RemoveAnchor(sender, anchor))
      ensures Storage() == Exec(old(Storage()), RemoveAnchor(sender, anchor))
      ensures revert == if sender != old(owner) then Some(NotOwner) else None
      ensures revert.None? ==>
                isAuthorizedAnchor == old(isAuthorizedAnchor) - {anchor}
                && unchanged(`owner, `batchRoots, `batchTimestamps, `lastBatchId)
      ensures revert.Some? ==> unchanged(this)
    {
      if sender != owner { return Some(NotOwner); }
      if anchor in isAuthorizedAnchor {
        isAuthorizedAnchor := isAuthorizedAnchor - {anchor};
      }
      return None;
    }
  }
}
