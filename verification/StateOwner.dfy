/**
 The bounded predecessor-chain proof of a state owner (installed_state_owner in
 client/apps/desktop/recover_backend.py) over an arbitrary, possibly cyclic, set of
 delivery journals. Request hashes and file identities are opaque values.
 */
module StateOwner {
  import opened Basics

  /** INSTALLED_STATE_CHAIN_MAX_LINKS. */
  const MAX_LINKS := 32

  datatype Owner = Owner(id: string, requestHash: string, backendBuild: string)

  datatype Proof = Proof(priorId: string, priorRequestHash: string, executable: string, stateOwner: Option<Owner>,
                         files: map<string, string>)

  datatype Record = Record(requestHash: string, backendHash: string, stateDir: string, installed: string,
                           installedDelivery: Option<Proof>, handles: set<string>)

  /** What the caller runs against: every canonical journal, and its own scope. */
  datatype Scope = Scope(journals: map<string, Record>, stateDir: string, installed: string, handles: set<string>)

  function Direct(proof: Proof): Owner {
    Owner(proof.priorId, proof.priorRequestHash, proof.executable)
  }

  function OwnerOf(proof: Proof): Owner {
    if proof.stateOwner.Some? then proof.stateOwner.value else Direct(proof)
  }

  /** The named predecessor exists unchanged. */
  predicate PriorOk(scope: Scope, proof: Proof) {
    proof.priorId in scope.journals && scope.journals[proof.priorId].requestHash == proof.priorRequestHash
  }

  function Inherited(scope: Scope, proof: Proof): Option<Proof> {
    if proof.priorId in scope.journals then scope.journals[proof.priorId].installedDelivery else None
  }

  predicate FilesOk(scope: Scope, proof: Proof) {
    Inherited(scope, proof).Some? ==> Inherited(scope, proof).value.files == proof.files
  }

  /** The owner's own journal agrees with the claim. */
  predicate Canonical(scope: Scope, owner: Owner) {
    && owner.id in scope.journals
    && var record := scope.journals[owner.id];
       && record.requestHash == owner.requestHash && record.backendHash == owner.backendBuild
       && record.stateDir == scope.stateDir && record.installed == scope.installed && record.handles == scope.handles
  }

  function InstalledStateOwner(scope: Scope, proof: Proof, trail: set<string>): Option<Owner>
    decreases MAX_LINKS - |trail|
  {
    if proof.priorId in trail || |trail| >= MAX_LINKS then None
    else if !PriorOk(scope, proof) || !FilesOk(scope, proof) then None
    else
      var owner := OwnerOf(proof);
      var inherited := Inherited(scope, proof);
      if owner != Direct(proof)
         && (inherited.None? || InstalledStateOwner(scope, inherited.value, trail + {proof.priorId}) != Some(owner))
      then None
      else if !Canonical(scope, owner) then None
      else Some(owner)
  }

  // ------------------------------------------------------------------ the chain

  /** Proofs linked by their exact predecessors, with one set of file identities and no repeated journal. */
  predicate Linked(scope: Scope, chain: seq<Proof>, trail: set<string>) {
    && (forall i :: 0 <= i < |chain| ==>
          PriorOk(scope, chain[i]) && FilesOk(scope, chain[i]) && chain[i].priorId !in trail)
    && (forall i :: 0 <= i < |chain| - 1 ==>
          Inherited(scope, chain[i]) == Some(chain[i + 1]) && chain[i].files == chain[i + 1].files)
    && (forall i, j :: 0 <= i < j < |chain| ==> chain[i].priorId != chain[j].priorId)
  }

  /** Every proof claims the owner, and only the last one names it directly. */
  predicate Names(chain: seq<Proof>, owner: Owner) {
    && chain != []
    && (forall i :: 0 <= i < |chain| ==> OwnerOf(chain[i]) == owner)
    && (forall i :: 0 <= i < |chain| ==> (Direct(chain[i]) == owner <==> i == |chain| - 1))
  }

  predicate OwnerChain(scope: Scope, chain: seq<Proof>, owner: Owner, trail: set<string>) {
    && Linked(scope, chain, trail) && Names(chain, owner) && Canonical(scope, owner)
    && |chain| + |trail| <= MAX_LINKS
  }

  lemma {:induction false} ChainGrows(scope: Scope, proof: Proof, rest: seq<Proof>, owner: Owner, trail: set<string>)
    requires rest != [] && OwnerChain(scope, rest, owner, trail + {proof.priorId})
    requires PriorOk(scope, proof) && FilesOk(scope, proof) && Inherited(scope, proof) == Some(rest[0])
    requires proof.priorId !in trail && OwnerOf(proof) == owner && owner != Direct(proof)
    ensures OwnerChain(scope, [proof] + rest, owner, trail)
  {
    var chain := [proof] + rest;
    forall i | 0 <= i < |chain|
      ensures PriorOk(scope, chain[i]) && FilesOk(scope, chain[i]) && chain[i].priorId !in trail
    {
      if i > 0 {
        assert chain[i] == rest[i - 1];
      }
    }
    assert forall i :: 0 <= i < |rest| ==> rest[i].priorId !in trail + {proof.priorId};
  }

  /** Any owner it returns is the direct owner of the last proof on the exact predecessor chain. */
  lemma {:induction false} OwnerHasChain(scope: Scope, proof: Proof, trail: set<string>) returns (chain: seq<Proof>)
    requires InstalledStateOwner(scope, proof, trail).Some?
    ensures chain != [] && chain[0] == proof
    ensures OwnerChain(scope, chain, InstalledStateOwner(scope, proof, trail).value, trail)
    decreases MAX_LINKS - |trail|
  {
    var owner := OwnerOf(proof);
    if owner == Direct(proof) {
      chain := [proof];
    } else {
      var rest := OwnerHasChain(scope, Inherited(scope, proof).value, trail + {proof.priorId});
      chain := [proof] + rest;
      ChainGrows(scope, proof, rest, owner, trail);
    }
  }

  lemma {:induction false} ChainTail(scope: Scope, chain: seq<Proof>, owner: Owner, trail: set<string>)
    requires |chain| > 1 && OwnerChain(scope, chain, owner, trail)
    ensures OwnerChain(scope, chain[1..], owner, trail + {chain[0].priorId})
  {
    var rest := chain[1..];
    forall i | 0 <= i < |rest|
      ensures PriorOk(scope, rest[i]) && FilesOk(scope, rest[i]) && rest[i].priorId !in trail + {chain[0].priorId}
    {
      assert rest[i] == chain[i + 1];
    }
  }

  /** Conversely, every such chain within the bound is accepted. */
  lemma {:induction false} ChainGivesOwner(scope: Scope, chain: seq<Proof>, owner: Owner, trail: set<string>)
    requires OwnerChain(scope, chain, owner, trail)
    ensures InstalledStateOwner(scope, chain[0], trail) == Some(owner)
    decreases |chain|
  {
    if |chain| > 1 {
      ChainTail(scope, chain, owner, trail);
      ChainGivesOwner(scope, chain[1..], owner, trail + {chain[0].priorId});
      assert Direct(chain[0]) != owner;
    }
  }

  /**
   For every journal graph, the owner is found exactly when a chain of at most
   MAX_LINKS proofs leads to it: distinct predecessors, identical file identities, and
   the last proof's own predecessor as the owner.
   */
  lemma {:induction false} OwnerIffChain(scope: Scope, proof: Proof, owner: Owner)
    ensures InstalledStateOwner(scope, proof, {}) == Some(owner) <==>
            exists chain: seq<Proof> :: chain != [] && chain[0] == proof && OwnerChain(scope, chain, owner, {})
  {
    if InstalledStateOwner(scope, proof, {}) == Some(owner) {
      var chain := OwnerHasChain(scope, proof, {});
    }
    if exists chain: seq<Proof> :: chain != [] && chain[0] == proof && OwnerChain(scope, chain, owner, {}) {
      var chain: seq<Proof> :| chain != [] && chain[0] == proof && OwnerChain(scope, chain, owner, {});
      ChainGivesOwner(scope, chain, owner, {});
    }
  }
}
