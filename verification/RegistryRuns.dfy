/** What the registry of input contexts holds after any sequence of registrations and erasures. */
module RegistryRuns {
  import opened Protocol
  import opened SessionMachine
  import opened Adapter

  datatype Deed = Registers(ic: InputContext) | Erases(context: ContextId)

  const EMPTY := Registry(map[], map[], map[], 1)

  function After(r: Registry, deed: Deed): Registry {
    match deed
    case Registers(ic) => Registered(r, ic)
    case Erases(c) => Erased(r, c)
  }

  /** The registry after the first k deeds. */
  function At(deeds: seq<Deed>, k: nat): Registry
    requires k <= |deeds|
  {
    if k == 0 then EMPTY else After(At(deeds, k - 1), deeds[k - 1])
  }

  /** Deed j registers a pointer that is not registered at the time. */
  predicate IsNew(deeds: seq<Deed>, j: nat)
    requires j < |deeds|
  {
    deeds[j].Registers? && deeds[j].ic.pointer !in At(deeds, j).idOf
  }

  /** One more than the number of new registrations so far: ids are handed out as 1, 2, 3, ... */
  function NextId(deeds: seq<Deed>, k: nat): nat
    requires k <= |deeds|
  {
    if k == 0 then 1 else NextId(deeds, k - 1) + if IsNew(deeds, k - 1) then 1 else 0
  }

  lemma {:induction false} StaysCoherent(deeds: seq<Deed>, k: nat)
    requires k <= |deeds| && |deeds| + 1 < U64_LIMIT
    ensures Coherent(At(deeds, k))
    ensures At(deeds, k).next == NextId(deeds, k) <= k + 1
  {
    if k > 0 {
      StaysCoherent(deeds, k - 1);
      var r := At(deeds, k - 1);
      match deeds[k - 1] {
        case Registers(ic) => RegisteringKeepsCoherence(r, ic);
        case Erases(c) => ErasingKeepsCoherence(r, c);
      }
      hide Coherent;
    }
  }

  /** No id is ever handed out twice. */
  lemma {:induction false} IdsGrow(deeds: seq<Deed>, i: nat, j: nat)
    requires i < j <= |deeds| && IsNew(deeds, i)
    ensures NextId(deeds, i) < NextId(deeds, j)
    decreases j
  {
    if i < j - 1 {
      IdsGrow(deeds, i, j - 1);
    }
  }

  /** The id, the pointer and the reference belong together, in all three maps. */
  predicate StandsFor(r: Registry, c: ContextId, ic: InputContext) {
    && c in r.refs && r.refs[c] == ic.ref
    && c in r.pointerOf && r.pointerOf[c] == ic.pointer
    && ic.pointer in r.idOf && r.idOf[ic.pointer] == c
  }

  /** Deed t registered ic under the fresh id c, and c has not been erased since. */
  ghost predicate Holds(deeds: seq<Deed>, t: nat, k: nat, ic: InputContext, c: ContextId) {
    && t < k <= |deeds|
    && deeds[t] == Registers(ic) && IsNew(deeds, t) && NextId(deeds, t) == c
    && forall j :: t < j < k ==> deeds[j] != Erases(c)
  }

  /** What one deed does to one id: everything under another id stays. */
  lemma DeedStep(r: Registry, deed: Deed, c: ContextId)
    requires Coherent(r) && (deed.Registers? ==> r.next + 1 < U64_LIMIT)
    ensures var after := After(r, deed);
            if deed.Registers? && deed.ic.pointer !in r.idOf && c == r.next then
              c in after.refs && after.refs[c] == deed.ic.ref && after.pointerOf[c] == deed.ic.pointer
            else if deed == Erases(c) then
              c !in after.refs
            else
              && (c in after.refs <==> c in r.refs)
              && (c in r.refs ==> after.refs[c] == r.refs[c] && after.pointerOf[c] == r.pointerOf[c])
  {
  }

  lemma {:induction false} HeldIsRegistered(deeds: seq<Deed>, t: nat, k: nat, ic: InputContext, c: ContextId)
    requires |deeds| + 1 < U64_LIMIT && Holds(deeds, t, k, ic, c)
    ensures StandsFor(At(deeds, k), c, ic)
  {
    StaysCoherent(deeds, k - 1);
    StaysCoherent(deeds, k);
    DeedStep(At(deeds, k - 1), deeds[k - 1], c);
    if t < k - 1 {
      IdsGrow(deeds, t, k - 1);
      HeldIsRegistered(deeds, t, k - 1, ic, c);
    }
    hide After;
  }

  lemma {:induction false} RegisteredIsHeld(deeds: seq<Deed>, k: nat, c: ContextId) returns (t: nat, ic: InputContext)
    requires k <= |deeds| && |deeds| + 1 < U64_LIMIT && c in At(deeds, k).refs
    ensures Holds(deeds, t, k, ic, c)
  {
    StaysCoherent(deeds, k - 1);
    DeedStep(At(deeds, k - 1), deeds[k - 1], c);
    hide After;
    if IsNew(deeds, k - 1) && c == At(deeds, k - 1).next {
      t, ic := k - 1, deeds[k - 1].ic;
    } else {
      t, ic := RegisteredIsHeld(deeds, k - 1, c);
    }
  }

  /**
   An id is registered exactly while the input context it was handed out for has not been erased,
   and it stands for that pointer and that object, whatever the pointer was used for before.
   */
  lemma RegistryExactly(deeds: seq<Deed>, k: nat, c: ContextId, ic: InputContext)
    requires k <= |deeds| && |deeds| + 1 < U64_LIMIT
    ensures StandsFor(At(deeds, k), c, ic) <==> exists t: nat :: Holds(deeds, t, k, ic, c)
    ensures c in At(deeds, k).refs <==> exists t: nat, holder :: Holds(deeds, t, k, holder, c)
  {
    if c in At(deeds, k).refs {
      var t, holder := RegisteredIsHeld(deeds, k, c);
      HeldIsRegistered(deeds, t, k, holder, c);
      assert StandsFor(At(deeds, k), c, ic) ==> ic == holder;
    }
    forall t: nat, holder | Holds(deeds, t, k, holder, c) ensures StandsFor(At(deeds, k), c, holder) {
      HeldIsRegistered(deeds, t, k, holder, c);
    }
  }
}
