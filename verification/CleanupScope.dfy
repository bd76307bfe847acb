/** Which objects of others a cleanup takes away, and which it leaves alone. */
module CleanupScope {
  import opened Kube
  import opened ApiServer
  import opened UpdateFuncs
  import opened DataSourceOperand
  import opened Cleanup
  import opened CleanupRuns

  /** The object names the SSP object as its owner, in a reference or in its annotations. */
  predicate Mine(ssp: Identity, o: Object) {
    OwnerRef(ssp.owner.name, ssp.uid) in o.ownerRefs || OwnedBy(o, ssp.owner)
  }

  /** As the operands are written: known objects have no owner references, and crons come before no label search. */
  predicate AsWritten(op: Operand) {
    && (forall part <- op.parts :: part.Known? ==> part.o.ownerRefs == [])
    && (op.CronsFirst? ==> forall part <- op.parts :: !part.Labelled?)
  }

  /**
   An object that is its own expectation is compared with its own first owner reference, unless
   it lives in the SSP object's namespace.
   */
  lemma OwnedIff(ssp: Identity, expected: Object, found: Object)
    requires !Mine(ssp, found)
    ensures OwnershipOf(ssp, expected, found).Owned? <==>
              && expected.key.namespace != ssp.owner.namespace
              && expected.ownerRefs != []
              && expected.ownerRefs[0] in found.ownerRefs
  {
    assert OwnerName(ssp.owner)[|ssp.owner.namespace|] == '/';
    assert |SSP_TYPE| > 0 && |OwnerName(ssp.owner)| > 0;
  }

  /** The label search finds the object, and its own first reference makes it pass for owned. */
  ghost predicate Exposed(ssp: Identity, ops: seq<Operand>, o: Object) {
    && o.key.namespace != ssp.owner.namespace
    && o.ownerRefs != []
    && exists op <- ops :: Finds(ssp, op, o)
  }

  predicate Finds(ssp: Identity, op: Operand, o: Object) {
    exists part <- op.parts :: part.Labelled? && Selects(ssp, part, o)
  }

  // ----- spared

  /** A part that does not expose the object is not due to delete it. */
  lemma PartLeaves(s: Server, ssp: Identity, part: Part, key: Key)
    requires Consistent(s) && key in s.objects && !Mine(ssp, s.objects[key])
    requires part.Known? ==> part.o.ownerRefs == []
    requires part.Labelled? && Selects(ssp, part, s.objects[key]) ==>
               key.namespace == ssp.owner.namespace || s.objects[key].ownerRefs == []
    ensures Left(s, ssp, part, key)
  {
    forall o | ListedBy(s, ssp, part, o) && o.key == key ensures !VerdictOn(s, ssp, o).Requested? {
      if !part.Known? {
        var k :| k in s.objects && o == s.objects[k] && Selects(ssp, part, o);
        assert Newest(s, k);
      }
      OwnedIff(ssp, o, s.objects[key]);
    }
  }

  lemma OperandLeavesOthers(s: Server, ssp: Identity, op: Operand, key: Key)
    requires Consistent(s) && key in s.objects && !Mine(ssp, s.objects[key]) && AsWritten(op)
    requires Finds(ssp, op, s.objects[key]) ==> key.namespace == ssp.owner.namespace || s.objects[key].ownerRefs == []
    ensures LeftBy(s, ssp, op, key)
  {
    forall part <- op.parts ensures Left(s, ssp, part, key) { PartLeaves(s, ssp, part, key); }
    PartLeaves(s, ssp, ALL_CRONS, key);
  }

  /** An object that does not name this SSP object and is not exposed stays exactly as it is. */
  lemma SweepSparesOthers(s: Server, ssp: Identity, ops: seq<Operand>, order: Listing, key: Key)
    requires Consistent(s) && Enumerates(order) && key in s.objects && !Mine(ssp, s.objects[key])
    requires (forall op <- ops :: AsWritten(op)) && !Exposed(ssp, ops, s.objects[key])
    ensures Lookup(Sweep(s, ssp, ops, order).server.objects, key) == Lookup(s.objects, key)
  {
    assert Newest(s, key);
    forall op <- ops ensures LeftBy(s, ssp, op, key) { OperandLeavesOthers(s, ssp, op, key); }
    SweepLeaves(s, ssp, ops, order, key);
  }

  // ----- taken

  /** An exposed object passes for owned when it is its own expectation. */
  lemma ExposedIsRequested(s: Server, ssp: Identity, key: Key)
    requires Consistent(s) && key in s.objects && !Mine(ssp, s.objects[key])
    requires key.namespace != ssp.owner.namespace && s.objects[key].ownerRefs != []
    ensures VerdictOn(s, ssp, s.objects[key]).Requested?
  {
    assert Newest(s, key);
    OwnedIff(ssp, s.objects[key], s.objects[key]);
  }

  lemma OperandTakes(s: Server, ssp: Identity, op: Operand, order: Listing, key: Key)
    requires Consistent(s) && Enumerates(order) && key in s.objects && !Mine(ssp, s.objects[key])
    requires key.namespace != ssp.owner.namespace && s.objects[key].ownerRefs != []
    requires AsWritten(op) && Peaceful(s, ssp, op) && Finds(ssp, op, s.objects[key])
    ensures Doomed(CleanupOperand(s, ssp, op, order).server, key)
  {
    var part :| part in op.parts && part.Labelled? && Selects(ssp, part, s.objects[key]);
    var list := Gathered(s, ssp, op.parts, order);
    assert Newest(s, key) && ListedBy(s, ssp, part, s.objects[key]);
    InGathered(s, ssp, op.parts, order, s.objects[key]);
    GatheredIsCalm(s, ssp, op.parts, order);
    ExposedIsRequested(s, ssp, key);
    DueIsDoomed(s, ssp, list, s.objects[key]);
  }

  lemma DoomedStays(s: Server, s': Server, key: Key)
    requires Shrinks(s, s') && Doomed(s, key)
    ensures Doomed(s', key)
  {
  }

  /** Still there when its operand's turn comes, or gone already: in the end it is gone or going. */
  lemma {:induction false} SweepTakesExposed(s: Server, ssp: Identity, ops: seq<Operand>, order: Listing, key: Key)
    requires Consistent(s) && Enumerates(order) && key in s.objects && !Mine(ssp, s.objects[key])
    requires forall op <- ops :: AsWritten(op) && Peaceful(s, ssp, op)
    requires Exposed(ssp, ops, s.objects[key])
    ensures Doomed(Sweep(s, ssp, ops, order).server, key)
  {
    var n := |ops| - 1;
    var before := Sweep(s, ssp, ops[..n], order).server;
    assert forall op <- ops[..n] :: op in ops;
    SweepProgress(s, ssp, ops[..n], order);
    SweepShrinks(s, ssp, ops[..n], order);
    OperandShrinks(before, ssp, ops[n], order);
    if Exposed(ssp, ops[..n], s.objects[key]) {
      SweepTakesExposed(s, ssp, ops[..n], order, key);
      DoomedStays(before, CleanupOperand(before, ssp, ops[n], order).server, key);
    } else {
      assert ops[n] in ops;
      LastFinds(ssp, ops, s.objects[key]);
      SweepSparesOthers(s, ssp, ops[..n], order, key);
      ShrinkingStaysPeaceful(s, before, ssp, ops[n]);
      OperandTakes(before, ssp, ops[n], order, key);
    }
  }

  lemma LastFinds(ssp: Identity, ops: seq<Operand>, o: Object)
    requires ops != [] && Exposed(ssp, ops, o) && !Exposed(ssp, ops[..|ops| - 1], o)
    ensures Finds(ssp, ops[|ops| - 1], o)
  {
    var op :| op in ops && Finds(ssp, op, o);
    assert op !in ops[..|ops| - 1];
  }

  /**
   A sweep without panics leaves a live object that does not name this SSP object as it is
   exactly if no label search finds it, or it has no owner references, or it lives in the
   SSP object's namespace.
   */
  lemma SparedIff(s: Server, ssp: Identity, ops: seq<Operand>, order: Listing, key: Key)
    requires Consistent(s) && Enumerates(order) && key in s.objects && !Mine(ssp, s.objects[key])
    requires !s.objects[key].terminating && forall op <- ops :: AsWritten(op) && Peaceful(s, ssp, op)
    ensures Lookup(Sweep(s, ssp, ops, order).server.objects, key) == Lookup(s.objects, key) <==>
              || (forall op <- ops :: !Finds(ssp, op, s.objects[key]))
              || s.objects[key].ownerRefs == []
              || key.namespace == ssp.owner.namespace
  {
    assert Newest(s, key);
    if Exposed(ssp, ops, s.objects[key]) { SweepTakesExposed(s, ssp, ops, order, key); }
    else { SweepSparesOthers(s, ssp, ops, order, key); }
  }

  /** Cleanup of the common templates lists those marked as deprecated in its namespace, and all that are owned. */
  lemma ListedTemplatesIff(s: Server, ssp: Identity, namespace: string, o: Object)
    ensures (exists part <- TemplatesOperand(namespace).parts :: ListedBy(s, ssp, part, o)) <==>
              && o in s.objects.Values
              && o.key.kind == TEMPLATE
              && (|| OwnedBy(o, ssp.owner)
                  || (&& o.key.namespace == namespace
                      && Lookup(o.labels, "template.kubevirt.io/deprecated") == Some("true")))
  {
    var parts := TemplatesOperand(namespace).parts;
    assert parts[0] in parts && parts[1] in parts;
    assert forall part <- parts :: part == parts[0] || part == parts[1];
    assert o in s.objects.Values <==> exists key :: key in s.objects && o == s.objects[key];
  }

  /** For example every deprecated template that somebody else owns by reference. */
  lemma ForeignDeprecatedTemplateIsDeleted(s: Server, ssp: Identity, order: Listing, key: Key)
    requires Consistent(s) && Enumerates(order) && key in s.objects && !Mine(ssp, s.objects[key])
    requires key.kind == TEMPLATE && key.namespace != ssp.owner.namespace
    requires s.objects[key].ownerRefs != [] && Lookup(s.objects[key].labels, DEPRECATED) == Some("true")
    ensures Doomed(Sweep(s, ssp, [TemplatesOperand(key.namespace)], order).server, key)
  {
    var op := TemplatesOperand(key.namespace);
    assert Newest(s, key);
    assert op.parts[0].Labelled? && Selects(ssp, op.parts[0], s.objects[key]);
    assert Finds(ssp, op, s.objects[key]);
    assert [op][0] in [op];
    SweepTakesExposed(s, ssp, [op], order, key);
  }
}
